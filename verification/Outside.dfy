/**
 * What a server or scanner does to the outside, in the order it does it: neighbor scans, datagrams
 * sent, response calls begun and ended, with the outcomes the outside chose.
 */
module Outside {
  import opened Wrappers
  import opened Net
  import opened Wire
  import opened Packets
  import opened Neighbors

  datatype Effect =
    | Neighbors(found: Result<seq<IpNeighbor>, ScanError>)
    | Multicast(address: SocketAddrV6, data: Bytes, outcome: Result<(), IoError>)
    | Unicast(address: SocketAddrV6, data: Bytes, outcome: Result<(), IoError>)
    | Respond(response: Response)
    | Responded(response: Response, outcome: Result<(), IoError>)

  predicate Succeeded(e: Effect) {
    match e
    case Neighbors(found) => found.Ok?
    case Multicast(_, _, outcome) => outcome.Ok?
    case Unicast(_, _, outcome) => outcome.Ok?
    case Respond(_) => true
    case Responded(_, outcome) => outcome.Ok?
  }

  predicate AllSucceeded(trace: seq<Effect>) {
    forall e :: e in trace ==> Succeeded(e)
  }

  predicate IsSend(e: Effect) { e.Multicast? || e.Unicast? }

  /** Where sends were attempted, in order. */
  function Attempted(trace: seq<Effect>): seq<SocketAddrV6> {
    if trace == [] then []
    else
      var last := trace[|trace| - 1];
      Attempted(trace[..|trace| - 1]) + if IsSend(last) then [last.address] else []
  }

  /** Where datagrams were sent, in order: the attempts that succeeded. */
  function Sent(trace: seq<Effect>): seq<SocketAddrV6> {
    if trace == [] then []
    else
      var last := trace[|trace| - 1];
      Sent(trace[..|trace| - 1]) + if IsSend(last) && Succeeded(last) then [last.address] else []
  }

  /** The response calls begun. */
  function Responses(trace: seq<Effect>): multiset<Response> {
    if trace == [] then multiset{}
    else
      var last := trace[|trace| - 1];
      Responses(trace[..|trace| - 1]) + if last.Respond? then multiset{last.response} else multiset{}
  }

  /** The response calls that have ended, well or not. */
  function Ended(trace: seq<Effect>): multiset<Response> {
    if trace == [] then multiset{}
    else
      var last := trace[|trace| - 1];
      Ended(trace[..|trace| - 1]) + if last.Responded? then multiset{last.response} else multiset{}
  }

  lemma OneMoreCall(trace: seq<Effect>, e: Effect)
    ensures Responses(trace + [e]) == Responses(trace) + if e.Respond? then multiset{e.response} else multiset{}
    ensures Ended(trace + [e]) == Ended(trace) + if e.Responded? then multiset{e.response} else multiset{}
  {
    assert (trace + [e])[..|trace + [e]| - 1] == trace;
  }

  /** Everything sent is the given packet. */
  predicate SendsOnly(trace: seq<Effect>, data: Bytes) {
    forall e :: e in trace && IsSend(e) ==> e.data == data
  }

  /** What one more effect adds. */
  lemma OneMoreEffect(trace: seq<Effect>, e: Effect)
    ensures Sent(trace + [e]) == Sent(trace) + if IsSend(e) && Succeeded(e) then [e.address] else []
    ensures Attempted(trace + [e]) == Attempted(trace) + if IsSend(e) then [e.address] else []
    ensures AllSucceeded(trace + [e]) <==> AllSucceeded(trace) && Succeeded(e)
    ensures forall data :: SendsOnly(trace + [e], data) <==> SendsOnly(trace, data) && (IsSend(e) ==> e.data == data)
  {
    assert (trace + [e])[..|trace + [e]| - 1] == trace;
    assert e in trace + [e] && forall f :: f in trace ==> f in trace + [e];
  }

  lemma {:induction false} AllSent(trace: seq<Effect>)
    requires AllSucceeded(trace)
    ensures Sent(trace) == Attempted(trace)
  {
    if trace != [] {
      AllSent(trace[..|trace| - 1]);
    }
  }

  /** When only the last attempt may have failed, just that one is missing among those sent. */
  lemma AllButLastSent(trace: seq<Effect>)
    requires trace != [] && AllSucceeded(trace[..|trace| - 1])
    ensures Sent(trace) <= Attempted(trace)
    ensures |Sent(trace)| == |Attempted(trace)| <==> (IsSend(trace[|trace| - 1]) ==> Succeeded(trace[|trace| - 1]))
  {
    AllSent(trace[..|trace| - 1]);
  }

  /** The environment a run is given. */
  class Environment {
    var trace: seq<Effect>

    constructor ()
      ensures trace == []
    {
      trace := [];
    }

    method ScanNeighbors() returns (found: Result<seq<IpNeighbor>, ScanError>)
      modifies this
      ensures trace == old(trace) + [Neighbors(found)]
    {
      found := *;
      trace := trace + [Neighbors(found)];
    }

    method SendMulticast(address: SocketAddrV6, data: Bytes) returns (outcome: Result<(), IoError>)
      modifies this
      ensures trace == old(trace) + [Multicast(address, data, outcome)]
    {
      outcome := *;
      trace := trace + [Multicast(address, data, outcome)];
    }

    method SendUnicast(address: SocketAddrV6, data: Bytes) returns (outcome: Result<(), IoError>)
      modifies this
      ensures trace == old(trace) + [Unicast(address, data, outcome)]
    {
      outcome := *;
      trace := trace + [Unicast(address, data, outcome)];
    }

    method BeginResponse(response: Response)
      modifies this
      ensures trace == old(trace) + [Respond(response)]
    {
      trace := trace + [Respond(response)];
    }

    method EndResponse(response: Response) returns (outcome: Result<(), IoError>)
      modifies this
      ensures trace == old(trace) + [Responded(response, outcome)]
    {
      outcome := *;
      trace := trace + [Responded(response, outcome)];
    }
  }
}
