/**
 * The scanner's send plan under failure, and the stream it returns: four sources merged with
 * `join` and `select`.
 */
module Scanner {
  import opened Wrappers
  import opened Net
  import opened Wire
  import opened Packets
  import opened Neighbors
  import opened Outside
  import opened Streams
  import AddressText
  import Discovery

  type ScanFailure = Discovery.ScanFailure

  function MulticastAddress(discoveryPort: U16): SocketAddrV6 {
    SocketAddrV6(DISCOVERY_IP, discoveryPort, 0, 0)
  }

  /** Everywhere a packet goes when nothing fails: the group, then each neighbor in scan order. */
  function Plan(discoveryPort: U16, neighbors: seq<IpNeighbor>): seq<SocketAddrV6> {
    [MulticastAddress(discoveryPort)] + Discovery.SocketAddresses(neighbors, discoveryPort)
  }

  /** The neighbors found by the scan that follows the multicast. */
  function FoundAfterMulticast(trace: seq<Effect>): seq<IpNeighbor> {
    if |trace| > 1 && trace[1].Neighbors? && trace[1].found.Ok? then trace[1].found.value else []
  }

  /** What a failed effect is reported as. */
  function Cause(e: Effect): Option<ScanFailure> {
    match e
    case Neighbors(Err(e)) => Some(Discovery.ScanIpNeighbor(e))
    case Multicast(_, _, Err(e)) => Some(Discovery.SendRequest(e))
    case Unicast(_, _, Err(e)) => Some(Discovery.SendRequest(e))
    case _ => None
  }

  /** The order of a scan's effects: no step before the one it needs, and no step after a failure. */
  predicate InRequestOrder(trace: seq<Effect>, discoveryPort: U16) {
    && trace != [] && trace[0].Multicast? && trace[0].address == MulticastAddress(discoveryPort)
    && (forall k :: 1 <= k < |trace| ==> if k == 1 then trace[k].Neighbors? else trace[k].Unicast?)
    && (forall k :: 0 <= k < |trace| - 1 ==> Succeeded(trace[k]))
  }

  /**
   * What `send_requests` does, whatever fails: the multicast is sent first, and the neighbors are
   * looked up only when it went out; the sends tried are a prefix of the plan; the first failure
   * is the last thing that happens and is what is reported; and the whole plan went out if and
   * only if none is reported.
   */
  predicate Requests(trace: seq<Effect>, r: Result<(), ScanFailure>, data: Bytes, discoveryPort: U16) {
    && InRequestOrder(trace, discoveryPort) && SendsOnly(trace, data)
    && Attempted(trace) <= Plan(discoveryPort, FoundAfterMulticast(trace))
    && (r.Ok? <==> |trace| > 1 && AllSucceeded(trace)
                   && Attempted(trace) == Plan(discoveryPort, FoundAfterMulticast(trace)))
    && (r.Err? <==> !Succeeded(trace[|trace| - 1]))
    && (r.Err? ==> Cause(trace[|trace| - 1]) == Some(r.error))
  }

  /** Nothing has failed so far, and this much of the plan is done. */
  predicate Underway(trace: seq<Effect>, data: Bytes, discoveryPort: U16, done: nat) {
    && InRequestOrder(trace, discoveryPort) && SendsOnly(trace, data) && AllSucceeded(trace)
    && Succeeded(trace[|trace| - 1])
    && var plan := Plan(discoveryPort, FoundAfterMulticast(trace));
       done <= |plan| && Attempted(trace) == plan[..done]
       && (if |trace| == 1 then done == 1 else |trace| == done + 1)
  }

  lemma Started(multicast: Effect, discoveryPort: U16)
    requires multicast.Multicast? && multicast.address == MulticastAddress(discoveryPort)
    ensures if multicast.outcome.Ok? then Underway([multicast], multicast.data, discoveryPort, 1)
            else
              Requests([multicast], Err(Discovery.SendRequest(multicast.outcome.error)), multicast.data, discoveryPort)
  {
    OneMoreEffect([], multicast);
    assert [] + [multicast] == [multicast];
  }

  lemma LookedUp(trace: seq<Effect>, data: Bytes, discoveryPort: U16, found: Result<seq<IpNeighbor>, ScanError>)
    requires Underway(trace, data, discoveryPort, 1) && |trace| == 1
    ensures if found.Ok? then Underway(trace + [Neighbors(found)], data, discoveryPort, 1)
            else Requests(trace + [Neighbors(found)], Err(Discovery.ScanIpNeighbor(found.error)), data, discoveryPort)
  {
    OneMoreEffect(trace, Neighbors(found));
  }

  lemma SentOneMore(trace: seq<Effect>, unicast: Effect, discoveryPort: U16, done: nat)
    requires unicast.Unicast? && Underway(trace, unicast.data, discoveryPort, done) && |trace| > 1
    requires var neighbors := FoundAfterMulticast(trace);
             done <= |neighbors| && unicast.address == neighbors[done - 1].GetSocketAddress(discoveryPort)
    ensures if unicast.outcome.Ok? then Underway(trace + [unicast], unicast.data, discoveryPort, done + 1)
            else
              Requests(trace + [unicast], Err(Discovery.SendRequest(unicast.outcome.error)), unicast.data,
                       discoveryPort)
  {
    hide IpNeighbor.GetSocketAddress;
    var neighbors := FoundAfterMulticast(trace);
    OneMoreEffect(trace, unicast);
    RequestOrderGrows(trace, unicast, discoveryPort);
    PlanNext(discoveryPort, neighbors, done - 1);
    hide Plan, AllSucceeded, SendsOnly, Attempted, InRequestOrder;
    assert FoundAfterMulticast(trace + [unicast]) == neighbors;
    hide FoundAfterMulticast;
  }

  lemma PlanNext(discoveryPort: U16, neighbors: seq<IpNeighbor>, i: nat)
    requires i < |neighbors|
    ensures var plan := Plan(discoveryPort, neighbors);
            && |plan| == |neighbors| + 1 && plan[..i + 1] <= plan
            && plan[..i + 2] == plan[..i + 1] + [neighbors[i].GetSocketAddress(discoveryPort)]
  {}

  lemma RequestOrderGrows(trace: seq<Effect>, e: Effect, discoveryPort: U16)
    requires InRequestOrder(trace, discoveryPort) && Succeeded(trace[|trace| - 1])
    requires if |trace| == 1 then e.Neighbors? else e.Unicast?
    ensures InRequestOrder(trace + [e], discoveryPort)
  {}

  /** `send_requests`. */
  method SendRequests(env: Environment, collectorPort: U16, discoveryPort: U16)
    returns (r: Result<(), ScanFailure>, ghost did: seq<Effect>)
    modifies env
    ensures env.trace == old(env.trace) + did
    ensures Requests(did, r, Discovery.RequestData(collectorPort), discoveryPort)
  {
    var data := Discovery.RequestData(collectorPort);
    hide Requests, Underway, Discovery.RequestData, IpNeighbor.GetSocketAddress;
    var outcome := env.SendMulticast(MulticastAddress(discoveryPort), data);
    did := [Multicast(MulticastAddress(discoveryPort), data, outcome)];
    Started(did[0], discoveryPort);
    if outcome.Err? {
      return Err(Discovery.SendRequest(outcome.error)), did;
    }
    var found := env.ScanNeighbors();
    LookedUp(did, data, discoveryPort, found);
    did := did + [Neighbors(found)];
    if found.Err? {
      return Err(Discovery.ScanIpNeighbor(found.error)), did;
    }
    var neighbors := found.value;
    for i := 0 to |neighbors|
      invariant env.trace == old(env.trace) + did
      invariant |did| > 1 && did[1] == Neighbors(Ok(neighbors))
      invariant Underway(did, data, discoveryPort, i + 1)
    {
      var address := neighbors[i].GetSocketAddress(discoveryPort);
      outcome := env.SendUnicast(address, data);
      SentOneMore(did, Unicast(address, data, outcome), discoveryPort, i + 1);
      did := did + [Unicast(address, data, outcome)];
      if outcome.Err? {
        return Err(Discovery.SendRequest(outcome.error)), did;
      }
    }
    Completed(did, data, discoveryPort);
    return Ok(()), did;
  }

  lemma Completed(trace: seq<Effect>, data: Bytes, discoveryPort: U16)
    requires |trace| > 1 && Underway(trace, data, discoveryPort, |FoundAfterMulticast(trace)| + 1)
    ensures Requests(trace, Ok(()), data, discoveryPort)
  {}

  /** In terms of what went out: a prefix of the plan, and all of it if and only if nothing failed. */
  lemma RequestsSent(trace: seq<Effect>, r: Result<(), ScanFailure>, data: Bytes, discoveryPort: U16)
    requires Requests(trace, r, data, discoveryPort)
    ensures Sent(trace) <= Plan(discoveryPort, FoundAfterMulticast(trace))
    ensures r.Ok? <==> |trace| > 1 && trace[1].found.Ok?
                       && Sent(trace) == Plan(discoveryPort, FoundAfterMulticast(trace))
  {
    hide Plan, IpNeighbor.GetSocketAddress;
    AllButLastSent(trace);
  }

  // ---------------------------------------------------------------- where requests may go

  /** The group of the crate, on the discovery port, with neither flow label nor scope. */
  predicate IsGroupAddress(address: SocketAddrV6, discoveryPort: U16) {
    && address.port == discoveryPort && address.flowinfo == 0 && address.scope == 0
    && 0xFF00 <= address.ip[0] && AddressText.ReadIp("FF05::F329:58AF]") == Some((address.ip, "]"))
  }

  lemma GroupAddress(discoveryPort: U16)
    ensures IsGroupAddress(MulticastAddress(discoveryPort), discoveryPort)
  {
    hide AddressText.ReadIp;
    AddressText.DiscoveryIpReads("FF05::F329:58AF]");
  }

  /** Every multicast request goes to the group. */
  lemma RequestsGoToGroup(trace: seq<Effect>, r: Result<(), ScanFailure>, data: Bytes, discoveryPort: U16)
    requires Requests(trace, r, data, discoveryPort)
    ensures forall e :: e in trace && e.Multicast? ==> IsGroupAddress(e.address, discoveryPort)
  {
    hide IsGroupAddress, MulticastAddress;
    GroupAddress(discoveryPort);
    forall e | e in trace && e.Multicast? ensures IsGroupAddress(e.address, discoveryPort) {
      var k :| 0 <= k < |trace| && trace[k] == e;
      assert k == 0;
    }
  }

  /** After either neighbor parse, each request is sent to the group or to a valid neighbor address. */
  lemma RequestsGoToNeighbors(trace: seq<Effect>, r: Result<(), ScanFailure>, data: Bytes, discoveryPort: U16,
                              found: seq<IpNeighbor>, links: Result<seq<Link>, ScanError>,
                              linuxRows: seq<Result<Neighbor, ScanError>>,
                              windowsRows: seq<Result<NetNeighbor, ScanError>>)
    requires Requests(trace, r, data, discoveryPort) && found == FoundAfterMulticast(trace)
    requires ParseLinux(links, linuxRows) == Ok(found) || ParseWindows(windowsRows) == Ok(found)
    ensures forall k :: 0 <= k < |Attempted(trace)| ==>
              if k == 0 then Attempted(trace)[k] == MulticastAddress(discoveryPort)
              else
                k <= |found|
                && IsNeighborAddress(Attempted(trace)[k], discoveryPort, found[k - 1].networkInterfaceIndex)
  {
    ParsedNeighborsAreValid(found, links, linuxRows, windowsRows, discoveryPort);
    hide IsNeighborAddress, IpNeighbor.GetSocketAddress, Attempted, ParseLinux, ParseWindows;
    forall k | 0 <= k < |Attempted(trace)|
      ensures Attempted(trace)[k] == Plan(discoveryPort, found)[k]
    {
    }
  }

  // ---------------------------------------------------------------- the merged stream

  type ScanItem = Result<Service, ScanFailure>

  /** `collect`: the response channel, joined with the future that runs the gRPC server. */
  function CollectStream(grpc: Stream<ScanItem>, responses: Stream<ScanItem>): Stream<ScanItem> {
    Join(grpc, responses)
  }

  /** `scan_internal`. */
  function ScanStream(discoveryPort: U16, sending: Stream<ScanItem>, grpc: Stream<ScanItem>,
                      responses: Stream<ScanItem>, announcements: Stream<ScanItem>): Stream<ScanItem>
  {
    if discoveryPort == 0 then Source([Item(Err(Discovery.NoDiscoveryPort))])
    else Join(sending, NewSelect(CollectStream(grpc, responses), announcements))
  }

  const SENDING: Path := [Right]
  const ANNOUNCEMENTS: Path := [Left, Right]
  const GRPC: Path := [Left, Left, Right]
  const RESPONSES: Path := [Left, Left, Left]

  function ErrorItem(outcome: Result<(), ScanFailure>): seq<ScanItem> {
    if outcome.Ok? then [] else [Err(outcome.error)]
  }

  /** At the start each path leads to its source. */
  lemma PathsLeadToSources(discoveryPort: U16, sending: Stream<ScanItem>, grpc: Stream<ScanItem>,
                           responses: Stream<ScanItem>, announcements: Stream<ScanItem>)
    requires discoveryPort != 0 && Valid(sending) && Valid(grpc) && Valid(responses) && Valid(announcements)
    ensures var scan := ScanStream(discoveryPort, sending, grpc, responses, announcements);
            && Valid(scan)
            && At(scan, SENDING) == At(sending, []) && At(scan, ANNOUNCEMENTS) == At(announcements, [])
            && At(scan, GRPC) == At(grpc, []) && At(scan, RESPONSES) == At(responses, [])
  {
    var collect := CollectStream(grpc, responses);
    var services := NewSelect(collect, announcements);
    JoinAt(grpc, responses, []);
    SelectAt(collect, announcements, []);
    SelectAt(collect, announcements, [Left]);
    SelectAt(collect, announcements, [Right]);
    JoinAt(sending, services, []);
    JoinAt(sending, services, ANNOUNCEMENTS[1..]);
    JoinAt(sending, services, GRPC[1..]);
    JoinAt(sending, services, RESPONSES[1..]);
    hide At, Valid;
    assert SENDING == [Right] + [];
    assert ANNOUNCEMENTS == [Left] + ([Right] + []);
    assert GRPC == [Left] + ([Left] + ([Right] + []));
    assert RESPONSES == [Left] + ([Left] + ([Left] + []));
  }

  /** The four sources: two futures, the response channel and the announcements. */
  datatype Sources = Sources(
    sendPending: nat, sent: Result<(), ScanFailure>, grpcPending: nat, served: Result<(), ScanFailure>,
    responses: seq<Answer<ScanItem>>, announcements: seq<Answer<ScanItem>>)
  {
    function AsStream(discoveryPort: U16): Stream<ScanItem> {
      ScanStream(discoveryPort, Future(sendPending, sent), Future(grpcPending, served),
                 Source(responses), Source(announcements))
    }
  }

  /**
   * Collected services and announcements, each in their own order, and the errors of the sending
   * and of the gRPC server, in any interleaving, with nothing else among them.
   */
  ghost predicate IsScanOf(out: seq<ScanItem>, failure: seq<ScanItem>, error: seq<ScanItem>,
                           responses: seq<ScanItem>, announcements: seq<ScanItem>)
  {
    exists services, collected ::
      && IsShuffle(out, services, failure)
      && IsShuffle(services, collected, announcements)
      && IsShuffle(collected, responses, error)
  }

  /** All that comes from the sources: each outcome that is an error is one item. */
  ghost predicate IsWholeScan(out: seq<ScanItem>, from: Sources) {
    IsScanOf(out, ErrorItem(from.sent), ErrorItem(from.served), Items(from.responses), Items(from.announcements))
  }

  /** What has come from the sources first. */
  ghost predicate IsScanSoFar(out: seq<ScanItem>, from: Sources) {
    exists failure, error, responses, announcements ::
      && failure <= ErrorItem(from.sent) && error <= ErrorItem(from.served)
      && responses <= Items(from.responses) && announcements <= Items(from.announcements)
      && IsScanOf(out, failure, error, responses, announcements)
  }

  lemma ScanConserves(out: seq<ScanItem>, from: Sources)
    requires IsWholeScan(out, from)
    ensures multiset(out) == multiset(Items(from.responses)) + multiset(Items(from.announcements))
                             + multiset(ErrorItem(from.sent)) + multiset(ErrorItem(from.served))
  {
    hide IsShuffle, Items;
    var failure, error := ErrorItem(from.sent), ErrorItem(from.served);
    var responses, announcements := Items(from.responses), Items(from.announcements);
    var services, collected :|
      && IsShuffle(out, services, failure)
      && IsShuffle(services, collected, announcements)
      && IsShuffle(collected, responses, error);
    ShuffleConserves(out, services, failure);
    ShuffleConserves(services, collected, announcements);
    ShuffleConserves(collected, responses, error);
  }

  /**
   * At every moment, what a scan has yielded, followed by anything that what is left may give, is
   * all that comes from its sources: nothing is lost on the way and nothing repeated.
   */
  lemma ScanLosesNothing(discoveryPort: U16, from: Sources, n: nat, rest: seq<ScanItem>)
    requires discoveryPort != 0 && Interleaves(After(from.AsStream(discoveryPort), n), rest)
    ensures IsWholeScan(Emitted(from.AsStream(discoveryPort), n) + rest, from)
  {
    var sending: Stream<ScanItem> := Future(from.sendPending, from.sent);
    var grpc: Stream<ScanItem> := Future(from.grpcPending, from.served);
    PathsLeadToSources(discoveryPort, sending, grpc, Source(from.responses), Source(from.announcements));
    hide PollNext, Future, Emitted, After, Valid, At, IsShuffle, Items, Interleaves, ScanStream;
    PollsInterleave(from.AsStream(discoveryPort), n, rest);
    var services, failure, collected, news, given, error :=
      ScanInterleaves(discoveryPort, sending, grpc, Source(from.responses), Source(from.announcements),
                      Emitted(from.AsStream(discoveryPort), n) + rest);
    FutureHas(from.sendPending, from.sent, failure);
    FutureHas(from.grpcPending, from.served, error);
    SourceHas(from.responses, given);
    SourceHas(from.announcements, news);
  }

  /**
   * At every moment, a scan has yielded an interleaving of what came first from each source: the
   * first collected services and the first announcements, in order, and each error at most once.
   */
  lemma ScanSoFar(discoveryPort: U16, from: Sources, n: nat)
    requires discoveryPort != 0
    ensures IsScanSoFar(Emitted(from.AsStream(discoveryPort), n), from)
  {
    hide PollNext, Emitted, After, IsShuffle, Items, Interleaves, ScanStream;
    var out := Emitted(from.AsStream(discoveryPort), n);
    var rest := HasOutcome(After(from.AsStream(discoveryPort), n));
    ScanLosesNothing(discoveryPort, from, n, rest);
    StartOfScan(out, rest, from);
  }

  lemma StartOfScan(out: seq<ScanItem>, rest: seq<ScanItem>, from: Sources)
    requires IsWholeScan(out + rest, from)
    ensures IsScanSoFar(out, from)
  {
    hide IsShuffle, Items;
    var failure, error := ErrorItem(from.sent), ErrorItem(from.served);
    var responses, announcements := Items(from.responses), Items(from.announcements);
    var services, collected :|
      && IsShuffle(out + rest, services, failure)
      && IsShuffle(services, collected, announcements)
      && IsShuffle(collected, responses, error);
    var services', failure' := ShuffleStarts(out, rest, services, failure);
    assert services == services' + services[|services'|..];
    var collected', announcements' := ShuffleStarts(services', services[|services'|..], collected, announcements);
    assert collected == collected' + collected[|collected'|..];
    var responses', error' := ShuffleStarts(collected', collected[|collected'|..], responses, error);
    assert IsScanOf(out, failure', error', responses', announcements');
  }

  /** When the stream reports its end it has yielded just what comes from its sources. */
  lemma ScanIsShuffle(discoveryPort: U16, from: Sources, n: nat)
    requires discoveryPort != 0 && PollNext(After(from.AsStream(discoveryPort), n)).1.End?
    ensures IsWholeScan(Emitted(from.AsStream(discoveryPort), n), from)
  {
    var scan := from.AsStream(discoveryPort);
    PathsLeadToSources(discoveryPort, Future(from.sendPending, from.sent), Future(from.grpcPending, from.served),
                       Source(from.responses), Source(from.announcements));
    hide PollNext, Emitted, Valid, At, IsShuffle, Items, Interleaves, ScanStream, Exhausted;
    EndHasNothing(scan, n);
    ScanLosesNothing(discoveryPort, from, n, []);
    assert Emitted(scan, n) + [] == Emitted(scan, n);
  }

  /** The end comes within as many polls as the sources have answers, and one per node of the merge. */
  lemma ScanEnds(discoveryPort: U16, sending: seq<Answer<ScanItem>>, grpc: seq<Answer<ScanItem>>,
                 responses: seq<Answer<ScanItem>>, announcements: seq<Answer<ScanItem>>) returns (n: nat)
    requires discoveryPort != 0
    ensures n <= |sending| + |grpc| + |responses| + |announcements| + 5
    ensures PollNext(After(ScanStream(discoveryPort, Source(sending), Source(grpc), Source(responses),
                                      Source(announcements)), n)).1.End?
  {
    var scan := ScanStream(discoveryPort, Source(sending), Source(grpc), Source(responses), Source(announcements));
    PathsLeadToSources(discoveryPort, Source(sending), Source(grpc), Source(responses), Source(announcements));
    var collect := CollectStream(Source(grpc), Source(responses));
    SizeOfMerges(Source(grpc), Source(responses));
    SizeOfMerges(collect, Source(announcements));
    SizeOfMerges(Source(sending), NewSelect(collect, Source(announcements)));
    hide PollNext, At;
    n := EndIsReached(scan);
  }

  lemma SourceHas(script: seq<Answer<ScanItem>>, out: seq<ScanItem>)
    requires Interleaves(Source(script), out)
    ensures out == Items(script)
  {}

  lemma FutureHas(pending: nat, outcome: Result<(), ScanFailure>, out: seq<ScanItem>)
    requires Interleaves(Future<Service, ScanFailure>(pending, outcome), out)
    ensures out == ErrorItem(outcome)
  {
    FutureItems<Service, ScanFailure>(pending, outcome);
  }

  lemma ScanInterleaves(discoveryPort: U16, sending: Stream<ScanItem>, grpc: Stream<ScanItem>,
                        responses: Stream<ScanItem>, announcements: Stream<ScanItem>, out: seq<ScanItem>)
    returns (services: seq<ScanItem>, failure: seq<ScanItem>, collected: seq<ScanItem>, news: seq<ScanItem>,
             given: seq<ScanItem>, error: seq<ScanItem>)
    requires discoveryPort != 0
    requires Interleaves(ScanStream(discoveryPort, sending, grpc, responses, announcements), out)
    ensures Interleaves(sending, failure) && Interleaves(announcements, news)
    ensures Interleaves(responses, given) && Interleaves(grpc, error)
    ensures IsShuffle(out, services, failure) && IsShuffle(services, collected, news)
    ensures IsShuffle(collected, given, error)
  {
    hide Interleaves, IsShuffle, Join, NewSelect;
    var collect := CollectStream(grpc, responses);
    services, failure := JoinInterleaves(sending, NewSelect(collect, announcements), out);
    collected, news := SelectInterleaves(collect, announcements, services);
    given, error := JoinInterleaves(grpc, responses, collected);
  }

  /**
   * Whoever is ready at the first poll of a scan comes out in this order: a collected service,
   * the error of the gRPC server, an announcement, the error of the sending.
   */
  lemma FirstPollOfScan(discoveryPort: U16, sending: Stream<ScanItem>, grpc: Stream<ScanItem>,
                        responses: Stream<ScanItem>, announcements: Stream<ScanItem>)
    requires discoveryPort != 0
    ensures var scan := PollNext(ScanStream(discoveryPort, sending, grpc, responses, announcements)).1;
            var collected, served, news, sent :=
              PollNext(responses).1, PollNext(grpc).1, PollNext(announcements).1, PollNext(sending).1;
            && (collected.Ready? ==> scan == collected)
            && (collected.NotReady? && served.Ready? ==> scan == served)
            && (collected.NotReady? && served.NotReady? && news.Ready? ==> scan == news)
            && (collected.NotReady? && served.NotReady? && news.NotReady? && (sent.Ready? || sent.NotReady?) ==>
                  scan == sent)
  {
    var collect := CollectStream(grpc, responses);
    JoinAsksStreamFirst(grpc, responses);
    SelectAsksLeftFirst(collect, announcements);
    JoinAsksStreamFirst(sending, NewSelect(collect, announcements));
    hide PollNext, Join, NewSelect;
  }

  /** With discovery port 0 the stream yields that error alone. */
  lemma NoPortYieldsError(sending: Stream<ScanItem>, grpc: Stream<ScanItem>, responses: Stream<ScanItem>,
                          announcements: Stream<ScanItem>)
    ensures var scan := ScanStream(0, sending, grpc, responses, announcements);
            Emitted(scan, 1) == [Err(Discovery.NoDiscoveryPort)] && PollNext(After(scan, 1)).1.End?
  {
    var scan := ScanStream(0, sending, grpc, responses, announcements);
    assert After(scan, 0) == scan && After(scan, 1) == PollNext(scan).0;
    assert Emitted(scan, 1) == Emitted(scan, 0) + Value(PollNext(scan).1);
  }

  /**
   * No source of a scan is starved: at any time, the outcome of the sending comes out within 2
   * polls of being ready, an announcement within 4, a collected service and the outcome of the
   * gRPC server within 8, however busy the other sources are.
   */
  lemma ScanIsFair(discoveryPort: U16, sending: Stream<ScanItem>, grpc: Stream<ScanItem>,
                   responses: Stream<ScanItem>, announcements: Stream<ScanItem>, polls: nat, path: Path)
    returns (n: nat)
    requires discoveryPort != 0 && path in [SENDING, ANNOUNCEMENTS, GRPC, RESPONSES]
    requires Valid(sending) && Valid(grpc) && Valid(responses) && Valid(announcements)
    requires HasItem(After(ScanStream(discoveryPort, sending, grpc, responses, announcements), polls), path)
    ensures 1 <= n <= if path == SENDING then 2 else if path == ANNOUNCEMENTS then 4 else 8
    ensures var scan := ScanStream(discoveryPort, sending, grpc, responses, announcements);
            PollNext(After(scan, polls + n - 1)).1 == Ready(At(After(scan, polls), path).value[0].value)
  {
    assert Power2(|path|) == if path == SENDING then 2 else if path == ANNOUNCEMENTS then 4 else 8;
    hide PollNext, HasItem, At, Valid, After, Power2, ScanStream;
    PathsLeadToSources(discoveryPort, sending, grpc, responses, announcements);
    n := NoStarvationLater(ScanStream(discoveryPort, sending, grpc, responses, announcements), polls, path);
  }
}
