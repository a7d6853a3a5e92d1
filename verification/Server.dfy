/**
 * `serve_internal`: the announcement and its send plan under failure, then unboundedly many
 * concurrent packet handlers.
 */
module Server {
  import opened Wrappers
  import opened Net
  import opened Wire
  import opened Packets
  import opened Neighbors
  import opened Outside
  import Discovery
  import Scanner

  type ServeError = Discovery.ServeError

  // ---------------------------------------------------------------- announce

  /** The neighbors found by the scan that comes first. */
  function FoundFirst(trace: seq<Effect>): seq<IpNeighbor> {
    if trace != [] && trace[0].Neighbors? && trace[0].found.Ok? then trace[0].found.value else []
  }

  function Planned(trace: seq<Effect>, discoveryPort: U16): multiset<SocketAddrV6> {
    multiset(Scanner.Plan(discoveryPort, FoundFirst(trace)))
  }

  /** What a failed effect is reported as. */
  function ServeCause(e: Effect): Option<ServeError> {
    match e
    case Neighbors(Err(e)) => Some(Discovery.IpNeighborFailure(e))
    case Multicast(_, _, Err(e)) => Some(Discovery.NetworkIo(e))
    case Unicast(_, _, Err(e)) => Some(Discovery.NetworkIo(e))
    case _ => None
  }

  /** The order of a server's effects before it listens, unlike a scanner's: the scan comes first. */
  predicate InAnnouncementOrder(trace: seq<Effect>, discoveryPort: U16) {
    && trace != [] && trace[0].Neighbors?
    && (|trace| > 1 ==> trace[1].Multicast? && trace[1].address == Scanner.MulticastAddress(discoveryPort))
    && (forall k :: 2 <= k < |trace| ==> trace[k].Unicast?)
    && (forall k :: 0 <= k < |trace| - 1 ==> Succeeded(trace[k]))
  }

  /**
   * What `announce` does, whatever fails: nothing is sent unless the neighbors are known, and to
   * no neighbor unless the multicast went out; the sends tried are among those planned, each
   * entry of the neighbor table being tried at most once, in any order; the first failure ends it
   * and is what is reported; and every planned send went out just once if and only if none is
   * reported.
   */
  predicate Announces(trace: seq<Effect>, r: Result<(), ServeError>, data: Bytes, discoveryPort: U16) {
    && InAnnouncementOrder(trace, discoveryPort) && SendsOnly(trace, data)
    && multiset(Attempted(trace)) <= Planned(trace, discoveryPort)
    && (r.Ok? <==> |trace| > 1 && AllSucceeded(trace) && multiset(Attempted(trace)) == Planned(trace, discoveryPort))
    && (r.Err? <==> !Succeeded(trace[|trace| - 1]))
    && (r.Err? ==> ServeCause(trace[|trace| - 1]) == Some(r.error))
  }

  /** Nothing has failed so far, and the sends in `pending` are still to do. */
  predicate Announcing(trace: seq<Effect>, data: Bytes, discoveryPort: U16, pending: multiset<SocketAddrV6>) {
    && InAnnouncementOrder(trace, discoveryPort) && |trace| > 1
    && SendsOnly(trace, data) && AllSucceeded(trace) && Succeeded(trace[|trace| - 1])
    && multiset(Attempted(trace)) + pending == Planned(trace, discoveryPort)
  }

  lemma NotScanned(data: Bytes, discoveryPort: U16, e: ScanError)
    ensures Announces([Neighbors(Err(e))], Err(Discovery.IpNeighborFailure(e)), data, discoveryPort)
  {
    OneMoreEffect([], Neighbors(Err(e)));
    assert [] + [Neighbors(Err(e))] == [Neighbors(Err(e))];
  }

  lemma MulticastFirst(neighbors: seq<IpNeighbor>, multicast: Effect, discoveryPort: U16)
    requires multicast.Multicast? && multicast.address == Scanner.MulticastAddress(discoveryPort)
    ensures var trace := [Neighbors(Ok(neighbors)), multicast];
            if multicast.outcome.Ok? then
              Announcing(trace, multicast.data, discoveryPort,
                         multiset(Discovery.SocketAddresses(neighbors, discoveryPort)))
            else Announces(trace, Err(Discovery.NetworkIo(multicast.outcome.error)), multicast.data, discoveryPort)
  {
    hide Discovery.SocketAddresses, Sent;
    var scanned := Neighbors(Ok(neighbors));
    var trace := [scanned, multicast];
    assert InAnnouncementOrder(trace, discoveryPort) && FoundFirst(trace) == neighbors;
    assert Planned(trace, discoveryPort)
        == multiset{multicast.address} + multiset(Discovery.SocketAddresses(neighbors, discoveryPort));
    hide InAnnouncementOrder, Planned, FoundFirst;
    OneMoreEffect([], scanned);
    assert [] + [scanned] == [scanned];
    OneMoreEffect([scanned], multicast);
    assert [scanned] + [multicast] == trace;
    assert Attempted([]) == [] && AllSucceeded([]) && SendsOnly([], multicast.data);
    hide Attempted, AllSucceeded, SendsOnly;
  }

  lemma UnicastOne(trace: seq<Effect>, unicast: Effect, discoveryPort: U16, pending: multiset<SocketAddrV6>)
    requires unicast.Unicast? && Announcing(trace, unicast.data, discoveryPort, pending) && unicast.address in pending
    ensures if unicast.outcome.Ok? then
              Announcing(trace + [unicast], unicast.data, discoveryPort, pending - multiset{unicast.address})
            else
              Announces(trace + [unicast], Err(Discovery.NetworkIo(unicast.outcome.error)), unicast.data, discoveryPort)
  {
    hide Scanner.Plan, Sent;
    OneMoreEffect(trace, unicast);
    AnnouncementOrderGrows(trace, unicast, discoveryPort);
    assert Planned(trace + [unicast], discoveryPort) == Planned(trace, discoveryPort);
    hide Planned, FoundFirst, Attempted, AllSucceeded, SendsOnly, InAnnouncementOrder;
  }

  lemma AnnouncementOrderGrows(trace: seq<Effect>, unicast: Effect, discoveryPort: U16)
    requires InAnnouncementOrder(trace, discoveryPort) && |trace| > 1 && Succeeded(trace[|trace| - 1])
    requires unicast.Unicast?
    ensures InAnnouncementOrder(trace + [unicast], discoveryPort)
  {}

  lemma AnnouncedToAll(trace: seq<Effect>, data: Bytes, discoveryPort: U16)
    requires Announcing(trace, data, discoveryPort, multiset{})
    ensures Announces(trace, Ok(()), data, discoveryPort)
  {}

  /** `announce`, with the sends of `try_join_all` completing in any order until one fails. */
  method Announce(env: Environment, discoveryPort: U16, servicePort: U16)
    returns (r: Result<(), ServeError>, ghost did: seq<Effect>)
    modifies env
    ensures env.trace == old(env.trace) + did
    ensures Announces(did, r, Discovery.AnnouncementData(servicePort), discoveryPort)
  {
    var data := Discovery.AnnouncementData(servicePort);
    hide Announces, Announcing, Discovery.AnnouncementData, Discovery.SocketAddresses;
    var found := env.ScanNeighbors();
    if found.Err? {
      NotScanned(data, discoveryPort, found.error);
      return Err(Discovery.IpNeighborFailure(found.error)), [Neighbors(found)];
    }
    var outcome := env.SendMulticast(Scanner.MulticastAddress(discoveryPort), data);
    did := [Neighbors(found), Multicast(Scanner.MulticastAddress(discoveryPort), data, outcome)];
    MulticastFirst(found.value, did[1], discoveryPort);
    if outcome.Err? {
      return Err(Discovery.NetworkIo(outcome.error)), did;
    }
    r, did := AnnounceToIpNeighbors(env, discoveryPort, found.value, data, did);
  }

  /** `announce_to_ip_neighbors`, after the effects `before`. */
  method AnnounceToIpNeighbors(env: Environment, discoveryPort: U16, neighbors: seq<IpNeighbor>, data: Bytes,
                               ghost before: seq<Effect>)
    returns (r: Result<(), ServeError>, ghost did: seq<Effect>)
    requires Announcing(before, data, discoveryPort, multiset(Discovery.SocketAddresses(neighbors, discoveryPort)))
    modifies env
    ensures before <= did && env.trace == old(env.trace) + did[|before|..]
    ensures Announces(did, r, data, discoveryPort)
  {
    hide Announces, Announcing, Discovery.SocketAddresses;
    var pending := multiset(Discovery.SocketAddresses(neighbors, discoveryPort));
    did := before;
    while pending != multiset{}
      invariant before <= did && env.trace == old(env.trace) + did[|before|..]
      invariant Announcing(did, data, discoveryPort, pending)
      decreases |pending|
    {
      var address :| address in pending;
      var outcome := env.SendUnicast(address, data);
      UnicastOne(did, Unicast(address, data, outcome), discoveryPort, pending);
      did := did + [Unicast(address, data, outcome)];
      if outcome.Err? {
        return Err(Discovery.NetworkIo(outcome.error)), did;
      }
      pending := pending - multiset{address};
    }
    AnnouncedToAll(did, data, discoveryPort);
    return Ok(()), did;
  }

  /** In terms of what went out: each planned send at most once, and just once if nothing failed. */
  lemma AnnouncementsSent(trace: seq<Effect>, r: Result<(), ServeError>, data: Bytes, discoveryPort: U16)
    requires Announces(trace, r, data, discoveryPort)
    ensures multiset(Sent(trace)) <= Planned(trace, discoveryPort)
    ensures r.Ok? <==> |trace| > 1 && multiset(Sent(trace)) == Planned(trace, discoveryPort)
  {
    hide Planned, Sent, Attempted, SendsOnly;
    AllButLastSent(trace);
    PartOfPlan(Sent(trace), Attempted(trace), Planned(trace, discoveryPort));
    if r.Ok? {
      AllSent(trace);
    } else if |trace| > 1 {
      assert IsSend(trace[|trace| - 1]);
    }
  }

  lemma PartOfPlan(sent: seq<SocketAddrV6>, attempted: seq<SocketAddrV6>, planned: multiset<SocketAddrV6>)
    requires sent <= attempted && multiset(attempted) <= planned
    ensures multiset(sent) <= planned
    ensures multiset(sent) == planned ==> |sent| == |attempted|
  {
    assert attempted == sent + attempted[|sent|..];
    assert planned == multiset(attempted) + (planned - multiset(attempted));
  }

  /** Every multicast announcement goes to the group. */
  lemma AnnouncementsGoToGroup(trace: seq<Effect>, r: Result<(), ServeError>, data: Bytes, discoveryPort: U16)
    requires Announces(trace, r, data, discoveryPort)
    ensures forall e :: e in trace && e.Multicast? ==> Scanner.IsGroupAddress(e.address, discoveryPort)
  {
    hide Scanner.IsGroupAddress, Scanner.MulticastAddress, Planned;
    Scanner.GroupAddress(discoveryPort);
    forall e | e in trace && e.Multicast? ensures Scanner.IsGroupAddress(e.address, discoveryPort) {
      var k :| 0 <= k < |trace| && trace[k] == e;
      assert k == 1;
    }
  }

  /** After either neighbor parse, each announcement is sent to the group or to a valid neighbor address. */
  lemma AnnouncementsGoToNeighbors(trace: seq<Effect>, r: Result<(), ServeError>, data: Bytes, discoveryPort: U16,
                                   found: seq<IpNeighbor>, links: Result<seq<Link>, ScanError>,
                                   linuxRows: seq<Result<Neighbor, ScanError>>,
                                   windowsRows: seq<Result<NetNeighbor, ScanError>>)
    requires Announces(trace, r, data, discoveryPort) && found == FoundFirst(trace)
    requires ParseLinux(links, linuxRows) == Ok(found) || ParseWindows(windowsRows) == Ok(found)
    ensures forall address :: address in Attempted(trace) && address != Scanner.MulticastAddress(discoveryPort) ==>
              exists n :: n in found && IsNeighborAddress(address, discoveryPort, n.networkInterfaceIndex)
  {
    ParsedNeighborsAreValid(found, links, linuxRows, windowsRows, discoveryPort);
    hide IsNeighborAddress, IpNeighbor.GetSocketAddress, Attempted, ParseLinux, ParseWindows;
    forall address | address in Attempted(trace) && address != Scanner.MulticastAddress(discoveryPort)
      ensures exists n :: n in found && IsNeighborAddress(address, discoveryPort, n.networkInterfaceIndex)
    {
      var plan := Scanner.Plan(discoveryPort, found);
      assert address in multiset(Attempted(trace)) && address in multiset(plan);
      var k :| 0 < k < |plan| && plan[k] == address;
      assert found[k - 1] in found && address == found[k - 1].GetSocketAddress(discoveryPort);
    }
  }

  // ---------------------------------------------------------------- concurrent handlers

  type Delivery = (DiscoveryPacket, SocketAddrV6)

  /** The call a handler makes, if the packet is a request of a port in range. */
  function AnswerTo(packet: Delivery, servicePort: U16): Option<Response> {
    match HandlePacket(packet.0, packet.1, servicePort)
    case Ok(response) => Some(response)
    case Err(_) => None
  }

  /** The calls made when packets are handled one after the other. */
  function OneByOne(packets: seq<Delivery>, servicePort: U16): seq<Response> {
    if packets == [] then []
    else Push(OneByOne(packets[..|packets| - 1], servicePort), AnswerTo(packets[|packets| - 1], servicePort))
  }

  /** What the receiver delivered before its first error. */
  function Delivered(input: seq<ReceivedPacket>): (packets: seq<Delivery>)
    ensures |packets| <= |input|
    ensures forall k :: 0 <= k < |packets| ==> input[k] == Ok(packets[k])
    ensures |packets| < |input| ==> input[|packets|].Err?
  {
    if input == [] || input[0].Err? then [] else [input[0].value] + Delivered(input[1..])
  }

  /** The calls of the handlers are those of the packets, in order, that are requests in range. */
  lemma OneByOneInOrder(packets: seq<Delivery>, servicePort: U16)
    returns (answers: seq<Option<Response>>, picks: seq<nat>)
    ensures |answers| == |packets| && forall k :: 0 <= k < |packets| ==> answers[k] == AnswerTo(packets[k], servicePort)
    ensures PicksInOrder(answers, OneByOne(packets, servicePort), picks)
  {
    hide PicksInOrder, AnswerTo;
    answers := seq(|packets|, k requires 0 <= k < |packets| => AnswerTo(packets[k], servicePort));
    OneByOneIsImages(packets, servicePort, answers);
    picks := ImagesInOrder(answers);
  }

  lemma {:induction false} OneByOneIsImages(packets: seq<Delivery>, servicePort: U16, answers: seq<Option<Response>>)
    requires |answers| == |packets|
    requires forall k :: 0 <= k < |packets| ==> answers[k] == AnswerTo(packets[k], servicePort)
    ensures OneByOne(packets, servicePort) == Images(answers)
  {
    hide AnswerTo;
    if packets != [] {
      OneByOneIsImages(packets[..|packets| - 1], servicePort, answers[..|packets| - 1]);
    }
  }

  lemma {:induction false} OneByOneAdds(before: seq<Delivery>, after: seq<Delivery>, servicePort: U16)
    ensures OneByOne(before + after, servicePort) == OneByOne(before, servicePort) + OneByOne(after, servicePort)
  {
    hide AnswerTo;
    if after == [] {
      assert before + after == before;
    } else {
      var last := |after| - 1;
      OneByOneAdds(before, after[..last], servicePort);
      assert (before + after)[..|before + after| - 1] == before + after[..last];
    }
  }

  /** Whichever handler goes first, what the others will do stays the same. */
  lemma AnyOrder(packets: seq<Delivery>, k: nat, servicePort: U16)
    requires k < |packets|
    ensures multiset(OneByOne(packets, servicePort))
         == multiset(OneByOne([packets[k]], servicePort))
            + multiset(OneByOne(packets[..k] + packets[k + 1..], servicePort))
  {
    hide AnswerTo, OneByOne;
    OneByOneAdds(packets[..k], [packets[k]] + packets[k + 1..], servicePort);
    OneByOneAdds([packets[k]], packets[k + 1..], servicePort);
    OneByOneAdds(packets[..k], packets[k + 1..], servicePort);
    assert packets[..k] + ([packets[k]] + packets[k + 1..]) == packets;
  }

  /** What has been done and what waiting handlers will do is what handling one by one does. */
  ghost predicate Conserved(did: seq<Effect>, waiting: seq<Delivery>, received: seq<Delivery>, servicePort: U16) {
    Responses(did) + multiset(OneByOne(waiting, servicePort)) == multiset(OneByOne(received, servicePort))
  }

  lemma ReceiveConserves(did: seq<Effect>, waiting: seq<Delivery>, received: seq<Delivery>, packet: Delivery,
                         servicePort: U16)
    requires Conserved(did, waiting, received, servicePort)
    ensures Conserved(did, waiting + [packet], received + [packet], servicePort)
  {
    OneByOneAdds(waiting, [packet], servicePort);
    OneByOneAdds(received, [packet], servicePort);
    hide OneByOne;
  }

  lemma BeginConserves(did: seq<Effect>, waiting: seq<Delivery>, received: seq<Delivery>, k: nat, servicePort: U16)
    requires Conserved(did, waiting, received, servicePort) && k < |waiting|
    ensures var (packet, remote) := waiting[k];
            match HandlePacket(packet, remote, servicePort)
            case Ok(response) =>
              Conserved(did + [Respond(response)], waiting[..k] + waiting[k + 1..], received, servicePort)
            case Err(_) => Conserved(did, waiting[..k] + waiting[k + 1..], received, servicePort)
  {
    AnyOrder(waiting, k, servicePort);
    var answer := AnswerTo(waiting[k], servicePort);
    hide AnswerTo, HandlePacket;
    assert [waiting[k]][..0] == [];
    assert OneByOne([waiting[k]], servicePort) == if answer.Some? then [answer.value] else [];
    hide OneByOne;
    if answer.Some? {
      OneMoreCall(did, Respond(answer.value));
    }
  }

  lemma EndConserves(did: seq<Effect>, e: Effect, waiting: seq<Delivery>, received: seq<Delivery>, servicePort: U16)
    requires Conserved(did, waiting, received, servicePort) && e.Responded?
    ensures Conserved(did + [e], waiting, received, servicePort)
  {
    OneMoreCall(did, e);
  }

  predicate OnlyCalls(did: seq<Effect>) {
    forall e :: e in did ==> e.Respond? || e.Responded?
  }

  /** After these effects, with these handlers waiting, those calls open and `taken` packets received. */
  ghost predicate InProgress(did: seq<Effect>, waiting: seq<Delivery>, calling: multiset<Response>,
                             received: seq<Delivery>, taken: nat, servicePort: U16)
  {
    && taken <= |received| && OnlyCalls(did) && Ended(did) + calling == Responses(did)
    && Conserved(did, waiting, received[..taken], servicePort)
  }

  lemma NothingYet(received: seq<Delivery>, servicePort: U16)
    ensures InProgress([], [], multiset{}, received, 0, servicePort)
  {
    assert received[..0] == [];
  }

  lemma TakesOne(did: seq<Effect>, waiting: seq<Delivery>, calling: multiset<Response>, received: seq<Delivery>,
                 taken: nat, servicePort: U16)
    requires InProgress(did, waiting, calling, received, taken, servicePort) && taken < |received|
    ensures InProgress(did, waiting + [received[taken]], calling, received, taken + 1, servicePort)
  {
    hide Conserved, Ended, Responses;
    ReceiveConserves(did, waiting, received[..taken], received[taken], servicePort);
    assert received[..taken + 1] == received[..taken] + [received[taken]];
  }

  lemma BeginsOne(did: seq<Effect>, waiting: seq<Delivery>, calling: multiset<Response>, received: seq<Delivery>,
                  taken: nat, k: nat, servicePort: U16)
    requires InProgress(did, waiting, calling, received, taken, servicePort) && k < |waiting|
    ensures var (packet, remote) := waiting[k];
            var others := waiting[..k] + waiting[k + 1..];
            match HandlePacket(packet, remote, servicePort)
            case Ok(response) =>
              InProgress(did + [Respond(response)], others, calling + multiset{response}, received, taken, servicePort)
            case Err(_) => InProgress(did, others, calling, received, taken, servicePort)
  {
    hide Conserved, Ended, Responses, HandlePacket;
    BeginConserves(did, waiting, received[..taken], k, servicePort);
    var (packet, remote) := waiting[k];
    match HandlePacket(packet, remote, servicePort)
    case Ok(response) => OneMoreCall(did, Respond(response));
    case Err(_) =>
  }

  lemma EndsOne(did: seq<Effect>, waiting: seq<Delivery>, calling: multiset<Response>, received: seq<Delivery>,
                taken: nat, response: Response, outcome: Result<(), IoError>, servicePort: U16)
    requires InProgress(did, waiting, calling, received, taken, servicePort) && response in calling
    ensures InProgress(did + [Responded(response, outcome)], waiting, calling - multiset{response}, received, taken,
                       servicePort)
  {
    hide Conserved, Ended, Responses;
    OneMoreCall(did, Responded(response, outcome));
    EndConserves(did, Responded(response, outcome), waiting, received[..taken], servicePort);
    assert calling - multiset{response} + multiset{response} == calling;
  }

  lemma Accounted(did: seq<Effect>, waiting: seq<Delivery>, calling: multiset<Response>, received: seq<Delivery>,
                  taken: nat, servicePort: U16)
    requires InProgress(did, waiting, calling, received, taken, servicePort)
    ensures taken <= |received| && OnlyCalls(did)
    ensures Ended(did) <= Responses(did) <= multiset(OneByOne(received, servicePort))
    ensures calling == multiset{} ==> Ended(did) == Responses(did)
    ensures waiting == [] && taken == |received| ==> Responses(did) == multiset(OneByOne(received, servicePort))
  {
    OneByOneAdds(received[..taken], received[taken..], servicePort);
    assert received[..taken] + received[taken..] == received;
    assert taken == |received| ==> received[..taken] == received;
    assert waiting == [] ==> OneByOne(waiting, servicePort) == [];
    hide OneByOne, Ended, Responses;
  }

  /**
   * The handlers of `serve_internal`, run by `try_for_each_concurrent` without a limit, for at
   * most `budget` events in any order: a packet is received, a handler begins its call or gives
   * up, a call ends well or not. `input` is what the receiver has given so far and `ended` tells
   * whether it then ended. No outcome of a handler reaches the result. However the events fall,
   * at every moment the calls begun are among those of handling the packets one by one; a
   * successful end leaves just those; and only an error of the receiver is an error.
   */
  method HandleConcurrently(env: Environment, input: seq<ReceivedPacket>, ended: bool, servicePort: U16, budget: nat)
    returns (r: Option<Result<(), IoError>>, ghost did: seq<Effect>)
    modifies env
    ensures env.trace == old(env.trace) + did && OnlyCalls(did)
    ensures Ended(did) <= Responses(did) && (r.Some? && r.value.Ok? ==> Ended(did) == Responses(did))
    ensures Responses(did) <= multiset(OneByOne(Delivered(input), servicePort))
    ensures r.Some? && r.value.Ok? ==> ended && |Delivered(input)| == |input|
    ensures r.Some? && r.value.Err? ==> |Delivered(input)| < |input| && input[|Delivered(input)|] == Err(r.value.error)
    ensures (r.Some? && r.value.Ok?) || (budget >= 3 * |input| && |Delivered(input)| == |input|) ==>
              Responses(did) == multiset(OneByOne(Delivered(input), servicePort))
    ensures budget >= 3 * |input| ==> (r.Some? <==> ended || |Delivered(input)| < |input|)
  {
    hide HandlePacket, OneByOne, Responses, Ended, InProgress, OnlyCalls;
    var waiting: seq<Delivery> := [];
    var calling: multiset<Response> := multiset{};
    var taken, events := 0, 0;
    ghost var received := Delivered(input);
    NothingYet(received, servicePort);
    did := [];
    while events < budget && (taken < |input| || waiting != [] || calling != multiset{})
      invariant taken <= |received| && env.trace == old(env.trace) + did
      invariant InProgress(did, waiting, calling, received, taken, servicePort)
      invariant events + 2 * |waiting| + |calling| <= 3 * taken
      decreases budget - events
    {
      events := events + 1;
      if {
        case taken < |input| =>
          match input[taken] {
            case Err(e) =>
              Accounted(did, waiting, calling, received, taken, servicePort);
              return Some(Err(e)), did;
            case Ok(packet) =>
              TakesOne(did, waiting, calling, received, taken, servicePort);
              waiting := waiting + [packet];
              taken := taken + 1;
          }
        case waiting != [] =>
          var k :| 0 <= k < |waiting|;
          BeginsOne(did, waiting, calling, received, taken, k, servicePort);
          var (packet, remote) := waiting[k];
          match HandlePacket(packet, remote, servicePort) {
            case Err(_) =>
            case Ok(response) =>
              env.BeginResponse(response);
              did := did + [Respond(response)];
              calling := calling + multiset{response};
          }
          waiting := waiting[..k] + waiting[k + 1..];
        case calling != multiset{} =>
          var response :| response in calling;
          var outcome := env.EndResponse(response);
          EndsOne(did, waiting, calling, received, taken, response, outcome, servicePort);
          did := did + [Responded(response, outcome)];
          calling := calling - multiset{response};
      }
    }
    Accounted(did, waiting, calling, received, taken, servicePort);
    if ended && taken == |input| && waiting == [] && calling == multiset{} {
      return Some(Ok(())), did;
    }
    return None, did;
  }

  // ---------------------------------------------------------------- serve

  /** What a server may report: each result, and when just that one. */
  predicate Served(discoveryPort: U16, announced: seq<Effect>, input: seq<ReceivedPacket>, ended: bool,
                   r: Option<Result<(), ServeError>>) {
    match r
    case None => AllSucceeded(announced)
    case Some(Ok(_)) => AllSucceeded(announced) && ended && FirstError(input).None?
    case Some(Err(InvalidDiscoveryPort)) => discoveryPort == 0
    case Some(Err(IpNeighborFailure(e))) => announced == [Neighbors(Err(e))]
    case Some(Err(NetworkIo(e))) =>
      || (announced != [] && ServeCause(announced[|announced| - 1]) == Some(Discovery.NetworkIo(e)))
      || (AllSucceeded(announced) && FirstError(input) == Some(e))
  }

  function FirstError(input: seq<ReceivedPacket>): Option<IoError> {
    if |Delivered(input)| == |input| then None else Some(input[|Delivered(input)|].error)
  }

  lemma AnnouncedOrFailed(trace: seq<Effect>, r: Result<(), ServeError>, data: Bytes, discoveryPort: U16)
    requires Announces(trace, r, data, discoveryPort)
    ensures trace != [] && (r.Ok? ==> AllSucceeded(trace))
    ensures r.Err? ==> r.error != Discovery.InvalidDiscoveryPort && ServeCause(trace[|trace| - 1]) == Some(r.error)
    ensures r.Err? && r.error.IpNeighborFailure? ==> trace == [Neighbors(Err(r.error.scan))]
  {
    hide Attempted, SendsOnly, Planned;
  }

  /** What the concurrent handlers report is what the server reports. */
  function Reported(handled: Option<Result<(), IoError>>): Option<Result<(), ServeError>> {
    match handled
    case None => None
    case Some(Ok(_)) => Some(Ok(()))
    case Some(Err(e)) => Some(Err(Discovery.NetworkIo(e)))
  }

  lemma HandledIsServed(discoveryPort: U16, announced: seq<Effect>, input: seq<ReceivedPacket>, ended: bool,
                        handled: Option<Result<(), IoError>>)
    requires AllSucceeded(announced)
    requires handled.Some? && handled.value.Ok? ==> ended && |Delivered(input)| == |input|
    requires handled.Some? && handled.value.Err? ==>
               |Delivered(input)| < |input| && input[|Delivered(input)|] == Err(handled.value.error)
    ensures Served(discoveryPort, announced, input, ended, Reported(handled))
    ensures Reported(handled) != Some(Err(Discovery.InvalidDiscoveryPort))
  {
    hide AllSucceeded;
  }

  /**
   * `serve_internal`, run for at most `budget` events after the announcement. A server stops with
   * an error only for a zero discovery port, a failed neighbor scan, a failed announcement or an
   * error of the receiver, never for a handler; it stops without one only when its receiver has
   * ended and every handler has finished; and it answers nobody before it has announced itself
   * everywhere.
   */
  method ServeInternal(env: Environment, discoveryPort: U16, servicePort: U16, input: seq<ReceivedPacket>,
                       ended: bool, budget: nat)
    returns (r: Option<Result<(), ServeError>>, ghost announced: seq<Effect>, ghost answered: seq<Effect>)
    modifies env
    ensures env.trace == old(env.trace) + announced + answered
    ensures Served(discoveryPort, announced, input, ended, r)
    ensures r == Some(Err(Discovery.InvalidDiscoveryPort)) <==> discoveryPort == 0
    ensures if discoveryPort == 0 then announced == []
            else exists outcome :: Announces(announced, outcome, Discovery.AnnouncementData(servicePort), discoveryPort)
    ensures answered != [] ==> announced != [] && AllSucceeded(announced)
    ensures OnlyCalls(answered)
    ensures Ended(answered) <= Responses(answered) <= multiset(OneByOne(Delivered(input), servicePort))
    ensures r.Some? && r.value.Ok? ==>
              Ended(answered) == Responses(answered) == multiset(OneByOne(Delivered(input), servicePort))
    ensures r.None? && budget >= 3 * |input| ==>
              !ended && FirstError(input).None?
              && Responses(answered) == multiset(OneByOne(Delivered(input), servicePort))
  {
    assert Ended([]) == Responses([]) == multiset{};
    hide OneByOne, Discovery.AnnouncementData, Ended, Responses, Announces, AllSucceeded, Delivered;
    answered := [];
    if discoveryPort == 0 {
      return Some(Err(Discovery.InvalidDiscoveryPort)), [], [];
    }
    var outcome;
    outcome, announced := Announce(env, discoveryPort, servicePort);
    AnnouncedOrFailed(announced, outcome, Discovery.AnnouncementData(servicePort), discoveryPort);
    if outcome.Err? {
      return Some(Err(outcome.error)), announced, [];
    }
    hide Served, OnlyCalls, ServeCause;
    var handled;
    handled, answered := HandleConcurrently(env, input, ended, servicePort, budget);
    HandledIsServed(discoveryPort, announced, input, ended, handled);
    r := Reported(handled);
  }
}
