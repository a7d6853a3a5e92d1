/**
 * The response collector: what `submit_response` accepts, the unbounded channel it pushes to, and
 * the accounting between calls, pushes and collected services.
 */
module ResponseCollector {
  import opened Wrappers
  import opened Net
  import opened Wire
  import opened Packets

  datatype Status =
    | InvalidArgument(message: string) | Unimplemented(message: string) | Unavailable(message: string)

  /** What `submit_response` makes of a call: the service it would push. */
  function Validate(remote: Option<SocketAddr>, servicePort: U32): Result<Service, Status> {
    if servicePort >= 0x1_0000 then Err(InvalidArgument("Port out of range"))
    else if servicePort == 0 then Err(InvalidArgument("Port must not be 0"))
    else
      match remote
      case Some(V6(address)) => Ok(Service(address.(port := servicePort)))
      case Some(V4(_, _)) => Err(Unimplemented("IPv4 unsupported"))
      case None => Err(Unimplemented("Remote address unavailable"))
  }

  /**
   * The two ways a service becomes known agree: for an IPv6 peer, an announced port and a
   * submitted one are accepted alike in 1..65535 with the same address and refused alike above;
   * they differ exactly at 0, which only `submit_response` refuses.
   */
  lemma RoutesAgree(peer: SocketAddrV6, port: U32)
    ensures var announced := ExtractService(DiscoveryPacket(Some(Announcement(port))), peer);
            var submitted := Validate(Some(V6(peer)), port);
            && (announced.Ok? <==> port <= 0xFFFF)
            && (submitted.Ok? <==> 1 <= port <= 0xFFFF)
            && (submitted.Ok? ==> announced == Ok(submitted.value)
                                  && submitted.value.address.port == port
                                  && submitted.value.address.ip == peer.ip
                                  && submitted.value.address.scope == peer.scope)
            && (announced.Ok? != submitted.Ok? <==> port == 0)
  {}

  // ---------------------------------------------------------------- in place

  class UnboundedChannel {
    var queue: seq<Service>
    var receiverAlive: bool
    ghost var pushed: seq<Service>
    ghost var collected: seq<Service>

    ghost function Account(): Ledger
      reads this
    {
      Ledger(queue, receiverAlive, pushed, collected)
    }

    constructor ()
      ensures Account() == EMPTY_LEDGER
    {
      queue, receiverAlive, pushed, collected := [], true, [], [];
    }

    method UnboundedSend(service: Service) returns (sent: bool)
      modifies this
      ensures sent == old(receiverAlive)
      ensures Account() == if sent then Pushed(old(Account()), service) else old(Account())
    {
      sent := receiverAlive;
      if receiverAlive {
        queue := queue + [service];
        pushed := pushed + [service];
      }
    }

    method Next() returns (service: Option<Service>)
      modifies this
      ensures Account() == Posted(old(Account()), Collect)
      ensures service == Offered(old(Account()))
      ensures if service.Some? then old(queue) == [service.value] + queue else queue == old(queue)
      ensures service.None? <==> !receiverAlive || old(queue) == []
    {
      if receiverAlive && queue != [] {
        service := Some(queue[0]);
        collected := collected + [queue[0]];
        queue := queue[1..];
      } else {
        service := None;
      }
    }

    method DropReceiver()
      modifies this
      ensures Account() == Posted(old(Account()), Hangup)
    {
      receiverAlive := false;
      queue := [];
    }
  }

  class ResponseCollectorServiceProvider {
    const channel: UnboundedChannel

    constructor (channel: UnboundedChannel)
      ensures this.channel == channel
    {
      this.channel := channel;
    }

    /** `submit_response`: the checks in their order, the new port on the peer's address, the push. */
    method SubmitResponse(remote: Option<SocketAddr>, servicePort: U32) returns (r: Result<(), Status>)
      modifies channel
      ensures channel.Account() == Posted(old(channel.Account()), Submit(remote, servicePort))
      ensures r.Ok? <==> Acknowledged(old(channel.Account()), remote, servicePort)
      ensures r.Ok? <==> 1 <= servicePort <= 0xFFFF && remote.Some? && remote.value.V6? && old(channel.receiverAlive)
      ensures r.Ok? ==> channel.queue == old(channel.queue) + [Service(remote.value.address.(port := servicePort))]
      ensures r.Err? ==> channel.queue == old(channel.queue)
      ensures Validate(remote, servicePort).Err? ==> r == Err(Validate(remote, servicePort).error)
      ensures servicePort > 0xFFFF ==> r == Err(InvalidArgument("Port out of range"))
      ensures servicePort == 0 ==> r == Err(InvalidArgument("Port must not be 0"))
      ensures 1 <= servicePort <= 0xFFFF && remote.None? ==> r == Err(Unimplemented("Remote address unavailable"))
      ensures 1 <= servicePort <= 0xFFFF && remote.Some? && remote.value.V4? ==>
                r == Err(Unimplemented("IPv4 unsupported"))
      ensures 1 <= servicePort <= 0xFFFF && remote.Some? && remote.value.V6? && r.Err? ==>
                r == Err(Unavailable("No longer accepting responses"))
    {
      if servicePort >= 0x1_0000 {
        return Err(InvalidArgument("Port out of range"));
      }
      if servicePort == 0 {
        return Err(InvalidArgument("Port must not be 0"));
      }
      var serviceAddress: SocketAddrV6;
      match remote {
        case Some(V6(address)) => serviceAddress := address;
        case Some(V4(_, _)) => return Err(Unimplemented("IPv4 unsupported"));
        case None => return Err(Unimplemented("Remote address unavailable"));
      }
      serviceAddress := serviceAddress.(port := servicePort);
      var sent := channel.UnboundedSend(Service(serviceAddress));
      return if sent then Ok(()) else Err(Unavailable("No longer accepting responses"));
    }
  }

  // ---------------------------------------------------------------- whole runs

  /** The channel with everything ever pushed to it and collected from it. */
  datatype Ledger = Ledger(queue: seq<Service>, alive: bool, pushed: seq<Service>, collected: seq<Service>)

  const EMPTY_LEDGER := Ledger([], true, [], [])

  datatype Event = Submit(remote: Option<SocketAddr>, servicePort: U32) | Collect | Hangup

  function Pushed(ledger: Ledger, service: Service): Ledger {
    ledger.(queue := ledger.queue + [service], pushed := ledger.pushed + [service])
  }

  predicate Acknowledged(ledger: Ledger, remote: Option<SocketAddr>, servicePort: U32) {
    Validate(remote, servicePort).Ok? && ledger.alive
  }

  /** What the collector is given next. */
  function Offered(ledger: Ledger): Option<Service> {
    if ledger.alive && ledger.queue != [] then Some(ledger.queue[0]) else None
  }

  function Posted(ledger: Ledger, event: Event): Ledger {
    match event
    case Submit(remote, servicePort) =>
      if Acknowledged(ledger, remote, servicePort) then Pushed(ledger, Validate(remote, servicePort).value)
      else ledger
    case Collect =>
      if ledger.alive && ledger.queue != [] then
        ledger.(queue := ledger.queue[1..], collected := ledger.collected + [ledger.queue[0]])
      else ledger
    case Hangup => ledger.(queue := [], alive := false)
  }

  /** Just the calls of an IPv6 peer with a port in range are acknowledged, while the receiver is there. */
  lemma CallMeans(ledger: Ledger, remote: Option<SocketAddr>, servicePort: U32)
    ensures Acknowledged(ledger, remote, servicePort) <==>
            (ledger.alive && 1 <= servicePort <= 0xFFFF && remote.Some? && remote.value.V6?)
    ensures var after := Posted(ledger, Submit(remote, servicePort));
            if Acknowledged(ledger, remote, servicePort) then
              var service := Service(remote.value.address.(port := servicePort));
              after == ledger.(queue := ledger.queue + [service], pushed := ledger.pushed + [service])
            else after == ledger
  {}

  /** The channel after a run, latest event last. */
  function LedgerOf(events: seq<Event>): Ledger {
    if events == [] then EMPTY_LEDGER else Posted(LedgerOf(events[..|events| - 1]), events[|events| - 1])
  }

  function Acknowledgements(events: seq<Event>): nat {
    if events == [] then 0
    else
      var last, before := events[|events| - 1], events[..|events| - 1];
      Acknowledgements(before)
      + if last.Submit? && Acknowledged(LedgerOf(before), last.remote, last.servicePort) then 1 else 0
  }

  /** What an observer of the calls alone expects to be pushed. */
  function Accepted(events: seq<Event>): seq<Service> {
    if events == [] then []
    else
      var last, before := events[|events| - 1], events[..|events| - 1];
      Accepted(before)
      + if last.Submit? && Validate(last.remote, last.servicePort).Ok? && Hangup !in before
        then [Validate(last.remote, last.servicePort).value] else []
  }

  lemma {:induction false} AliveUntilHangup(events: seq<Event>)
    ensures LedgerOf(events).alive <==> Hangup !in events
    ensures !LedgerOf(events).alive ==> LedgerOf(events).queue == []
  {
    if events != [] {
      var before := events[..|events| - 1];
      AliveUntilHangup(before);
      assert events == before + [events[|events| - 1]];
    }
  }

  /**
   * Over every run, what was collected is a prefix of what was pushed, and until the receiver
   * goes the rest is queued.
   */
  lemma {:induction false} CollectedInOrder(events: seq<Event>)
    ensures var ledger := LedgerOf(events);
            && ledger.collected <= ledger.pushed
            && ledger.collected + ledger.queue <= ledger.pushed
            && (ledger.alive ==> ledger.collected + ledger.queue == ledger.pushed)
  {
    if events != [] {
      var before := events[..|events| - 1];
      AliveUntilHangup(before);
      CollectedInOrder(before);
      var ledger := LedgerOf(before);
      match events[|events| - 1]
      case Submit(remote, servicePort) =>
        if Acknowledged(ledger, remote, servicePort) {
          var service := Validate(remote, servicePort).value;
          assert ledger.pushed + [service] == ledger.collected + (ledger.queue + [service]);
        }
      case Collect =>
        if ledger.alive && ledger.queue != [] {
          assert ledger.collected + [ledger.queue[0]] + ledger.queue[1..] == ledger.collected + ledger.queue;
        }
      case Hangup =>
        assert ledger.collected <= ledger.collected + ledger.queue;
    }
  }

  /**
   * Over every run there is one push for each acknowledgement, just those of the valid calls made
   * while the receiver was there, in order; and no pushed port is 0.
   */
  lemma {:induction false} PushesMatchCalls(events: seq<Event>)
    ensures var ledger := LedgerOf(events);
            && Acknowledgements(events) == |ledger.pushed|
            && ledger.pushed == Accepted(events)
            && (forall service :: service in ledger.pushed ==> service.address.port != 0)
  {
    if events != [] {
      var before := events[..|events| - 1];
      AliveUntilHangup(before);
      PushesMatchCalls(before);
    }
  }

  /** What the Collect events of a run were given, in order. */
  function Given(events: seq<Event>): seq<Service> {
    if events == [] then []
    else
      var last, before := events[|events| - 1], events[..|events| - 1];
      Given(before) + if last.Collect? && Offered(LedgerOf(before)).Some? then [Offered(LedgerOf(before)).value] else []
  }

  /** How many an observer of the events alone expects to be given: one while any is outstanding. */
  function GivenCount(events: seq<Event>): nat {
    if events == [] then 0
    else
      var last, before := events[|events| - 1], events[..|events| - 1];
      var count := GivenCount(before);
      if last.Collect? && Hangup !in before && count < |Accepted(before)| then count + 1 else count
  }

  lemma AcceptedGrows(events: seq<Event>)
    requires events != []
    ensures Accepted(events[..|events| - 1]) <= Accepted(events)
    ensures !events[|events| - 1].Submit? ==> Accepted(events) == Accepted(events[..|events| - 1])
    ensures LedgerOf(events) == Posted(LedgerOf(events[..|events| - 1]), events[|events| - 1])
  {
    hide Validate, Posted;
  }

  lemma CollectedGrows(ledger: Ledger, event: Event)
    ensures Posted(ledger, event).collected
         == ledger.collected + if event.Collect? && Offered(ledger).Some? then [Offered(ledger).value] else []
  {
    hide Validate;
  }

  /** What is offered is the first of those accepted that was not given. */
  lemma OfferedIsNext(events: seq<Event>)
    requires GivenCount(events) <= |Accepted(events)|
    requires LedgerOf(events).collected == Accepted(events)[..GivenCount(events)]
    ensures Offered(LedgerOf(events))
         == if Hangup !in events && GivenCount(events) < |Accepted(events)| then
              Some(Accepted(events)[GivenCount(events)])
            else None
  {
    AliveUntilHangup(events);
    CollectedInOrder(events);
    PushesMatchCalls(events);
    hide LedgerOf, Accepted, GivenCount;
    var ledger, count := LedgerOf(events), GivenCount(events);
    if ledger.alive {
      assert Accepted(events) == ledger.collected + ledger.queue;
      assert |ledger.collected| == count;
    }
  }

  /** Over every run the collector is given the accepted services in order, each once. */
  lemma {:induction false} GivenInOrder(events: seq<Event>)
    ensures GivenCount(events) <= |Accepted(events)|
    ensures Given(events) == Accepted(events)[..GivenCount(events)]
    ensures LedgerOf(events).collected == Given(events)
  {
    if events != [] {
      var before, last := events[..|events| - 1], events[|events| - 1];
      GivenInOrder(before);
      OfferedIsNext(before);
      AcceptedGrows(events);
      CollectedGrows(LedgerOf(before), last);
      hide LedgerOf, Accepted, Offered, Posted;
    }
  }

  function Collects(n: nat): seq<Event> {
    seq(n, _ => Collect)
  }

  lemma {:induction false} CollectsCount(events: seq<Event>, n: nat)
    requires Hangup !in events
    ensures Accepted(events + Collects(n)) == Accepted(events)
    ensures GivenCount(events + Collects(n)) == Least(GivenCount(events) + n, |Accepted(events)|)
  {
    hide Accepted, GivenCount;
    if n == 0 {
      assert events + Collects(0) == events;
      GivenInOrder(events);
    } else {
      CollectsCount(events, n - 1);
      OneMoreCollect(events, n - 1);
    }
  }

  lemma OneMoreCollect(events: seq<Event>, n: nat)
    requires Hangup !in events
    ensures var before, after := events + Collects(n), events + Collects(n + 1);
            && Accepted(after) == Accepted(before)
            && GivenCount(after) == if GivenCount(before) < |Accepted(before)| then GivenCount(before) + 1
                                    else GivenCount(before)
  {
    var before, after := events + Collects(n), events + Collects(n + 1);
    assert after == before + [Collect] && after[..|before|] == before && Hangup !in before;
    AcceptedGrows(after);
    hide Accepted, Collects;
  }

  function Least(a: nat, b: nat): nat {
    if a <= b then a else b
  }

  /** Before a hangup, `n` further collections give the next `n` of those outstanding, or all of them. */
  lemma CollectsGiveTheRest(events: seq<Event>, n: nat)
    requires Hangup !in events
    ensures Given(events + Collects(n)) == Accepted(events)[..Least(GivenCount(events) + n, |Accepted(events)|)]
    ensures n >= |Accepted(events)| ==> Given(events + Collects(n)) == Accepted(events)
  {
    hide Accepted, GivenCount, Given, LedgerOf;
    GivenInOrder(events + Collects(n));
    CollectsCount(events, n);
  }

  /** Once the receiver is gone, nothing is acknowledged, pushed or collected any more. */
  lemma {:induction false} NothingAfterHangup(events: seq<Event>, later: seq<Event>)
    requires Hangup in events
    ensures LedgerOf(events + later) == LedgerOf(events).(queue := [])
    ensures Acknowledgements(events + later) == Acknowledgements(events)
  {
    AliveUntilHangup(events);
    if later == [] {
      assert events + later == events;
    } else {
      var last := later[|later| - 1];
      NothingAfterHangup(events, later[..|later| - 1]);
      assert (events + later)[..|events + later| - 1] == events + later[..|later| - 1];
    }
  }

  // ---------------------------------------------------------------- runs of the objects

  /** The events of a run, in order, on a fresh channel: it comes to the ledger of that run. */
  method Replay(events: seq<Event>) returns (channel: UnboundedChannel, acknowledged: nat, given: seq<Service>)
    ensures fresh(channel) && channel.Account() == LedgerOf(events)
    ensures acknowledged == Acknowledgements(events)
    ensures given == Given(events) && GivenCount(events) <= |Accepted(events)|
    ensures given == Accepted(events)[..GivenCount(events)]
  {
    hide Validate, Posted, Offered, Accepted, GivenCount;
    channel := new UnboundedChannel();
    var provider := new ResponseCollectorServiceProvider(channel);
    acknowledged, given := 0, [];
    assert events[..0] == [];
    for i := 0 to |events|
      invariant fresh(channel) && provider.channel == channel
      invariant channel.Account() == LedgerOf(events[..i])
      invariant acknowledged == Acknowledgements(events[..i]) && given == Given(events[..i])
    {
      assert events[..i + 1][..i] == events[..i];
      match events[i] {
        case Submit(remote, servicePort) =>
          var r := provider.SubmitResponse(remote, servicePort);
          acknowledged := acknowledged + if r.Ok? then 1 else 0;
        case Collect =>
          var service := channel.Next();
          given := if service.Some? then given + [service.value] else given;
        case Hangup =>
          channel.DropReceiver();
      }
    }
    assert events[..|events|] == events;
    GivenInOrder(events);
  }
}
