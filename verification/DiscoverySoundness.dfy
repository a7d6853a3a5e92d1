/**
 * Soundness: in every run, whatever the network does, each service a scanner yields is that of a
 * server on its discovery port. The invariant follows a service from the two kinds of datagram
 * through sockets, handlers, response calls and channels.
 */
module DiscoverySoundness {
  import opened Wrappers
  import opened Net
  import opened Wire
  import opened Packets
  import opened Discovery
  import AddressText
  import ResponseCollector

  type Collectors = seq<Option<U16>>

  /** `service` is that of server `i`, at an address scanner `c` reaches it at. */
  predicate IsServiceOf(w: World, c: nat, service: Service, i: nat) {
    && c < |w.scanners| && i < |w.servers|
    && w.servers[i].discoveryPort == w.scanners[c].discoveryPort
    && IsPeer(w, w.scanners[c].host, service.address.ip, service.address.scope, w.servers[i].host)
    && service.address.port == w.servers[i].servicePort
  }

  // ---------------------------------------------------------------- the invariant

  predicate IsNode(w: World, node: Node) {
    match node
    case ServerNode(i) => i < |w.servers|
    case ScannerNode(c) => c < |w.scanners|
  }

  function HostOf(w: World, node: Node): Host
    requires IsNode(w, node)
  {
    match node
    case ServerNode(i) => w.servers[i].host
    case ScannerNode(c) => w.scanners[c].host
  }

  /**
   * What a node may send: a server its service port, a scanner the nonzero port of a collector it
   * has already bound.
   */
  predicate GoodSend(w: World, k: Collectors, sender: Node, port: U16, data: Bytes) {
    match sender
    case ServerNode(i) =>
      i < |w.servers| && port == w.servers[i].discoveryPort && data == AnnouncementData(w.servers[i].servicePort)
    case ScannerNode(c) =>
      && c < |w.scanners| && c < |k| && port == w.scanners[c].discoveryPort
      && k[c].Some? && k[c].value != 0 && data == RequestData(k[c].value)
  }

  predicate GoodDatagram(w: World, k: Collectors, d: Datagram) {
    && GoodSend(w, k, d.sender, d.port, d.data)
    && IsPeer(w, d.dest, d.source.ip, d.source.scope, HostOf(w, d.sender))
  }

  predicate GoodArrival(w: World, k: Collectors, d: Datagram, host: Host, port: U16) {
    GoodDatagram(w, k, d) && d.dest == host && d.port == port
  }

  /** A call goes from a server to the collector of a scanner on its discovery port. */
  predicate GoodCall(w: World, k: Collectors, i: nat, call: Call) {
    && i < |w.servers| && call.requester.ScannerNode?
    && var c := call.requester.index;
       && c < |w.scanners| && c < |k| && k[c].Some?
       && w.scanners[c].discoveryPort == w.servers[i].discoveryPort
       && call.response.servicePort == w.servers[i].servicePort
       && match AddressText.ParseUrl(call.response.url)
          case None => false
          case Some(endpoint) =>
            && IsPeer(w, w.servers[i].host, endpoint.ip, endpoint.scope, w.scanners[c].host)
            && k[c] == Some(endpoint.port)
  }

  ghost predicate GoodService(w: World, c: nat, service: Service) {
    exists i: nat :: IsServiceOf(w, c, service, i)
  }

  ghost predicate GoodServer(w: World, k: Collectors, i: nat, server: Server) {
    && i < |w.servers|
    && (forall d :: d in server.socket ==> GoodArrival(w, k, d, w.servers[i].host, w.servers[i].discoveryPort))
    && (forall call :: call in server.calls ==> GoodCall(w, k, i, call))
    && (!server.phase.Serving? ==> server.socket == multiset{})
    && (!server.phase.Serving? && !server.phase.Draining? ==> server.calls == multiset{})
  }

  ghost predicate GoodScanner(w: World, k: Collectors, c: nat, scanner: Scanner) {
    && c < |w.scanners|
    && (forall d :: d in scanner.socket ==> GoodArrival(w, k, d, w.scanners[c].host, w.scanners[c].discoveryPort))
    && (forall service :: service in scanner.channel ==> GoodService(w, c, service))
    && (forall service :: Found(service) in scanner.yielded ==> GoodService(w, c, service))
  }

  ghost predicate GoodNet(w: World, k: Collectors, net: multiset<Datagram>) {
    forall d :: d in net ==> GoodDatagram(w, k, d)
  }

  ghost predicate DistinctCollectors(w: World, k: Collectors) {
    && |k| == |w.scanners|
    && (forall c :: 0 <= c < |k| && k[c].Some? ==> k[c].value != 0)
    && (forall c, other ::
          (0 <= c < |k| && 0 <= other < |k| && k[c].Some? && k[c] == k[other]
           && w.scanners[c].host == w.scanners[other].host)
          ==> c == other)
  }

  ghost predicate Inv(w: World, s: State) {
    && Sized(w, s)
    && DistinctCollectors(w, s.collectors)
    && GoodNet(w, s.collectors, s.net)
    && (forall i :: 0 <= i < |s.servers| ==> GoodServer(w, s.collectors, i, s.servers[i]))
    && (forall c :: 0 <= c < |s.scanners| ==> GoodScanner(w, s.collectors, c, s.scanners[c]))
  }

  // ---------------------------------------------------------------- what peers make of a datagram

  lemma AnnouncementIsHeard(w: World, k: Collectors, d: Datagram)
    requires GoodDatagram(w, k, d) && d.sender.ServerNode?
    ensures Heard(d) == [Found(Service(d.source.(port := w.servers[d.sender.index].servicePort)))]
    ensures forall config :: StartedCalls(config, d) == multiset{}
  {
    hide Encode, Decode;
    RoundTrip(DiscoveryPacket(Some(Announcement(w.servers[d.sender.index].servicePort))));
  }

  lemma RequestStartsCall(config: ServerConfig, d: Datagram, port: U16)
    requires d.data == RequestData(port)
    ensures StartedCalls(config, d)
         == multiset{Call(d.sender, Response(AddressText.CollectorUrl(d.source, port), config.servicePort))}
    ensures Heard(d) == []
  {
    hide Encode, Decode, AddressText.CollectorUrl;
    RoundTrip(DiscoveryPacket(Some(Payload.Request(port))));
  }

  lemma RequestIsAnswered(w: World, k: Collectors, d: Datagram, i: nat)
    requires i < |w.servers| && d.sender.ScannerNode?
    requires GoodArrival(w, k, d, w.servers[i].host, w.servers[i].discoveryPort)
    ensures exists call ::
              StartedCalls(w.servers[i], d) == multiset{call} && call.requester == d.sender && GoodCall(w, k, i, call)
  {
    var port := k[d.sender.index].value;
    hide RequestData, StartedCalls, AddressText.CollectorUrl, AddressText.ParseUrl;
    RequestStartsCall(w.servers[i], d, port);
    AddressText.CollectorUrlReadsBack(d.source, port);
    var call := Call(d.sender, Response(AddressText.CollectorUrl(d.source, port), w.servers[i].servicePort));
    assert GoodCall(w, k, i, call);
  }

  lemma RequestIsNotHeard(w: World, k: Collectors, d: Datagram)
    requires GoodDatagram(w, k, d) && d.sender.ScannerNode?
    ensures Heard(d) == []
  {
    hide RequestData, Heard, StartedCalls;
    RequestStartsCall(ServerConfig(0, 0, 0), d, k[d.sender.index].value);
  }

  /** Two collectors are never confused: the call reaches the scanner that asked. */
  lemma CallReachesRequester(w: World, s: State, i: nat, call: Call, c: nat)
    requires Sized(w, s) && DistinctCollectors(w, s.collectors) && GoodCall(w, s.collectors, i, call)
    requires c < |w.scanners| && Reaches(w, s, i, call, c)
    ensures call.requester == ScannerNode(c)
  {
  }

  // ---------------------------------------------------------------- preservation

  lemma CopiesAreGood(w: World, k: Collectors, sender: Node, port: U16, data: Bytes,
                      via: map<Host, SocketAddrV6>, reach: set<Host>)
    requires GoodSend(w, k, sender, port, data) && Shown(w, HostOf(w, sender), reach, via)
    ensures GoodNet(w, k, Copies(sender, port, data, via))
  {
    forall d | d in Copies(sender, port, data, via) ensures GoodDatagram(w, k, d) {
      assert d.dest in via && d == Datagram(sender, via[d.dest], d.dest, port, data);
    }
  }

  lemma ServerSendsGood(w: World, s: State, i: nat, act: ServerAct)
    requires i < |w.servers| && i < |s.servers| && ServerEnabled(w, s, i, act)
    ensures GoodNet(w, s.collectors, ServerSends(w.servers[i], i, act))
  {
    var config, k := w.servers[i], s.collectors;
    var data := AnnouncementData(config.servicePort);
    hide AnnouncementData, Shown, Copies, PortIsFree, GoodDatagram;
    if act.Multicast? {
      CopiesAreGood(w, k, ServerNode(i), config.discoveryPort, data, act.via, Group(w, config.host));
    } else if act.Unicast? {
      CopiesAreGood(w, k, ServerNode(i), config.discoveryPort, data, act.via,
                    UnicastReach(w, config.host, act.address));
    }
  }

  lemma HandleKeepsGood(w: World, k: Collectors, i: nat, server: Server, d: Datagram)
    requires GoodServer(w, k, i, server) && server.phase.Serving? && d in server.socket
    ensures GoodServer(w, k, i, Handled(w.servers[i], server, d))
  {
    hide StartedCalls, GoodCall;
    if d.sender.ServerNode? {
      AnnouncementIsHeard(w, k, d);
    } else {
      RequestIsAnswered(w, k, d, i);
    }
    hide GoodDatagram;
  }

  /** A server that is not serving any more has no socket, and one that has not served has no calls. */
  lemma PhaseFits(w: World, s: State, i: nat, act: ServerAct)
    requires i < |w.servers| && i < |s.servers| && ServerEnabled(w, s, i, act) && !act.Handle? && !IsFailure(act)
    ensures var phase, phase' := s.servers[i].phase, ServerAfter(w.servers[i], s.servers[i], act).phase;
            && (phase.Serving? <==> act.StreamEnds?) && (phase.Draining? ==> s.servers[i].calls == multiset{})
            && (phase'.Draining? <==> act.StreamEnds?)
  {
    hide Shown, PortIsFree, SocketAddresses;
  }

  lemma OtherActKeepsGood(w: World, s: State, i: nat, act: ServerAct)
    requires i < |w.servers| && i < |s.servers| && GoodServer(w, s.collectors, i, s.servers[i])
    requires ServerEnabled(w, s, i, act) && !act.Handle?
    ensures GoodServer(w, s.collectors, i, ServerAfter(w.servers[i], s.servers[i], act))
  {
    hide GoodCall, GoodArrival, ServerEnabled, ServerAfter;
    OtherActs(w.servers[i], s.servers[i], act);
    if !IsFailure(act) {
      PhaseFits(w, s, i, act);
    }
  }

  lemma ServerStepKeepsGood(w: World, s: State, i: nat, act: ServerAct)
    requires Inv(w, s) && i < |w.servers| && ServerEnabled(w, s, i, act)
    ensures GoodServer(w, s.collectors, i, ServerAfter(w.servers[i], s.servers[i], act))
  {
    assert Sized(w, s) && GoodServer(w, s.collectors, i, s.servers[i]);
    hide Inv, GoodServer, Handled, ServerEnabled, ServerAfter;
    if act.Handle? {
      HandleActs(w, s, i, act.datagram);
      HandleKeepsGood(w, s.collectors, i, s.servers[i], act.datagram);
    } else {
      OtherActKeepsGood(w, s, i, act);
    }
  }

  lemma HeardIsGood(w: World, k: Collectors, c: nat, d: Datagram)
    requires c < |w.scanners| && GoodArrival(w, k, d, w.scanners[c].host, w.scanners[c].discoveryPort)
    ensures forall service :: Found(service) in Heard(d) ==>
              d.sender.ServerNode? && IsServiceOf(w, c, service, d.sender.index)
  {
    if d.sender.ServerNode? {
      AnnouncementIsHeard(w, k, d);
    } else {
      RequestIsNotHeard(w, k, d);
    }
  }

  lemma ScannerSendsGood(w: World, s: State, c: nat, act: ScannerAct)
    requires Inv(w, s) && c < |w.scanners| && ScannerEnabled(w, s, c, act)
    ensures GoodNet(w, s.collectors, ScannerSends(w.scanners[c], c, CollectorPort(s, c), act))
  {
    var config, k := w.scanners[c], s.collectors;
    var data := RequestData(CollectorPort(s, c));
    hide RequestData, Shown, Copies, PortIsFree, GoodDatagram, GoodServer, GoodScanner, GoodNet;
    assert GoodSend(w, k, ScannerNode(c), config.discoveryPort, data);
    assert !act.Request? && !act.RequestNext? ==>
        GoodNet(w, k, ScannerSends(config, c, CollectorPort(s, c), act)) by { NothingIsGood(w, k); }
    if act.Request? {
      CopiesAreGood(w, k, ScannerNode(c), config.discoveryPort, data, act.via, Group(w, config.host));
    } else if act.RequestNext? {
      CopiesAreGood(w, k, ScannerNode(c), config.discoveryPort, data, act.via,
                    UnicastReach(w, config.host, s.scanners[c].sending.remaining[0]));
    }
  }

  lemma NothingIsGood(w: World, k: Collectors)
    ensures GoodNet(w, k, multiset{})
  {}

  lemma HearKeepsGood(w: World, k: Collectors, c: nat, scanner: Scanner, d: Datagram)
    requires GoodScanner(w, k, c, scanner) && d in scanner.socket
    ensures GoodScanner(w, k, c, Yield(scanner.(socket := scanner.socket - multiset{d}), Heard(d)))
  {
    hide Heard, GoodDatagram;
    HeardIsGood(w, k, c, d);
  }

  lemma OtherScannerActKeepsGood(w: World, s: State, c: nat, act: ScannerAct)
    requires Sized(w, s) && c < |w.scanners| && GoodScanner(w, s.collectors, c, s.scanners[c])
    requires ScannerEnabled(w, s, c, act) && !act.Hear?
    ensures GoodScanner(w, s.collectors, c, ScannerAfter(w.scanners[c], s.scanners[c], act))
  {
    hide GoodArrival, GoodService, Shown, PortIsFree, SocketAddresses;
  }

  lemma ScannerStepKeepsGood(w: World, s: State, c: nat, act: ScannerAct)
    requires Inv(w, s) && c < |w.scanners| && ScannerEnabled(w, s, c, act)
    ensures GoodScanner(w, s.collectors, c, ScannerAfter(w.scanners[c], s.scanners[c], act))
  {
    assert Sized(w, s) && GoodScanner(w, s.collectors, c, s.scanners[c]);
    hide Inv, GoodScanner, Heard, Yield, ScannerEnabled, ScannerAfter;
    if act.Hear? {
      HearActs(w, s, c, act.datagram);
      HearKeepsGood(w, s.collectors, c, s.scanners[c], act.datagram);
    } else {
      OtherScannerActKeepsGood(w, s, c, act);
    }
  }

  lemma AcceptKeepsGood(w: World, k: Collectors, c: nat, scanner: Scanner, from: SocketAddrV6, i: nat)
    requires GoodScanner(w, k, c, scanner) && i < |w.servers|
    requires w.servers[i].discoveryPort == w.scanners[c].discoveryPort
    requires IsPeer(w, w.scanners[c].host, from.ip, from.scope, w.servers[i].host)
    ensures GoodScanner(w, k, c, Accept(scanner, from, w.servers[i].servicePort))
  {
    hide GoodDatagram;
    var verdict := ResponseCollector.Validate(Some(V6(from)), w.servers[i].servicePort);
    if verdict.Ok? {
      assert IsServiceOf(w, c, verdict.value, i);
    }
  }

  lemma SubmitKeepsGood(w: World, s: State, i: nat, call: Call, c: nat, from: SocketAddrV6)
    requires Inv(w, s) && Enabled(w, s, Submit(i, call, c, from))
    ensures GoodScanner(w, s.collectors, c, Accept(s.scanners[c], from, call.response.servicePort))
  {
    assert Sized(w, s);
    hide Enabled, Apply, AddressText.ParseUrl, Accept;
    SubmitApplies(w, s, i, call, c, from);
    assert GoodServer(w, s.collectors, i, s.servers[i]);
    CallReachesRequester(w, s, i, call, c);
    AcceptKeepsGood(w, s.collectors, c, s.scanners[c], from, i);
  }

  lemma BindKeepsGood(w: World, s: State, c: nat, port: U16)
    requires Inv(w, s) && Enabled(w, s, BindCollector(c, port))
    ensures Inv(w, Apply(w, s, BindCollector(c, port)))
  {
    hide Enabled, Apply, GoodSend, GoodService;
    BindApplies(w, s, c, port);
    var k, k' := s.collectors, s.collectors[c := Some(port)];
    var s' := Apply(w, s, BindCollector(c, port));
    forall d | GoodDatagram(w, k, d) ensures GoodDatagram(w, k', d) {
      BindKeepsSends(w, k, c, port, d);
    }
    hide GoodDatagram;
    forall i, call | GoodCall(w, k, i, call) ensures GoodCall(w, k', i, call) {
    }
    hide GoodCall;
    forall i | 0 <= i < |s'.servers| ensures GoodServer(w, k', i, s'.servers[i]) {
      assert GoodServer(w, k, i, s.servers[i]);
    }
    forall o | 0 <= o < |s'.scanners| ensures GoodScanner(w, k', o, s'.scanners[o]) {
      assert GoodScanner(w, k, o, s.scanners[o]);
    }
  }

  lemma BindKeepsSends(w: World, k: Collectors, c: nat, port: U16, d: Datagram)
    requires c < |k| && k[c].None? && GoodDatagram(w, k, d)
    ensures GoodDatagram(w, k[c := Some(port)], d)
  {}

  /** A step that changes one server, one scanner and the network, each for a good one. */
  lemma Reassemble(w: World, s: State, s': State)
    requires Inv(w, s) && Sized(w, s') && s'.collectors == s.collectors && GoodNet(w, s.collectors, s'.net)
    requires forall i :: 0 <= i < |s.servers| ==>
               s'.servers[i] == s.servers[i] || GoodServer(w, s.collectors, i, s'.servers[i])
    requires forall c :: 0 <= c < |s.scanners| ==>
               s'.scanners[c] == s.scanners[c] || GoodScanner(w, s.collectors, c, s'.scanners[c])
    ensures Inv(w, s')
  {
    hide GoodServer, GoodScanner, GoodNet, DistinctCollectors;
  }

  lemma LocalStepKeepsInv(w: World, s: State, step: Step)
    requires Inv(w, s) && Enabled(w, s, step) && (step.ServerStep? || step.ScannerStep?)
    ensures Inv(w, Apply(w, s, step))
  {
    assert Sized(w, s) && GoodNet(w, s.collectors, s.net);
    hide Inv, Enabled, Apply, GoodServer, GoodScanner, GoodDatagram;
    if step.ServerStep? {
      ServerApplies(w, s, step.server, step.serverAct);
      ServerStepKeepsGood(w, s, step.server, step.serverAct);
      ServerSendsGood(w, s, step.server, step.serverAct);
    } else {
      ScannerApplies(w, s, step.scanner, step.scannerAct);
      ScannerStepKeepsGood(w, s, step.scanner, step.scannerAct);
      ScannerSendsGood(w, s, step.scanner, step.scannerAct);
    }
    hide ServerAfter, ScannerAfter, ServerSends, ScannerSends, ServerEnabled, ScannerEnabled;
    Reassemble(w, s, Apply(w, s, step));
  }

  lemma EndCallKeepsGood(w: World, k: Collectors, i: nat, server: Server, call: Call)
    requires GoodServer(w, k, i, server)
    ensures GoodServer(w, k, i, EndCall(server, call))
  {}

  lemma SubmitStepKeepsInv(w: World, s: State, i: nat, call: Call, c: nat, from: SocketAddrV6)
    requires Inv(w, s) && Enabled(w, s, Submit(i, call, c, from))
    ensures Inv(w, Apply(w, s, Submit(i, call, c, from)))
  {
    hide Enabled, Apply, Accept, EndCall;
    SubmitApplies(w, s, i, call, c, from);
    EndCallKeepsGood(w, s.collectors, i, s.servers[i], call);
    SubmitKeepsGood(w, s, i, call, c, from);
    hide GoodServer, GoodScanner, GoodNet, DistinctCollectors;
    Reassemble(w, s, Apply(w, s, Submit(i, call, c, from)));
  }

  lemma CallFailsKeepsInv(w: World, s: State, i: nat, call: Call)
    requires Inv(w, s) && Enabled(w, s, CallFails(i, call))
    ensures Inv(w, Apply(w, s, CallFails(i, call)))
  {
    assert Sized(w, s) && GoodNet(w, s.collectors, s.net);
    hide Enabled, Apply, EndCall, GoodServer, GoodNet;
    CallFailsApplies(w, s, i, call);
    EndCallKeepsGood(w, s.collectors, i, s.servers[i], call);
    hide Inv;
    Reassemble(w, s, Apply(w, s, CallFails(i, call)));
  }

  lemma ServerTakesGood(w: World, k: Collectors, i: nat, server: Server, d: Datagram)
    requires GoodServer(w, k, i, server) && server.phase.Serving?
    requires GoodArrival(w, k, d, w.servers[i].host, w.servers[i].discoveryPort)
    ensures GoodServer(w, k, i, server.(socket := server.socket + multiset{d}))
  {}

  lemma ScannerTakesGood(w: World, k: Collectors, c: nat, scanner: Scanner, d: Datagram)
    requires GoodScanner(w, k, c, scanner) && GoodArrival(w, k, d, w.scanners[c].host, w.scanners[c].discoveryPort)
    ensures GoodScanner(w, k, c, scanner.(socket := scanner.socket + multiset{d}))
  {}

  lemma ServerDeliveryKeepsInv(w: World, s: State, d: Datagram, i: nat)
    requires Inv(w, s) && d in s.net && Listening(w, s, ServerNode(i), d.dest, d.port)
    ensures Inv(w, Deliver(s.(net := s.net - multiset{d}), d, ServerNode(i)))
  {
    assert Sized(w, s) && GoodServer(w, s.collectors, i, s.servers[i]) && GoodNet(w, s.collectors, s.net);
    hide Inv, GoodServer, GoodDatagram;
    ServerTakesGood(w, s.collectors, i, s.servers[i], d);
    Reassemble(w, s, Deliver(s.(net := s.net - multiset{d}), d, ServerNode(i)));
  }

  lemma ScannerDeliveryKeepsInv(w: World, s: State, d: Datagram, c: nat)
    requires Inv(w, s) && d in s.net && Listening(w, s, ScannerNode(c), d.dest, d.port)
    ensures Inv(w, Deliver(s.(net := s.net - multiset{d}), d, ScannerNode(c)))
  {
    assert Sized(w, s) && GoodScanner(w, s.collectors, c, s.scanners[c]) && GoodNet(w, s.collectors, s.net);
    hide Inv, GoodScanner, GoodDatagram;
    ScannerTakesGood(w, s.collectors, c, s.scanners[c], d);
    Reassemble(w, s, Deliver(s.(net := s.net - multiset{d}), d, ScannerNode(c)));
  }

  lemma DeliveryKeepsInv(w: World, s: State, d: Datagram, node: Node)
    requires Inv(w, s) && Enabled(w, s, Arrive(d, node))
    ensures Inv(w, Apply(w, s, Arrive(d, node)))
  {
    assert Sized(w, s);
    hide Inv, Enabled, Apply, Deliver, Listening;
    ArriveApplies(w, s, d, node);
    match node
    case ServerNode(i) => ServerDeliveryKeepsInv(w, s, d, i);
    case ScannerNode(c) => ScannerDeliveryKeepsInv(w, s, d, c);
  }

  lemma NetworkKeepsInv(w: World, s: State, step: Step)
    requires Inv(w, s) && Enabled(w, s, step) && IsNetworkStep(step)
    ensures Inv(w, Apply(w, s, step))
  {
    assert Sized(w, s) && GoodNet(w, s.collectors, s.net);
    hide Enabled, Apply, Inv, GoodDatagram;
    NetworkApplies(w, s, step);
    Reassemble(w, s, Apply(w, s, step));
  }

  lemma BindFailsKeepsInv(w: World, s: State, c: nat, e: IoError)
    requires Inv(w, s) && Enabled(w, s, BindCollectorFails(c, e))
    ensures Inv(w, Apply(w, s, BindCollectorFails(c, e)))
  {
    assert Sized(w, s) && GoodNet(w, s.collectors, s.net);
    hide Enabled, Apply, GoodServer, GoodDatagram, GoodNet, GoodService;
    BindFailsApplies(w, s, c, e);
    var s' := Apply(w, s, BindCollectorFails(c, e));
    assert GoodScanner(w, s.collectors, c, s.scanners[c]);
    assert GoodScanner(w, s.collectors, c, s'.scanners[c]);
    hide Inv, GoodScanner;
    Reassemble(w, s, s');
  }

  lemma StepKeepsInv(w: World, s: State, step: Step)
    requires Inv(w, s) && Enabled(w, s, step)
    ensures Inv(w, Apply(w, s, step))
  {
    hide Inv, Enabled, Apply;
    match step
    case BindCollector(c, port) => BindKeepsGood(w, s, c, port);
    case BindCollectorFails(c, e) => BindFailsKeepsInv(w, s, c, e);
    case Arrive(d, node) => DeliveryKeepsInv(w, s, d, node);
    case ServerStep(_, _) => LocalStepKeepsInv(w, s, step);
    case ScannerStep(_, _) => LocalStepKeepsInv(w, s, step);
    case Submit(i, call, c, from) => SubmitStepKeepsInv(w, s, i, call, c, from);
    case CallFails(i, call) => CallFailsKeepsInv(w, s, i, call);
    case _ => NetworkKeepsInv(w, s, step);
  }

  lemma InvAtFirst(w: World, faults: nat, run: Run)
    requires IsRun(w, faults, run)
    ensures Inv(w, StateAt(w, faults, run, 0))
  {}

  lemma {:induction false} RunKeepsInv(w: World, faults: nat, run: Run, k: nat)
    requires IsRun(w, faults, run) && k <= |run.steps|
    ensures Inv(w, StateAt(w, faults, run, k))
    decreases k
  {
    hide IsRun, StateAt, Inv, Enabled, Apply;
    if k == 0 {
      InvAtFirst(w, faults, run);
    } else {
      RunKeepsInv(w, faults, run, k - 1);
      StepAt(w, faults, run, k - 1);
      StepKeepsInv(w, StateAt(w, faults, run, k - 1), run.steps[k - 1]);
    }
  }

  // ---------------------------------------------------------------- the theorems

  /** Every service a scanner yields is that of a server on its discovery port. */
  lemma Soundness(w: World, faults: nat, run: Run, c: nat, service: Service)
    requires IsRun(w, faults, run) && c < |w.scanners|
    requires Found(service) in Final(w, faults, run).scanners[c].yielded
    ensures exists i: nat :: IsServiceOf(w, c, service, i)
  {
    RunKeepsInv(w, faults, run, |run.steps|);
    assert GoodScanner(w, Final(w, faults, run).collectors, c, Final(w, faults, run).scanners[c]);
  }

  /** Each request in flight or in a socket carries the nonzero port of its scanner's bound collector. */
  lemma CollectorBeforeRequest(w: World, faults: nat, run: Run, d: Datagram)
    requires IsRun(w, faults, run) && d.sender.ScannerNode?
    requires var s := Final(w, faults, run);
             || d in s.net
             || (exists i :: 0 <= i < |s.servers| && d in s.servers[i].socket)
             || (exists c :: 0 <= c < |s.scanners| && d in s.scanners[c].socket)
    ensures var s := Final(w, faults, run);
            var c := d.sender.index;
            && c < |s.collectors| && s.collectors[c].Some? && s.collectors[c].value != 0
            && Decode(d.data) == Ok(Some(DiscoveryPacket(Some(Payload.Request(s.collectors[c].value)))))
  {
    RunKeepsInv(w, faults, run, |run.steps|);
    var s := Final(w, faults, run);
    assert forall i :: 0 <= i < |s.servers| ==> GoodServer(w, s.collectors, i, s.servers[i]);
    assert forall c :: 0 <= c < |s.scanners| ==> GoodScanner(w, s.collectors, c, s.scanners[c]);
    assert GoodDatagram(w, s.collectors, d);
    RoundTrip(DiscoveryPacket(Some(Payload.Request(s.collectors[d.sender.index].value))));
  }

  /** No handler of a participant's request fails before its call: the port is always in range. */
  lemma RequestsNeverFail(w: World, faults: nat, run: Run, i: nat, d: Datagram)
    requires IsRun(w, faults, run) && i < |w.servers|
    requires d in Final(w, faults, run).servers[i].socket && d.sender.ScannerNode?
    ensures |StartedCalls(w.servers[i], d)| == 1
  {
    RunKeepsInv(w, faults, run, |run.steps|);
    var s := Final(w, faults, run);
    assert GoodServer(w, s.collectors, i, s.servers[i]);
    hide Inv, StartedCalls, GoodCall;
    RequestIsAnswered(w, s.collectors, d, i);
  }
}
