/**
 * The gap is real: for all ports and addresses there is a run, without loss and without failure,
 * in which a scanner never finds a server that it reaches and that reaches it.
 */
module DiscoveryMiss {
  import opened Wrappers
  import opened Net
  import opened Wire
  import opened Packets
  import opened Neighbors
  import opened Discovery
  import opened DiscoveryConservation
  import opened DiscoveryCompleteness

  /** One server and one scanner, the ports they use, and where each sees the other. */
  datatype Pair = Pair(
    discoveryPort: U16, servicePort: U16, collectorPort: U16, server: SocketAddrV6, scanner: SocketAddrV6)
  {
    /** They reach each other by unicast and by multicast. */
    function AsWorld(): World {
      World([ServerConfig(0, discoveryPort, servicePort)], [ScannerConfig(1, discoveryPort)],
            map[(1, server.ip, server.scope) := 0, (0, scanner.ip, scanner.scope) := 1],
            map[0 := {1}, 1 := {0}])
    }
  }

  lemma OneCopy(sender: Node, port: U16, data: Bytes, host: Host, address: SocketAddrV6)
    ensures Copies(sender, port, data, map[host := address]) == multiset{Datagram(sender, address, host, port, data)}
  {
    var via := map[host := address];
    assert host in via && via[host] == address;
    assert (set h | h in via :: Datagram(sender, via[h], h, port, data))
        == {Datagram(sender, address, host, port, data)};
  }

  ghost predicate Leads(w: World, s: State, step: Step, s': State) {
    Next(w, s, step, s') && Undisturbed(step) && !step.Lose?
  }

  /** A run without loss or disturbance to this state. */
  ghost predicate LeadsTo(w: World, run: Run, s: State) {
    IsRun(w, 0, run) && Final(w, 0, run) == s && forall step :: step in run.steps ==> Undisturbed(step) && !step.Lose?
  }

  lemma LeadOn(w: World, run: Run, s: State, step: Step, s': State) returns (run': Run)
    requires LeadsTo(w, run, s) && Leads(w, s, step, s')
    ensures LeadsTo(w, run', s')
  {
    hide Enabled, Apply, Undisturbed, IsRun, Final;
    run' := ExtendRun(w, 0, run, step);
  }

  // ---------------------------------------------------------------- the states of the run

  function Begins(p: Pair): State {
    Init(p.AsWorld(), 0)
  }

  function Scans(p: Pair): State {
    Begins(p).(servers := [Server(Scanned([]), multiset{}, multiset{})])
  }

  /** The server is about to bind the port; before, its announcement went to nobody. */
  function Announced(p: Pair, net: multiset<Datagram>): State {
    Begins(p).(servers := [Server(Announcing(multiset{}), multiset{}, multiset{})], net := net)
  }

  function Collects(p: Pair): State {
    Announced(p, multiset{}).(scanners := [Scanner(Unsent, Unbound, true, false, multiset{}, [], [])],
                              collectors := [Some(p.collectorPort)])
  }

  /** The scanner listens and is this far with its requests; the server does not serve yet. */
  function Asks(p: Pair, sending: Sending, net: multiset<Datagram>): State {
    Announced(p, net).(scanners := [Scanner(sending, Bound, true, false, multiset{}, [], [])],
                       collectors := [Some(p.collectorPort)])
  }

  /** The scanner has asked and listens, the server serves, and neither has heard the other. */
  function Missed(p: Pair): State {
    Asks(p, Done, multiset{}).(servers := [Server(Serving, multiset{}, multiset{})])
  }

  // ---------------------------------------------------------------- its steps

  lemma FindStep(p: Pair)
    requires p.discoveryPort != 0
    ensures Leads(p.AsWorld(), Begins(p), ServerStep(0, FindNeighbors([])), Scans(p))
  {}

  lemma AnnounceStep(p: Pair) returns (d: Datagram)
    ensures Leads(p.AsWorld(), Scans(p), ServerStep(0, Multicast(map[1 := p.server])), Announced(p, multiset{d}))
  {
    assert SocketAddresses([], p.discoveryPort) == [];
    OneCopy(ServerNode(0), p.discoveryPort, AnnouncementData(p.servicePort), 1, p.server);
    hide AnnouncementData, SocketAddresses, Copies;
    d := Datagram(ServerNode(0), p.server, 1, p.discoveryPort, AnnouncementData(p.servicePort));
  }

  lemma AnnouncementVanishes(p: Pair, d: Datagram)
    ensures Leads(p.AsWorld(), Announced(p, multiset{d}), Vanish(d), Announced(p, multiset{}))
  {}

  lemma ListenSteps(p: Pair)
    requires p.discoveryPort != 0 && p.collectorPort != 0
    ensures Leads(p.AsWorld(), Announced(p, multiset{}), BindCollector(0, p.collectorPort), Collects(p))
    ensures Leads(p.AsWorld(), Collects(p), ScannerStep(0, Subscribe), Asks(p, Unsent, multiset{}))
  {}

  lemma AskStep(p: Pair) returns (d: Datagram)
    requires p.discoveryPort != 0
    ensures d.dest == 0
    ensures Leads(p.AsWorld(), Asks(p, Unsent, multiset{}), ScannerStep(0, ScannerAct.Request(map[0 := p.scanner])),
                  Asks(p, MulticastSent, multiset{d}))
  {
    OneCopy(ScannerNode(0), p.discoveryPort, RequestData(p.collectorPort), 0, p.scanner);
    hide RequestData, Copies;
    d := Datagram(ScannerNode(0), p.scanner, 0, p.discoveryPort, RequestData(p.collectorPort));
  }

  lemma RequestVanishes(p: Pair, d: Datagram)
    requires d.dest == 0
    ensures Leads(p.AsWorld(), Asks(p, MulticastSent, multiset{d}), Vanish(d), Asks(p, MulticastSent, multiset{}))
  {}

  lemma AskedSteps(p: Pair)
    requires p.discoveryPort != 0
    ensures Leads(p.AsWorld(), Asks(p, MulticastSent, multiset{}), ScannerStep(0, Scan([])),
                  Asks(p, Unicasting([]), multiset{}))
    ensures Leads(p.AsWorld(), Asks(p, Unicasting([]), multiset{}), ScannerStep(0, RequestsDone),
                  Asks(p, Done, multiset{}))
  {
    assert SocketAddresses([], p.discoveryPort) == [];
    hide SocketAddresses;
  }

  lemma ServeStep(p: Pair)
    ensures Leads(p.AsWorld(), Asks(p, Done, multiset{}), ServerStep(0, Bind), Missed(p))
  {}

  lemma Starts(p: Pair) returns (run: Run)
    ensures LeadsTo(p.AsWorld(), run, Begins(p))
  {
    run := Run([], [Begins(p)]);
  }

  /** The server announces to nobody; then the scanner binds its collector and listens. */
  lemma AnnouncesInVain(p: Pair) returns (run: Run)
    requires p.discoveryPort != 0 && p.collectorPort != 0
    ensures LeadsTo(p.AsWorld(), run, Asks(p, Unsent, multiset{}))
  {
    var w := p.AsWorld();
    run := Starts(p);
    hide LeadsTo, Leads, Pair.AsWorld, Begins, Scans, Announced, Collects, Asks;
    FindStep(p);
    var announcement := AnnounceStep(p);
    run := LeadOn(w, run, Begins(p), ServerStep(0, FindNeighbors([])), Scans(p));
    run := LeadOn(w, run, Scans(p), ServerStep(0, Multicast(map[1 := p.server])), Announced(p, multiset{announcement}));
    run := ThenListens(p, announcement, run);
  }

  lemma ThenListens(p: Pair, announcement: Datagram, before: Run) returns (run: Run)
    requires p.discoveryPort != 0 && p.collectorPort != 0
    requires LeadsTo(p.AsWorld(), before, Announced(p, multiset{announcement}))
    ensures LeadsTo(p.AsWorld(), run, Asks(p, Unsent, multiset{}))
  {
    var w := p.AsWorld();
    hide LeadsTo, Leads, Pair.AsWorld, Announced, Collects, Asks;
    AnnouncementVanishes(p, announcement);
    ListenSteps(p);
    run := LeadOn(w, before, Announced(p, multiset{announcement}), Vanish(announcement), Announced(p, multiset{}));
    run := LeadOn(w, run, Announced(p, multiset{}), BindCollector(0, p.collectorPort), Collects(p));
    run := LeadOn(w, run, Collects(p), ScannerStep(0, Subscribe), Asks(p, Unsent, multiset{}));
  }

  /** The scanner asks nobody; then the server serves. */
  lemma AsksInVain(p: Pair, before: Run) returns (run: Run)
    requires p.discoveryPort != 0 && LeadsTo(p.AsWorld(), before, Asks(p, Unsent, multiset{}))
    ensures LeadsTo(p.AsWorld(), run, Missed(p))
  {
    var w := p.AsWorld();
    hide LeadsTo, Leads, Pair.AsWorld, Asks, Missed;
    var request := AskStep(p);
    RequestVanishes(p, request);
    AskedSteps(p);
    ServeStep(p);
    run := LeadOn(w, before, Asks(p, Unsent, multiset{}), ScannerStep(0, ScannerAct.Request(map[0 := p.scanner])),
                  Asks(p, MulticastSent, multiset{request}));
    run := LeadOn(w, run, Asks(p, MulticastSent, multiset{request}), Vanish(request),
                  Asks(p, MulticastSent, multiset{}));
    run := LeadOn(w, run, Asks(p, MulticastSent, multiset{}), ScannerStep(0, Scan([])),
                  Asks(p, Unicasting([]), multiset{}));
    run := LeadOn(w, run, Asks(p, Unicasting([]), multiset{}), ScannerStep(0, RequestsDone), Asks(p, Done, multiset{}));
    run := LeadOn(w, run, Asks(p, Done, multiset{}), ServerStep(0, Bind), Missed(p));
  }

  /**
   * For every port and every address, a server and a scanner that reach each other have such a
   * run: it is settled, undisturbed and without loss, both sides are up and have sent all they
   * ever send, and yet nothing is yielded. The scanner even listens before it asks.
   */
  lemma MissIsReachable(p: Pair) returns (run: Run)
    requires p.discoveryPort != 0 && p.collectorPort != 0
    ensures 1 in Group(p.AsWorld(), 0) && IsPeer(p.AsWorld(), 1, p.server.ip, p.server.scope, 0)
    ensures 0 in Group(p.AsWorld(), 1) && IsPeer(p.AsWorld(), 0, p.scanner.ip, p.scanner.scope, 1)
    ensures LeadsTo(p.AsWorld(), run, Missed(p)) && Settled(Missed(p))
    ensures forall port :: !YieldsAt(p.AsWorld(), Missed(p), 0, 0, port)
  {
    assert Settled(Missed(p)) && Missed(p).scanners[0].yielded == [];
    hide LeadsTo, Asks, Missed, Settled;
    run := AnnouncesInVain(p);
    run := AsksInVain(p, run);
  }
}
