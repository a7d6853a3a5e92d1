/**
 * Quiescence: every run comes to an end. Each step lowers, in lexicographic order, the faults the
 * network has left, the stages participants have left, the sends they have planned, and the load
 * in flight, where a delivered request is worth one call and a call one queued service.
 */
module DiscoveryQuiescence {
  import opened Wrappers
  import opened Net
  import opened Wire
  import opened Packets
  import opened Discovery
  import ResponseCollector

  datatype Metric = Stages | PlannedSends | Load

  function ServerMetric(m: Metric, server: Server): nat {
    match m
    case Stages =>
      (match server.phase
       case Starting => 5
       case Scanned(_) => 4
       case Announcing(_) => 3
       case Serving => 2
       case Draining => 1
       case Finished(_) => 0)
    case PlannedSends => if server.phase.Announcing? then |server.phase.pending| else 0
    case Load => 3 * |server.socket| + 2 * |server.calls|
  }

  function ScannerMetric(m: Metric, scanner: Scanner, collector: Option<U16>): nat {
    match m
    case Stages =>
      (if collector.None? then 2 else 0)
      + (if scanner.accepting then 1 else 0)
      + (if scanner.ended then 0 else 1)
      + (match scanner.listen case Unbound => 2 case Bound => 1 case Closed => 0)
      + (match scanner.sending case Unsent => 3 case MulticastSent => 2 case Unicasting(_) => 1 case Done => 0)
    case PlannedSends => if scanner.sending.Unicasting? then |scanner.sending.remaining| else 0
    case Load => 3 * |scanner.socket| + |scanner.channel|
  }

  function AllServers(m: Metric, servers: seq<Server>): nat {
    if servers == [] then 0 else ServerMetric(m, servers[0]) + AllServers(m, servers[1..])
  }

  function AllScanners(m: Metric, scanners: seq<Scanner>, collectors: seq<Option<U16>>): nat
    requires |scanners| == |collectors|
  {
    if scanners == [] then 0
    else ScannerMetric(m, scanners[0], collectors[0]) + AllScanners(m, scanners[1..], collectors[1..])
  }

  function Total(m: Metric, s: State): nat
    requires |s.scanners| == |s.collectors|
  {
    AllServers(m, s.servers) + AllScanners(m, s.scanners, s.collectors) + if m.Load? then 4 * |s.net| else 0
  }

  ghost predicate Lower(s: State, s': State)
    requires |s.scanners| == |s.collectors| && |s'.scanners| == |s'.collectors|
  {
    || s'.faults < s.faults
    || (s'.faults == s.faults
        && (|| Total(Stages, s') < Total(Stages, s)
            || (Total(Stages, s') == Total(Stages, s)
                && (|| Total(PlannedSends, s') < Total(PlannedSends, s)
                    || (Total(PlannedSends, s') == Total(PlannedSends, s) && Total(Load, s') < Total(Load, s))))))
  }

  lemma {:induction false} UpdateServer(m: Metric, servers: seq<Server>, i: nat, server: Server)
    requires i < |servers|
    ensures AllServers(m, servers[i := server]) + ServerMetric(m, servers[i])
         == AllServers(m, servers) + ServerMetric(m, server)
  {
    if i == 0 {
      assert servers[i := server][1..] == servers[1..];
    } else {
      assert servers[i := server][1..] == servers[1..][i - 1 := server];
      UpdateServer(m, servers[1..], i - 1, server);
    }
  }

  lemma {:induction false} UpdateScanner(m: Metric, scanners: seq<Scanner>, collectors: seq<Option<U16>>, c: nat,
                                         scanner: Scanner, collector: Option<U16>)
    requires c < |scanners| == |collectors|
    ensures AllScanners(m, scanners[c := scanner], collectors[c := collector])
            + ScannerMetric(m, scanners[c], collectors[c])
         == AllScanners(m, scanners, collectors) + ScannerMetric(m, scanner, collector)
  {
    if c == 0 {
      assert scanners[c := scanner][1..] == scanners[1..];
      assert collectors[c := collector][1..] == collectors[1..];
    } else {
      assert scanners[c := scanner][1..] == scanners[1..][c - 1 := scanner];
      assert collectors[c := collector][1..] == collectors[1..][c - 1 := collector];
      UpdateScanner(m, scanners[1..], collectors[1..], c - 1, scanner, collector);
    }
  }

  /** How the totals move when one server, one scanner and the network change. */
  lemma Update(s: State, s': State, i: nat, c: nat)
    requires |s.scanners| == |s.collectors| && |s'.scanners| == |s'.collectors|
    requires i < |s.servers| ==> |s'.servers| == |s.servers| && s'.servers == s.servers[i := s'.servers[i]]
    requires i >= |s.servers| ==> s'.servers == s.servers
    requires c < |s.scanners| ==>
               |s'.scanners| == |s.scanners| && s'.scanners == s.scanners[c := s'.scanners[c]]
               && s'.collectors == s.collectors[c := s'.collectors[c]]
    requires c >= |s.scanners| ==> s'.scanners == s.scanners && s'.collectors == s.collectors
    ensures forall m :: Total(m, s') + (if i < |s.servers| then ServerMetric(m, s.servers[i]) else 0)
                        + (if c < |s.scanners| then ScannerMetric(m, s.scanners[c], s.collectors[c]) else 0)
                        + (if m.Load? then 4 * |s.net| else 0)
                     == Total(m, s) + (if i < |s.servers| then ServerMetric(m, s'.servers[i]) else 0)
                        + (if c < |s.scanners| then ScannerMetric(m, s'.scanners[c], s'.collectors[c]) else 0)
                        + (if m.Load? then 4 * |s'.net| else 0)
  {
    hide ServerMetric, ScannerMetric;
    forall m: Metric
      ensures i < |s.servers| ==> (AllServers(m, s'.servers) + ServerMetric(m, s.servers[i])
                                == AllServers(m, s.servers) + ServerMetric(m, s'.servers[i]))
    {
      if i < |s.servers| {
        UpdateServer(m, s.servers, i, s'.servers[i]);
      }
    }
    forall m: Metric
      ensures c < |s.scanners| ==>
                (AllScanners(m, s'.scanners, s'.collectors) + ScannerMetric(m, s.scanners[c], s.collectors[c])
              == AllScanners(m, s.scanners, s.collectors) + ScannerMetric(m, s'.scanners[c], s'.collectors[c]))
    {
      if c < |s.scanners| {
        UpdateScanner(m, s.scanners, s.collectors, c, s'.scanners[c], s'.collectors[c]);
      }
    }
  }

  /** A delivered request starts at most one call; announcements and junk start none. */
  lemma AtMostOneCall(config: ServerConfig, d: Datagram)
    ensures |StartedCalls(config, d)| <= 1
    ensures |StartedCalls(config, d)| == 1 ==>
              exists port :: Decode(d.data) == Ok(Some(DiscoveryPacket(Some(Payload.Request(port)))))
  {
    if |StartedCalls(config, d)| == 1 {
      var packet := Decode(d.data).value.value;
      assert packet == DiscoveryPacket(Some(Payload.Request(packet.payload.value.responseCollectorPort)));
    }
  }

  ghost predicate ServerLowers(server: Server, server': Server, sends: multiset<Datagram>) {
    || ServerMetric(Stages, server') < ServerMetric(Stages, server)
    || (ServerMetric(Stages, server') == ServerMetric(Stages, server)
        && ServerMetric(PlannedSends, server') < ServerMetric(PlannedSends, server))
    || (ServerMetric(Stages, server') == ServerMetric(Stages, server)
        && ServerMetric(PlannedSends, server') == ServerMetric(PlannedSends, server)
        && ServerMetric(Load, server') < ServerMetric(Load, server)
        && sends == multiset{})
  }

  lemma HandleLowers(config: ServerConfig, server: Server, d: Datagram)
    requires server.phase.Serving? && d in server.socket
    ensures ServerLowers(server, ServerAfter(config, server, Handle(d)), multiset{})
  {
    AtMostOneCall(config, d);
    hide StartedCalls;
    assert |server.socket - multiset{d}| == |server.socket| - 1;
  }

  lemma UnicastLowers(w: World, s: State, i: nat, act: ServerAct)
    requires i < |w.servers| && i < |s.servers| && ServerEnabled(w, s, i, act) && act.Unicast?
    ensures ServerLowers(s.servers[i], ServerAfter(w.servers[i], s.servers[i], act), ServerSends(w.servers[i], i, act))
  {
    hide Copies, Shown, AnnouncementData;
    assert |s.servers[i].phase.pending - multiset{act.address}| == |s.servers[i].phase.pending| - 1;
  }

  lemma StageLowers(w: World, s: State, i: nat, act: ServerAct)
    requires i < |w.servers| && i < |s.servers| && ServerEnabled(w, s, i, act) && !act.Handle? && !act.Unicast?
    ensures ServerMetric(Stages, ServerAfter(w.servers[i], s.servers[i], act)) < ServerMetric(Stages, s.servers[i])
  {
    hide Shown, PortIsFree, SocketAddresses;
  }

  lemma ServerActLowers(w: World, s: State, i: nat, act: ServerAct)
    requires i < |w.servers| && i < |s.servers| && ServerEnabled(w, s, i, act) && !act.Handle?
    ensures ServerLowers(s.servers[i], ServerAfter(w.servers[i], s.servers[i], act), ServerSends(w.servers[i], i, act))
  {
    hide ServerEnabled, ServerAfter, ServerSends, ServerMetric;
    if act.Unicast? {
      UnicastLowers(w, s, i, act);
    } else {
      StageLowers(w, s, i, act);
    }
  }

  lemma ServerStepLowers(w: World, s: State, i: nat, act: ServerAct)
    requires Sized(w, s) && Enabled(w, s, ServerStep(i, act))
    ensures Lower(s, Apply(w, s, ServerStep(i, act)))
  {
    hide Enabled, Apply, ServerMetric, ServerAfter, ServerSends;
    ServerApplies(w, s, i, act);
    if act.Handle? {
      assert s.servers[i].phase.Serving? && act.datagram in s.servers[i].socket;
      hide ServerEnabled;
      HandleLowers(w.servers[i], s.servers[i], act.datagram);
      HandleSendsNothing(w.servers[i], i, act.datagram);
    } else {
      hide ServerEnabled;
      ServerActLowers(w, s, i, act);
    }
    Update(s, Apply(w, s, ServerStep(i, act)), i, |s.scanners|);
  }

  lemma HandleSendsNothing(config: ServerConfig, i: nat, d: Datagram)
    ensures ServerSends(config, i, Handle(d)) == multiset{}
  {}

  ghost predicate ScannerLowers(scanner: Scanner, scanner': Scanner, collector: Option<U16>,
                                sends: multiset<Datagram>) {
    || ScannerMetric(Stages, scanner', collector) < ScannerMetric(Stages, scanner, collector)
    || (ScannerMetric(Stages, scanner', collector) == ScannerMetric(Stages, scanner, collector)
        && ScannerMetric(PlannedSends, scanner', collector) < ScannerMetric(PlannedSends, scanner, collector))
    || (ScannerMetric(Stages, scanner', collector) == ScannerMetric(Stages, scanner, collector)
        && ScannerMetric(PlannedSends, scanner', collector) == ScannerMetric(PlannedSends, scanner, collector)
        && ScannerMetric(Load, scanner', collector) < ScannerMetric(Load, scanner, collector)
        && sends == multiset{})
  }

  lemma ScannerActLowers(w: World, s: State, c: nat, act: ScannerAct)
    requires Sized(w, s) && c < |w.scanners| && ScannerEnabled(w, s, c, act) && !act.HearFails?
    ensures ScannerLowers(s.scanners[c], ScannerAfter(w.scanners[c], s.scanners[c], act), s.collectors[c],
                          ScannerSends(w.scanners[c], c, CollectorPort(s, c), act))
  {
    if act.Hear? || act.TakeResponse? {
      hide ScannerAfter;
      TakingLowers(w, s, c, act);
    } else {
      hide Heard, Copies, Shown, PortIsFree, SocketAddresses;
    }
  }

  lemma TakingLowers(w: World, s: State, c: nat, act: ScannerAct)
    requires Sized(w, s) && c < |w.scanners| && ScannerEnabled(w, s, c, act) && (act.Hear? || act.TakeResponse?)
    ensures ScannerLowers(s.scanners[c], ScannerAfter(w.scanners[c], s.scanners[c], act), s.collectors[c],
                          ScannerSends(w.scanners[c], c, CollectorPort(s, c), act))
  {
    hide Heard, Shown, PortIsFree, SocketAddresses;
  }

  lemma ScannerStepLowers(w: World, s: State, c: nat, act: ScannerAct)
    requires Sized(w, s) && Enabled(w, s, ScannerStep(c, act))
    ensures Lower(s, Apply(w, s, ScannerStep(c, act)))
  {
    hide Enabled, Apply, ScannerAfter, ScannerSends, ScannerMetric;
    ScannerApplies(w, s, c, act);
    if act.HearFails? {
      assert s.faults > 0;
      hide ScannerEnabled, Total;
    } else {
      hide ScannerEnabled;
      ScannerActLowers(w, s, c, act);
      Update(s, Apply(w, s, ScannerStep(c, act)), |s.servers|, c);
    }
  }

  lemma ArriveLowers(w: World, s: State, d: Datagram, node: Node)
    requires Sized(w, s) && Enabled(w, s, Arrive(d, node))
    ensures Lower(s, Apply(w, s, Arrive(d, node)))
  {
    hide Enabled, Apply;
    ArriveApplies(w, s, d, node);
    var s' := Apply(w, s, Arrive(d, node));
    if node.ServerNode? {
      Update(s, s', node.index, |s.scanners|);
    } else {
      Update(s, s', |s.servers|, node.index);
    }
  }

  lemma SubmitLowers(w: World, s: State, i: nat, call: Call, c: nat, from: SocketAddrV6)
    requires Sized(w, s) && Enabled(w, s, Submit(i, call, c, from))
    ensures Lower(s, Apply(w, s, Submit(i, call, c, from)))
  {
    hide Enabled, Apply, Reaches, IsPeer, Total, ServerMetric, ScannerMetric, Accept, EndCall;
    SubmitApplies(w, s, i, call, c, from);
    Update(s, Apply(w, s, Submit(i, call, c, from)), i, c);
    EndCallMetric(s.servers[i], call);
    AcceptMetric(s.scanners[c], from, call.response.servicePort, s.collectors[c]);
  }

  lemma EndCallMetric(server: Server, call: Call)
    requires call in server.calls
    ensures forall m: Metric ::
              ServerMetric(m, server) == ServerMetric(m, EndCall(server, call)) + if m.Load? then 2 else 0
  {}

  lemma AcceptMetric(scanner: Scanner, from: SocketAddrV6, servicePort: U32, collector: Option<U16>)
    ensures forall m: Metric ::
              var more := if m.Load? then 1 else 0;
              ScannerMetric(m, scanner, collector) <= ScannerMetric(m, Accept(scanner, from, servicePort), collector)
                                                   <= ScannerMetric(m, scanner, collector) + more
  {
    hide ResponseCollector.Validate;
  }

  lemma CallFailsLowers(w: World, s: State, i: nat, call: Call)
    requires Sized(w, s) && Enabled(w, s, CallFails(i, call))
    ensures Lower(s, Apply(w, s, CallFails(i, call)))
  {
    hide Enabled, Apply;
    CallFailsApplies(w, s, i, call);
    Update(s, Apply(w, s, CallFails(i, call)), i, |s.scanners|);
  }

  lemma BindLowers(w: World, s: State, step: Step)
    requires Sized(w, s) && Enabled(w, s, step) && (step.BindCollector? || step.BindCollectorFails?)
    ensures Lower(s, Apply(w, s, step))
  {
    hide Enabled, Apply;
    if step.BindCollector? {
      BindApplies(w, s, step.scanner, step.collectorPort);
    } else {
      BindFailsApplies(w, s, step.scanner, step.io);
    }
    Update(s, Apply(w, s, step), |s.servers|, step.scanner);
  }

  lemma NetworkLowers(w: World, s: State, step: Step)
    requires Sized(w, s) && Enabled(w, s, step) && IsNetworkStep(step)
    ensures Lower(s, Apply(w, s, step))
  {
    hide Enabled, Apply, PortIsFree, AllServers, AllScanners;
    NetworkApplies(w, s, step);
  }

  /** Every step there is lowers the measure. */
  lemma StepLowers(w: World, s: State, step: Step)
    requires Sized(w, s) && Enabled(w, s, step)
    ensures Lower(s, Apply(w, s, step))
  {
    hide Enabled, Apply, Lower;
    match step
    case ServerStep(i, act) => ServerStepLowers(w, s, i, act);
    case ScannerStep(c, act) => ScannerStepLowers(w, s, c, act);
    case Arrive(d, node) => ArriveLowers(w, s, d, node);
    case Submit(i, call, c, from) => SubmitLowers(w, s, i, call, c, from);
    case CallFails(i, call) => CallFailsLowers(w, s, i, call);
    case BindCollector(_, _) => BindLowers(w, s, step);
    case BindCollectorFails(_, _) => BindLowers(w, s, step);
    case _ => NetworkLowers(w, s, step);
  }

  ghost predicate GoesOn(w: World, s: State, s': State) {
    exists step :: Next(w, s, step, s')
  }

  /** Every sequence of states stops being a run somewhere, from any state it is in. */
  lemma {:induction false} RunStopsAfter(w: World, run: nat -> State, n: nat) returns (stop: nat)
    requires Sized(w, run(n))
    ensures stop >= n && !GoesOn(w, run(stop), run(stop + 1))
    decreases run(n).faults, Total(Stages, run(n)), Total(PlannedSends, run(n)), Total(Load, run(n))
  {
    hide Enabled, Apply, Total;
    if GoesOn(w, run(n), run(n + 1)) {
      var step :| Next(w, run(n), step, run(n + 1));
      StepLowers(w, run(n), step);
      stop := RunStopsAfter(w, run, n + 1);
    } else {
      stop := n;
    }
  }

  /** No run goes on for ever: with finitely many participants and faults, messages dry up. */
  lemma Quiescence(w: World, faults: nat, run: nat -> State)
    requires run(0) == Init(w, faults)
    ensures exists stop: nat :: !GoesOn(w, run(stop), run(stop + 1))
  {
    var stop := RunStopsAfter(w, run, 0);
  }
}
