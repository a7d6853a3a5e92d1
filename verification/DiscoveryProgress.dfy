/**
 * Progress: a run in which nothing is thrown away can always go on to deliver what is under way,
 * until it is settled. So every such run can be brought to an end at which completeness and
 * conservation hold, and at every end it comes to they do.
 */
module DiscoveryProgress {
  import opened Wrappers
  import opened Net
  import opened Packets
  import opened Discovery
  import opened DiscoverySoundness
  import opened DiscoveryConservation
  import opened DiscoveryCompleteness
  import Quiescence = DiscoveryQuiescence
  import AddressText

  /** Steps that bring on their way the things that are under way. */
  predicate Delivers(step: Step) {
    match step
    case Arrive(_, _) => true
    case Vanish(_) => true
    case Submit(_, _, _, _) => true
    case ServerStep(_, act) => act.Handle?
    case ScannerStep(_, act) => act.Hear? || act.TakeResponse?
    case _ => false
  }

  /** Undisturbed, and the collectors stay up. */
  predicate Healthy(step: Step) {
    Undisturbed(step) && !(step.ScannerStep? && step.scannerAct.CollectorFails?)
  }

  /** Whoever reaches a host is reached by it. */
  ghost predicate Mutual(w: World) {
    forall viewer, ip, scope, peer :: IsPeer(w, viewer, ip, scope, peer) ==>
      exists ip', scope' :: IsPeer(w, peer, ip', scope', viewer)
  }

  // ---------------------------------------------------------------- who holds anything can use it

  predicate PoisedServer(config: ServerConfig, server: Server) {
    server.phase.Starting? || server.phase.Finished? || config.discoveryPort != 0
  }

  predicate CanGoOn(config: ScannerConfig, ended: bool, collector: Option<U16>) {
    collector.Some? && !ended && config.discoveryPort != 0
  }

  predicate PoisedScanner(config: ScannerConfig, scanner: Scanner, collector: Option<U16>) {
    && (scanner.accepting ==> collector.Some? && !scanner.ended)
    && (scanner.listen.Bound? || scanner.channel != [] ==> CanGoOn(config, scanner.ended, collector))
    && (scanner.socket != multiset{} ==> scanner.listen.Bound?)
  }

  ghost predicate Poised(w: World, s: State) {
    && Sized(w, s)
    && (forall i :: 0 <= i < |s.servers| ==> PoisedServer(w.servers[i], s.servers[i]))
    && (forall c :: 0 <= c < |s.scanners| ==> PoisedScanner(w.scanners[c], s.scanners[c], s.collectors[c]))
  }

  lemma ServerStepPoised(w: World, s: State, i: nat, act: ServerAct)
    requires i < |w.servers| && i < |s.servers| && ServerEnabled(w, s, i, act)
    requires PoisedServer(w.servers[i], s.servers[i])
    ensures PoisedServer(w.servers[i], ServerAfter(w.servers[i], s.servers[i], act))
  {
    hide PortIsFree, Shown, StartedCalls, SocketAddresses;
  }

  lemma ScannerStepPoised(w: World, s: State, c: nat, act: ScannerAct)
    requires Sized(w, s) && c < |w.scanners| && ScannerEnabled(w, s, c, act)
    requires PoisedScanner(w.scanners[c], s.scanners[c], s.collectors[c])
    ensures PoisedScanner(w.scanners[c], ScannerAfter(w.scanners[c], s.scanners[c], act), s.collectors[c])
  {
    hide PortIsFree, Shown, Heard, SocketAddresses;
  }

  lemma DeliveryKeepsPoised(w: World, s: State, d: Datagram, node: Node)
    requires Poised(w, s) && Enabled(w, s, Arrive(d, node))
    ensures Poised(w, Apply(w, s, Arrive(d, node)))
  {
    hide Enabled, Apply;
    ArriveApplies(w, s, d, node);
  }

  /** Only a server with a discovery port calls, and only the scanners on that port. */
  lemma CallerCanGoOn(w: World, s: State, i: nat, call: Call, c: nat)
    requires Inv(w, s) && Poised(w, s) && i < |w.servers| && c < |w.scanners|
    requires call in s.servers[i].calls && call.requester == ScannerNode(c)
    requires s.scanners[c].accepting
    ensures CanGoOn(w.scanners[c], s.scanners[c].ended, s.collectors[c])
  {
    assert GoodServer(w, s.collectors, i, s.servers[i]);
    assert PoisedServer(w.servers[i], s.servers[i]) && PoisedScanner(w.scanners[c], s.scanners[c], s.collectors[c]);
    hide AddressText.ParseUrl, GoodArrival, Inv, Poised;
  }

  lemma SubmitKeepsPoised(w: World, s: State, i: nat, call: Call, c: nat, from: SocketAddrV6)
    requires Inv(w, s) && Poised(w, s) && Enabled(w, s, Submit(i, call, c, from))
    ensures Poised(w, Apply(w, s, Submit(i, call, c, from)))
  {
    assert Sized(w, s);
    hide Enabled, Apply, Inv, Reaches, CanGoOn;
    SubmitApplies(w, s, i, call, c, from);
    SubmitIsAnswer(w, s, i, call, c);
    CallerCanGoOn(w, s, i, call, c);
  }

  lemma ServerKeepsPoised(w: World, s: State, i: nat, act: ServerAct)
    requires Poised(w, s) && Enabled(w, s, ServerStep(i, act))
    ensures Poised(w, Apply(w, s, ServerStep(i, act)))
  {
    hide Enabled, Apply, PoisedServer, PoisedScanner, ServerAfter, ServerSends, ServerEnabled;
    ServerApplies(w, s, i, act);
    ServerStepPoised(w, s, i, act);
  }

  lemma ScannerKeepsPoised(w: World, s: State, c: nat, act: ScannerAct)
    requires Poised(w, s) && Enabled(w, s, ScannerStep(c, act))
    ensures Poised(w, Apply(w, s, ScannerStep(c, act)))
  {
    hide Enabled, Apply, PoisedServer, PoisedScanner, ScannerAfter, ScannerSends, ScannerEnabled;
    ScannerApplies(w, s, c, act);
    ScannerStepPoised(w, s, c, act);
  }

  lemma OtherStepKeepsPoised(w: World, s: State, step: Step)
    requires Poised(w, s) && Enabled(w, s, step)
    requires !step.ServerStep? && !step.ScannerStep? && !step.Arrive? && !step.Submit?
    ensures Poised(w, Apply(w, s, step))
  {
    hide Enabled, Apply, PortIsFree;
    match step
    case CallFails(i, call) => CallFailsApplies(w, s, i, call);
    case BindCollector(c, port) => BindApplies(w, s, c, port);
    case BindCollectorFails(c, e) => BindFailsApplies(w, s, c, e);
    case _ => NetworkApplies(w, s, step);
  }

  lemma StepKeepsPoised(w: World, s: State, step: Step)
    requires Inv(w, s) && Poised(w, s) && Enabled(w, s, step)
    ensures Poised(w, Apply(w, s, step))
  {
    hide Inv, Poised, Permitted, Apply;
    match step
    case ServerStep(i, act) => ServerKeepsPoised(w, s, i, act);
    case ScannerStep(c, act) => ScannerKeepsPoised(w, s, c, act);
    case Arrive(d, node) => DeliveryKeepsPoised(w, s, d, node);
    case Submit(i, call, c, from) => SubmitKeepsPoised(w, s, i, call, c, from);
    case _ => OtherStepKeepsPoised(w, s, step);
  }

  lemma PoisedAtFirst(w: World, faults: nat, run: Run)
    requires IsRun(w, faults, run)
    ensures Poised(w, StateAt(w, faults, run, 0))
  {}

  lemma {:induction false} RunKeepsPoised(w: World, faults: nat, run: Run, k: nat)
    requires IsRun(w, faults, run) && k <= |run.steps|
    ensures Poised(w, StateAt(w, faults, run, k))
    decreases k
  {
    hide IsRun, StateAt, Inv, Poised, Permitted, Apply;
    if k == 0 {
      PoisedAtFirst(w, faults, run);
    } else {
      RunKeepsPoised(w, faults, run, k - 1);
      RunKeepsInv(w, faults, run, k - 1);
      StepAt(w, faults, run, k - 1);
      StepKeepsPoised(w, StateAt(w, faults, run, k - 1), run.steps[k - 1]);
    }
  }

  // ---------------------------------------------------------------- collectors stay up

  ghost predicate CollectorsUp(s: State) {
    && |s.scanners| == |s.collectors|
    && forall c :: 0 <= c < |s.scanners| && s.collectors[c].Some? ==> s.scanners[c].accepting
  }

  lemma HealthyActKeepsUp(config: ScannerConfig, scanner: Scanner, c: nat, act: ScannerAct)
    requires Healthy(ScannerStep(c, act))
    ensures ScannerAfter(config, scanner, act).accepting == scanner.accepting
  {
    hide Heard, SocketAddresses;
  }

  lemma AcceptKeepsUp(scanner: Scanner, from: SocketAddrV6, servicePort: U32)
    ensures Accept(scanner, from, servicePort).accepting == scanner.accepting
  {}

  lemma HealthyScannerKeepsUp(w: World, s: State, c: nat, act: ScannerAct)
    requires Sized(w, s) && Enabled(w, s, ScannerStep(c, act)) && Healthy(ScannerStep(c, act)) && CollectorsUp(s)
    ensures CollectorsUp(Apply(w, s, ScannerStep(c, act)))
  {
    hide Permitted, Apply, ScannerAfter, ScannerSends, ScannerEnabled, Healthy;
    ScannerApplies(w, s, c, act);
    HealthyActKeepsUp(w.scanners[c], s.scanners[c], c, act);
  }

  lemma SubmitKeepsUp(w: World, s: State, i: nat, call: Call, c: nat, from: SocketAddrV6)
    requires Sized(w, s) && Enabled(w, s, Submit(i, call, c, from)) && CollectorsUp(s)
    ensures CollectorsUp(Apply(w, s, Submit(i, call, c, from)))
  {
    hide Permitted, Apply, Accept, EndCall, Reaches, IsPeer;
    SubmitApplies(w, s, i, call, c, from);
    AcceptKeepsUp(s.scanners[c], from, call.response.servicePort);
  }

  lemma HealthyStepKeepsUp(w: World, s: State, step: Step)
    requires Sized(w, s) && Enabled(w, s, step) && Healthy(step) && CollectorsUp(s)
    ensures CollectorsUp(Apply(w, s, step))
  {
    hide Enabled, Apply, PortIsFree, ServerAfter, ServerSends, ServerEnabled, ScannerAfter, ScannerSends;
    hide ScannerEnabled;
    hide IsPeer, Listening, Reaches, Healthy, Accept, EndCall, Yield;
    match step
    case ServerStep(i, act) => ServerApplies(w, s, i, act);
    case ScannerStep(c, act) => HealthyScannerKeepsUp(w, s, c, act);
    case Arrive(d, node) => ArriveApplies(w, s, d, node);
    case Submit(i, call, c, from) => SubmitKeepsUp(w, s, i, call, c, from);
    case CallFails(i, call) => CallFailsApplies(w, s, i, call);
    case BindCollector(c, port) => BindApplies(w, s, c, port);
    case BindCollectorFails(c, e) => BindFailsApplies(w, s, c, e);
    case _ => NetworkApplies(w, s, step);
  }

  lemma NoneUp(w: World, faults: nat, run: Run)
    requires IsRun(w, faults, run)
    ensures CollectorsUp(StateAt(w, faults, run, 0))
  {}

  lemma {:induction false} RunKeepsUp(w: World, faults: nat, run: Run, k: nat)
    requires IsRun(w, faults, run) && k <= |run.steps|
    requires forall step :: step in run.steps ==> Healthy(step)
    ensures CollectorsUp(StateAt(w, faults, run, k))
    decreases k
  {
    hide IsRun, StateAt, CollectorsUp, Enabled, Apply, Healthy;
    if k == 0 {
      NoneUp(w, faults, run);
    } else {
      RunKeepsUp(w, faults, run, k - 1);
      StepAt(w, faults, run, k - 1);
      HealthyStepKeepsUp(w, StateAt(w, faults, run, k - 1), run.steps[k - 1]);
    }
  }

  // ---------------------------------------------------------------- something can be delivered

  lemma DatagramCanGo(w: World, s: State, d: Datagram) returns (step: Step)
    requires Sized(w, s) && d in s.net
    ensures Delivers(step) && Enabled(w, s, step)
  {
    if PortIsFree(w, s, d.dest, d.port) {
      step := Vanish(d);
    } else {
      var node :| Listening(w, s, node, d.dest, d.port);
      step := Arrive(d, node);
    }
  }

  lemma SubmitCan(w: World, s: State, i: nat, call: Call, c: nat, from: SocketAddrV6)
    requires Sized(w, s) && i < |w.servers| && c < |w.scanners| && call in s.servers[i].calls
    requires s.scanners[c].accepting && Reaches(w, s, i, call, c)
    requires IsPeer(w, w.scanners[c].host, from.ip, from.scope, w.servers[i].host)
    ensures Enabled(w, s, Submit(i, call, c, from))
  {
    hide Reaches, IsPeer;
  }

  lemma HandleCan(w: World, s: State, i: nat, d: Datagram)
    requires Sized(w, s) && i < |w.servers| && s.servers[i].phase.Serving? && d in s.servers[i].socket
    ensures Enabled(w, s, ServerStep(i, Handle(d)))
  {}

  lemma HearCan(w: World, s: State, c: nat, d: Datagram)
    requires Sized(w, s) && c < |w.scanners| && CanGoOn(w.scanners[c], s.scanners[c].ended, s.collectors[c])
    requires s.scanners[c].listen.Bound? && d in s.scanners[c].socket
    ensures Enabled(w, s, ScannerStep(c, Hear(d)))
  {}

  lemma TakeCan(w: World, s: State, c: nat)
    requires Sized(w, s) && c < |w.scanners| && CanGoOn(w.scanners[c], s.scanners[c].ended, s.collectors[c])
    requires s.scanners[c].channel != []
    ensures Enabled(w, s, ScannerStep(c, TakeResponse))
  {}

  /** A call's URL leads to the collector of the scanner that asked. */
  lemma CallHasWay(w: World, s: State, i: nat, call: Call) returns (c: nat, ip: Ipv6Addr, scope: U32)
    requires Sized(w, s) && i < |w.servers| && GoodServer(w, s.collectors, i, s.servers[i])
    requires call in s.servers[i].calls
    ensures c < |w.scanners| && s.collectors[c].Some? && Reaches(w, s, i, call, c)
    ensures IsPeer(w, w.servers[i].host, ip, scope, w.scanners[c].host)
  {
    hide AddressText.ParseUrl, GoodArrival, IsPeer;
    c := call.requester.index;
    var endpoint := AddressText.ParseUrl(call.response.url).value;
    ip, scope := endpoint.ip, endpoint.scope;
  }

  lemma HasWayBack(w: World, host: Host, ip: Ipv6Addr, scope: U32, peer: Host) returns (from: SocketAddrV6)
    requires Mutual(w) && IsPeer(w, host, ip, scope, peer)
    ensures IsPeer(w, peer, from.ip, from.scope, host)
  {
    hide IsPeer;
    var ip', scope' :| IsPeer(w, peer, ip', scope', host);
    from := SocketAddrV6(ip', 0, 0, scope');
  }

  lemma CallCanEnd(w: World, s: State, i: nat, call: Call) returns (step: Step)
    requires Inv(w, s) && CollectorsUp(s) && Mutual(w) && i < |w.servers| && call in s.servers[i].calls
    ensures Delivers(step) && Enabled(w, s, step)
  {
    assert Sized(w, s) && GoodServer(w, s.collectors, i, s.servers[i]);
    hide Inv, GoodServer, IsPeer, Reaches, Permitted, Mutual;
    var c, ip, scope := CallHasWay(w, s, i, call);
    var from := HasWayBack(w, w.servers[i].host, ip, scope, w.scanners[c].host);
    SubmitCan(w, s, i, call, c, from);
    step := Submit(i, call, c, from);
  }

  lemma ServerCanGo(w: World, s: State, i: nat) returns (step: Step)
    requires Inv(w, s) && CollectorsUp(s) && Mutual(w) && i < |w.servers|
    requires s.servers[i].socket != multiset{} || s.servers[i].calls != multiset{}
    ensures Delivers(step) && Enabled(w, s, step)
  {
    assert Sized(w, s) && GoodServer(w, s.collectors, i, s.servers[i]);
    hide Inv, Enabled, GoodArrival, GoodCall, Mutual, CollectorsUp;
    if s.servers[i].socket != multiset{} {
      var d :| d in s.servers[i].socket;
      HandleCan(w, s, i, d);
      step := ServerStep(i, Handle(d));
    } else {
      var call :| call in s.servers[i].calls;
      step := CallCanEnd(w, s, i, call);
    }
  }

  lemma ScannerCanGo(w: World, s: State, c: nat) returns (step: Step)
    requires Poised(w, s) && c < |w.scanners| && (s.scanners[c].socket != multiset{} || s.scanners[c].channel != [])
    ensures Delivers(step) && Enabled(w, s, step)
  {
    assert PoisedScanner(w.scanners[c], s.scanners[c], s.collectors[c]) && Sized(w, s);
    hide Poised, Enabled, CanGoOn;
    if s.scanners[c].socket != multiset{} {
      var d :| d in s.scanners[c].socket;
      HearCan(w, s, c, d);
      step := ScannerStep(c, Hear(d));
    } else {
      TakeCan(w, s, c);
      step := ScannerStep(c, TakeResponse);
    }
  }

  /** In a healthy state that is not settled, something can be delivered. */
  lemma Progress(w: World, s: State) returns (step: Step)
    requires Inv(w, s) && Poised(w, s) && CollectorsUp(s) && Mutual(w) && !Settled(s)
    ensures Delivers(step) && Enabled(w, s, step)
  {
    assert Sized(w, s);
    hide Inv, Poised, CollectorsUp, Mutual, Enabled, Delivers;
    if s.net != multiset{} {
      var d :| d in s.net;
      step := DatagramCanGo(w, s, d);
    } else if i :| 0 <= i < |s.servers| && (s.servers[i].socket != multiset{} || s.servers[i].calls != multiset{}) {
      step := ServerCanGo(w, s, i);
    } else {
      var c :| 0 <= c < |s.scanners| && (s.scanners[c].socket != multiset{} || s.scanners[c].channel != []);
      step := ScannerCanGo(w, s, c);
    }
  }

  // ---------------------------------------------------------------- runs can be finished

  ghost predicate IsHealthy(run: Run) {
    forall step :: step in run.steps ==> Healthy(step)
  }

  /** Where a healthy run cannot deliver any more, it is settled. */
  lemma StuckIsSettled(w: World, faults: nat, run: Run)
    requires IsRun(w, faults, run) && IsHealthy(run) && Mutual(w)
    requires forall step :: Delivers(step) ==> !Enabled(w, Final(w, faults, run), step)
    ensures Settled(Final(w, faults, run))
  {
    hide Inv, Poised, CollectorsUp, Mutual, Settled, Enabled, Delivers, IsHealthy, IsRun, Final;
    AtTheEnd(w, faults, run);
    if !Settled(Final(w, faults, run)) {
      var step := Progress(w, Final(w, faults, run));
    }
  }

  /**
   * Completeness of finished runs, with nothing assumed of what is left: when a healthy run can
   * deliver nothing more, a scanner has yielded just the servers it was in touch with.
   */
  lemma FinishedRunIsComplete(w: World, faults: nat, run: Run, c: nat, host: Host, port: U16)
    requires IsRun(w, faults, run) && IsHealthy(run) && Mutual(w) && c < |w.scanners|
    requires forall step :: Delivers(step) ==> !Enabled(w, Final(w, faults, run), step)
    ensures YieldsAt(w, Final(w, faults, run), c, host, port) <==>
            exists i: nat :: InTouch(w, run.steps, c, i) && Serves(w, i, host, port)
    ensures TimesYielded(w, Final(w, faults, run), c, host, port) == Brought(w, run.steps, c, host, port)
  {
    StuckIsSettled(w, faults, run);
    assert forall step :: step in run.steps ==> Undisturbed(step);
    hide Inv, Mutual, Settled, Enabled, Delivers, Undisturbed, IsRun, Final, YieldsAt, TimesYielded, Brought, InTouch;
    Completeness(w, faults, run, c, host, port);
    Conservation(w, faults, run, c, host, port);
  }

  /** Every healthy run can be finished, by deliveries alone. */
  lemma {:induction false} RunCanSettle(w: World, faults: nat, run: Run) returns (run': Run)
    requires IsRun(w, faults, run) && IsHealthy(run) && Mutual(w)
    ensures IsRun(w, faults, run') && Settled(Final(w, faults, run'))
    ensures run.steps <= run'.steps && forall k :: |run.steps| <= k < |run'.steps| ==> Delivers(run'.steps[k])
    decreases Final(w, faults, run).faults, Quiescence.Total(Quiescence.Stages, Final(w, faults, run)),
              Quiescence.Total(Quiescence.PlannedSends, Final(w, faults, run)),
              Quiescence.Total(Quiescence.Load, Final(w, faults, run))
  {
    hide Inv, Poised, CollectorsUp, Mutual, Settled, Enabled, Apply, IsRun, Final, Quiescence.Total;
    var s := Final(w, faults, run);
    if Settled(s) {
      run' := run;
    } else {
      AtTheEnd(w, faults, run);
      var step := Progress(w, s);
      Quiescence.StepLowers(w, s, step);
      var next := ExtendRun(w, faults, run, step);
      run' := RunCanSettle(w, faults, next);
    }
  }

  lemma AtTheEnd(w: World, faults: nat, run: Run)
    requires IsRun(w, faults, run) && IsHealthy(run)
    ensures var s := Final(w, faults, run); Inv(w, s) && Poised(w, s) && CollectorsUp(s)
  {
    hide Inv, Poised, CollectorsUp, IsRun, Healthy;
    RunKeepsInv(w, faults, run, |run.steps|);
    RunKeepsPoised(w, faults, run, |run.steps|);
    RunKeepsUp(w, faults, run, |run.steps|);
  }
}
