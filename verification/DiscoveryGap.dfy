/**
 * The gap seen from the sender: who listened when a datagram was sent. A server sends all its
 * announcements before it listens, so a scanner that binds after them and asks before the server
 * binds misses it; in a run without loss that is the only way to miss a server.
 */
module DiscoveryGap {
  import opened Wrappers
  import opened Net
  import opened Packets
  import opened Discovery
  import opened DiscoverySoundness
  import opened DiscoveryConservation
  import opened DiscoveryCompleteness

  // ---------------------------------------------------------------- sends

  /** What a participant's step adds to the network. */
  function Sends(w: World, s: State, step: Step): multiset<Datagram>
    requires Sized(w, s)
  {
    if (step.ServerStep? || step.ScannerStep?) && Names(w, step) then Apply(w, s, step).net - s.net else multiset{}
  }

  /** At this step `sender` sends a datagram to where `listener` is listening. */
  ghost predicate SendsTo(w: World, s: State, step: Step, listener: Node, sender: Node)
    requires Sized(w, s)
  {
    exists d :: d in Sends(w, s, step) && d.sender == sender && Listening(w, s, listener, d.dest, d.port)
  }

  /** In the first `n` steps, `sender` sent a datagram to `listener` at a time when it was listening. */
  ghost predicate ToldBy(w: World, faults: nat, run: Run, n: nat, listener: Node, sender: Node)
    requires IsRun(w, faults, run) && n <= |run.steps|
  {
    exists k :: 0 <= k < n && SendsTo(w, StateAt(w, faults, run, k), run.steps[k], listener, sender)
  }

  ghost predicate Told(w: World, faults: nat, run: Run, listener: Node, sender: Node)
    requires IsRun(w, faults, run)
  {
    ToldBy(w, faults, run, |run.steps|, listener, sender)
  }

  /** The listening state of a node changes only at its own steps. */
  predicate ChangesListening(step: Step) {
    match step
    case ServerStep(_, act) => act.Bind? || act.ReceiveFails? || act.StreamEnds?
    case ScannerStep(_, act) => act.Subscribe? || act.Drop?
    case _ => false
  }

  predicate IsOn(s: State, node: Node) {
    match node
    case ServerNode(i) => i < |s.servers| && s.servers[i].phase.Serving?
    case ScannerNode(c) => c < |s.scanners| && s.scanners[c].listen.Bound?
  }

  /** The step that starts a node's listening. */
  function BindOf(node: Node): Step {
    match node
    case ServerNode(i) => ServerStep(i, Bind)
    case ScannerNode(c) => ScannerStep(c, Subscribe)
  }

  /** Who listens after a step: a node that did not must have just bound its port. */
  ghost predicate IsOnStep(s: State, s': State, step: Step, node: Node) {
    && (!ChangesListening(step) ==> (IsOn(s', node) <==> IsOn(s, node)))
    && (Undisturbed(step) && IsOn(s, node) ==> IsOn(s', node))
    && (IsOn(s', node) && !IsOn(s, node) ==> step == BindOf(node))
  }

  lemma ServerActServing(w: World, s: State, i: nat, act: ServerAct)
    requires i < |w.servers| && i < |s.servers| && ServerEnabled(w, s, i, act)
    ensures ServerAfter(w.servers[i], s.servers[i], act).phase.Serving? <==>
            (act.Bind? || (s.servers[i].phase.Serving? && !act.ReceiveFails? && !act.StreamEnds?))
  {
    hide StartedCalls, SocketAddresses, Shown, PortIsFree;
  }

  lemma ServerMoves(s: State, s': State, i: nat, act: ServerAct, node: Node)
    requires i < |s.servers| == |s'.servers| && s'.scanners == s.scanners
    requires forall k :: 0 <= k < |s.servers| && k != i ==> s'.servers[k] == s.servers[k]
    requires s'.servers[i].phase.Serving? <==>
             (act.Bind? || (s.servers[i].phase.Serving? && !act.ReceiveFails? && !act.StreamEnds?))
    ensures IsOnStep(s, s', ServerStep(i, act), node)
  {}

  lemma ServerStepIsOn(w: World, s: State, i: nat, act: ServerAct, node: Node)
    requires Sized(w, s) && Enabled(w, s, ServerStep(i, act))
    ensures IsOnStep(s, Apply(w, s, ServerStep(i, act)), ServerStep(i, act), node)
  {
    ServerActServing(w, s, i, act);
    hide ServerAfter, ServerSends, ServerEnabled, IsOnStep;
    ServerMoves(s, Apply(w, s, ServerStep(i, act)), i, act, node);
  }

  lemma ScannerActBound(w: World, s: State, c: nat, act: ScannerAct)
    requires Sized(w, s) && c < |w.scanners| && ScannerEnabled(w, s, c, act)
    ensures ScannerAfter(w.scanners[c], s.scanners[c], act).listen.Bound? <==>
            (act.Subscribe? || (s.scanners[c].listen.Bound? && !act.Drop?))
  {
    hide Heard, SocketAddresses, Shown, PortIsFree;
  }

  lemma ScannerMoves(s: State, s': State, c: nat, act: ScannerAct, node: Node)
    requires c < |s.scanners| == |s'.scanners| && s'.servers == s.servers
    requires forall k :: 0 <= k < |s.scanners| && k != c ==> s'.scanners[k] == s.scanners[k]
    requires s'.scanners[c].listen.Bound? <==> (act.Subscribe? || (s.scanners[c].listen.Bound? && !act.Drop?))
    requires act.RejectScan? ==> !s.scanners[c].listen.Bound? || s'.scanners[c].listen.Bound?
    ensures IsOnStep(s, s', ScannerStep(c, act), node)
  {}

  lemma ScannerStepIsOn(w: World, s: State, c: nat, act: ScannerAct, node: Node)
    requires Sized(w, s) && Enabled(w, s, ScannerStep(c, act))
    ensures IsOnStep(s, Apply(w, s, ScannerStep(c, act)), ScannerStep(c, act), node)
  {
    ScannerActBound(w, s, c, act);
    hide ScannerAfter, ScannerSends, ScannerEnabled, IsOnStep;
    ScannerMoves(s, Apply(w, s, ScannerStep(c, act)), c, act, node);
  }

  lemma NobodyMoves(s: State, s': State, step: Step, node: Node)
    requires |s'.servers| == |s.servers| && |s'.scanners| == |s.scanners| && !step.ServerStep? && !step.ScannerStep?
    requires forall i :: 0 <= i < |s.servers| ==> s'.servers[i].phase == s.servers[i].phase
    requires forall c :: 0 <= c < |s.scanners| ==> s'.scanners[c].listen == s.scanners[c].listen
    ensures IsOnStep(s, s', step, node)
  {}

  ghost predicate LeavesOn(s: State, s': State)
    requires |s'.servers| == |s.servers| && |s'.scanners| == |s.scanners|
  {
    && (forall i :: 0 <= i < |s.servers| ==> s'.servers[i].phase == s.servers[i].phase)
    && (forall c :: 0 <= c < |s.scanners| ==> s'.scanners[c].listen == s.scanners[c].listen)
  }

  lemma SubmitStepLeavesOn(w: World, s: State, i: nat, call: Call, c: nat, from: SocketAddrV6)
    requires Sized(w, s) && Enabled(w, s, Submit(i, call, c, from))
    ensures LeavesOn(s, Apply(w, s, Submit(i, call, c, from)))
  {
    hide Enabled, Apply, Reaches, IsPeer, Accept, EndCall;
    SubmitApplies(w, s, i, call, c, from);
    CallLeavesOn(s.servers[i], call);
    AcceptLeavesOn(s.scanners[c], from, call.response.servicePort);
  }

  lemma ArriveStepLeavesOn(w: World, s: State, d: Datagram, at: Node)
    requires Sized(w, s) && Enabled(w, s, Arrive(d, at))
    ensures LeavesOn(s, Apply(w, s, Arrive(d, at)))
  {
    hide Enabled, Apply, Listening;
    ArriveApplies(w, s, d, at);
  }

  lemma BindStepLeavesOn(w: World, s: State, step: Step)
    requires Sized(w, s) && Enabled(w, s, step) && (step.BindCollector? || step.BindCollectorFails?)
    ensures LeavesOn(s, Apply(w, s, step))
  {
    hide Enabled, Apply, Yield;
    if step.BindCollector? {
      BindApplies(w, s, step.scanner, step.collectorPort);
    } else {
      BindFailsApplies(w, s, step.scanner, step.io);
      YieldLeavesOn(s.scanners[step.scanner].(ended := true), [Failed(SendRequest(step.io))]);
    }
  }

  lemma CallFailsLeavesOn(w: World, s: State, i: nat, call: Call)
    requires Sized(w, s) && Enabled(w, s, CallFails(i, call))
    ensures LeavesOn(s, Apply(w, s, CallFails(i, call)))
  {
    hide Enabled, Apply, EndCall;
    CallFailsApplies(w, s, i, call);
    CallLeavesOn(s.servers[i], call);
  }

  lemma NetworkStepLeavesOn(w: World, s: State, step: Step)
    requires Sized(w, s) && Enabled(w, s, step) && IsNetworkStep(step)
    ensures LeavesOn(s, Apply(w, s, step))
  {
    hide Enabled, Apply, PortIsFree;
    NetworkApplies(w, s, step);
  }

  /** Steps of the network and of calls change neither a server's phase nor a scanner's socket. */
  lemma OtherStepLeavesOn(w: World, s: State, step: Step)
    requires Sized(w, s) && Enabled(w, s, step) && !step.ServerStep? && !step.ScannerStep?
    ensures LeavesOn(s, Apply(w, s, step))
  {
    hide Permitted, Apply, LeavesOn;
    match step
    case Arrive(d, at) => ArriveStepLeavesOn(w, s, d, at);
    case Submit(i, call, c, from) => SubmitStepLeavesOn(w, s, i, call, c, from);
    case CallFails(i, call) => CallFailsLeavesOn(w, s, i, call);
    case BindCollector(_, _) => BindStepLeavesOn(w, s, step);
    case BindCollectorFails(_, _) => BindStepLeavesOn(w, s, step);
    case _ => NetworkStepLeavesOn(w, s, step);
  }

  lemma YieldLeavesOn(scanner: Scanner, items: seq<Item>)
    ensures Yield(scanner, items).listen == scanner.listen
  {}

  lemma OtherStepIsOn(w: World, s: State, step: Step, node: Node)
    requires Sized(w, s) && Enabled(w, s, step) && !step.ServerStep? && !step.ScannerStep?
    ensures IsOnStep(s, Apply(w, s, step), step, node)
  {
    hide Permitted, Apply, IsOnStep;
    OtherStepLeavesOn(w, s, step);
    NobodyMoves(s, Apply(w, s, step), step, node);
  }

  lemma CallLeavesOn(server: Server, call: Call)
    ensures EndCall(server, call).phase == server.phase
  {}

  lemma AcceptLeavesOn(scanner: Scanner, from: SocketAddrV6, servicePort: U32)
    ensures Accept(scanner, from, servicePort).listen == scanner.listen
  {}

  lemma StepIsOn(w: World, s: State, step: Step, node: Node)
    requires Sized(w, s) && Enabled(w, s, step)
    ensures IsOnStep(s, Apply(w, s, step), step, node)
  {
    hide Enabled, Apply, IsOnStep;
    if step.ServerStep? {
      ServerStepIsOn(w, s, step.server, step.serverAct, node);
    } else if step.ScannerStep? {
      ScannerStepIsOn(w, s, step.scanner, step.scannerAct, node);
    } else {
      OtherStepIsOn(w, s, step, node);
    }
  }

  lemma ListeningStays(w: World, s: State, step: Step, node: Node, host: Host, port: U16)
    requires Sized(w, s) && Enabled(w, s, step)
    ensures !ChangesListening(step) ==>
              (Listening(w, Apply(w, s, step), node, host, port) <==> Listening(w, s, node, host, port))
    ensures Undisturbed(step) && Listening(w, s, node, host, port) ==>
              Listening(w, Apply(w, s, step), node, host, port)
  {
    StepIsOn(w, s, step, node);
    hide Enabled, Apply, Undisturbed, ChangesListening;
  }

  // ---------------------------------------------------------------- one socket per port

  ghost predicate Exclusive(w: World, s: State) {
    forall a, b, host, port :: Listening(w, s, a, host, port) && Listening(w, s, b, host, port) ==> a == b
  }

  lemma BindsAlone(w: World, s: State, step: Step, node: Node, other: Node, host: Host, port: U16)
    requires Sized(w, s) && Enabled(w, s, step) && step == BindOf(node)
    requires Listening(w, Apply(w, s, step), node, host, port)
    ensures !Listening(w, s, other, host, port)
  {
  }

  lemma ListenersAgree(w: World, s: State, step: Step, a: Node, b: Node, host: Host, port: U16)
    requires Sized(w, s) && Enabled(w, s, step) && Exclusive(w, s)
    requires Listening(w, Apply(w, s, step), a, host, port) && Listening(w, Apply(w, s, step), b, host, port)
    ensures a == b
  {
    hide Enabled, Apply, Undisturbed, ChangesListening;
    StepIsOn(w, s, step, a);
    StepIsOn(w, s, step, b);
    if !IsOn(s, a) {
      BindsAlone(w, s, step, a, b, host, port);
    } else if !IsOn(s, b) {
      BindsAlone(w, s, step, b, a, host, port);
    }
    assert IsOn(s, a) ==> Listening(w, s, a, host, port);
    assert IsOn(s, b) ==> Listening(w, s, b, host, port);
  }

  lemma StepKeepsExclusive(w: World, s: State, step: Step)
    requires Sized(w, s) && Enabled(w, s, step) && Exclusive(w, s)
    ensures Exclusive(w, Apply(w, s, step))
  {
    hide Permitted, Apply, Listening;
    var s' := Apply(w, s, step);
    forall a, b, host, port | Listening(w, s', a, host, port) && Listening(w, s', b, host, port)
      ensures a == b
    {
      ListenersAgree(w, s, step, a, b, host, port);
    }
  }

  lemma {:induction false} RunKeepsExclusive(w: World, faults: nat, run: Run, k: nat)
    requires IsRun(w, faults, run) && k <= |run.steps|
    ensures Exclusive(w, StateAt(w, faults, run, k))
    decreases k
  {
    hide IsRun, StateAt, Exclusive, Enabled, Apply;
    if k == 0 {
      NobodyListensAtFirst(w, faults, run);
    } else {
      RunKeepsExclusive(w, faults, run, k - 1);
      StepAt(w, faults, run, k - 1);
      StepKeepsExclusive(w, StateAt(w, faults, run, k - 1), run.steps[k - 1]);
    }
  }

  lemma NobodyListensAtFirst(w: World, faults: nat, run: Run)
    requires IsRun(w, faults, run)
    ensures Exclusive(w, StateAt(w, faults, run, 0))
  {}

  // ---------------------------------------------------------------- told is met, without loss

  /** A datagram of `sender` is in flight to where `listener` is listening. */
  ghost predicate Awaited(w: World, s: State, listener: Node, sender: Node) {
    exists d :: d in s.net && d.sender == sender && Listening(w, s, listener, d.dest, d.port)
  }

  /** The datagram stays in flight until it arrives there and nowhere else. */
  lemma AwaitedStays(w: World, s: State, step: Step, listener: Node, sender: Node)
    requires Sized(w, s) && Exclusive(w, s) && Enabled(w, s, step) && Undisturbed(step) && !step.Lose?
    requires Awaited(w, s, listener, sender)
    ensures Awaited(w, Apply(w, s, step), listener, sender) || MeetsAt(step, listener, sender)
  {
    hide Permitted, Apply, Undisturbed, Listening;
    var d :| d in s.net && d.sender == sender && Listening(w, s, listener, d.dest, d.port);
    var s' := Apply(w, s, step);
    ListeningStays(w, s, step, listener, d.dest, d.port);
    if step.Arrive? && step.datagram == d {
      ArriveApplies(w, s, d, step.node);
      assert MeetsAt(step, listener, sender);
    } else {
      assert d in s'.net by {
        NetKeeps(w, s, step, d, listener);
      }
    }
  }

  lemma NetKeeps(w: World, s: State, step: Step, d: Datagram, listener: Node)
    requires Sized(w, s) && Enabled(w, s, step) && !step.Lose? && d in s.net
    requires Listening(w, s, listener, d.dest, d.port) && !(step.Arrive? && step.datagram == d)
    ensures d in Apply(w, s, step).net
  {
    hide Enabled, Apply, ServerAfter, ServerSends, ScannerAfter, ScannerSends, ServerEnabled, ScannerEnabled;
    hide Accept, EndCall, Reaches, IsPeer, Listening;
    match step
    case ServerStep(i, act) => ServerApplies(w, s, i, act);
    case ScannerStep(c, act) => ScannerApplies(w, s, c, act);
    case Arrive(other, node) => ArriveApplies(w, s, other, node);
    case Submit(i, call, c, from) => SubmitApplies(w, s, i, call, c, from);
    case CallFails(i, call) => CallFailsApplies(w, s, i, call);
    case BindCollector(c, port) => BindApplies(w, s, c, port);
    case BindCollectorFails(c, e) => BindFailsApplies(w, s, c, e);
    case _ => NetworkApplies(w, s, step);
  }

  lemma SendIsAwaited(w: World, s: State, step: Step, listener: Node, sender: Node)
    requires Sized(w, s) && Enabled(w, s, step) && Undisturbed(step) && SendsTo(w, s, step, listener, sender)
    ensures Awaited(w, Apply(w, s, step), listener, sender)
  {
    var d :| d in Sends(w, s, step) && d.sender == sender && Listening(w, s, listener, d.dest, d.port);
    ListeningStays(w, s, step, listener, d.dest, d.port);
    hide Permitted, Apply, Listening;
    OwnStepSends(w, s, step);
  }

  lemma {:induction false} ToldIsMet(w: World, faults: nat, run: Run, n: nat, listener: Node, sender: Node)
    requires IsRun(w, faults, run) && n <= |run.steps| && ToldBy(w, faults, run, n, listener, sender)
    requires forall step :: step in run.steps ==> Undisturbed(step) && !step.Lose?
    ensures Met(run.steps[..n], listener, sender) || Awaited(w, StateAt(w, faults, run, n), listener, sender)
    decreases n
  {
    hide Met, Exclusive, Enabled, Apply, SendsTo, Awaited, IsRun, Undisturbed, StateAt;
    var steps, last := run.steps[..n], run.steps[n - 1];
    var s := StateAt(w, faults, run, n - 1);
    assert steps[..|steps| - 1] == run.steps[..n - 1] && last == steps[|steps| - 1];
    MetGrows(steps, listener, sender);
    RunKeepsExclusive(w, faults, run, n - 1);
    StepAt(w, faults, run, n - 1);
    if ToldBy(w, faults, run, n - 1, listener, sender) {
      ToldIsMet(w, faults, run, n - 1, listener, sender);
      if Awaited(w, s, listener, sender) {
        AwaitedStays(w, s, last, listener, sender);
      }
    } else {
      SendIsAwaited(w, s, last, listener, sender);
    }
  }

  // ---------------------------------------------------------------- met is told, without delay

  predicate IsInTransit(step: Step) {
    step.Arrive? || step.Vanish? || step.Lose? || step.Duplicate?
  }

  /** Whatever was sent has arrived or vanished before any participant goes on. */
  ghost predicate Prompt(w: World, faults: nat, run: Run)
    requires IsRun(w, faults, run)
  {
    forall k :: 0 <= k < |run.steps| && !IsInTransit(run.steps[k]) ==> StateAt(w, faults, run, k).net == multiset{}
  }

  /** Every datagram in flight was sent to those who listen for it now. */
  ghost predicate InFlightTold(w: World, faults: nat, run: Run, n: nat)
    requires IsRun(w, faults, run) && n <= |run.steps|
  {
    var s := StateAt(w, faults, run, n);
    forall d, listener :: d in s.net && Listening(w, s, listener, d.dest, d.port) ==>
      ToldBy(w, faults, run, n, listener, d.sender)
  }

  lemma OwnStepSends(w: World, s: State, step: Step)
    requires Sized(w, s) && Enabled(w, s, step) && (step.ServerStep? || step.ScannerStep?)
    ensures Apply(w, s, step).net == s.net + Sends(w, s, step)
  {
    hide Permitted, Apply, ServerEnabled, ServerAfter, ServerSends, ScannerEnabled, ScannerAfter, ScannerSends;
    if step.ServerStep? {
      ServerApplies(w, s, step.server, step.serverAct);
    } else {
      ScannerApplies(w, s, step.scanner, step.scannerAct);
    }
  }

  /** Only multicasts and unicasts send, and they change nobody's listening. */
  lemma ListeningChangesSendNothing(w: World, s: State, step: Step)
    requires Sized(w, s) && Enabled(w, s, step) && ChangesListening(step)
    ensures Apply(w, s, step).net == s.net
  {
    hide Permitted, ServerAfter, ScannerAfter, Copies;
  }

  /** What is in flight after a step was so before, or is sent by it. */
  lemma NetGrowsBySends(w: World, s: State, step: Step, d: Datagram)
    requires Sized(w, s) && Enabled(w, s, step) && d in Apply(w, s, step).net
    ensures d in s.net || d in Sends(w, s, step)
    ensures d !in s.net ==> !ChangesListening(step)
    ensures IsInTransit(step) ==> d in s.net && !ChangesListening(step)
  {
    hide Permitted, Apply, Sends, Listening, Reaches, Accept, EndCall, IsPeer, PortIsFree, ServerAfter, ScannerAfter;
    match step
    case ServerStep(_, _) =>
      OwnStepSends(w, s, step);
      if ChangesListening(step) { ListeningChangesSendNothing(w, s, step); }
    case ScannerStep(_, _) =>
      OwnStepSends(w, s, step);
      if ChangesListening(step) { ListeningChangesSendNothing(w, s, step); }
    case Arrive(other, node) => ArriveApplies(w, s, other, node);
    case Submit(i, call, c, from) => SubmitApplies(w, s, i, call, c, from);
    case CallFails(i, call) => CallFailsApplies(w, s, i, call);
    case BindCollector(c, port) => BindApplies(w, s, c, port);
    case BindCollectorFails(c, e) => BindFailsApplies(w, s, c, e);
    case _ => NetworkApplies(w, s, step);
  }

  lemma PromptStepTells(w: World, faults: nat, run: Run, n: nat)
    requires IsRun(w, faults, run) && Prompt(w, faults, run) && n < |run.steps|
    requires InFlightTold(w, faults, run, n)
    ensures InFlightTold(w, faults, run, n + 1)
  {
    var s, step := StateAt(w, faults, run, n), run.steps[n];
    var s' := StateAt(w, faults, run, n + 1);
    StepAt(w, faults, run, n);
    hide IsRun, Sends, Listening, Enabled, Apply, IsInTransit, ChangesListening;
    forall d, listener | d in s'.net && Listening(w, s', listener, d.dest, d.port)
      ensures ToldBy(w, faults, run, n + 1, listener, d.sender)
    {
      NetGrowsBySends(w, s, step, d);
      ListeningStays(w, s, step, listener, d.dest, d.port);
      if d in s.net {
        assert ToldBy(w, faults, run, n, listener, d.sender);
      } else {
        assert SendsTo(w, s, step, listener, d.sender);
      }
    }
  }

  lemma {:induction false} PromptIsTold(w: World, faults: nat, run: Run, n: nat)
    requires IsRun(w, faults, run) && Prompt(w, faults, run) && n <= |run.steps|
    ensures InFlightTold(w, faults, run, n)
    ensures forall listener, sender :: Met(run.steps[..n], listener, sender) ==>
              ToldBy(w, faults, run, n, listener, sender)
    decreases n
  {
    hide IsRun, ToldBy, InFlightTold, Prompt, StateAt, Met;
    if n == 0 {
      NothingInFlight(w, faults, run);
    } else {
      PromptIsTold(w, faults, run, n - 1);
      PromptStepTells(w, faults, run, n - 1);
      forall listener, sender | Met(run.steps[..n], listener, sender)
        ensures ToldBy(w, faults, run, n, listener, sender)
      {
        MeetingIsTold(w, faults, run, n - 1, listener, sender);
      }
    }
  }

  lemma MeetingIsTold(w: World, faults: nat, run: Run, n: nat, listener: Node, sender: Node)
    requires IsRun(w, faults, run) && n < |run.steps| && InFlightTold(w, faults, run, n)
    requires Met(run.steps[..n], listener, sender) ==> ToldBy(w, faults, run, n, listener, sender)
    requires Met(run.steps[..n + 1], listener, sender)
    ensures ToldBy(w, faults, run, n + 1, listener, sender)
  {
    hide IsRun, SendsTo, InFlightTold, StateAt, Met;
    assert run.steps[..n + 1][..n] == run.steps[..n];
    MetGrows(run.steps[..n + 1], listener, sender);
    if !ToldBy(w, faults, run, n, listener, sender) {
      ArrivalIsTold(w, faults, run, n);
    }
  }

  lemma NothingInFlight(w: World, faults: nat, run: Run)
    requires IsRun(w, faults, run)
    ensures InFlightTold(w, faults, run, 0)
    ensures forall listener, sender :: !Met(run.steps[..0], listener, sender)
  {
    assert run.steps[..0] == [];
  }

  lemma ArrivalIsTold(w: World, faults: nat, run: Run, n: nat)
    requires IsRun(w, faults, run) && n < |run.steps| && InFlightTold(w, faults, run, n) && run.steps[n].Arrive?
    ensures ToldBy(w, faults, run, n, run.steps[n].node, run.steps[n].datagram.sender)
  {
    StepAt(w, faults, run, n);
    hide IsRun, Enabled, Apply, Listening, ToldBy;
    ArriveApplies(w, StateAt(w, faults, run, n), run.steps[n].datagram, run.steps[n].node);
  }

  // ---------------------------------------------------------------- the theorems

  /** As `InTouch`, but told by what was sent and not by what arrived. */
  ghost predicate Reached(w: World, faults: nat, run: Run, c: nat, i: nat)
    requires IsRun(w, faults, run)
  {
    && i < |w.servers|
    && (|| Told(w, faults, run, ScannerNode(c), ServerNode(i))
        || (w.servers[i].servicePort != 0 && Told(w, faults, run, ServerNode(i), ScannerNode(c))))
  }

  /** Without loss, whoever sent to a listening peer is yielded when the run has settled. */
  lemma ReachedIsYielded(w: World, faults: nat, run: Run, c: nat, i: nat)
    requires IsRun(w, faults, run) && c < |w.scanners|
    requires forall step :: step in run.steps ==> Undisturbed(step) && !step.Lose?
    requires Settled(Final(w, faults, run)) && Reached(w, faults, run, c, i)
    ensures YieldsAt(w, Final(w, faults, run), c, w.servers[i].host, w.servers[i].servicePort)
  {
    if Told(w, faults, run, ScannerNode(c), ServerNode(i)) {
      ToldIsMet(w, faults, run, |run.steps|, ScannerNode(c), ServerNode(i));
    }
    if Told(w, faults, run, ServerNode(i), ScannerNode(c)) {
      ToldIsMet(w, faults, run, |run.steps|, ServerNode(i), ScannerNode(c));
    }
    assert Final(w, faults, run).net == multiset{} && run.steps[..|run.steps|] == run.steps;
    assert InTouch(w, run.steps, c, i) by {
      hide Met, Undisturbed, Final, IsRun, ToldBy;
    }
    hide InTouch, Undisturbed, Final, IsRun, ToldBy, Settled;
    InTouchIsYielded(w, faults, run, c, i);
  }

  /** With everything sent arriving before its peers go on, whoever is yielded was reached. */
  lemma YieldedWasReached(w: World, faults: nat, run: Run, c: nat, host: Host, port: U16)
    requires IsRun(w, faults, run) && c < |w.scanners| && Prompt(w, faults, run)
    requires YieldsAt(w, Final(w, faults, run), c, host, port)
    ensures exists i: nat :: Reached(w, faults, run, c, i) && Serves(w, i, host, port)
  {
    hide Met, YieldsAt, ToldBy, IsRun, Final, Prompt, InFlightTold;
    YieldedWasInTouch(w, faults, run, c, host, port);
    PromptIsTold(w, faults, run, |run.steps|);
    assert run.steps[..|run.steps|] == run.steps;
    var i: nat :| InTouch(w, run.steps, c, i) && Serves(w, i, host, port);
    assert Reached(w, faults, run, c, i);
  }

  /**
   * The exact gap: without loss and with everything sent arriving before its peers go on, a
   * scanner has yielded a service at some host and port if and only if it belongs to a server
   * that sent an announcement to it while it was listening, or that, with a nonzero port, was
   * listening while a request was sent to it.
   */
  lemma CompletenessBySends(w: World, faults: nat, run: Run, c: nat, host: Host, port: U16)
    requires IsRun(w, faults, run) && c < |w.scanners| && Prompt(w, faults, run)
    requires forall step :: step in run.steps ==> Undisturbed(step) && !step.Lose?
    requires Settled(Final(w, faults, run))
    ensures YieldsAt(w, Final(w, faults, run), c, host, port) <==>
            exists i: nat :: Reached(w, faults, run, c, i) && Serves(w, i, host, port)
  {
    hide Settled, Undisturbed, YieldsAt, ToldBy, IsRun, Final, Prompt;
    if YieldsAt(w, Final(w, faults, run), c, host, port) {
      YieldedWasReached(w, faults, run, c, host, port);
    }
    forall i: nat | Reached(w, faults, run, c, i) && Serves(w, i, host, port)
      ensures YieldsAt(w, Final(w, faults, run), c, host, port)
    {
      ReachedIsYielded(w, faults, run, c, i);
    }
  }

  // ---------------------------------------------------------------- a miss is a race

  /** Undisturbed, who has bound listens from then on. */
  lemma {:induction false} BoundIsOn(w: World, faults: nat, run: Run, n: nat, node: Node)
    requires IsRun(w, faults, run) && n <= |run.steps| && BindOf(node) in run.steps[..n]
    requires forall step :: step in run.steps ==> Undisturbed(step)
    ensures IsOn(StateAt(w, faults, run, n), node)
    decreases n
  {
    hide IsRun, IsOn, Undisturbed, Enabled, Apply, StateAt;
    var s, last := StateAt(w, faults, run, n - 1), run.steps[n - 1];
    StepAt(w, faults, run, n - 1);
    StepIsOn(w, s, last, node);
    if BindOf(node) in run.steps[..n - 1] {
      BoundIsOn(w, faults, run, n - 1, node);
    } else {
      assert last == BindOf(node);
      BindTurnsOn(w, s, node);
    }
  }

  lemma BindTurnsOn(w: World, s: State, node: Node)
    requires Sized(w, s) && Enabled(w, s, BindOf(node))
    ensures IsOn(Apply(w, s, BindOf(node)), node)
  {}

  function DiscoveryPortOf(w: World, node: Node): U16
    requires IsNode(w, node)
  {
    match node
    case ServerNode(i) => w.servers[i].discoveryPort
    case ScannerNode(c) => w.scanners[c].discoveryPort
  }

  /** The `k`th step sends a datagram of `sender` to the host and port of `listener`. */
  ghost predicate SendsToward(w: World, faults: nat, run: Run, k: nat, listener: Node, sender: Node)
    requires IsRun(w, faults, run) && k < |run.steps| && IsNode(w, listener)
  {
    exists d :: d in Sends(w, StateAt(w, faults, run, k), run.steps[k]) && d.sender == sender
                && d.dest == HostOf(w, listener) && d.port == DiscoveryPortOf(w, listener)
  }

  lemma BoundIsTold(w: World, faults: nat, run: Run, k: nat, listener: Node, sender: Node)
    requires IsRun(w, faults, run) && k < |run.steps| && IsNode(w, listener)
    requires forall step :: step in run.steps ==> Undisturbed(step)
    requires SendsToward(w, faults, run, k, listener, sender) && BindOf(listener) in run.steps[..k]
    ensures Told(w, faults, run, listener, sender)
  {
    var s := StateAt(w, faults, run, k);
    BoundIsOn(w, faults, run, k, listener);
    hide Sends, Undisturbed, StateAt, IsRun;
    var d :| d in Sends(w, s, run.steps[k]) && d.sender == sender
             && d.dest == HostOf(w, listener) && d.port == DiscoveryPortOf(w, listener);
    assert Listening(w, s, listener, d.dest, d.port);
    assert SendsTo(w, s, run.steps[k], listener, sender);
  }

  /**
   * Why a server is missed: in a settled, undisturbed and loss-free run, every announcement it
   * sent to the scanner went out before the scanner bound the discovery port, and, unless its
   * service port is 0, every request the scanner sent to it went out before it bound that port.
   */
  lemma MissedByRace(w: World, faults: nat, run: Run, c: nat, i: nat, k: nat)
    requires IsRun(w, faults, run) && c < |w.scanners| && i < |w.servers| && k < |run.steps|
    requires forall step :: step in run.steps ==> Undisturbed(step) && !step.Lose?
    requires Settled(Final(w, faults, run))
    requires !YieldsAt(w, Final(w, faults, run), c, w.servers[i].host, w.servers[i].servicePort)
    ensures SendsToward(w, faults, run, k, ScannerNode(c), ServerNode(i)) ==>
              ScannerStep(c, Subscribe) !in run.steps[..k]
    ensures w.servers[i].servicePort != 0 && SendsToward(w, faults, run, k, ServerNode(i), ScannerNode(c)) ==>
              ServerStep(i, Bind) !in run.steps[..k]
  {
    hide Undisturbed, Final, IsRun, Settled, YieldsAt, SendsToward, ToldBy;
    if Reached(w, faults, run, c, i) {
      ReachedIsYielded(w, faults, run, c, i);
    }
    if SendsToward(w, faults, run, k, ScannerNode(c), ServerNode(i)) && ScannerStep(c, Subscribe) in run.steps[..k] {
      BoundIsTold(w, faults, run, k, ScannerNode(c), ServerNode(i));
    }
    if SendsToward(w, faults, run, k, ServerNode(i), ScannerNode(c)) && ServerStep(i, Bind) in run.steps[..k] {
      BoundIsTold(w, faults, run, k, ServerNode(i), ScannerNode(c));
    }
  }
}
