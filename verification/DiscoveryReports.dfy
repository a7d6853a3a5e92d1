/**
 * What goes wrong is reported, and only that: the failures a scan yields are those of its own
 * acts, in order and each once, and a server's result is the cause that ended it.
 */
module DiscoveryReports {
  import opened Wrappers
  import opened Net
  import opened Packets
  import opened Discovery
  import opened DiscoverySoundness
  import opened DiscoveryPlans
  import opened DiscoveryAnswers
  import ResponseCollector

  // ---------------------------------------------------------------- the failures of a scan

  /** What goes wrong at scanner `c` in a step. */
  function FailureOf(step: Step, c: nat): seq<ScanFailure> {
    match step
    case ScannerStep(at, act) =>
      if at != c then []
      else
        (match act
         case RejectScan => [NoDiscoveryPort]
         case SendingFails(failure) => [failure]
         case SubscribeFails(e) => [SendRequest(e)]
         case HearFails(e) => [SendRequest(e)]
         case CollectorFails(e) => [CollectResponse(e)]
         case _ => [])
    case BindCollectorFails(at, e) => if at == c then [SendRequest(e)] else []
    case _ => []
  }

  function FailuresOf(steps: seq<Step>, c: nat): seq<ScanFailure> {
    if steps == [] then [] else FailuresOf(steps[..|steps| - 1], c) + FailureOf(steps[|steps| - 1], c)
  }

  /** The failures among these items, in order. */
  function Reported(items: seq<Item>): seq<ScanFailure> {
    if items == [] then []
    else
      Reported(items[..|items| - 1])
      + match items[|items| - 1]
        case Failed(e) => [e]
        case Found(_) => []
  }

  lemma ReportedMore(items: seq<Item>, more: seq<Item>)
    requires |more| <= 1
    ensures Reported(items + more)
         == Reported(items) + if more != [] && more[0].Failed? then [more[0].error] else []
  {
    if more == [] {
      assert items + more == items;
    } else {
      assert (items + more)[..|items|] == items;
    }
  }

  lemma HeardIsNoFailure(d: Datagram)
    ensures |Heard(d)| <= 1 && (Heard(d) != [] ==> Heard(d)[0].Found?)
  {}

  lemma ActReports(w: World, s: State, c: nat, act: ScannerAct)
    requires Sized(w, s) && c < |w.scanners| && ScannerEnabled(w, s, c, act)
    ensures Reported(ScannerAfter(w.scanners[c], s.scanners[c], act).yielded)
         == Reported(s.scanners[c].yielded) + FailureOf(ScannerStep(c, act), c)
  {
    hide ScannerEnabled, Reported, Heard, SocketAddresses;
    var before := s.scanners[c].yielded;
    var after := ScannerAfter(w.scanners[c], s.scanners[c], act).yielded;
    if act.Hear? {
      HeardIsNoFailure(act.datagram);
      ReportedMore(before, Heard(act.datagram));
    } else if after != before {
      assert |after| == |before| + 1 && after == before + [after[|before|]];
      ReportedMore(before, [after[|before|]]);
    }
  }

  lemma OwnStepReports(w: World, s: State, c: nat, act: ScannerAct)
    requires Sized(w, s) && Enabled(w, s, ScannerStep(c, act))
    ensures Reported(Apply(w, s, ScannerStep(c, act)).scanners[c].yielded)
         == Reported(s.scanners[c].yielded) + FailureOf(ScannerStep(c, act), c)
  {
    hide Permitted, Apply, Reported, FailureOf, ScannerEnabled, ScannerAfter, ScannerSends;
    ScannerApplies(w, s, c, act);
    ActReports(w, s, c, act);
  }

  lemma FailedBindReports(w: World, s: State, c: nat, e: IoError)
    requires Sized(w, s) && Enabled(w, s, BindCollectorFails(c, e))
    ensures Reported(Apply(w, s, BindCollectorFails(c, e)).scanners[c].yielded)
         == Reported(s.scanners[c].yielded) + [SendRequest(e)]
  {
    hide Permitted, Apply, Reported;
    BindFailsApplies(w, s, c, e);
    ReportedMore(s.scanners[c].yielded, [Failed(SendRequest(e))]);
  }

  predicate IsOfScanner(step: Step, c: nat) {
    (step.ScannerStep? || step.BindCollectorFails?) && step.scanner == c
  }

  lemma OtherStepYields(w: World, s: State, step: Step, c: nat)
    requires Sized(w, s) && Enabled(w, s, step) && c < |w.scanners| && !IsOfScanner(step, c)
    ensures Apply(w, s, step).scanners[c].yielded == s.scanners[c].yielded
  {
    hide Permitted, Apply, ServerEnabled, ServerAfter, ServerSends, ScannerEnabled, ScannerAfter, ScannerSends;
    hide PortIsFree, Reaches, IsPeer, Listening, ResponseCollector.Validate, EndCall, Yield;
    match step
    case ServerStep(i, act) => ServerApplies(w, s, i, act);
    case ScannerStep(at, act) => ScannerApplies(w, s, at, act);
    case Arrive(d, node) => ArriveApplies(w, s, d, node);
    case Submit(i, call, at, from) => SubmitApplies(w, s, i, call, at, from);
    case CallFails(i, call) => CallFailsApplies(w, s, i, call);
    case BindCollector(at, port) => BindApplies(w, s, at, port);
    case BindCollectorFails(at, e) => BindFailsApplies(w, s, at, e);
    case _ => NetworkApplies(w, s, step);
  }

  lemma StepReports(w: World, s: State, step: Step, c: nat)
    requires Sized(w, s) && Enabled(w, s, step) && c < |w.scanners|
    ensures Reported(Apply(w, s, step).scanners[c].yielded) == Reported(s.scanners[c].yielded) + FailureOf(step, c)
  {
    hide Permitted, Apply, Reported;
    if !IsOfScanner(step, c) {
      OtherStepYields(w, s, step, c);
    } else if step.ScannerStep? {
      OwnStepReports(w, s, c, step.scannerAct);
    } else {
      FailedBindReports(w, s, c, step.io);
    }
  }

  lemma NothingReported(w: World, faults: nat, run: Run, c: nat)
    requires IsRun(w, faults, run) && c < |w.scanners|
    ensures Reported(StateAt(w, faults, run, 0).scanners[c].yielded) == FailuresOf(run.steps[..0], c)
  {
    assert run.steps[..0] == [];
  }

  lemma {:induction false} RunReports(w: World, faults: nat, run: Run, c: nat, k: nat)
    requires IsRun(w, faults, run) && c < |w.scanners| && k <= |run.steps|
    ensures Reported(StateAt(w, faults, run, k).scanners[c].yielded) == FailuresOf(run.steps[..k], c)
    decreases k
  {
    hide IsRun, StateAt, Permitted, Apply, Reported, FailureOf;
    if k == 0 {
      NothingReported(w, faults, run, c);
    } else {
      RunReports(w, faults, run, c, k - 1);
      StepAt(w, faults, run, k - 1);
      StepReports(w, StateAt(w, faults, run, k - 1), run.steps[k - 1], c);
      assert run.steps[..k][..k - 1] == run.steps[..k - 1];
    }
  }

  lemma {:induction false} OutcomeIsFailure(steps: seq<Step>, c: nat)
    requires RequestOutcome(steps, c).Some? && RequestOutcome(steps, c).value.Err?
    ensures RequestOutcome(steps, c).value.error in FailuresOf(steps, c)
    decreases |steps|
  {
    var before, last := steps[..|steps| - 1], steps[|steps| - 1];
    if !(last.ScannerStep? && last.scanner == c && last.scannerAct.SendingFails?) {
      OutcomeIsFailure(before, c);
    }
  }

  lemma {:induction false} ReportedIsYielded(items: seq<Item>, e: ScanFailure)
    requires e in Reported(items)
    ensures Failed(e) in items
    decreases |items|
  {
    var before, last := items[..|items| - 1], items[|items| - 1];
    if last != Failed(e) {
      ReportedIsYielded(before, e);
    }
  }

  /**
   * In every run the failures a scan has yielded are just those that befell it, in order, each
   * once; and when `send_requests` has failed, its error is one of them.
   */
  lemma FailuresAreReported(w: World, faults: nat, run: Run, c: nat)
    requires IsRun(w, faults, run) && c < |w.scanners|
    ensures var yielded, outcome := Final(w, faults, run).scanners[c].yielded, RequestOutcome(run.steps, c);
            && Reported(yielded) == FailuresOf(run.steps, c)
            && (outcome.Some? && outcome.value.Err? ==> Failed(outcome.value.error) in yielded)
  {
    hide IsRun, StateAt, Reported, FailuresOf, RequestOutcome;
    RunReports(w, faults, run, c, |run.steps|);
    assert run.steps[..|run.steps|] == run.steps;
    var outcome := RequestOutcome(run.steps, c);
    if outcome.Some? && outcome.value.Err? {
      OutcomeIsFailure(run.steps, c);
      ReportedIsYielded(Final(w, faults, run).scanners[c].yielded, outcome.value.error);
    }
  }

  // ---------------------------------------------------------------- the result of a server

  /** How server `i` ends in a step, if it does. */
  function ResultOf(step: Step, i: nat): seq<Result<(), ServeError>> {
    match step
    case ServerStep(at, act) =>
      if at != i then []
      else
        (match act
         case RejectPort => [Err(InvalidDiscoveryPort)]
         case FindFails(e) => [Err(IpNeighborFailure(e))]
         case MulticastFails(e) => [Err(NetworkIo(e))]
         case UnicastFails(_, e) => [Err(NetworkIo(e))]
         case BindFails(e) => [Err(NetworkIo(e))]
         case ReceiveFails(e) => [Err(NetworkIo(e))]
         case Finish => [Ok(())]
         case _ => [])
    case _ => []
  }

  function ResultsOf(steps: seq<Step>, i: nat): seq<Result<(), ServeError>> {
    if steps == [] then [] else ResultsOf(steps[..|steps| - 1], i) + ResultOf(steps[|steps| - 1], i)
  }

  function PhaseResult(phase: ServerPhase): seq<Result<(), ServeError>> {
    if phase.Finished? then [phase.result] else []
  }

  lemma ActEnds(w: World, s: State, i: nat, act: ServerAct)
    requires i < |w.servers| && i < |s.servers| && ServerEnabled(w, s, i, act)
    ensures PhaseResult(ServerAfter(w.servers[i], s.servers[i], act).phase)
         == PhaseResult(s.servers[i].phase) + ResultOf(ServerStep(i, act), i)
  {
    hide PortIsFree, Shown, StartedCalls, SocketAddresses;
  }

  lemma StepEnds(w: World, s: State, step: Step, i: nat)
    requires Sized(w, s) && Enabled(w, s, step) && i < |w.servers|
    ensures PhaseResult(Apply(w, s, step).servers[i].phase)
         == PhaseResult(s.servers[i].phase) + ResultOf(step, i)
  {
    hide Permitted, Apply, PhaseResult, ServerAfter, ServerSends, ServerEnabled;
    if step.ServerStep? && step.server == i {
      ServerApplies(w, s, i, step.serverAct);
      ActEnds(w, s, i, step.serverAct);
    } else {
      PhaseStays(w, s, step, i);
    }
  }

  lemma NothingEnded(w: World, faults: nat, run: Run, i: nat)
    requires IsRun(w, faults, run) && i < |w.servers|
    ensures PhaseResult(StateAt(w, faults, run, 0).servers[i].phase) == ResultsOf(run.steps[..0], i)
  {
    assert run.steps[..0] == [];
  }

  lemma {:induction false} RunEnds(w: World, faults: nat, run: Run, i: nat, k: nat)
    requires IsRun(w, faults, run) && i < |w.servers| && k <= |run.steps|
    ensures PhaseResult(StateAt(w, faults, run, k).servers[i].phase) == ResultsOf(run.steps[..k], i)
    decreases k
  {
    hide IsRun, StateAt, Permitted, Apply, PhaseResult, ResultOf;
    if k == 0 {
      NothingEnded(w, faults, run, i);
    } else {
      RunEnds(w, faults, run, i, k - 1);
      StepAt(w, faults, run, k - 1);
      StepEnds(w, StateAt(w, faults, run, k - 1), run.steps[k - 1], i);
      assert run.steps[..k][..k - 1] == run.steps[..k - 1];
    }
  }

  // ---------------------------------------------------------------- the calls of a server

  function EndedIn(step: Step, i: nat): multiset<Call> {
    if (step.Submit? || step.CallFails?) && step.server == i then multiset{step.call} else multiset{}
  }

  /** The response calls of server `i` that came to an end, well or not. */
  function EndedCalls(steps: seq<Step>, i: nat): multiset<Call> {
    if steps == [] then multiset{} else EndedCalls(steps[..|steps| - 1], i) + EndedIn(steps[|steps| - 1], i)
  }

  predicate IsReceiverFailure(step: Step, i: nat) {
    step.ServerStep? && step.server == i && step.serverAct.ReceiveFails?
  }

  lemma OwnActCalls(w: World, s: State, i: nat, act: ServerAct)
    requires Inv(w, s) && i < |w.servers| && ServerEnabled(w, s, i, act)
    ensures var calls := ServerAfter(w.servers[i], s.servers[i], act).calls;
            if act.ReceiveFails? then calls == multiset{}
            else calls == s.servers[i].calls + BegunIn(w.servers[i], ServerStep(i, act), i)
  {
    assert GoodServer(w, s.collectors, i, s.servers[i]);
    hide Inv, GoodArrival, GoodCall, ServerEnabled, ServerAfter, StartedCalls;
    if act.Handle? {
      HandleActs(w, s, i, act.datagram);
    } else {
      OtherActs(w.servers[i], s.servers[i], act);
      if IsFailure(act) && !act.ReceiveFails? {
        FailsEarly(w, s, i, act);
      }
    }
  }

  lemma EndCallEnds(server: Server, call: Call)
    requires call in server.calls
    ensures EndCall(server, call).calls + multiset{call} == server.calls
  {}

  /** Other steps end the call they name, and touch no other. */
  lemma OtherStepCalls(w: World, s: State, step: Step, i: nat)
    requires Sized(w, s) && Enabled(w, s, step) && i < |w.servers| && !(step.ServerStep? && step.server == i)
    ensures var server, server' := s.servers[i], Apply(w, s, step).servers[i];
            if (step.Submit? || step.CallFails?) && step.server == i then
              step.call in server.calls && server' == EndCall(server, step.call)
            else server'.calls == server.calls
  {
    hide Permitted, Apply, ServerEnabled, ServerAfter, ServerSends, ScannerEnabled, ScannerAfter, ScannerSends;
    hide PortIsFree, Reaches, IsPeer, Listening, Accept, EndCall, Yield;
    match step
    case ServerStep(at, act) => ServerApplies(w, s, at, act);
    case ScannerStep(at, act) => ScannerApplies(w, s, at, act);
    case Arrive(d, node) => ArriveApplies(w, s, d, node);
    case Submit(at, call, c, from) => SubmitApplies(w, s, at, call, c, from);
    case CallFails(at, call) => CallFailsApplies(w, s, at, call);
    case BindCollector(at, port) => BindApplies(w, s, at, port);
    case BindCollectorFails(at, e) => BindFailsApplies(w, s, at, e);
    case _ => NetworkApplies(w, s, step);
  }

  /** What a step makes of the open calls of a server. */
  ghost predicate CallsMove(config: ServerConfig, calls: multiset<Call>, step: Step, calls': multiset<Call>, i: nat) {
    if IsReceiverFailure(step, i) then calls' == multiset{}
    else calls' + EndedIn(step, i) == calls + BegunIn(config, step, i)
  }

  lemma OtherCallsMove(config: ServerConfig, server: Server, step: Step, server': Server, i: nat)
    requires !(step.ServerStep? && step.server == i)
    requires if (step.Submit? || step.CallFails?) && step.server == i then
               step.call in server.calls && server' == EndCall(server, step.call)
             else server'.calls == server.calls
    ensures CallsMove(config, server.calls, step, server'.calls, i)
  {
    assert server.calls + multiset{} == server.calls;
    if EndedIn(step, i) != multiset{} {
      EndCallEnds(server, step.call);
    }
  }

  lemma OwnStepCalls(w: World, s: State, i: nat, act: ServerAct)
    requires Inv(w, s) && Enabled(w, s, ServerStep(i, act))
    ensures var calls := Apply(w, s, ServerStep(i, act)).servers[i].calls;
            CallsMove(w.servers[i], s.servers[i].calls, ServerStep(i, act), calls, i)
  {
    assert Sized(w, s);
    hide Inv, Permitted, Apply, ServerAfter, ServerEnabled, ServerSends, BegunIn;
    ServerApplies(w, s, i, act);
    OwnActCalls(w, s, i, act);
    var calls := ServerAfter(w.servers[i], s.servers[i], act).calls;
    assert calls + multiset{} == calls;
  }

  lemma StepCalls(w: World, s: State, step: Step, i: nat)
    requires Inv(w, s) && Enabled(w, s, step) && i < |w.servers|
    ensures CallsMove(w.servers[i], s.servers[i].calls, step, Apply(w, s, step).servers[i].calls, i)
  {
    assert Sized(w, s);
    hide Inv, Permitted, Apply, CallsMove, EndCall;
    if step.ServerStep? && step.server == i {
      OwnStepCalls(w, s, i, step.serverAct);
    } else {
      OtherStepCalls(w, s, step, i);
      OtherCallsMove(w.servers[i], s.servers[i], step, Apply(w, s, step).servers[i], i);
    }
  }

  ghost predicate ReceiverHolds(steps: seq<Step>, i: nat) {
    forall step :: step in steps ==> !IsReceiverFailure(step, i)
  }

  lemma ReceiverHeld(steps: seq<Step>, k: nat, i: nat)
    requires k < |steps|
    ensures ReceiverHolds(steps[..k + 1], i) <==> ReceiverHolds(steps[..k], i) && !IsReceiverFailure(steps[k], i)
  {
    hide IsReceiverFailure;
    assert steps[..k + 1] == steps[..k] + [steps[k]];
  }

  /** Calls open or ended are those begun, unless the receiver failed, which drops the open ones. */
  ghost predicate CallsKept(config: ServerConfig, server: Server, steps: seq<Step>, i: nat) {
    && server.calls + EndedCalls(steps, i) <= Begun(config, steps, i)
    && (ReceiverHolds(steps, i) ==> server.calls + EndedCalls(steps, i) == Begun(config, steps, i))
  }

  lemma CallsGrow(config: ServerConfig, steps: seq<Step>, k: nat, i: nat)
    requires k < |steps|
    ensures EndedCalls(steps[..k + 1], i) == EndedCalls(steps[..k], i) + EndedIn(steps[k], i)
    ensures Begun(config, steps[..k + 1], i) == Begun(config, steps[..k], i) + BegunIn(config, steps[k], i)
  {
    hide StartedCalls;
    assert steps[..k + 1][..k] == steps[..k];
  }

  lemma CallsTransfer(calls: multiset<Call>, ended: multiset<Call>, begun: multiset<Call>, ends: multiset<Call>,
                      begins: multiset<Call>, calls': multiset<Call>)
    requires calls + ended <= begun && calls' + ends == calls + begins
    ensures calls' + (ended + ends) <= begun + begins
    ensures calls + ended == begun ==> calls' + (ended + ends) == begun + begins
  {
    assert calls' + (ended + ends) == (calls' + ends) + ended;
    assert (calls + begins) + ended == (calls + ended) + begins;
  }

  lemma DroppedTransfer(calls: multiset<Call>, ended: multiset<Call>, begun: multiset<Call>)
    requires calls + ended <= begun
    ensures multiset{} + (ended + multiset{}) <= begun + multiset{}
  {
    assert ended <= calls + ended;
  }

  lemma FailureEndsNothing(config: ServerConfig, step: Step, i: nat)
    requires IsReceiverFailure(step, i)
    ensures EndedIn(step, i) == BegunIn(config, step, i) == multiset{}
  {}

  lemma CallsKeptOn(config: ServerConfig, server: Server, steps: seq<Step>, k: nat, server': Server, i: nat)
    requires k < |steps| && CallsKept(config, server, steps[..k], i)
    requires CallsMove(config, server.calls, steps[k], server'.calls, i)
    ensures CallsKept(config, server', steps[..k + 1], i)
  {
    var step := steps[k];
    CallsGrow(config, steps, k, i);
    ReceiverHeld(steps, k, i);
    hide Begun, EndedCalls, IsReceiverFailure, EndedIn, BegunIn, ReceiverHolds;
    var ended, begun := EndedCalls(steps[..k], i), Begun(config, steps[..k], i);
    if IsReceiverFailure(step, i) {
      FailureEndsNothing(config, step, i);
      DroppedTransfer(server.calls, ended, begun);
    } else {
      CallsTransfer(server.calls, ended, begun, EndedIn(step, i), BegunIn(config, step, i), server'.calls);
    }
  }

  lemma NothingCalled(w: World, faults: nat, run: Run, i: nat)
    requires IsRun(w, faults, run) && i < |w.servers|
    ensures CallsKept(w.servers[i], StateAt(w, faults, run, 0).servers[i], run.steps[..0], i)
  {
    assert run.steps[..0] == [];
  }

  lemma {:induction false} RunKeepsCalls(w: World, faults: nat, run: Run, i: nat, k: nat)
    requires IsRun(w, faults, run) && i < |w.servers| && k <= |run.steps|
    ensures CallsKept(w.servers[i], StateAt(w, faults, run, k).servers[i], run.steps[..k], i)
    decreases k
  {
    hide IsRun, StateAt, Inv, Permitted, Apply, CallsKept, CallsMove;
    if k == 0 {
      NothingCalled(w, faults, run, i);
    } else {
      RunKeepsCalls(w, faults, run, i, k - 1);
      RunKeepsInv(w, faults, run, k - 1);
      StepAt(w, faults, run, k - 1);
      var s := StateAt(w, faults, run, k - 1);
      StepCalls(w, s, run.steps[k - 1], i);
      CallsKeptOn(w.servers[i], s.servers[i], run.steps, k - 1, StateAt(w, faults, run, k).servers[i], i);
    }
  }

  lemma {:induction false} FailureIsResult(steps: seq<Step>, step: Step, i: nat)
    requires step in steps && IsReceiverFailure(step, i)
    ensures Err(NetworkIo(step.serverAct.io)) in ResultsOf(steps, i)
  {
    var before, last := steps[..|steps| - 1], steps[|steps| - 1];
    if last != step {
      FailureIsResult(before, step, i);
    }
  }

  /**
   * In every run a server ends at most once, with the result of the act that ended it; and when
   * it ends well, every response call it has begun has come to an end.
   */
  lemma ServerResultIsCause(w: World, faults: nat, run: Run, i: nat)
    requires IsRun(w, faults, run) && i < |w.servers|
    ensures var phase := Final(w, faults, run).servers[i].phase;
            && ResultsOf(run.steps, i) == (if phase.Finished? then [phase.result] else [])
            && (phase == Finished(Ok(())) ==>
                  EndedCalls(run.steps, i) == Begun(w.servers[i], run.steps, i))
  {
    hide IsRun, StateAt, ResultsOf, IsReceiverFailure, EndedCalls, Begun, GoodArrival, GoodCall;
    RunEnds(w, faults, run, i, |run.steps|);
    RunKeepsInv(w, faults, run, |run.steps|);
    assert GoodServer(w, Final(w, faults, run).collectors, i, Final(w, faults, run).servers[i]);
    hide Inv;
    assert multiset{} + EndedCalls(run.steps, i) == EndedCalls(run.steps, i);
    RunKeepsCalls(w, faults, run, i, |run.steps|);
    assert run.steps[..|run.steps|] == run.steps;
    if Final(w, faults, run).servers[i].phase == Finished(Ok(())) {
      forall step | step in run.steps ensures !IsReceiverFailure(step, i) {
        if IsReceiverFailure(step, i) {
          FailureIsResult(run.steps, step, i);
          assert false;
        }
      }
    }
  }
}
