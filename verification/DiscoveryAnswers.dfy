/**
 * The handlers of the step system are those of `serve_internal`: in every run the calls a server
 * has begun are among those of handling one by one what arrived for it, and just those once it
 * has handled everything.
 */
module DiscoveryAnswers {
  import opened Wrappers
  import opened Net
  import opened Wire
  import opened Packets
  import opened Discovery
  import opened DiscoverySoundness
  import opened DiscoveryConservation
  import opened Counting
  import ServerCode = Server

  // ---------------------------------------------------------------- what a server does in a run

  /** What arrived for server `i` while it listened, in order. */
  function Arrivals(steps: seq<Step>, i: nat): seq<Datagram> {
    if steps == [] then []
    else
      var last := steps[|steps| - 1];
      Arrivals(steps[..|steps| - 1], i)
      + if last.Arrive? && last.node == ServerNode(i) then [last.datagram] else []
  }

  predicate IsHandling(step: Step, i: nat) {
    step.ServerStep? && step.server == i && step.serverAct.Handle?
  }

  /** What its handlers have taken. */
  function Taken(steps: seq<Step>, i: nat): multiset<Datagram> {
    if steps == [] then multiset{}
    else
      var last := steps[|steps| - 1];
      Taken(steps[..|steps| - 1], i)
      + if IsHandling(last, i) then multiset{last.serverAct.datagram} else multiset{}
  }

  /** The calls they have begun. */
  function Begun(config: ServerConfig, steps: seq<Step>, i: nat): multiset<Call> {
    if steps == [] then multiset{}
    else
      var last := steps[|steps| - 1];
      Begun(config, steps[..|steps| - 1], i)
      + if IsHandling(last, i) then StartedCalls(config, last.serverAct.datagram) else multiset{}
  }

  /** The packets in these datagrams, as the receiver delivers them. */
  function Deliveries(datagrams: seq<Datagram>): seq<ServerCode.Delivery> {
    if datagrams == [] then []
    else
      var last := datagrams[|datagrams| - 1];
      Deliveries(datagrams[..|datagrams| - 1])
      + match Decode(last.data)
        case Ok(Some(packet)) => [(packet, last.source)]
        case _ => []
  }

  function Answering(response: Response): Call -> bool {
    (call: Call) => call.response == response
  }

  /** Handling the datagram makes that call. */
  predicate IsPrompt(config: ServerConfig, response: Response, d: Datagram) {
    match Decode(d.data)
    case Ok(Some(packet)) => ServerCode.AnswerTo((packet, d.source), config.servicePort) == Some(response)
    case _ => false
  }

  function Prompts(config: ServerConfig, response: Response): Datagram -> bool {
    (d: Datagram) => IsPrompt(config, response, d)
  }

  // ---------------------------------------------------------------- counting calls

  lemma StartedCount(config: ServerConfig, response: Response, d: Datagram)
    ensures Count(StartedCalls(config, d), Answering(response)) == if IsPrompt(config, response, d) then 1 else 0
  {
    hide Count, Decode, HandlePacket;
    CountNothing(Answering(response));
    match Decode(d.data)
    case Ok(Some(packet)) =>
      var r := HandlePacket(packet, d.source, config.servicePort);
      if r.Ok? {
        CountOne(Answering(response), Call(d.sender, r.value));
      }
    case _ =>
  }

  lemma {:induction false} BegunCount(config: ServerConfig, steps: seq<Step>, i: nat, response: Response)
    ensures Count(Begun(config, steps, i), Answering(response)) == Count(Taken(steps, i), Prompts(config, response))
  {
    hide Count, StartedCalls, IsPrompt;
    if steps == [] {
      CountNothing(Answering(response));
      CountNothing(Prompts(config, response));
    } else {
      var before, last := steps[..|steps| - 1], steps[|steps| - 1];
      BegunCount(config, before, i, response);
      if IsHandling(last, i) {
        var d := last.serverAct.datagram;
        StartedCount(config, response, d);
        CountSplits(Begun(config, before, i), StartedCalls(config, d), Answering(response));
        CountWith(Taken(before, i), Prompts(config, response), d);
      } else {
        assert Begun(config, before, i) + multiset{} == Begun(config, before, i);
        assert Taken(before, i) + multiset{} == Taken(before, i);
      }
    }
  }

  lemma OneMoreAnswer(packets: seq<ServerCode.Delivery>, packet: ServerCode.Delivery, servicePort: U16)
    ensures ServerCode.OneByOne(packets + [packet], servicePort)
         == Push(ServerCode.OneByOne(packets, servicePort), ServerCode.AnswerTo(packet, servicePort))
  {
    hide ServerCode.AnswerTo;
    assert (packets + [packet])[..|packets|] == packets;
  }

  lemma OneMoreDelivery(datagrams: seq<Datagram>, d: Datagram)
    ensures Deliveries(datagrams + [d]) == Deliveries(datagrams)
              + match Decode(d.data)
                case Ok(Some(packet)) => [(packet, d.source)]
                case _ => []
  {
    hide Decode;
    assert (datagrams + [d])[..|datagrams|] == datagrams;
  }

  lemma OneMoreCount(config: ServerConfig, datagrams: seq<Datagram>, d: Datagram, response: Response)
    ensures multiset(ServerCode.OneByOne(Deliveries(datagrams + [d]), config.servicePort))[response]
         == multiset(ServerCode.OneByOne(Deliveries(datagrams), config.servicePort))[response]
            + if IsPrompt(config, response, d) then 1 else 0
  {
    hide Decode, ServerCode.AnswerTo, ServerCode.OneByOne, Deliveries;
    OneMoreDelivery(datagrams, d);
    var packets := Deliveries(datagrams);
    match Decode(d.data)
    case Ok(Some(packet)) => OneMoreAnswer(packets, (packet, d.source), config.servicePort);
    case _ => assert packets + [] == packets;
  }

  /** How often handling one by one makes a call is how many datagrams prompt it. */
  lemma {:induction false} OneByOneCount(config: ServerConfig, datagrams: seq<Datagram>, response: Response)
    ensures multiset(ServerCode.OneByOne(Deliveries(datagrams), config.servicePort))[response]
         == Count(multiset(datagrams), Prompts(config, response))
  {
    hide Count, IsPrompt;
    if datagrams == [] {
      CountNothing(Prompts(config, response));
    } else {
      hide Deliveries, ServerCode.OneByOne;
      var before, last := datagrams[..|datagrams| - 1], datagrams[|datagrams| - 1];
      OneByOneCount(config, before, response);
      assert datagrams == before + [last];
      OneMoreCount(config, before, last, response);
      CountWith(multiset(before), Prompts(config, response), last);
    }
  }

  // ---------------------------------------------------------------- over runs

  /** What arrived was taken, is waiting or, unless all was calm, is gone; what is called was begun. */
  ghost predicate Kept(taken: multiset<Datagram>, arrivals: multiset<Datagram>, begun: multiset<Call>,
                       server: Server, calm: bool) {
    && taken + server.socket <= arrivals
    && (calm ==> taken + server.socket == arrivals)
    && server.calls <= begun
  }

  ghost predicate Calm(steps: seq<Step>) {
    forall step :: step in steps ==> Undisturbed(step)
  }

  ghost predicate Accounts(w: World, server: Server, steps: seq<Step>, i: nat)
    requires i < |w.servers|
  {
    Kept(Taken(steps, i), multiset(Arrivals(steps, i)), Begun(w.servers[i], steps, i), server, Calm(steps))
  }

  lemma ArrivalsGrow(steps: seq<Step>, i: nat, k: nat)
    requires k < |steps|
    ensures Arrivals(steps[..k + 1], i) == Arrivals(steps[..k], i)
              + if steps[k].Arrive? && steps[k].node == ServerNode(i) then [steps[k].datagram] else []
  {
    assert steps[..k + 1][..k] == steps[..k];
  }

  lemma TakenGrows(config: ServerConfig, steps: seq<Step>, i: nat, k: nat)
    requires k < |steps|
    ensures Taken(steps[..k + 1], i) == Taken(steps[..k], i)
              + if IsHandling(steps[k], i) then multiset{steps[k].serverAct.datagram} else multiset{}
    ensures Begun(config, steps[..k + 1], i) == Begun(config, steps[..k], i)
              + if IsHandling(steps[k], i) then StartedCalls(config, steps[k].serverAct.datagram) else multiset{}
  {
    hide StartedCalls;
    assert steps[..k + 1][..k] == steps[..k];
  }

  function ArrivedIn(step: Step, i: nat): multiset<Datagram> {
    if step.Arrive? && step.node == ServerNode(i) then multiset{step.datagram} else multiset{}
  }

  function TakenIn(step: Step, i: nat): multiset<Datagram> {
    if IsHandling(step, i) then multiset{step.serverAct.datagram} else multiset{}
  }

  function BegunIn(config: ServerConfig, step: Step, i: nat): multiset<Call> {
    if IsHandling(step, i) then StartedCalls(config, step.serverAct.datagram) else multiset{}
  }

  /** What a step does to a server: what arrives waits, what is taken is called for, the rest stays or is lost. */
  ghost predicate Moves(config: ServerConfig, server: Server, step: Step, server': Server, i: nat) {
    && server'.socket + TakenIn(step, i) <= server.socket + ArrivedIn(step, i)
    && (Undisturbed(step) ==> server'.socket + TakenIn(step, i) == server.socket + ArrivedIn(step, i))
    && server'.calls <= server.calls + BegunIn(config, step, i)
  }

  lemma HandleMoves(config: ServerConfig, server: Server, i: nat, d: Datagram)
    requires d in server.socket
    ensures Moves(config, server, ServerStep(i, Handle(d)), Handled(config, server, d), i)
  {
    hide StartedCalls;
    assert server.socket - multiset{d} + multiset{d} == server.socket;
    assert server.socket + multiset{} == server.socket;
  }

  /** A step that neither brings the server a datagram nor handles one. */
  lemma OtherMoves(config: ServerConfig, server: Server, step: Step, server': Server, i: nat)
    requires !(step.Arrive? && step.node == ServerNode(i)) && !IsHandling(step, i)
    requires server'.socket == server.socket || server'.socket == multiset{}
    requires server'.calls <= server.calls
    requires Undisturbed(step) ==> server'.socket == server.socket
    ensures Moves(config, server, step, server', i)
  {
    hide Undisturbed;
    assert forall m: multiset<Datagram> :: m + multiset{} == m;
    assert server.calls + multiset{} == server.calls;
  }

  lemma ArriveMoves(config: ServerConfig, server: Server, d: Datagram, i: nat)
    ensures Moves(config, server, Arrive(d, ServerNode(i)), server.(socket := server.socket + multiset{d}), i)
  {
    assert server.socket + multiset{d} + multiset{} == server.socket + multiset{d};
    assert server.calls + multiset{} == server.calls;
  }

  lemma OwnActMoves(w: World, s: State, i: nat, act: ServerAct)
    requires Inv(w, s) && i < |w.servers| && ServerEnabled(w, s, i, act)
    ensures Moves(w.servers[i], s.servers[i], ServerStep(i, act), ServerAfter(w.servers[i], s.servers[i], act), i)
  {
    assert Sized(w, s);
    hide Inv, StartedCalls, Undisturbed, PortIsFree, Shown, SocketAddresses, Moves;
    if act.Handle? {
      HandleMoves(w.servers[i], s.servers[i], i, act.datagram);
    } else {
      ServerKeepsOrDrops(w, s, i, act);
      hide ServerAfter, ServerEnabled;
      OtherMoves(w.servers[i], s.servers[i], ServerStep(i, act), ServerAfter(w.servers[i], s.servers[i], act), i);
    }
  }

  /** Steps of other participants at most end one of the server's calls. */
  lemma OtherStepKeepsServer(w: World, s: State, step: Step, i: nat)
    requires Sized(w, s) && Enabled(w, s, step) && i < |w.servers|
    requires !(step.Arrive? && step.node == ServerNode(i)) && !(step.ServerStep? && step.server == i)
    ensures var server, server' := s.servers[i], Apply(w, s, step).servers[i];
            server'.socket == server.socket && server'.calls <= server.calls
  {
    hide Enabled, Apply, ServerEnabled, ServerAfter, ServerSends, ScannerEnabled, ScannerAfter, ScannerSends;
    hide PortIsFree, Reaches, IsPeer, Listening, Accept, EndCall, Yield;
    match step
    case ServerStep(at, act) => ServerApplies(w, s, at, act);
    case ScannerStep(at, act) => ScannerApplies(w, s, at, act);
    case Arrive(d, node) => ArriveApplies(w, s, d, node);
    case Submit(at, call, c, from) =>
      SubmitApplies(w, s, at, call, c, from);
      EndCallKeeps(s.servers[at], call);
    case CallFails(at, call) =>
      CallFailsApplies(w, s, at, call);
      EndCallKeeps(s.servers[at], call);
    case BindCollector(at, port) => BindApplies(w, s, at, port);
    case BindCollectorFails(at, e) => BindFailsApplies(w, s, at, e);
    case _ => NetworkApplies(w, s, step);
  }

  lemma EndCallKeeps(server: Server, call: Call)
    ensures EndCall(server, call).socket == server.socket && EndCall(server, call).calls <= server.calls
  {}

  lemma OwnStepMoves(w: World, s: State, i: nat, act: ServerAct)
    requires Inv(w, s) && Enabled(w, s, ServerStep(i, act))
    ensures Moves(w.servers[i], s.servers[i], ServerStep(i, act), Apply(w, s, ServerStep(i, act)).servers[i], i)
  {
    assert Sized(w, s);
    hide Inv, Enabled, Apply, Moves, ServerEnabled, ServerAfter, ServerSends;
    ServerApplies(w, s, i, act);
    OwnActMoves(w, s, i, act);
  }

  lemma ArrivalMoves(w: World, s: State, d: Datagram, i: nat)
    requires Sized(w, s) && Enabled(w, s, Arrive(d, ServerNode(i))) && i < |w.servers|
    ensures var step := Arrive(d, ServerNode(i));
            Moves(w.servers[i], s.servers[i], step, Apply(w, s, step).servers[i], i)
  {
    hide Enabled, Apply, Moves, Listening;
    ArriveApplies(w, s, d, ServerNode(i));
    ArriveMoves(w.servers[i], s.servers[i], d, i);
  }

  lemma StepMoves(w: World, s: State, step: Step, i: nat)
    requires Inv(w, s) && Enabled(w, s, step) && i < |w.servers|
    ensures Moves(w.servers[i], s.servers[i], step, Apply(w, s, step).servers[i], i)
  {
    assert Sized(w, s);
    hide Inv, Enabled, Apply, Moves, Undisturbed;
    if step.ServerStep? && step.server == i {
      OwnStepMoves(w, s, i, step.serverAct);
    } else if step.Arrive? && step.node == ServerNode(i) {
      ArrivalMoves(w, s, step.datagram, i);
    } else {
      OtherStepKeepsServer(w, s, step, i);
      OtherMoves(w.servers[i], s.servers[i], step, Apply(w, s, step).servers[i], i);
    }
  }

  lemma Transfer(taken: multiset<Datagram>, socket: multiset<Datagram>, arrivals: multiset<Datagram>,
                 took: multiset<Datagram>, arrived: multiset<Datagram>, socket': multiset<Datagram>)
    requires taken + socket <= arrivals && socket' + took <= socket + arrived
    ensures taken + took + socket' <= arrivals + arrived
    ensures taken + socket == arrivals && socket' + took == socket + arrived ==>
              taken + took + socket' == arrivals + arrived
  {
    forall d: Datagram ensures (taken + took + socket')[d] <= (arrivals + arrived)[d] {
      assert (taken + socket)[d] <= arrivals[d] && (socket' + took)[d] <= (socket + arrived)[d];
    }
    if taken + socket == arrivals && socket' + took == socket + arrived {
      forall d: Datagram ensures (taken + took + socket')[d] == (arrivals + arrived)[d] {
        assert (taken + socket)[d] == arrivals[d] && (socket' + took)[d] == (socket + arrived)[d];
      }
    }
  }

  lemma KeptOn(config: ServerConfig, server: Server, step: Step, server': Server, i: nat, taken: multiset<Datagram>,
               arrivals: multiset<Datagram>, begun: multiset<Call>, calm: bool)
    requires Kept(taken, arrivals, begun, server, calm) && Moves(config, server, step, server', i)
    ensures Kept(taken + TakenIn(step, i), arrivals + ArrivedIn(step, i), begun + BegunIn(config, step, i), server',
                 calm && Undisturbed(step))
  {
    hide TakenIn, ArrivedIn, BegunIn, Undisturbed;
    Transfer(taken, server.socket, arrivals, TakenIn(step, i), ArrivedIn(step, i), server'.socket);
  }

  lemma CalmGrows(steps: seq<Step>, k: nat)
    requires k < |steps|
    ensures Calm(steps[..k + 1]) <==> Calm(steps[..k]) && Undisturbed(steps[k])
  {
    hide Undisturbed;
    assert steps[..k + 1] == steps[..k] + [steps[k]];
  }

  lemma MovesAccounts(w: World, server: Server, steps: seq<Step>, k: nat, server': Server, i: nat)
    requires i < |w.servers| && k < |steps|
    requires Accounts(w, server, steps[..k], i) && Moves(w.servers[i], server, steps[k], server', i)
    ensures Accounts(w, server', steps[..k + 1], i)
  {
    var config, step := w.servers[i], steps[k];
    ArrivalsGrow(steps, i, k);
    TakenGrows(config, steps, i, k);
    CalmGrows(steps, k);
    hide Arrivals, Taken, Begun, Calm, Kept, Moves, StartedCalls, Undisturbed;
    KeptOn(config, server, step, server', i, Taken(steps[..k], i), multiset(Arrivals(steps[..k], i)),
           Begun(config, steps[..k], i), Calm(steps[..k]));
    assert multiset(Arrivals(steps[..k + 1], i)) == multiset(Arrivals(steps[..k], i)) + ArrivedIn(step, i);
  }

  lemma NothingArrived(w: World, faults: nat, run: Run, i: nat)
    requires IsRun(w, faults, run) && i < |w.servers|
    ensures Accounts(w, StateAt(w, faults, run, 0).servers[i], run.steps[..0], i)
  {
    hide Undisturbed;
    assert run.steps[..0] == [];
  }

  lemma {:induction false} RunAccounts(w: World, faults: nat, run: Run, i: nat, k: nat)
    requires IsRun(w, faults, run) && i < |w.servers| && k <= |run.steps|
    ensures Accounts(w, StateAt(w, faults, run, k).servers[i], run.steps[..k], i)
    decreases k
  {
    hide IsRun, StateAt, Inv, Permitted, Apply, Accounts, Moves;
    if k == 0 {
      NothingArrived(w, faults, run, i);
    } else {
      RunAccounts(w, faults, run, i, k - 1);
      RunKeepsInv(w, faults, run, k - 1);
      StepAt(w, faults, run, k - 1);
      var s, step := StateAt(w, faults, run, k - 1), run.steps[k - 1];
      StepMoves(w, s, step, i);
      MovesAccounts(w, s.servers[i], run.steps, k - 1, Apply(w, s, step).servers[i], i);
    }
  }

  /**
   * In every run, each call a server is making it has begun, and it begins each call at most as
   * often as handling one by one what arrived for it makes it; and just as often in an undisturbed
   * run in which nothing is left waiting at it.
   */
  lemma ServerAnswersOneByOne(w: World, faults: nat, run: Run, i: nat, response: Response)
    requires IsRun(w, faults, run) && i < |w.servers|
    ensures var server := Final(w, faults, run).servers[i];
            var begun := Begun(w.servers[i], run.steps, i);
            var answers := ServerCode.OneByOne(Deliveries(Arrivals(run.steps, i)), w.servers[i].servicePort);
            && server.calls <= begun
            && Count(begun, Answering(response)) <= multiset(answers)[response]
            && (server.socket == multiset{} && Calm(run.steps) ==>
                  Count(begun, Answering(response)) == multiset(answers)[response])
  {
    hide IsRun, Accounts, Arrivals, Taken, Begun, Deliveries, ServerCode.OneByOne, Count, Calm;
    RunAccounts(w, faults, run, i, |run.steps|);
    assert run.steps[..|run.steps|] == run.steps;
    AccountsMeans(w, Final(w, faults, run).servers[i], run.steps, i);
    hide Final;
    var config, taken, arrived := w.servers[i], Taken(run.steps, i), multiset(Arrivals(run.steps, i));
    BegunCount(config, run.steps, i, response);
    OneByOneCount(config, Arrivals(run.steps, i), response);
    CountGrows(taken, arrived, Prompts(config, response));
  }

  lemma AccountsMeans(w: World, server: Server, steps: seq<Step>, i: nat)
    requires i < |w.servers| && Accounts(w, server, steps, i)
    ensures server.calls <= Begun(w.servers[i], steps, i) && Taken(steps, i) <= multiset(Arrivals(steps, i))
    ensures server.socket == multiset{} && Calm(steps) ==>
              Taken(steps, i) == multiset(Arrivals(steps, i))
  {
    hide Arrivals, Taken, Begun, Calm;
    assert Taken(steps, i) + multiset{} == Taken(steps, i);
  }
}
