/**
 * The step system does what the code does: in every run, the sends of a scanner are those of
 * `send_requests`, the sends of a server before it listens are those of `announce`, and the calls
 * of a server are among those of handling one by one what arrived.
 */
module DiscoveryPlans {
  import opened Wrappers
  import opened Net
  import opened Wire
  import opened Packets
  import opened Neighbors
  import opened Discovery
  import Outside
  import ScannerCode = Scanner
  import ServerCode = Server
  import ResponseCollector

  // ---------------------------------------------------------------- the scanner's sends

  /** What an act of a scanner does to the outside, as `send_requests` would record it. */
  function RequestEffects(config: ScannerConfig, data: Bytes, scanner: Scanner, act: ScannerAct): seq<Outside.Effect> {
    match (act, scanner.sending)
    case (Request(_), _) => [Outside.Multicast(ScannerCode.MulticastAddress(config.discoveryPort), data, Ok(()))]
    case (Scan(neighbors), _) => [Outside.Neighbors(Ok(neighbors))]
    case (RequestNext(_), Unicasting(remaining)) =>
      if remaining == [] then [] else [Outside.Unicast(remaining[0], data, Ok(()))]
    case (SendingFails(SendRequest(e)), Unsent) =>
      [Outside.Multicast(ScannerCode.MulticastAddress(config.discoveryPort), data, Err(e))]
    case (SendingFails(ScanIpNeighbor(e)), MulticastSent) => [Outside.Neighbors(Err(e))]
    case (SendingFails(SendRequest(e)), Unicasting(remaining)) =>
      if remaining == [] then [] else [Outside.Unicast(remaining[0], data, Err(e))]
    case _ => []
  }

  /** What `send_requests` has done in the first `k` steps. */
  ghost function RequestTrace(w: World, faults: nat, run: Run, c: nat, k: nat): seq<Outside.Effect>
    requires IsRun(w, faults, run) && c < |w.scanners| && k <= |run.steps|
  {
    if k == 0 then []
    else
      var s, step := StateAt(w, faults, run, k - 1), run.steps[k - 1];
      RequestTrace(w, faults, run, c, k - 1)
      + if step.ScannerStep? && step.scanner == c then
          RequestEffects(w.scanners[c], RequestData(CollectorPort(s, c)), s.scanners[c], step.scannerAct)
        else []
  }

  /** How it ended, if it has. */
  function RequestOutcome(steps: seq<Step>, c: nat): Option<Result<(), ScanFailure>> {
    if steps == [] then None
    else
      match steps[|steps| - 1]
      case ScannerStep(at, RequestsDone) =>
        if at == c then Some(Ok(())) else RequestOutcome(steps[..|steps| - 1], c)
      case ScannerStep(at, SendingFails(failure)) =>
        if at == c then Some(Err(failure)) else RequestOutcome(steps[..|steps| - 1], c)
      case _ => RequestOutcome(steps[..|steps| - 1], c)
  }

  /** How far a scanner is, told by what it has done. */
  ghost predicate Follows(port: U16, data: Bytes, sending: Sending, trace: seq<Outside.Effect>,
                          outcome: Option<Result<(), ScanFailure>>) {
    match outcome
    case Some(r) => sending.Done? && ScannerCode.Requests(trace, r, data, port)
    case None =>
      match sending
      case Unsent => trace == []
      case MulticastSent => |trace| == 1 && ScannerCode.Underway(trace, data, port, 1)
      case Unicasting(remaining) =>
        && |trace| > 1 && ScannerCode.Underway(trace, data, port, |trace| - 1)
        && var addresses := SocketAddresses(ScannerCode.FoundAfterMulticast(trace), port);
           |trace| - 2 <= |addresses| && remaining == addresses[|trace| - 2..]
      case Done => trace == [] || exists done :: ScannerCode.Underway(trace, data, port, done)
  }

  lemma MulticastFollows(config: ScannerConfig, data: Bytes, scanner: Scanner, act: ScannerAct)
    requires scanner.sending.Unsent? && (act.Request? || (act.SendingFails? && act.failure.SendRequest?))
    ensures var trace := RequestEffects(config, data, scanner, act);
            if act.Request? then Follows(config.discoveryPort, data, MulticastSent, trace, None)
            else Follows(config.discoveryPort, data, Done, trace, Some(Err(act.failure)))
  {
    hide ScannerCode.Underway, ScannerCode.Requests;
    ScannerCode.Started(RequestEffects(config, data, scanner, act)[0], config.discoveryPort);
  }

  lemma ScanFollows(config: ScannerConfig, data: Bytes, scanner: Scanner, act: ScannerAct, trace: seq<Outside.Effect>)
    requires scanner.sending.MulticastSent? && Follows(config.discoveryPort, data, MulticastSent, trace, None)
    requires act.Scan? || (act.SendingFails? && act.failure.ScanIpNeighbor?)
    ensures var trace' := trace + RequestEffects(config, data, scanner, act);
            if act.Scan? then
              Follows(config.discoveryPort, data,
                      Unicasting(SocketAddresses(act.neighbors, config.discoveryPort)), trace', None)
            else Follows(config.discoveryPort, data, Done, trace', Some(Err(act.failure)))
  {
    hide ScannerCode.Underway, ScannerCode.Requests;
    var found := if act.Scan? then Ok(act.neighbors) else Err(act.failure.scan);
    ScannerCode.LookedUp(trace, data, config.discoveryPort, found);
  }

  lemma NextFollows(config: ScannerConfig, data: Bytes, scanner: Scanner, act: ScannerAct, trace: seq<Outside.Effect>)
    requires scanner.sending.Unicasting? && scanner.sending.remaining != []
    requires Follows(config.discoveryPort, data, scanner.sending, trace, None)
    requires act.RequestNext? || (act.SendingFails? && act.failure.SendRequest?)
    ensures var trace' := trace + RequestEffects(config, data, scanner, act);
            if act.RequestNext? then
              Follows(config.discoveryPort, data, Unicasting(scanner.sending.remaining[1..]), trace', None)
            else Follows(config.discoveryPort, data, Done, trace', Some(Err(act.failure)))
  {
    hide ScannerCode.Underway, ScannerCode.Requests, IpNeighbor.GetSocketAddress;
    var unicast := RequestEffects(config, data, scanner, act)[0];
    ScannerCode.SentOneMore(trace, unicast, config.discoveryPort, |trace| - 1);
    assert ScannerCode.FoundAfterMulticast(trace + [unicast]) == ScannerCode.FoundAfterMulticast(trace);
  }

  lemma DoneFollows(port: U16, data: Bytes, trace: seq<Outside.Effect>)
    requires Follows(port, data, Unicasting([]), trace, None)
    ensures Follows(port, data, Done, trace, Some(Ok(())))
  {
    hide ScannerCode.Underway, ScannerCode.Requests;
    ScannerCode.Completed(trace, data, port);
  }

  function OutcomeAfter(outcome: Option<Result<(), ScanFailure>>, act: ScannerAct): Option<Result<(), ScanFailure>> {
    match act
    case RequestsDone => Some(Ok(()))
    case SendingFails(failure) => Some(Err(failure))
    case _ => outcome
  }

  lemma ActFollows(w: World, s: State, c: nat, act: ScannerAct, data: Bytes, trace: seq<Outside.Effect>,
                   outcome: Option<Result<(), ScanFailure>>)
    requires Sized(w, s) && c < |w.scanners| && ScannerEnabled(w, s, c, act)
    requires Follows(w.scanners[c].discoveryPort, data, s.scanners[c].sending, trace, outcome)
    ensures Follows(w.scanners[c].discoveryPort, data, ScannerAfter(w.scanners[c], s.scanners[c], act).sending,
                    trace + RequestEffects(w.scanners[c], data, s.scanners[c], act), OutcomeAfter(outcome, act))
  {
    var config, scanner := w.scanners[c], s.scanners[c];
    var port := config.discoveryPort;
    hide ScannerCode.Underway, ScannerCode.Requests, SocketAddresses, Shown, PortIsFree, Heard;
    assert trace + [] == trace;
    if act.Request? || act.Scan? || act.RequestNext? || act.SendingFails? {
      assert outcome.None? && !scanner.sending.Done?;
      if scanner.sending.Unsent? {
        assert trace == [];
        MulticastFollows(config, data, scanner, act);
        assert [] + RequestEffects(config, data, scanner, act) == RequestEffects(config, data, scanner, act);
      } else if scanner.sending.MulticastSent? {
        hide Follows;
        ScanFollows(config, data, scanner, act, trace);
      } else {
        hide Follows;
        NextFollows(config, data, scanner, act, trace);
      }
    } else if act.RequestsDone? {
      assert outcome.None?;
      DoneFollows(port, data, trace);
    } else if act.Drop? && outcome.None? {
      DropFollows(port, data, scanner.sending, trace);
    }
  }

  lemma DropFollows(port: U16, data: Bytes, sending: Sending, trace: seq<Outside.Effect>)
    requires Follows(port, data, sending, trace, None)
    ensures Follows(port, data, Done, trace, None)
  {
    hide ScannerCode.Underway;
  }

  ghost predicate ScannerFollows(w: World, s: State, c: nat, trace: seq<Outside.Effect>,
                                 outcome: Option<Result<(), ScanFailure>>)
    requires Sized(w, s) && c < |w.scanners|
  {
    && Follows(w.scanners[c].discoveryPort, RequestData(CollectorPort(s, c)), s.scanners[c].sending, trace, outcome)
    && (s.collectors[c].None? ==> s.scanners[c].sending.Unsent? && outcome.None?)
  }

  lemma OwnStepFollows(w: World, s: State, c: nat, act: ScannerAct, trace: seq<Outside.Effect>,
                       outcome: Option<Result<(), ScanFailure>>)
    requires Sized(w, s) && Enabled(w, s, ScannerStep(c, act)) && ScannerFollows(w, s, c, trace, outcome)
    ensures ScannerFollows(w, Apply(w, s, ScannerStep(c, act)), c,
                           trace + RequestEffects(w.scanners[c], RequestData(CollectorPort(s, c)), s.scanners[c], act),
                           OutcomeAfter(outcome, act))
  {
    hide Enabled, Apply, Follows, ScannerAfter, ScannerSends, RequestData, RequestEffects, OutcomeAfter;
    ScannerApplies(w, s, c, act);
    assert s.collectors[c].Some?;
    hide ScannerEnabled;
    ActFollows(w, s, c, act, RequestData(CollectorPort(s, c)), trace, outcome);
  }

  /** No other step changes what a scanner has sent, or its collector once it has sent. */
  lemma OtherStepFollows(w: World, s: State, step: Step, c: nat, trace: seq<Outside.Effect>,
                         outcome: Option<Result<(), ScanFailure>>)
    requires Sized(w, s) && Enabled(w, s, step) && c < |w.scanners| && ScannerFollows(w, s, c, trace, outcome)
    requires !(step.ScannerStep? && step.scanner == c)
    ensures ScannerFollows(w, Apply(w, s, step), c, trace, outcome)
  {
    SendingStays(w, s, step, c);
    hide Enabled, Apply, RequestData, ScannerCode.Underway, ScannerCode.Requests;
  }

  lemma SendingStays(w: World, s: State, step: Step, c: nat)
    requires Sized(w, s) && Enabled(w, s, step) && c < |w.scanners| && !(step.ScannerStep? && step.scanner == c)
    ensures Apply(w, s, step).scanners[c].sending == s.scanners[c].sending
    ensures Apply(w, s, step).collectors[c] == s.collectors[c]
            || (s.collectors[c].None? && Apply(w, s, step).collectors[c].Some?)
  {
    hide Enabled, Apply, ServerEnabled, ServerAfter, ServerSends, ScannerEnabled, ScannerAfter, ScannerSends;
    hide PortIsFree, Reaches, IsPeer, Listening, ResponseCollector.Validate;
    match step
    case ServerStep(i, act) => ServerApplies(w, s, i, act);
    case ScannerStep(at, act) => ScannerApplies(w, s, at, act);
    case Arrive(d, node) => ArriveApplies(w, s, d, node);
    case Submit(i, call, at, from) => SubmitApplies(w, s, i, call, at, from);
    case CallFails(i, call) => CallFailsApplies(w, s, i, call);
    case BindCollector(at, port) => BindApplies(w, s, at, port);
    case BindCollectorFails(at, e) => BindFailsApplies(w, s, at, e);
    case _ => NetworkApplies(w, s, step);
  }

  lemma TraceGrows(w: World, faults: nat, run: Run, c: nat, k: nat)
    requires IsRun(w, faults, run) && c < |w.scanners| && k < |run.steps|
    ensures var s, step := StateAt(w, faults, run, k), run.steps[k];
            var trace, trace' := RequestTrace(w, faults, run, c, k), RequestTrace(w, faults, run, c, k + 1);
            var outcome, outcome' := RequestOutcome(run.steps[..k], c), RequestOutcome(run.steps[..k + 1], c);
            if step.ScannerStep? && step.scanner == c then
              trace' == trace + RequestEffects(w.scanners[c], RequestData(CollectorPort(s, c)), s.scanners[c],
                                               step.scannerAct)
              && outcome' == OutcomeAfter(outcome, step.scannerAct)
            else trace' == trace && outcome' == outcome
  {
    hide IsRun, StateAt, RequestEffects, RequestData;
    assert run.steps[..k + 1][..k] == run.steps[..k];
  }

  lemma {:induction false} RunFollows(w: World, faults: nat, run: Run, c: nat, k: nat)
    requires IsRun(w, faults, run) && c < |w.scanners| && k <= |run.steps|
    ensures ScannerFollows(w, StateAt(w, faults, run, k), c, RequestTrace(w, faults, run, c, k),
                           RequestOutcome(run.steps[..k], c))
    decreases k
  {
    hide IsRun, StateAt, Enabled, Apply, ScannerFollows, RequestEffects, RequestTrace, RequestOutcome;
    hide OutcomeAfter, RequestData;
    if k > 0 {
      RunFollows(w, faults, run, c, k - 1);
      StepAt(w, faults, run, k - 1);
      TraceGrows(w, faults, run, c, k - 1);
      var s, step := StateAt(w, faults, run, k - 1), run.steps[k - 1];
      var trace, outcome := RequestTrace(w, faults, run, c, k - 1), RequestOutcome(run.steps[..k - 1], c);
      if step.ScannerStep? && step.scanner == c {
        OwnStepFollows(w, s, c, step.scannerAct, trace, outcome);
      } else {
        OtherStepFollows(w, s, step, c, trace, outcome);
      }
    } else {
      FollowsAtFirst(w, faults, run, c);
    }
  }

  lemma FollowsAtFirst(w: World, faults: nat, run: Run, c: nat)
    requires IsRun(w, faults, run) && c < |w.scanners|
    ensures ScannerFollows(w, StateAt(w, faults, run, 0), c, RequestTrace(w, faults, run, c, 0),
                           RequestOutcome(run.steps[..0], c))
  {
    assert run.steps[..0] == [];
  }

  /**
   * In every run the sends of a scanner are those of `send_requests`: in its order, a prefix of
   * its plan, each with the port of the bound collector; and when the sending has ended, with the
   * result that `send_requests` would have.
   */
  lemma ScannerSendsRequests(w: World, faults: nat, run: Run, c: nat)
    requires IsRun(w, faults, run) && c < |w.scanners|
    ensures var trace := RequestTrace(w, faults, run, c, |run.steps|);
            var data, port := RequestData(CollectorPort(Final(w, faults, run), c)), w.scanners[c].discoveryPort;
            var outcome := RequestOutcome(run.steps, c);
            && (trace == []
                || (ScannerCode.InRequestOrder(trace, port) && Outside.SendsOnly(trace, data)
                    && Outside.Attempted(trace) <= ScannerCode.Plan(port, ScannerCode.FoundAfterMulticast(trace))))
            && (outcome.Some? ==> ScannerCode.Requests(trace, outcome.value, data, port))
  {
    hide IsRun, StateAt, RequestTrace, RequestOutcome, RequestData;
    hide ScannerCode.InRequestOrder, ScannerCode.Plan, Outside.SendsOnly, Outside.Attempted;
    RunFollows(w, faults, run, c, |run.steps|);
    assert run.steps[..|run.steps|] == run.steps;
    hide Follows;
    FollowsIsInOrder(w.scanners[c].discoveryPort, RequestData(CollectorPort(Final(w, faults, run), c)),
                     Final(w, faults, run).scanners[c].sending, RequestTrace(w, faults, run, c, |run.steps|),
                     RequestOutcome(run.steps, c));
  }

  lemma FollowsIsInOrder(port: U16, data: Bytes, sending: Sending, trace: seq<Outside.Effect>,
                         outcome: Option<Result<(), ScanFailure>>)
    requires Follows(port, data, sending, trace, outcome)
    ensures trace == []
            || (ScannerCode.InRequestOrder(trace, port) && Outside.SendsOnly(trace, data)
                && Outside.Attempted(trace) <= ScannerCode.Plan(port, ScannerCode.FoundAfterMulticast(trace)))
    ensures outcome.Some? ==> ScannerCode.Requests(trace, outcome.value, data, port)
  {
    hide SocketAddresses, ScannerCode.Plan, Outside.Attempted, Outside.SendsOnly, Outside.AllSucceeded;
    hide ScannerCode.InRequestOrder;
  }

  // ---------------------------------------------------------------- the server's sends

  /** What an act of a server does to the outside, as `announce` would record it. */
  function AnnounceEffects(config: ServerConfig, act: ServerAct): seq<Outside.Effect> {
    var data, group := AnnouncementData(config.servicePort), ScannerCode.MulticastAddress(config.discoveryPort);
    match act
    case FindNeighbors(neighbors) => [Outside.Neighbors(Ok(neighbors))]
    case FindFails(e) => [Outside.Neighbors(Err(e))]
    case Multicast(_) => [Outside.Multicast(group, data, Ok(()))]
    case MulticastFails(e) => [Outside.Multicast(group, data, Err(e))]
    case Unicast(address, _) => [Outside.Unicast(address, data, Ok(()))]
    case UnicastFails(address, e) => [Outside.Unicast(address, data, Err(e))]
    case _ => []
  }

  /** What `announce` has done in these steps. */
  function AnnounceTrace(w: World, steps: seq<Step>, i: nat): seq<Outside.Effect>
    requires i < |w.servers|
  {
    if steps == [] then []
    else
      var last := steps[|steps| - 1];
      AnnounceTrace(w, steps[..|steps| - 1], i)
      + if last.ServerStep? && last.server == i then AnnounceEffects(w.servers[i], last.serverAct) else []
  }

  /** How far a server is, told by what it has done: it serves only when all announcements went out. */
  ghost predicate ServerFollows(config: ServerConfig, phase: ServerPhase, trace: seq<Outside.Effect>) {
    var data, port := AnnouncementData(config.servicePort), config.discoveryPort;
    match phase
    case Starting => trace == []
    case Scanned(neighbors) => trace == [Outside.Neighbors(Ok(neighbors))]
    case Announcing(pending) => ServerCode.Announcing(trace, data, port, pending)
    case Serving => ServerCode.Announces(trace, Ok(()), data, port)
    case Draining => ServerCode.Announces(trace, Ok(()), data, port)
    case Finished(r) =>
      || (trace == [] && r == Err(InvalidDiscoveryPort) && port == 0)
      || ServerCode.Announces(trace, Ok(()), data, port)
      || (r.Err? && ServerCode.Announces(trace, r, data, port))
  }

  lemma FindFollows(config: ServerConfig, act: ServerAct)
    requires act.FindFails?
    ensures ServerFollows(config, Finished(Err(IpNeighborFailure(act.scan))), [] + AnnounceEffects(config, act))
  {
    hide ServerCode.Announces, AnnouncementData;
    ServerCode.NotScanned(AnnouncementData(config.servicePort), config.discoveryPort, act.scan);
    assert [] + AnnounceEffects(config, act) == AnnounceEffects(config, act);
  }

  lemma GroupFollows(config: ServerConfig, neighbors: seq<IpNeighbor>, act: ServerAct)
    requires act.Multicast? || act.MulticastFails?
    ensures var trace := [Outside.Neighbors(Ok(neighbors))] + AnnounceEffects(config, act);
            if act.Multicast? then
              ServerFollows(config, Announcing(multiset(SocketAddresses(neighbors, config.discoveryPort))), trace)
            else ServerFollows(config, Finished(Err(NetworkIo(act.io))), trace)
  {
    hide ServerCode.Announces, ServerCode.Announcing, AnnouncementData;
    var multicast := AnnounceEffects(config, act)[0];
    ServerCode.MulticastFirst(neighbors, multicast, config.discoveryPort);
    assert [Outside.Neighbors(Ok(neighbors))] + AnnounceEffects(config, act)
        == [Outside.Neighbors(Ok(neighbors)), multicast];
  }

  lemma UnicastFollows(config: ServerConfig, pending: multiset<SocketAddrV6>, act: ServerAct,
                       trace: seq<Outside.Effect>)
    requires (act.Unicast? || act.UnicastFails?) && act.address in pending
    requires ServerFollows(config, Announcing(pending), trace)
    ensures var trace' := trace + AnnounceEffects(config, act);
            if act.Unicast? then ServerFollows(config, Announcing(pending - multiset{act.address}), trace')
            else ServerFollows(config, Finished(Err(NetworkIo(act.io))), trace')
  {
    hide ServerCode.Announces, ServerCode.Announcing, AnnouncementData;
    ServerCode.UnicastOne(trace, AnnounceEffects(config, act)[0], config.discoveryPort, pending);
  }

  lemma AllFollows(config: ServerConfig, trace: seq<Outside.Effect>)
    requires ServerFollows(config, Announcing(multiset{}), trace)
    ensures ServerCode.Announces(trace, Ok(()), AnnouncementData(config.servicePort), config.discoveryPort)
  {
    hide ServerCode.Announces, ServerCode.Announcing, AnnouncementData;
    ServerCode.AnnouncedToAll(trace, AnnouncementData(config.servicePort), config.discoveryPort);
  }

  predicate IsAnnouncingAct(act: ServerAct) {
    act.FindNeighbors? || act.FindFails? || act.Multicast? || act.MulticastFails? || act.Unicast? || act.UnicastFails?
  }

  lemma AnnouncingActFollows(w: World, s: State, i: nat, act: ServerAct, trace: seq<Outside.Effect>)
    requires i < |w.servers| && i < |s.servers| && ServerEnabled(w, s, i, act) && IsAnnouncingAct(act)
    requires ServerFollows(w.servers[i], s.servers[i].phase, trace)
    ensures ServerFollows(w.servers[i], ServerAfter(w.servers[i], s.servers[i], act).phase,
                          trace + AnnounceEffects(w.servers[i], act))
  {
    var config, phase := w.servers[i], s.servers[i].phase;
    hide ServerCode.Announces, ServerCode.Announcing, AnnouncementData, SocketAddresses, Shown, PortIsFree;
    if phase.Starting? {
      assert trace == [];
      if act.FindFails? {
        hide ServerFollows, AnnounceEffects;
        FindFollows(config, act);
      } else {
        assert [] + AnnounceEffects(config, act) == AnnounceEffects(config, act);
      }
    } else if phase.Scanned? {
      assert trace == [Outside.Neighbors(Ok(phase.neighbors))];
      hide ServerFollows, AnnounceEffects;
      GroupFollows(config, phase.neighbors, act);
    } else {
      hide ServerFollows, AnnounceEffects;
      UnicastFollows(config, phase.pending, act, trace);
    }
  }

  lemma ServingActFollows(w: World, s: State, i: nat, act: ServerAct, trace: seq<Outside.Effect>)
    requires i < |w.servers| && i < |s.servers| && ServerEnabled(w, s, i, act) && !IsAnnouncingAct(act)
    requires ServerFollows(w.servers[i], s.servers[i].phase, trace)
    ensures ServerFollows(w.servers[i], ServerAfter(w.servers[i], s.servers[i], act).phase, trace)
  {
    hide ServerCode.Announces, ServerCode.Announcing, AnnouncementData, SocketAddresses, PortIsFree, Handled;
    if act.Bind? || act.BindFails? {
      AllFollows(w.servers[i], trace);
    } else if act.Handle? {
      HandlingStays(w.servers[i], s.servers[i], act.datagram);
    }
  }

  lemma HandlingStays(config: ServerConfig, server: Server, d: Datagram)
    ensures Handled(config, server, d).phase == server.phase
  {}

  lemma ServerActFollows(w: World, s: State, i: nat, act: ServerAct, trace: seq<Outside.Effect>)
    requires i < |w.servers| && i < |s.servers| && ServerEnabled(w, s, i, act)
    requires ServerFollows(w.servers[i], s.servers[i].phase, trace)
    ensures ServerFollows(w.servers[i], ServerAfter(w.servers[i], s.servers[i], act).phase,
                          trace + AnnounceEffects(w.servers[i], act))
  {
    hide ServerFollows, ServerEnabled, ServerAfter, AnnouncementData;
    if IsAnnouncingAct(act) {
      AnnouncingActFollows(w, s, i, act, trace);
    } else {
      ServingActFollows(w, s, i, act, trace);
      assert trace + [] == trace;
    }
  }

  lemma PhaseStays(w: World, s: State, step: Step, i: nat)
    requires Sized(w, s) && Enabled(w, s, step) && i < |w.servers| && !(step.ServerStep? && step.server == i)
    ensures Apply(w, s, step).servers[i].phase == s.servers[i].phase
  {
    hide Enabled, Apply, ServerEnabled, ServerAfter, ServerSends, ScannerEnabled, ScannerAfter, ScannerSends;
    hide PortIsFree, Reaches, IsPeer, Listening, ResponseCollector.Validate;
    match step
    case ServerStep(at, act) => ServerApplies(w, s, at, act);
    case ScannerStep(at, act) => ScannerApplies(w, s, at, act);
    case Arrive(d, node) => ArriveApplies(w, s, d, node);
    case Submit(at, call, c, from) => SubmitApplies(w, s, at, call, c, from);
    case CallFails(at, call) => CallFailsApplies(w, s, at, call);
    case BindCollector(at, port) => BindApplies(w, s, at, port);
    case BindCollectorFails(at, e) => BindFailsApplies(w, s, at, e);
    case _ => NetworkApplies(w, s, step);
  }

  lemma ServerStepFollows(w: World, s: State, step: Step, i: nat, trace: seq<Outside.Effect>)
    requires Sized(w, s) && Enabled(w, s, step) && i < |w.servers|
    requires ServerFollows(w.servers[i], s.servers[i].phase, trace)
    ensures var own := step.ServerStep? && step.server == i;
            var did := if own then AnnounceEffects(w.servers[i], step.serverAct) else [];
            ServerFollows(w.servers[i], Apply(w, s, step).servers[i].phase, trace + did)
  {
    hide Enabled, Apply, ServerFollows, ServerAfter, ServerSends, AnnounceEffects;
    if step.ServerStep? && step.server == i {
      ServerApplies(w, s, i, step.serverAct);
      hide ServerEnabled;
      ServerActFollows(w, s, i, step.serverAct, trace);
    } else {
      PhaseStays(w, s, step, i);
      assert trace + [] == trace;
    }
  }

  lemma {:induction false} ServerRunFollows(w: World, faults: nat, run: Run, i: nat, k: nat)
    requires IsRun(w, faults, run) && i < |w.servers| && k <= |run.steps|
    ensures ServerFollows(w.servers[i], StateAt(w, faults, run, k).servers[i].phase,
                          AnnounceTrace(w, run.steps[..k], i))
    decreases k
  {
    if k == 0 {
      assert run.steps[..0] == [];
    } else {
      hide IsRun, StateAt, Enabled, Apply, ServerFollows, AnnounceEffects, AnnounceTrace;
      ServerRunFollows(w, faults, run, i, k - 1);
      StepAt(w, faults, run, k - 1);
      AnnounceGrows(w, run.steps, i, k - 1);
      ServerStepFollows(w, StateAt(w, faults, run, k - 1), run.steps[k - 1], i,
                        AnnounceTrace(w, run.steps[..k - 1], i));
    }
  }

  lemma AnnounceGrows(w: World, steps: seq<Step>, i: nat, k: nat)
    requires i < |w.servers| && k < |steps|
    ensures var own := steps[k].ServerStep? && steps[k].server == i;
            var did := if own then AnnounceEffects(w.servers[i], steps[k].serverAct) else [];
            AnnounceTrace(w, steps[..k + 1], i) == AnnounceTrace(w, steps[..k], i) + did
  {
    assert steps[..k + 1][..k] == steps[..k];
  }

  /**
   * In every run the sends of a server are those of `announce`: what it has done stands where its
   * phase says, and while it serves, and after, every announcement of its plan has gone out.
   */
  lemma ServerAnnounces(w: World, faults: nat, run: Run, i: nat)
    requires IsRun(w, faults, run) && i < |w.servers|
    ensures var phase, trace := Final(w, faults, run).servers[i].phase, AnnounceTrace(w, run.steps, i);
            var data, port := AnnouncementData(w.servers[i].servicePort), w.servers[i].discoveryPort;
            && ServerFollows(w.servers[i], phase, trace)
            && (phase.Serving? || phase.Draining? || phase == Finished(Ok(())) ==>
                  ServerCode.Announces(trace, Ok(()), data, port))
  {
    ServerRunFollows(w, faults, run, i, |run.steps|);
    assert run.steps[..|run.steps|] == run.steps;
    hide IsRun, StateAt, AnnounceTrace, AnnouncementData, ServerCode.Announces, ServerCode.Announcing;
  }
}
