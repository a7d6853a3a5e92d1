/**
 * What is recorded as sent is on the network: each successful send puts one datagram on its way
 * to each host that the world lets its address reach, and nothing else adds to the network. So
 * whoever listens when a peer sends to its address finds that peer, or is found by it.
 */
module DiscoverySends {
  import opened Wrappers
  import opened Net
  import opened Wire
  import opened Packets
  import opened Neighbors
  import opened Discovery
  import opened DiscoverySoundness
  import opened DiscoveryConservation
  import opened DiscoveryCompleteness
  import opened DiscoveryGap
  import opened DiscoveryPlans
  import Outside

  // ---------------------------------------------------------------- one step

  /** The world lets a send reach that host: the hosts of the group, or the host at the address. */
  predicate Carries(w: World, from: Host, e: Outside.Effect, host: Host) {
    match e
    case Multicast(_, _, _) => from in w.multicast && host in w.multicast[from]
    case Unicast(address, _, _) =>
      (from, address.ip, address.scope) in w.peers && w.peers[(from, address.ip, address.scope)] == host
    case _ => false
  }

  /** One datagram for each host the send reaches, with the data and port of the sender. */
  ghost predicate IsSentFor(w: World, sender: Node, e: Outside.Effect, sent: multiset<Datagram>)
    requires IsNode(w, sender) && Outside.IsSend(e)
  {
    && (forall d :: d in sent ==>
          && sent[d] == 1 && d.sender == sender && Carries(w, HostOf(w, sender), e, d.dest)
          && d.port == DiscoveryPortOf(w, sender) && d.data == e.data
          && IsPeer(w, d.dest, d.source.ip, d.source.scope, HostOf(w, sender)))
    && (forall host :: Carries(w, HostOf(w, sender), e, host) ==> exists d :: d in sent && d.dest == host)
    && (forall d, other :: d in sent && other in sent && d.dest == other.dest ==> d == other)
  }

  /** Just that for a recorded send that succeeded, and nothing when none is recorded. */
  ghost predicate Adds(w: World, sender: Node, effects: seq<Outside.Effect>, sent: multiset<Datagram>)
    requires IsNode(w, sender)
  {
    && (forall e :: e in effects && Outside.IsSend(e) && Outside.Succeeded(e) ==> IsSentFor(w, sender, e, sent))
    && ((forall e :: e in effects ==> !(Outside.IsSend(e) && Outside.Succeeded(e))) ==> sent == multiset{})
  }

  lemma CopyOf(sender: Node, port: U16, data: Bytes, via: map<Host, SocketAddrV6>, d: Datagram)
    ensures d in Copies(sender, port, data, via) <==>
            (d.dest in via && d == Datagram(sender, via[d.dest], d.dest, port, data))
    ensures Copies(sender, port, data, via)[d] <= 1
  {
    if d.dest in via && d == Datagram(sender, via[d.dest], d.dest, port, data) {
      assert d in (set host | host in via :: Datagram(sender, via[host], host, port, data));
    }
  }

  lemma CopiesAreSent(w: World, sender: Node, e: Outside.Effect, via: map<Host, SocketAddrV6>, reach: set<Host>)
    requires IsNode(w, sender) && Outside.IsSend(e) && Shown(w, HostOf(w, sender), reach, via)
    requires forall host :: host in reach <==> Carries(w, HostOf(w, sender), e, host)
    ensures IsSentFor(w, sender, e, Copies(sender, DiscoveryPortOf(w, sender), e.data, via))
  {
    hide Carries, IsPeer, Copies, HostOf, DiscoveryPortOf;
    var port := DiscoveryPortOf(w, sender);
    var sent := Copies(sender, port, e.data, via);
    forall d ensures d in sent <==> (d.dest in via && d == Datagram(sender, via[d.dest], d.dest, port, e.data))
    {
      CopyOf(sender, port, e.data, via, d);
    }
    forall d | d in sent ensures sent[d] == 1 {
      CopyOf(sender, port, e.data, via, d);
    }
    forall host | Carries(w, HostOf(w, sender), e, host) ensures exists d :: d in sent && d.dest == host {
      assert Datagram(sender, via[host], host, port, e.data) in sent;
    }
  }

  lemma ServerStepSends(w: World, s: State, i: nat, act: ServerAct)
    requires i < |w.servers| && i < |s.servers| && ServerEnabled(w, s, i, act)
    ensures Adds(w, ServerNode(i), AnnounceEffects(w.servers[i], act), ServerSends(w.servers[i], i, act))
  {
    hide AnnouncementData, Copies, IsSentFor, PortIsFree, Shown;
    if act.Multicast? || act.Unicast? {
      var host := w.servers[i].host;
      var reach := if act.Multicast? then Group(w, host) else UnicastReach(w, host, act.address);
      CopiesAreSent(w, ServerNode(i), AnnounceEffects(w.servers[i], act)[0], act.via, reach);
    }
  }

  lemma ScannerStepSends(w: World, s: State, c: nat, act: ScannerAct)
    requires Sized(w, s) && c < |w.scanners| && ScannerEnabled(w, s, c, act)
    ensures Adds(w, ScannerNode(c),
                 RequestEffects(w.scanners[c], RequestData(CollectorPort(s, c)), s.scanners[c], act),
                 ScannerSends(w.scanners[c], c, CollectorPort(s, c), act))
  {
    hide RequestData, Copies, IsSentFor, PortIsFree, Shown;
    var host, scanner := w.scanners[c].host, s.scanners[c];
    if act.Request? || act.RequestNext? {
      var reach := if act.Request? then Group(w, host) else UnicastReach(w, host, scanner.sending.remaining[0]);
      CopiesAreSent(w, ScannerNode(c), RequestEffects(w.scanners[c], RequestData(CollectorPort(s, c)), scanner, act)[0],
                    act.via, reach);
    }
  }

  /**
   * How the network changes: by what a participant's recorded send sends, and otherwise a datagram
   * at a time, in the network's own steps.
   */
  ghost predicate NetworkChange(w: World, s: State, step: Step, s': State)
    requires Sized(w, s) && Names(w, step)
  {
    match step
    case ServerStep(i, act) =>
      exists sent :: s'.net == s.net + sent && Adds(w, ServerNode(i), AnnounceEffects(w.servers[i], act), sent)
    case ScannerStep(c, act) =>
      exists sent :: s'.net == s.net + sent
        && Adds(w, ScannerNode(c),
                RequestEffects(w.scanners[c], RequestData(CollectorPort(s, c)), s.scanners[c], act), sent)
    case Arrive(d, _) => d in s.net && s'.net == s.net - multiset{d}
    case Vanish(d) => d in s.net && s'.net == s.net - multiset{d}
    case Lose(d) => d in s.net && s'.net == s.net - multiset{d}
    case Duplicate(d) => d in s.net && s'.net == s.net + multiset{d}
    case _ => s'.net == s.net
  }

  lemma ServerChangesNetwork(w: World, s: State, i: nat, act: ServerAct)
    requires Sized(w, s) && Enabled(w, s, ServerStep(i, act))
    ensures NetworkChange(w, s, ServerStep(i, act), Apply(w, s, ServerStep(i, act)))
  {
    hide Permitted, Apply, Adds, ServerEnabled, ServerAfter, ServerSends, AnnounceEffects;
    ServerApplies(w, s, i, act);
    ServerStepSends(w, s, i, act);
  }

  lemma ScannerChangesNetwork(w: World, s: State, c: nat, act: ScannerAct)
    requires Sized(w, s) && Enabled(w, s, ScannerStep(c, act))
    ensures NetworkChange(w, s, ScannerStep(c, act), Apply(w, s, ScannerStep(c, act)))
  {
    hide Permitted, Apply, Adds, ScannerEnabled, ScannerAfter, ScannerSends, RequestEffects, RequestData;
    ScannerApplies(w, s, c, act);
    ScannerStepSends(w, s, c, act);
  }

  lemma StepChangesNetwork(w: World, s: State, step: Step)
    requires Sized(w, s) && Enabled(w, s, step)
    ensures NetworkChange(w, s, step, Apply(w, s, step))
  {
    hide Permitted, Apply, NetworkChange;
    match step
    case ServerStep(i, act) => ServerChangesNetwork(w, s, i, act);
    case ScannerStep(c, act) => ScannerChangesNetwork(w, s, c, act);
    case _ => OtherChangesNetwork(w, s, step);
  }

  lemma OtherChangesNetwork(w: World, s: State, step: Step)
    requires Sized(w, s) && Enabled(w, s, step) && !step.ServerStep? && !step.ScannerStep?
    ensures NetworkChange(w, s, step, Apply(w, s, step))
  {
    hide Permitted, Apply, Adds, Listening, Reaches, IsPeer, PortIsFree, Accept, EndCall, Yield;
    match step
    case Arrive(d, node) => ArriveApplies(w, s, d, node);
    case Submit(i, call, c, from) => SubmitApplies(w, s, i, call, c, from);
    case CallFails(i, call) => CallFailsApplies(w, s, i, call);
    case BindCollector(c, port) => BindApplies(w, s, c, port);
    case BindCollectorFails(c, e) => BindFailsApplies(w, s, c, e);
    case _ => NetworkApplies(w, s, step);
  }

  // ---------------------------------------------------------------- over runs

  /** The effects a participant's step records. */
  function Recorded(w: World, s: State, step: Step): seq<Outside.Effect>
    requires Sized(w, s) && Names(w, step)
  {
    match step
    case ServerStep(i, act) => AnnounceEffects(w.servers[i], act)
    case ScannerStep(c, act) => RequestEffects(w.scanners[c], RequestData(CollectorPort(s, c)), s.scanners[c], act)
    case _ => []
  }

  predicate IsActor(step: Step, node: Node) {
    match node
    case ServerNode(i) => step.ServerStep? && step.server == i
    case ScannerNode(c) => step.ScannerStep? && step.scanner == c
  }

  lemma OwnStepAdds(w: World, s: State, step: Step, sender: Node)
    requires Sized(w, s) && Enabled(w, s, step) && IsNode(w, sender) && IsActor(step, sender)
    ensures Adds(w, sender, Recorded(w, s, step), Sends(w, s, step))
  {
    hide Permitted, Apply, Sends, Adds, AnnounceEffects, RequestEffects, RequestData;
    StepChangesNetwork(w, s, step);
    OwnStepSends(w, s, step);
    var sent :| Apply(w, s, step).net == s.net + sent && Adds(w, sender, Recorded(w, s, step), sent);
    assert sent == s.net + sent - s.net == s.net + Sends(w, s, step) - s.net == Sends(w, s, step);
  }

  /** Where a recorded send reaches a peer's host on its discovery port, a datagram goes there. */
  lemma RecordedIsSent(w: World, faults: nat, run: Run, k: nat, sender: Node, listener: Node, e: Outside.Effect)
    requires IsRun(w, faults, run) && k < |run.steps| && IsNode(w, sender) && IsNode(w, listener)
    requires IsActor(run.steps[k], sender) && DiscoveryPortOf(w, sender) == DiscoveryPortOf(w, listener)
    requires e in Recorded(w, StateAt(w, faults, run, k), run.steps[k]) && Outside.IsSend(e) && Outside.Succeeded(e)
    requires Carries(w, HostOf(w, sender), e, HostOf(w, listener))
    ensures SendsToward(w, faults, run, k, listener, sender)
  {
    var s, step := StateAt(w, faults, run, k), run.steps[k];
    hide IsRun, StateAt, Permitted, Apply, Carries, HostOf, DiscoveryPortOf, Sends, Recorded, IsPeer;
    StepAt(w, faults, run, k);
    OwnStepAdds(w, s, step, sender);
    assert IsSentFor(w, sender, e, Sends(w, s, step));
    var d :| d in Sends(w, s, step) && d.dest == HostOf(w, listener);
  }

  /** Nothing in the run is lost or thrown away, and nothing is left under way. */
  ghost predicate Faithful(w: World, faults: nat, run: Run)
    requires IsRun(w, faults, run)
  {
    Settled(Final(w, faults, run)) && forall step :: step in run.steps ==> Undisturbed(step) && !step.Lose?
  }

  /** A server's send to a scanner that had bound the discovery port makes it yield the server. */
  lemma AnnouncedIsYielded(w: World, faults: nat, run: Run, k: nat, i: nat, c: nat, e: Outside.Effect)
    requires IsRun(w, faults, run) && Faithful(w, faults, run) && k < |run.steps| && i < |w.servers| && c < |w.scanners|
    requires w.servers[i].discoveryPort == w.scanners[c].discoveryPort && IsActor(run.steps[k], ServerNode(i))
    requires e in Recorded(w, StateAt(w, faults, run, k), run.steps[k]) && Outside.IsSend(e) && Outside.Succeeded(e)
    requires Carries(w, w.servers[i].host, e, w.scanners[c].host)
    requires ScannerStep(c, Subscribe) in run.steps[..k]
    ensures YieldsAt(w, Final(w, faults, run), c, w.servers[i].host, w.servers[i].servicePort)
  {
    hide IsRun, StateAt, Final, Recorded, Carries, Undisturbed, Settled, YieldsAt, SendsToward, ToldBy;
    RecordedIsSent(w, faults, run, k, ServerNode(i), ScannerNode(c), e);
    BoundIsTold(w, faults, run, k, ScannerNode(c), ServerNode(i));
    ReachedIsYielded(w, faults, run, c, i);
  }

  /** A scanner's send to a server that served makes it yield the server, unless the port is 0. */
  lemma AskedIsYielded(w: World, faults: nat, run: Run, k: nat, i: nat, c: nat, e: Outside.Effect)
    requires IsRun(w, faults, run) && Faithful(w, faults, run) && k < |run.steps| && i < |w.servers| && c < |w.scanners|
    requires w.servers[i].discoveryPort == w.scanners[c].discoveryPort && IsActor(run.steps[k], ScannerNode(c))
    requires e in Recorded(w, StateAt(w, faults, run, k), run.steps[k]) && Outside.IsSend(e) && Outside.Succeeded(e)
    requires Carries(w, w.scanners[c].host, e, w.servers[i].host)
    requires ServerStep(i, Bind) in run.steps[..k] && w.servers[i].servicePort != 0
    ensures YieldsAt(w, Final(w, faults, run), c, w.servers[i].host, w.servers[i].servicePort)
  {
    hide IsRun, StateAt, Final, Recorded, Carries, Undisturbed, Settled, YieldsAt, SendsToward, ToldBy;
    RecordedIsSent(w, faults, run, k, ScannerNode(c), ServerNode(i), e);
    BoundIsTold(w, faults, run, k, ServerNode(i), ScannerNode(c));
    ReachedIsYielded(w, faults, run, c, i);
  }

  /** In particular a unicast announcement to the address of a scanner that listens. */
  lemma UnicastIsYielded(w: World, faults: nat, run: Run, k: nat, i: nat, c: nat, act: ServerAct)
    requires IsRun(w, faults, run) && Faithful(w, faults, run) && k < |run.steps| && i < |w.servers| && c < |w.scanners|
    requires w.servers[i].discoveryPort == w.scanners[c].discoveryPort
    requires run.steps[k] == ServerStep(i, act) && act.Unicast?
    requires IsPeer(w, w.servers[i].host, act.address.ip, act.address.scope, w.scanners[c].host)
    requires ScannerStep(c, Subscribe) in run.steps[..k]
    ensures YieldsAt(w, Final(w, faults, run), c, w.servers[i].host, w.servers[i].servicePort)
  {
    hide IsRun, StateAt, Final, Faithful, YieldsAt, AnnouncementData;
    var e := Outside.Unicast(act.address, AnnouncementData(w.servers[i].servicePort), Ok(()));
    AnnouncedIsYielded(w, faults, run, k, i, c, e);
  }

  /** And a unicast request to the address of a server that serves. */
  lemma RequestNextIsYielded(w: World, faults: nat, run: Run, k: nat, i: nat, c: nat, act: ScannerAct)
    requires IsRun(w, faults, run) && Faithful(w, faults, run) && k < |run.steps| && i < |w.servers| && c < |w.scanners|
    requires w.servers[i].discoveryPort == w.scanners[c].discoveryPort && w.servers[i].servicePort != 0
    requires run.steps[k] == ScannerStep(c, act) && act.RequestNext?
    requires var sending := StateAt(w, faults, run, k).scanners[c].sending;
             && sending.Unicasting? && sending.remaining != []
             && IsPeer(w, w.scanners[c].host, sending.remaining[0].ip, sending.remaining[0].scope, w.servers[i].host)
    requires ServerStep(i, Bind) in run.steps[..k]
    ensures YieldsAt(w, Final(w, faults, run), c, w.servers[i].host, w.servers[i].servicePort)
  {
    hide IsRun, StateAt, Final, Faithful, YieldsAt, RequestData;
    var s := StateAt(w, faults, run, k);
    var e := Outside.Unicast(s.scanners[c].sending.remaining[0], RequestData(CollectorPort(s, c)), Ok(()));
    AskedIsYielded(w, faults, run, k, i, c, e);
  }
}
