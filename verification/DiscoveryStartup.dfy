/**
 * Participants can always go on: whatever a neighbor scan finds, a server that has not failed can
 * announce itself and come to serve, and a scanner can send all its requests, by its own steps
 * alone, from any state of any run.
 */
module DiscoveryStartup {
  import opened Wrappers
  import opened Net
  import opened Packets
  import opened Neighbors
  import opened Discovery
  import opened DiscoveryProgress

  // ---------------------------------------------------------------- who is reached sees the sender

  ghost predicate Sees(w: World, viewer: Host, peer: Host) {
    exists ip: Ipv6Addr, scope: U32 :: IsPeer(w, viewer, ip, scope, peer)
  }

  /** Every host that a multicast or a unicast reaches sees the sender at some address. */
  ghost predicate AllSeen(w: World) {
    && Mutual(w)
    && forall from, host :: host in Group(w, from) ==> Sees(w, host, from)
  }

  ghost function SeenAt(w: World, viewer: Host, peer: Host): (a: SocketAddrV6)
    requires Sees(w, viewer, peer)
    ensures IsPeer(w, viewer, a.ip, a.scope, peer)
  {
    var ip, scope :| IsPeer(w, viewer, ip, scope, peer);
    SocketAddrV6(ip, 0, 0, scope)
  }

  lemma CanBeShown(w: World, from: Host, reach: set<Host>) returns (via: map<Host, SocketAddrV6>)
    requires forall host :: host in reach ==> Sees(w, host, from)
    ensures Shown(w, from, reach, via)
  {
    hide IsPeer;
    via := map host | host in reach :: SeenAt(w, host, from);
  }

  lemma ReachedSees(w: World, from: Host, address: SocketAddrV6, host: Host)
    requires AllSeen(w) && host in UnicastReach(w, from, address)
    ensures Sees(w, host, from)
  {
    assert IsPeer(w, from, address.ip, address.scope, host);
    hide IsPeer;
  }

  // ---------------------------------------------------------------- servers

  predicate IsStarting(phase: ServerPhase) {
    phase.Starting? || phase.Scanned? || phase.Announcing?
  }

  /** How many steps are ahead, if the scan finds `found`. */
  function ServerSteps(phase: ServerPhase, found: seq<IpNeighbor>): nat {
    match phase
    case Starting => 3 + |found|
    case Scanned(neighbors) => 2 + |neighbors|
    case Announcing(pending) => 1 + |pending|
    case _ => 0
  }

  /** The next step towards serving. */
  lemma ServerCanMove(w: World, s: State, i: nat, found: seq<IpNeighbor>) returns (act: ServerAct)
    requires i < |w.servers| && i < |s.servers| && AllSeen(w) && w.servers[i].discoveryPort != 0
    requires IsStarting(s.servers[i].phase) && PortIsFree(w, s, w.servers[i].host, w.servers[i].discoveryPort)
    ensures ServerEnabled(w, s, i, act) && !IsFailure(act) && (act.FindNeighbors? ==> act.neighbors == found)
    ensures var phase' := ServerAfter(w.servers[i], s.servers[i], act).phase;
            && (IsStarting(phase') || phase'.Serving?)
            && ServerSteps(phase', found) < ServerSteps(s.servers[i].phase, found)
  {
    hide PortIsFree, Shown, Group, UnicastReach;
    var host := w.servers[i].host;
    match s.servers[i].phase
    case Starting => act := FindNeighbors(found);
    case Scanned(_) =>
      var via := CanBeShown(w, host, Group(w, host));
      act := ServerAct.Multicast(via);
    case Announcing(pending) =>
      if pending == multiset{} {
        act := Bind;
      } else {
        var address :| address in pending;
        forall peer | peer in UnicastReach(w, host, address) ensures Sees(w, peer, host) {
          ReachedSees(w, host, address, peer);
        }
        var via := CanBeShown(w, host, UnicastReach(w, host, address));
        act := ServerAct.Unicast(address, via);
      }
  }

  lemma StillFree(w: World, s: State, i: nat, act: ServerAct, host: Host, port: U16)
    requires Sized(w, s) && Enabled(w, s, ServerStep(i, act)) && PortIsFree(w, s, host, port)
    requires !ServerAfter(w.servers[i], s.servers[i], act).phase.Serving?
    ensures PortIsFree(w, Apply(w, s, ServerStep(i, act)), host, port)
  {
    hide Permitted, Apply, ServerAfter, ServerSends, ServerEnabled;
    ServerApplies(w, s, i, act);
    var s' := Apply(w, s, ServerStep(i, act));
    forall node ensures !Listening(w, s', node, host, port) {
      assert !Listening(w, s, node, host, port);
    }
  }

  /** `run` goes on to `run'` by the own steps of server `i`, none of them a failure. */
  ghost predicate ServerGoesOn(run: Run, run': Run, i: nat) {
    && run.steps <= run'.steps
    && forall k :: |run.steps| <= k < |run'.steps| ==>
         run'.steps[k].ServerStep? && run'.steps[k].server == i && !IsFailure(run'.steps[k].serverAct)
  }

  /** A server that has not failed can come to serve, if its port is free. */
  lemma {:induction false} ServerCanServe(w: World, faults: nat, run: Run, i: nat, found: seq<IpNeighbor>)
    returns (run': Run)
    requires IsRun(w, faults, run) && i < |w.servers| && AllSeen(w) && w.servers[i].discoveryPort != 0
    requires IsStarting(Final(w, faults, run).servers[i].phase)
    requires PortIsFree(w, Final(w, faults, run), w.servers[i].host, w.servers[i].discoveryPort)
    ensures IsRun(w, faults, run') && ServerGoesOn(run, run', i)
    ensures Final(w, faults, run').servers[i].phase.Serving?
    decreases ServerSteps(Final(w, faults, run).servers[i].phase, found)
  {
    hide IsRun, Final, AllSeen, PortIsFree, Permitted, Apply, ServerEnabled, ServerAfter, IsStarting, IsFailure;
    hide ServerSteps, ServerSends;
    var s := Final(w, faults, run);
    var act := ServerCanMove(w, s, i, found);
    ServerMayStep(w, s, i, act);
    ServerApplies(w, s, i, act);
    run' := ExtendRun(w, faults, run, ServerStep(i, act));
    if !ServerAfter(w.servers[i], s.servers[i], act).phase.Serving? {
      StillFree(w, s, i, act, w.servers[i].host, w.servers[i].discoveryPort);
      run' := ServerCanServe(w, faults, run', i, found);
    }
  }

  lemma ServerMayStep(w: World, s: State, i: nat, act: ServerAct)
    requires Sized(w, s) && i < |w.servers| && ServerEnabled(w, s, i, act)
    ensures Enabled(w, s, ServerStep(i, act))
  {
    hide ServerEnabled;
  }

  // ---------------------------------------------------------------- scanners

  function ScannerSteps(sending: Sending, found: seq<IpNeighbor>): nat {
    match sending
    case Unsent => 3 + |found|
    case MulticastSent => 2 + |found|
    case Unicasting(remaining) => 1 + |remaining|
    case Done => 0
  }

  predicate SendsOn(act: ScannerAct) {
    act.Request? || act.Scan? || act.RequestNext? || act.RequestsDone?
  }

  /** The next step towards the end of the sending. */
  lemma ScannerCanMove(w: World, s: State, c: nat, found: seq<IpNeighbor>) returns (act: ScannerAct)
    requires Sized(w, s) && c < |w.scanners| && AllSeen(w) && w.scanners[c].discoveryPort != 0
    requires s.collectors[c].Some? && !s.scanners[c].ended && !s.scanners[c].sending.Done?
    ensures ScannerEnabled(w, s, c, act) && SendsOn(act) && (act.Scan? ==> act.neighbors == found)
    ensures var scanner' := ScannerAfter(w.scanners[c], s.scanners[c], act);
            && !scanner'.ended && scanner'.yielded == s.scanners[c].yielded
            && ScannerSteps(scanner'.sending, found) < ScannerSteps(s.scanners[c].sending, found)
  {
    hide PortIsFree, Shown, Group, UnicastReach;
    var host := w.scanners[c].host;
    match s.scanners[c].sending
    case Unsent =>
      var via := CanBeShown(w, host, Group(w, host));
      act := ScannerAct.Request(via);
    case MulticastSent => act := Scan(found);
    case Unicasting(remaining) =>
      if remaining == [] {
        act := RequestsDone;
      } else {
        forall peer | peer in UnicastReach(w, host, remaining[0]) ensures Sees(w, peer, host) {
          ReachedSees(w, host, remaining[0], peer);
        }
        var via := CanBeShown(w, host, UnicastReach(w, host, remaining[0]));
        act := RequestNext(via);
      }
  }

  ghost predicate ScannerGoesOn(run: Run, run': Run, c: nat) {
    && run.steps <= run'.steps
    && forall k :: |run.steps| <= k < |run'.steps| ==>
         run'.steps[k].ScannerStep? && run'.steps[k].scanner == c && SendsOn(run'.steps[k].scannerAct)
  }

  /** A scanner whose collector is bound can send to all it has to, and yields no failure by that. */
  lemma {:induction false} ScannerCanSend(w: World, faults: nat, run: Run, c: nat, found: seq<IpNeighbor>)
    returns (run': Run)
    requires IsRun(w, faults, run) && c < |w.scanners| && AllSeen(w) && w.scanners[c].discoveryPort != 0
    requires Final(w, faults, run).collectors[c].Some? && !Final(w, faults, run).scanners[c].ended
    ensures IsRun(w, faults, run') && ScannerGoesOn(run, run', c)
    ensures Final(w, faults, run').scanners[c].sending.Done?
    ensures Final(w, faults, run').scanners[c].yielded == Final(w, faults, run).scanners[c].yielded
    decreases ScannerSteps(Final(w, faults, run).scanners[c].sending, found)
  {
    hide IsRun, Final, AllSeen, Permitted, Apply, ScannerEnabled, ScannerAfter, ScannerSends, ScannerSteps, SendsOn;
    var s := Final(w, faults, run);
    if s.scanners[c].sending.Done? {
      run' := run;
    } else {
      var act := ScannerCanMove(w, s, c, found);
      ScannerMayStep(w, s, c, act);
      ScannerApplies(w, s, c, act);
      run' := ExtendRun(w, faults, run, ScannerStep(c, act));
      run' := ScannerCanSend(w, faults, run', c, found);
    }
  }

  lemma ScannerMayStep(w: World, s: State, c: nat, act: ScannerAct)
    requires Sized(w, s) && c < |w.scanners| && ScannerEnabled(w, s, c, act)
    ensures Enabled(w, s, ScannerStep(c, act))
  {
    hide ScannerEnabled;
  }

  // ---------------------------------------------------------------- nothing that may go wrong is excluded

  /** The acts by which a server may fail or end, by where it stands. */
  predicate MayEnd(config: ServerConfig, server: Server, act: ServerAct) {
    match server.phase
    case Starting => if config.discoveryPort == 0 then act.RejectPort? else act.FindFails?
    case Scanned(_) => act.MulticastFails?
    case Announcing(pending) =>
      if act.UnicastFails? then act.address in pending else pending == multiset{} && act.BindFails?
    case Serving => act.ReceiveFails? || act.StreamEnds?
    case Draining => act.Finish? && server.calls == multiset{}
    case Finished(_) => false
  }

  /** A server fails or ends just where the code may, and with any error. */
  lemma ServerMayFail(w: World, s: State, i: nat, act: ServerAct)
    requires i < |w.servers| && i < |s.servers| && (IsFailure(act) || act.StreamEnds? || act.Finish?)
    ensures ServerEnabled(w, s, i, act) <==> MayEnd(w.servers[i], s.servers[i], act)
  {
    hide PortIsFree, Shown;
  }

  /** What may go wrong at a scanner whose collector is bound, source by source of its stream. */
  predicate MayBreak(config: ScannerConfig, scanner: Scanner, faults: nat, act: ScannerAct) {
    match act
    case RejectScan => config.discoveryPort == 0
    case Drop => config.discoveryPort != 0
    case SendingFails(SendRequest(_)) =>
      config.discoveryPort != 0
      && (scanner.sending.Unsent? || (scanner.sending.Unicasting? && scanner.sending.remaining != []))
    case SendingFails(ScanIpNeighbor(_)) => config.discoveryPort != 0 && scanner.sending.MulticastSent?
    case SubscribeFails(_) => config.discoveryPort != 0 && scanner.listen.Unbound?
    case HearFails(_) => config.discoveryPort != 0 && scanner.listen.Bound? && faults > 0
    case CollectorFails(_) => config.discoveryPort != 0 && scanner.accepting
    case _ => false
  }

  predicate IsBreak(act: ScannerAct) {
    act.RejectScan? || act.Drop? || act.SendingFails? || act.SubscribeFails? || act.HearFails? || act.CollectorFails?
  }

  /** A scan fails or is dropped just where the code may, and with any error. */
  lemma ScannerMayFail(w: World, s: State, c: nat, act: ScannerAct)
    requires Sized(w, s) && c < |w.scanners| && IsBreak(act)
    ensures ScannerEnabled(w, s, c, act) <==>
            (!s.scanners[c].ended && s.collectors[c].Some? && MayBreak(w.scanners[c], s.scanners[c], s.faults, act))
  {
    hide PortIsFree, Shown;
  }

  /** The network may lose or, up to its faults, repeat any datagram, and any response call may fail. */
  lemma NetworkMayFail(w: World, s: State, d: Datagram, i: nat, call: Call, c: nat, e: IoError)
    requires Sized(w, s)
    ensures Enabled(w, s, Lose(d)) <==> d in s.net
    ensures Enabled(w, s, Duplicate(d)) <==> d in s.net && s.faults > 0
    ensures Enabled(w, s, CallFails(i, call)) <==> i < |w.servers| && call in s.servers[i].calls
    ensures Enabled(w, s, BindCollectorFails(c, e)) <==>
            c < |w.scanners| && s.collectors[c].None? && !s.scanners[c].ended
  {}
}
