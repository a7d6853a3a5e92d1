/**
 * Completeness and its exact gap: what a scanner yields in a settled run is decided by which
 * datagrams arrived while their receiver was listening. Because a server announces before it
 * listens, a mutually reachable pair can miss each other.
 */
module DiscoveryCompleteness {
  import opened Net
  import opened Packets
  import opened Discovery
  import opened DiscoverySoundness
  import opened DiscoveryConservation
  import opened Counting

  // ---------------------------------------------------------------- arrivals

  predicate MeetsAt(step: Step, listener: Node, sender: Node) {
    step.Arrive? && step.node == listener && step.datagram.sender == sender
  }

  /** A datagram of `sender` arrived while `listener` was listening for it. */
  predicate Met(steps: seq<Step>, listener: Node, sender: Node) {
    exists k :: 0 <= k < |steps| && MeetsAt(steps[k], listener, sender)
  }

  lemma MetGrows(steps: seq<Step>, listener: Node, sender: Node)
    requires steps != []
    ensures Met(steps, listener, sender)
       <==> (Met(steps[..|steps| - 1], listener, sender) || MeetsAt(steps[|steps| - 1], listener, sender))
  {
    var before := steps[..|steps| - 1];
    if Met(before, listener, sender) {
      var k :| 0 <= k < |before| && MeetsAt(before[k], listener, sender);
      assert MeetsAt(steps[k], listener, sender);
    }
    if Met(steps, listener, sender) && !MeetsAt(steps[|steps| - 1], listener, sender) {
      var k :| 0 <= k < |steps| && MeetsAt(steps[k], listener, sender);
      assert MeetsAt(before[k], listener, sender);
    }
  }

  /**
   * The scanner heard the server, or the server, with a nonzero service port, was asked by the
   * scanner: the collector refuses port 0.
   */
  predicate InTouch(w: World, steps: seq<Step>, c: nat, i: nat) {
    && i < |w.servers|
    && (|| Met(steps, ScannerNode(c), ServerNode(i))
        || (w.servers[i].servicePort != 0 && Met(steps, ServerNode(i), ScannerNode(c))))
  }

  // ---------------------------------------------------------------- from counting to existence

  lemma BringerWasInTouch(w: World, steps: seq<Step>, c: nat, host: Host, port: U16, k: nat)
    requires k < |steps| && BringsTo(w, c, host, port, steps[k])
    ensures exists i: nat :: InTouch(w, steps, c, i) && Serves(w, i, host, port)
  {
    var step := steps[k];
    if step.node.ServerNode? {
      assert MeetsAt(step, step.node, ScannerNode(c));
      assert InTouch(w, steps, c, step.node.index);
    } else {
      assert MeetsAt(step, ScannerNode(c), step.datagram.sender);
      assert InTouch(w, steps, c, step.datagram.sender.index);
    }
  }

  lemma InTouchWasBrought(w: World, steps: seq<Step>, c: nat, i: nat) returns (k: nat)
    requires InTouch(w, steps, c, i)
    ensures k < |steps| && BringsTo(w, c, w.servers[i].host, w.servers[i].servicePort, steps[k])
  {
    if Met(steps, ScannerNode(c), ServerNode(i)) {
      k :| 0 <= k < |steps| && MeetsAt(steps[k], ScannerNode(c), ServerNode(i));
    } else {
      k :| 0 <= k < |steps| && MeetsAt(steps[k], ServerNode(i), ScannerNode(c));
    }
  }

  /** Something was brought if and only if such a server was in touch. */
  lemma BroughtIfInTouch(w: World, steps: seq<Step>, c: nat, host: Host, port: U16)
    ensures Brought(w, steps, c, host, port) > 0 <==>
            exists i: nat :: InTouch(w, steps, c, i) && Serves(w, i, host, port)
  {
    hide Count, InTouch, BringsTo;
    CountIsPositive(multiset(steps), Brings(w, c, host, port));
    if Brought(w, steps, c, host, port) > 0 {
      var step :| step in multiset(steps) && Brings(w, c, host, port)(step);
      var k :| 0 <= k < |steps| && steps[k] == step;
      BringerWasInTouch(w, steps, c, host, port, k);
    }
    forall i: nat | InTouch(w, steps, c, i) && Serves(w, i, host, port) ensures Brought(w, steps, c, host, port) > 0 {
      var k := InTouchWasBrought(w, steps, c, i);
      assert steps[k] in multiset(steps) && Brings(w, c, host, port)(steps[k]);
    }
  }

  /** The scanner has yielded a service at that port of that host. */
  ghost predicate YieldsAt(w: World, s: State, c: nat, host: Host, port: U16)
    requires c < |s.scanners|
  {
    exists service :: Found(service) in s.scanners[c].yielded && IsAt(w, c, service, host, port)
  }

  lemma YieldsIfCounted(w: World, s: State, c: nat, host: Host, port: U16)
    requires c < |s.scanners|
    ensures YieldsAt(w, s, c, host, port) <==> TimesYielded(w, s, c, host, port) > 0
  {
    hide Count, IsAt;
    var yielded := s.scanners[c].yielded;
    CountIsPositive(multiset(yielded), FoundAt(w, c, host, port));
    if TimesYielded(w, s, c, host, port) > 0 {
      var item :| item in multiset(yielded) && FoundAt(w, c, host, port)(item);
      assert Found(item.service) == item && item in yielded;
    }
    if YieldsAt(w, s, c, host, port) {
      var service :| Found(service) in yielded && IsAt(w, c, service, host, port);
      assert Found(service) in multiset(yielded);
    }
  }

  // ---------------------------------------------------------------- the theorem

  /** In every run, whatever was yielded comes from a server that was in touch. */
  lemma YieldedWasInTouch(w: World, faults: nat, run: Run, c: nat, host: Host, port: U16)
    requires IsRun(w, faults, run) && c < |w.scanners|
    requires YieldsAt(w, Final(w, faults, run), c, host, port)
    ensures exists i: nat :: InTouch(w, run.steps, c, i) && Serves(w, i, host, port)
  {
    hide IsRun, Final, YieldsAt, TimesYielded, Brought, InTouch;
    Conservation(w, faults, run, c, host, port);
    YieldsIfCounted(w, Final(w, faults, run), c, host, port);
    BroughtIfInTouch(w, run.steps, c, host, port);
  }

  lemma InTouchIsYielded(w: World, faults: nat, run: Run, c: nat, i: nat)
    requires IsRun(w, faults, run) && c < |w.scanners|
    requires forall step :: step in run.steps ==> Undisturbed(step)
    requires Settled(Final(w, faults, run)) && InTouch(w, run.steps, c, i)
    ensures YieldsAt(w, Final(w, faults, run), c, w.servers[i].host, w.servers[i].servicePort)
  {
    var host, port := w.servers[i].host, w.servers[i].servicePort;
    assert Serves(w, i, host, port);
    hide IsRun, Final, YieldsAt, TimesYielded, Brought, InTouch, Settled, Undisturbed;
    Conservation(w, faults, run, c, host, port);
    YieldsIfCounted(w, Final(w, faults, run), c, host, port);
    BroughtIfInTouch(w, run.steps, c, host, port);
  }

  /**
   * Completeness, exactly: in a settled and undisturbed run, a scanner has yielded a service at
   * some host and port if and only if it belongs to a server whose announcement arrived while the
   * scanner was listening, or which, with a nonzero port, was listening when a request of the
   * scanner arrived. Datagrams may have been lost, duplicated and reordered on the way.
   */
  lemma Completeness(w: World, faults: nat, run: Run, c: nat, host: Host, port: U16)
    requires IsRun(w, faults, run) && c < |w.scanners|
    requires forall step :: step in run.steps ==> Undisturbed(step)
    requires Settled(Final(w, faults, run))
    ensures YieldsAt(w, Final(w, faults, run), c, host, port) <==>
            exists i: nat :: InTouch(w, run.steps, c, i) && Serves(w, i, host, port)
  {
    hide IsRun, Final, YieldsAt, InTouch, Settled, Undisturbed;
    if YieldsAt(w, Final(w, faults, run), c, host, port) {
      YieldedWasInTouch(w, faults, run, c, host, port);
    }
    forall i: nat | InTouch(w, run.steps, c, i) && Serves(w, i, host, port)
      ensures YieldsAt(w, Final(w, faults, run), c, host, port)
    {
      InTouchIsYielded(w, faults, run, c, i);
    }
  }
}
