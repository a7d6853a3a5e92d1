/**
 * Conservation: a scanner yields a service once for each datagram that brought it, and no more.
 * For each host and port, a datagram that arrives where it is listened for adds one to what is
 * under way to a scanner; only a failure or an end takes any of it away, and what is left at the
 * end has been yielded.
 */
module DiscoveryConservation {
  import opened Wrappers
  import opened Net
  import opened Packets
  import opened Discovery
  import opened DiscoverySoundness
  import opened Counting
  import AddressText
  import ResponseCollector

  // ---------------------------------------------------------------- what is counted

  /** Scanner `c` reaches the service at that port of that host. */
  predicate IsAt(w: World, c: nat, service: Service, host: Host, port: U16) {
    && c < |w.scanners| && service.address.port == port
    && IsPeer(w, w.scanners[c].host, service.address.ip, service.address.scope, host)
  }

  predicate Serves(w: World, i: nat, host: Host, port: U16) {
    i < |w.servers| && w.servers[i].host == host && w.servers[i].servicePort == port
  }

  /** A server found by way of its collector call: that refuses port 0. */
  predicate Answers(w: World, i: nat, host: Host, port: U16) {
    Serves(w, i, host, port) && port != 0
  }

  function FoundAt(w: World, c: nat, host: Host, port: U16): Item -> bool {
    (item: Item) => item.Found? && IsAt(w, c, item.service, host, port)
  }

  function ServiceAt(w: World, c: nat, host: Host, port: U16): Service -> bool {
    (service: Service) => IsAt(w, c, service, host, port)
  }

  function AnnouncedAt(w: World, host: Host, port: U16): Datagram -> bool {
    (d: Datagram) => d.sender.ServerNode? && Serves(w, d.sender.index, host, port)
  }

  function SentBy(node: Node): Datagram -> bool {
    (d: Datagram) => d.sender == node
  }

  function RequestedBy(node: Node): Call -> bool {
    (call: Call) => call.requester == node
  }

  /**
   * The step brings scanner `c` a service at that host and port: an announcement of such a server
   * arrives there, or its own request arrives at such a server and the port is not 0.
   */
  predicate BringsTo(w: World, c: nat, host: Host, port: U16, step: Step) {
    && step.Arrive?
    && match step.node
       case ScannerNode(at) => at == c && AnnouncedAt(w, host, port)(step.datagram)
       case ServerNode(i) => Answers(w, i, host, port) && step.datagram.sender == ScannerNode(c)
  }

  function Brings(w: World, c: nat, host: Host, port: U16): Step -> bool {
    (step: Step) => BringsTo(w, c, host, port, step)
  }

  // ---------------------------------------------------------------- what is under way

  ghost function ScannerLoad(w: World, c: nat, scanner: Scanner, host: Host, port: U16): nat {
    Count(multiset(scanner.yielded), FoundAt(w, c, host, port))
    + Count(multiset(scanner.channel), ServiceAt(w, c, host, port))
    + Count(scanner.socket, AnnouncedAt(w, host, port))
  }

  ghost function ServerLoad(server: Server, c: nat): nat {
    Count(server.socket, SentBy(ScannerNode(c))) + Count(server.calls, RequestedBy(ScannerNode(c)))
  }

  ghost function ServersLoad(w: World, servers: seq<Server>, c: nat, host: Host, port: U16, n: nat): nat
    requires n <= |servers|
  {
    if n == 0 then 0
    else
      ServersLoad(w, servers, c, host, port, n - 1)
      + if Answers(w, n - 1, host, port) then ServerLoad(servers[n - 1], c) else 0
  }

  /** Everything at that host and port that scanner `c` has yielded or has under way. */
  ghost function Load(w: World, s: State, c: nat, host: Host, port: U16): nat
    requires c < |s.scanners|
  {
    ScannerLoad(w, c, s.scanners[c], host, port) + ServersLoad(w, s.servers, c, host, port, |s.servers|)
  }

  lemma {:induction false} OneServerChanges(
    w: World, servers: seq<Server>, servers': seq<Server>, c: nat, host: Host, port: U16, i: nat, n: nat)
    requires n <= |servers| == |servers'|
    requires forall k :: 0 <= k < |servers| && k != i ==> servers'[k] == servers[k]
    ensures ServersLoad(w, servers', c, host, port, n)
            + (if i < n && Answers(w, i, host, port) then ServerLoad(servers[i], c) else 0)
         == ServersLoad(w, servers, c, host, port, n)
            + (if i < n && Answers(w, i, host, port) then ServerLoad(servers'[i], c) else 0)
  {
    hide ServerLoad, Answers;
    if n > 0 {
      OneServerChanges(w, servers, servers', c, host, port, i, n - 1);
    }
  }

  // ---------------------------------------------------------------- servers

  /** Steps that throw away what has arrived: failures, a stream's end, and the caller leaving. */
  predicate Undisturbed(step: Step) {
    match step
    case ServerStep(_, act) => !act.ReceiveFails? && !act.StreamEnds?
    case ScannerStep(_, act) => !act.Drop? && !act.RejectScan?
    case CallFails(_, _) => false
    case _ => true
  }

  /** The request a handler takes turns into that requester's call. */
  lemma HandleLoad(w: World, k: Collectors, i: nat, server: Server, d: Datagram, c: nat)
    requires GoodServer(w, k, i, server) && server.phase.Serving? && d in server.socket
    ensures ServerLoad(Handled(w.servers[i], server, d), c) == ServerLoad(server, c)
  {
    var sent, requested := SentBy(ScannerNode(c)), RequestedBy(ScannerNode(c));
    hide StartedCalls, GoodCall, Count;
    CountWithout(server.socket, sent, d);
    if d.sender.ServerNode? {
      AnnouncementIsHeard(w, k, d);
      assert server.calls + multiset{} == server.calls;
    } else {
      RequestIsAnswered(w, k, d, i);
      var call :| StartedCalls(w.servers[i], d) == multiset{call} && call.requester == d.sender;
      CountWith(server.calls, requested, call);
    }
  }

  /** Apart from handling, a server keeps what it has or, disturbed, throws it away. */
  lemma ServerKeepsOrDrops(w: World, s: State, i: nat, act: ServerAct)
    requires Inv(w, s) && i < |w.servers| && ServerEnabled(w, s, i, act) && !act.Handle?
    ensures var server, server' := s.servers[i], ServerAfter(w.servers[i], s.servers[i], act);
            && (server'.socket == server.socket || server'.socket == multiset{})
            && (server'.calls == server.calls || server'.calls == multiset{})
            && (Undisturbed(ServerStep(i, act)) ==> server'.socket == server.socket && server'.calls == server.calls)
  {
    assert GoodServer(w, s.collectors, i, s.servers[i]);
    hide Inv, GoodArrival, GoodCall, ServerEnabled, ServerAfter;
    OtherActs(w.servers[i], s.servers[i], act);
    if IsFailure(act) {
      FailsEarly(w, s, i, act);
    }
  }

  lemma ServerStepLoad(w: World, s: State, i: nat, act: ServerAct, c: nat)
    requires Inv(w, s) && i < |w.servers| && ServerEnabled(w, s, i, act)
    ensures ServerLoad(ServerAfter(w.servers[i], s.servers[i], act), c) <= ServerLoad(s.servers[i], c)
    ensures Undisturbed(ServerStep(i, act)) ==>
              ServerLoad(ServerAfter(w.servers[i], s.servers[i], act), c) == ServerLoad(s.servers[i], c)
  {
    assert GoodServer(w, s.collectors, i, s.servers[i]);
    hide Inv, GoodServer, Handled, Count, ServerEnabled, ServerAfter;
    if act.Handle? {
      hide ServerLoad;
      HandleActs(w, s, i, act.datagram);
      HandleLoad(w, s.collectors, i, s.servers[i], act.datagram, c);
    } else {
      ServerKeepsOrDrops(w, s, i, act);
      CountNothing(SentBy(ScannerNode(c)));
      CountNothing(RequestedBy(ScannerNode(c)));
    }
  }

  lemma EndCallLoad(server: Server, call: Call, c: nat)
    requires call in server.calls
    ensures ServerLoad(server, c)
         == ServerLoad(EndCall(server, call), c) + if call.requester == ScannerNode(c) then 1 else 0
  {
    hide Count;
    CountWithout(server.calls, RequestedBy(ScannerNode(c)), call);
  }

  lemma ServerArrivalLoad(server: Server, d: Datagram, c: nat)
    ensures ServerLoad(server.(socket := server.socket + multiset{d}), c)
         == ServerLoad(server, c) + if d.sender == ScannerNode(c) then 1 else 0
  {
    hide Count;
    CountWith(server.socket, SentBy(ScannerNode(c)), d);
  }

  // ---------------------------------------------------------------- scanners

  lemma YieldLoad(w: World, c: nat, scanner: Scanner, item: Item, host: Host, port: U16)
    ensures ScannerLoad(w, c, Yield(scanner, [item]), host, port)
         == ScannerLoad(w, c, scanner, host, port) + if FoundAt(w, c, host, port)(item) then 1 else 0
  {
    hide Count;
    CountWith(multiset(scanner.yielded), FoundAt(w, c, host, port), item);
    assert multiset(scanner.yielded + [item]) == multiset(scanner.yielded) + multiset{item};
  }

  /** A heard announcement is yielded; a heard request is not. */
  lemma HearLoad(w: World, k: Collectors, c: nat, scanner: Scanner, d: Datagram, host: Host, port: U16)
    requires GoodScanner(w, k, c, scanner) && d in scanner.socket
    ensures ScannerLoad(w, c, Yield(scanner.(socket := scanner.socket - multiset{d}), Heard(d)), host, port)
         == ScannerLoad(w, c, scanner, host, port)
  {
    hide Heard, Count, StartedCalls;
    var rest := scanner.(socket := scanner.socket - multiset{d});
    CountWithout(scanner.socket, AnnouncedAt(w, host, port), d);
    if d.sender.ServerNode? {
      AnnouncementIsHeard(w, k, d);
      YieldLoad(w, c, rest, Heard(d)[0], host, port);
    } else {
      RequestIsNotHeard(w, k, d);
      assert Yield(rest, []) == rest;
    }
  }

  /** The head of the channel is yielded. */
  lemma TakeLoad(w: World, c: nat, scanner: Scanner, host: Host, port: U16)
    requires scanner.channel != []
    ensures ScannerLoad(w, c, Yield(scanner.(channel := scanner.channel[1..]), [Found(scanner.channel[0])]), host, port)
         == ScannerLoad(w, c, scanner, host, port)
  {
    hide Count;
    var rest := scanner.(channel := scanner.channel[1..]);
    YieldLoad(w, c, rest, Found(scanner.channel[0]), host, port);
    assert scanner.channel == [scanner.channel[0]] + rest.channel;
    CountWith(multiset(rest.channel), ServiceAt(w, c, host, port), scanner.channel[0]);
    assert multiset(scanner.channel) == multiset(rest.channel) + multiset{scanner.channel[0]};
  }

  /** Any other step leaves a scanner what it has, or, disturbed, throws it away. */
  lemma ScannerKeepsOrDrops(w: World, s: State, c: nat, act: ScannerAct, host: Host, port: U16)
    requires Sized(w, s) && c < |w.scanners| && ScannerEnabled(w, s, c, act) && !act.Hear? && !act.TakeResponse?
    ensures var scanner, scanner' := s.scanners[c], ScannerAfter(w.scanners[c], s.scanners[c], act);
            && (scanner'.socket == scanner.socket || scanner'.socket == multiset{})
            && (scanner'.channel == scanner.channel || scanner'.channel == [])
            && (scanner'.yielded == scanner.yielded || exists f :: scanner'.yielded == scanner.yielded + [Failed(f)])
            && (Undisturbed(ScannerStep(c, act)) ==>
                  scanner'.socket == scanner.socket && scanner'.channel == scanner.channel)
  {
    hide PortIsFree, Shown, SocketAddresses;
  }

  lemma DroppedLoad(w: World, c: nat, scanner: Scanner, scanner': Scanner, host: Host, port: U16)
    requires scanner'.socket == scanner.socket || scanner'.socket == multiset{}
    requires scanner'.channel == scanner.channel || scanner'.channel == []
    requires scanner'.yielded == scanner.yielded || exists f :: scanner'.yielded == scanner.yielded + [Failed(f)]
    ensures ScannerLoad(w, c, scanner', host, port) <= ScannerLoad(w, c, scanner, host, port)
    ensures (scanner'.socket == scanner.socket && scanner'.channel == scanner.channel) ==>
              ScannerLoad(w, c, scanner', host, port) == ScannerLoad(w, c, scanner, host, port)
  {
    hide Count;
    NothingCounts(FoundAt(w, c, host, port), ServiceAt(w, c, host, port), AnnouncedAt(w, host, port));
    if scanner'.yielded != scanner.yielded {
      var f :| scanner'.yielded == scanner.yielded + [Failed(f)];
      YieldLoad(w, c, scanner, Failed(f), host, port);
    }
  }

  lemma ScannerStepLoad(w: World, s: State, c: nat, act: ScannerAct, host: Host, port: U16)
    requires Inv(w, s) && c < |w.scanners| && ScannerEnabled(w, s, c, act)
    ensures ScannerLoad(w, c, ScannerAfter(w.scanners[c], s.scanners[c], act), host, port)
         <= ScannerLoad(w, c, s.scanners[c], host, port)
    ensures Undisturbed(ScannerStep(c, act)) ==>
              (ScannerLoad(w, c, ScannerAfter(w.scanners[c], s.scanners[c], act), host, port)
            == ScannerLoad(w, c, s.scanners[c], host, port))
  {
    var scanner, scanner' := s.scanners[c], ScannerAfter(w.scanners[c], s.scanners[c], act);
    assert Sized(w, s) && GoodScanner(w, s.collectors, c, scanner);
    hide Inv, GoodScanner, Heard, Yield, ScannerLoad, ScannerAfter, ScannerEnabled;
    if act.Hear? {
      HearActs(w, s, c, act.datagram);
      HearLoad(w, s.collectors, c, scanner, act.datagram, host, port);
    } else if act.TakeResponse? {
      TakeActs(w, s, c);
      TakeLoad(w, c, scanner, host, port);
    } else {
      ScannerKeepsOrDrops(w, s, c, act, host, port);
      DroppedLoad(w, c, scanner, scanner', host, port);
    }
  }

  lemma NothingCounts(p: Item -> bool, q: Service -> bool, r: Datagram -> bool)
    ensures Count(multiset{}, p) == Count(multiset([]), q) == Count(multiset{}, r) == 0
  {
    CountNothing(p);
    CountNothing(q);
    CountNothing(r);
  }

  /** An accepted service is that of the calling server, unless its port is 0. */
  lemma AcceptLoad(w: World, c: nat, scanner: Scanner, from: SocketAddrV6, i: nat, host: Host, port: U16)
    requires i < |w.servers| && c < |w.scanners|
    requires IsPeer(w, w.scanners[c].host, from.ip, from.scope, w.servers[i].host)
    ensures ScannerLoad(w, c, Accept(scanner, from, w.servers[i].servicePort), host, port)
         == ScannerLoad(w, c, scanner, host, port) + if Answers(w, i, host, port) then 1 else 0
  {
    hide Count;
    var verdict := ResponseCollector.Validate(Some(V6(from)), w.servers[i].servicePort);
    if verdict.Ok? {
      CountWith(multiset(scanner.channel), ServiceAt(w, c, host, port), verdict.value);
      assert multiset(scanner.channel + [verdict.value]) == multiset(scanner.channel) + multiset{verdict.value};
    }
  }

  lemma ScannerArrivalLoad(w: World, c: nat, scanner: Scanner, d: Datagram, host: Host, port: U16)
    ensures ScannerLoad(w, c, scanner.(socket := scanner.socket + multiset{d}), host, port)
         == ScannerLoad(w, c, scanner, host, port) + if AnnouncedAt(w, host, port)(d) then 1 else 0
  {
    hide Count;
    CountWith(scanner.socket, AnnouncedAt(w, host, port), d);
  }

  // ---------------------------------------------------------------- steps

  /** The step adds what it brings and, undisturbed, takes nothing away. */
  ghost predicate Balances(w: World, s: State, step: Step, s': State, c: nat, host: Host, port: U16)
    requires c < |s.scanners| == |s'.scanners|
  {
    var brought := if BringsTo(w, c, host, port, step) then 1 else 0;
    && Load(w, s', c, host, port) <= Load(w, s, c, host, port) + brought
    && (Undisturbed(step) ==> Load(w, s', c, host, port) == Load(w, s, c, host, port) + brought)
  }

  lemma ScannerChanges(w: World, s: State, s': State, c: nat, host: Host, port: U16)
    requires c < |s.scanners| == |s'.scanners| && s'.servers == s.servers
    ensures Load(w, s', c, host, port) + ScannerLoad(w, c, s.scanners[c], host, port)
         == Load(w, s, c, host, port) + ScannerLoad(w, c, s'.scanners[c], host, port)
  {
    hide ServersLoad, ScannerLoad;
  }

  lemma ServerChanges(w: World, s: State, s': State, i: nat, c: nat, host: Host, port: U16)
    requires c < |s.scanners| == |s'.scanners| && s'.scanners[c] == s.scanners[c]
    requires i < |s.servers| == |s'.servers| && s'.servers == s.servers[i := s'.servers[i]]
    ensures if Answers(w, i, host, port) then
              Load(w, s', c, host, port) + ServerLoad(s.servers[i], c)
           == Load(w, s, c, host, port) + ServerLoad(s'.servers[i], c)
            else Load(w, s', c, host, port) == Load(w, s, c, host, port)
  {
    hide ServersLoad, ScannerLoad, ServerLoad, Answers;
    OneServerChanges(w, s.servers, s'.servers, c, host, port, i, |s.servers|);
  }

  lemma ServerMoveBalances(w: World, s: State, s': State, i: nat, act: ServerAct, server: Server, c: nat,
                           host: Host, port: U16)
    requires i < |s.servers| && s'.servers == s.servers[i := server] && s'.scanners == s.scanners && c < |s.scanners|
    requires ServerLoad(server, c) <= ServerLoad(s.servers[i], c)
    requires Undisturbed(ServerStep(i, act)) ==> ServerLoad(server, c) == ServerLoad(s.servers[i], c)
    ensures Balances(w, s, ServerStep(i, act), s', c, host, port)
  {
    hide Load, ServerLoad, Undisturbed, Answers;
    ServerChanges(w, s, s', i, c, host, port);
  }

  lemma ServerStepBalances(w: World, s: State, i: nat, act: ServerAct, c: nat, host: Host, port: U16)
    requires Inv(w, s) && Enabled(w, s, ServerStep(i, act)) && c < |w.scanners|
    ensures Balances(w, s, ServerStep(i, act), Apply(w, s, ServerStep(i, act)), c, host, port)
  {
    assert Sized(w, s);
    hide Inv, Enabled, Apply, ServerEnabled, ServerAfter, ServerSends, ServerLoad, Undisturbed, Balances;
    ServerApplies(w, s, i, act);
    ServerStepLoad(w, s, i, act, c);
    ServerMoveBalances(w, s, Apply(w, s, ServerStep(i, act)), i, act,
                       ServerAfter(w.servers[i], s.servers[i], act), c, host, port);
  }

  lemma ScannerMoveBalances(w: World, s: State, s': State, at: nat, act: ScannerAct, scanner: Scanner, c: nat,
                            host: Host, port: U16)
    requires at < |s.scanners| && s'.scanners == s.scanners[at := scanner] && s'.servers == s.servers
    requires c < |s.scanners|
    requires at == c ==> ScannerLoad(w, c, scanner, host, port) <= ScannerLoad(w, c, s.scanners[c], host, port)
    requires at == c && Undisturbed(ScannerStep(at, act)) ==>
               ScannerLoad(w, c, scanner, host, port) == ScannerLoad(w, c, s.scanners[c], host, port)
    ensures Balances(w, s, ScannerStep(at, act), s', c, host, port)
  {
    hide Load, ScannerLoad, Undisturbed;
    ScannerChanges(w, s, s', c, host, port);
  }

  lemma ScannerStepBalances(w: World, s: State, at: nat, act: ScannerAct, c: nat, host: Host, port: U16)
    requires Inv(w, s) && Enabled(w, s, ScannerStep(at, act)) && c < |w.scanners|
    ensures Balances(w, s, ScannerStep(at, act), Apply(w, s, ScannerStep(at, act)), c, host, port)
  {
    assert Sized(w, s);
    hide Inv, Enabled, Apply, ScannerEnabled, ScannerAfter, ScannerSends, ScannerLoad, Undisturbed, Balances;
    ScannerApplies(w, s, at, act);
    if at == c {
      ScannerStepLoad(w, s, c, act, host, port);
    }
    ScannerMoveBalances(w, s, Apply(w, s, ScannerStep(at, act)), at, act,
                        ScannerAfter(w.scanners[at], s.scanners[at], act), c, host, port);
  }

  lemma ArriveBalances(w: World, s: State, d: Datagram, node: Node, c: nat, host: Host, port: U16)
    requires Sized(w, s) && Enabled(w, s, Arrive(d, node)) && c < |w.scanners|
    ensures Balances(w, s, Arrive(d, node), Apply(w, s, Arrive(d, node)), c, host, port)
  {
    hide Enabled, Apply, Load, ServerLoad, ScannerLoad, AnnouncedAt, Answers;
    ArriveApplies(w, s, d, node);
    var s' := Apply(w, s, Arrive(d, node));
    match node
    case ServerNode(i) =>
      ServerArrivalLoad(s.servers[i], d, c);
      ServerChanges(w, s, s', i, c, host, port);
    case ScannerNode(at) =>
      ScannerArrivalLoad(w, at, s.scanners[at], d, host, port);
      ScannerChanges(w, s, s', c, host, port);
  }

  lemma SubmitIsAnswer(w: World, s: State, i: nat, call: Call, at: nat)
    requires Inv(w, s) && i < |w.servers| && at < |w.scanners| && call in s.servers[i].calls
    requires Reaches(w, s, i, call, at)
    ensures call.requester == ScannerNode(at) && call.response.servicePort == w.servers[i].servicePort
  {
    assert GoodServer(w, s.collectors, i, s.servers[i]);
    hide AddressText.ParseUrl, GoodArrival;
    CallReachesRequester(w, s, i, call, at);
  }

  lemma AnswerMoves(w: World, s: State, s': State, i: nat, call: Call, at: nat, from: SocketAddrV6, c: nat,
                    host: Host, port: U16)
    requires i < |s.servers| == |w.servers| && at < |s.scanners| == |w.scanners| && c < |s.scanners|
    requires call in s.servers[i].calls && call.requester == ScannerNode(at)
    requires IsPeer(w, w.scanners[at].host, from.ip, from.scope, w.servers[i].host)
    requires s' == s.(servers := s.servers[i := EndCall(s.servers[i], call)],
                      scanners := s.scanners[at := Accept(s.scanners[at], from, w.servers[i].servicePort)])
    ensures Load(w, s', c, host, port) == Load(w, s, c, host, port)
  {
    hide Load, ServerLoad, ScannerLoad, Accept, EndCall, Answers, IsPeer;
    EndCallLoad(s.servers[i], call, c);
    AcceptLoad(w, at, s.scanners[at], from, i, host, port);
    var ended := s.(servers := s.servers[i := EndCall(s.servers[i], call)]);
    ServerChanges(w, s, ended, i, c, host, port);
    ScannerChanges(w, ended, s', c, host, port);
  }

  lemma SubmitBalances(w: World, s: State, i: nat, call: Call, at: nat, from: SocketAddrV6, c: nat, host: Host,
                       port: U16)
    requires Inv(w, s) && Enabled(w, s, Submit(i, call, at, from)) && c < |w.scanners|
    ensures Balances(w, s, Submit(i, call, at, from), Apply(w, s, Submit(i, call, at, from)), c, host, port)
  {
    assert Sized(w, s);
    hide Inv, Enabled, Apply, Load, Accept, EndCall, Reaches, IsPeer;
    SubmitApplies(w, s, i, call, at, from);
    SubmitIsAnswer(w, s, i, call, at);
    AnswerMoves(w, s, Apply(w, s, Submit(i, call, at, from)), i, call, at, from, c, host, port);
  }

  lemma CallFailsBalances(w: World, s: State, i: nat, call: Call, c: nat, host: Host, port: U16)
    requires Sized(w, s) && Enabled(w, s, CallFails(i, call)) && c < |w.scanners|
    ensures Balances(w, s, CallFails(i, call), Apply(w, s, CallFails(i, call)), c, host, port)
  {
    hide Enabled, Apply, Load, ServerLoad, ScannerLoad, EndCall, Answers;
    CallFailsApplies(w, s, i, call);
    EndCallLoad(s.servers[i], call, c);
    ServerChanges(w, s, Apply(w, s, CallFails(i, call)), i, c, host, port);
  }

  lemma BindBalances(w: World, s: State, at: nat, collectorPort: U16, c: nat, host: Host, port: U16)
    requires Sized(w, s) && Enabled(w, s, BindCollector(at, collectorPort)) && c < |w.scanners|
    ensures var step := BindCollector(at, collectorPort);
            Balances(w, s, step, Apply(w, s, step), c, host, port)
  {
    hide Enabled, Apply, Load, ServerLoad, Count;
    BindApplies(w, s, at, collectorPort);
    ScannerChanges(w, s, Apply(w, s, BindCollector(at, collectorPort)), c, host, port);
  }

  lemma BindFailsBalances(w: World, s: State, at: nat, e: IoError, c: nat, host: Host, port: U16)
    requires Sized(w, s) && Enabled(w, s, BindCollectorFails(at, e)) && c < |w.scanners|
    ensures Balances(w, s, BindCollectorFails(at, e), Apply(w, s, BindCollectorFails(at, e)), c, host, port)
  {
    hide Enabled, Apply, Load, ServerLoad, ScannerLoad;
    BindFailsApplies(w, s, at, e);
    var s' := Apply(w, s, BindCollectorFails(at, e));
    ScannerChanges(w, s, s', c, host, port);
    DroppedLoad(w, c, s.scanners[at], s'.scanners[at], host, port);
  }

  lemma NetworkBalances(w: World, s: State, step: Step, c: nat, host: Host, port: U16)
    requires Sized(w, s) && Enabled(w, s, step) && IsNetworkStep(step) && c < |w.scanners|
    ensures Balances(w, s, step, Apply(w, s, step), c, host, port)
  {
    hide Enabled, Apply, ServersLoad, ScannerLoad, PortIsFree;
    NetworkApplies(w, s, step);
  }

  lemma StepBalances(w: World, s: State, step: Step, c: nat, host: Host, port: U16)
    requires Inv(w, s) && Enabled(w, s, step) && c < |w.scanners|
    ensures Balances(w, s, step, Apply(w, s, step), c, host, port)
  {
    assert Sized(w, s);
    hide Inv, Enabled, Apply, Balances;
    match step
    case ServerStep(i, act) => ServerStepBalances(w, s, i, act, c, host, port);
    case ScannerStep(at, act) => ScannerStepBalances(w, s, at, act, c, host, port);
    case Arrive(d, node) => ArriveBalances(w, s, d, node, c, host, port);
    case Submit(i, call, at, from) => SubmitBalances(w, s, i, call, at, from, c, host, port);
    case CallFails(i, call) => CallFailsBalances(w, s, i, call, c, host, port);
    case BindCollector(at, collectorPort) => BindBalances(w, s, at, collectorPort, c, host, port);
    case BindCollectorFails(at, e) => BindFailsBalances(w, s, at, e, c, host, port);
    case _ => NetworkBalances(w, s, step, c, host, port);
  }

  // ---------------------------------------------------------------- runs

  /** How many of these steps bring scanner `c` a service at that host and port. */
  ghost function Brought(w: World, steps: seq<Step>, c: nat, host: Host, port: U16): nat {
    Count(multiset(steps), Brings(w, c, host, port))
  }

  /** How often scanner `c` has yielded a service at that host and port. */
  ghost function TimesYielded(w: World, s: State, c: nat, host: Host, port: U16): nat
    requires c < |s.scanners|
  {
    Count(multiset(s.scanners[c].yielded), FoundAt(w, c, host, port))
  }

  lemma BroughtGrows(w: World, steps: seq<Step>, k: nat, c: nat, host: Host, port: U16)
    requires k < |steps|
    ensures Brought(w, steps[..k + 1], c, host, port)
         == Brought(w, steps[..k], c, host, port) + if BringsTo(w, c, host, port, steps[k]) then 1 else 0
  {
    hide Count, BringsTo;
    CountWith(multiset(steps[..k]), Brings(w, c, host, port), steps[k]);
    assert steps[..k + 1] == steps[..k] + [steps[k]];
    assert multiset(steps[..k + 1]) == multiset(steps[..k]) + multiset{steps[k]};
  }

  lemma NothingAtFirst(w: World, faults: nat, run: Run, c: nat, host: Host, port: U16)
    requires IsRun(w, faults, run) && c < |w.scanners|
    ensures Brought(w, run.steps[..0], c, host, port) == Load(w, StateAt(w, faults, run, 0), c, host, port) == 0
  {
    var s := Init(w, faults);
    assert run.steps[..0] == [];
    NothingCounts(FoundAt(w, c, host, port), ServiceAt(w, c, host, port), AnnouncedAt(w, host, port));
    EmptyServers(w, s.servers, c, host, port, |s.servers|);
  }

  lemma {:induction false} EmptyServers(w: World, servers: seq<Server>, c: nat, host: Host, port: U16, n: nat)
    requires n <= |servers|
    requires forall i :: 0 <= i < |servers| ==> servers[i].socket == multiset{} && servers[i].calls == multiset{}
    ensures ServersLoad(w, servers, c, host, port, n) == 0
  {
    if n > 0 {
      EmptyServers(w, servers, c, host, port, n - 1);
    }
  }

  /** In every run, what a scanner has yielded or has under way was brought, once for each time. */
  lemma {:induction false} RunBalances(w: World, faults: nat, run: Run, c: nat, host: Host, port: U16, k: nat)
    requires IsRun(w, faults, run) && c < |w.scanners| && k <= |run.steps|
    ensures Load(w, StateAt(w, faults, run, k), c, host, port) <= Brought(w, run.steps[..k], c, host, port)
    ensures (forall step :: step in run.steps[..k] ==> Undisturbed(step)) ==>
              Load(w, StateAt(w, faults, run, k), c, host, port) == Brought(w, run.steps[..k], c, host, port)
    decreases k
  {
    hide Inv, Enabled, Apply, Load, Brought, Undisturbed, IsRun, StateAt, BringsTo;
    if k == 0 {
      NothingAtFirst(w, faults, run, c, host, port);
    } else {
      var s, step := StateAt(w, faults, run, k - 1), run.steps[k - 1];
      RunBalances(w, faults, run, c, host, port, k - 1);
      RunKeepsInv(w, faults, run, k - 1);
      StepAt(w, faults, run, k - 1);
      StepBalances(w, s, step, c, host, port);
      BroughtGrows(w, run.steps, k - 1, c, host, port);
      assert run.steps[..k] == run.steps[..k - 1] + [step];
    }
  }

  /** Nothing is left to arrive, to be handled, to be answered or to be collected. */
  predicate Settled(s: State) {
    && s.net == multiset{}
    && (forall i :: 0 <= i < |s.servers| ==> s.servers[i].socket == multiset{} && s.servers[i].calls == multiset{})
    && (forall c :: 0 <= c < |s.scanners| ==> s.scanners[c].socket == multiset{} && s.scanners[c].channel == [])
  }

  lemma SettledLoad(w: World, s: State, c: nat, host: Host, port: U16)
    requires Settled(s) && c < |s.scanners|
    ensures Load(w, s, c, host, port) == TimesYielded(w, s, c, host, port)
  {
    EmptyServers(w, s.servers, c, host, port, |s.servers|);
    NothingCounts(FoundAt(w, c, host, port), ServiceAt(w, c, host, port), AnnouncedAt(w, host, port));
    hide Count;
  }

  /**
   * Conservation: in every run a scanner yields each host and port at most as often as it was
   * brought; and in a settled and undisturbed one just as often: once for each announcement of
   * such a server that arrived while the scanner listened, and, unless the port is 0, once for
   * each request of the scanner that arrived at such a server while that listened.
   */
  lemma Conservation(w: World, faults: nat, run: Run, c: nat, host: Host, port: U16)
    requires IsRun(w, faults, run) && c < |w.scanners|
    ensures var s := Final(w, faults, run);
            && TimesYielded(w, s, c, host, port) <= Brought(w, run.steps, c, host, port)
            && ((Settled(s) && forall step :: step in run.steps ==> Undisturbed(step)) ==>
                  TimesYielded(w, s, c, host, port) == Brought(w, run.steps, c, host, port))
  {
    var s := Final(w, faults, run);
    assert TimesYielded(w, s, c, host, port) <= Load(w, s, c, host, port) by {
      hide Count, IsRun;
    }
    assert run.steps[..|run.steps|] == run.steps;
    hide Load, TimesYielded, Brought, Settled, Undisturbed, IsRun;
    RunBalances(w, faults, run, c, host, port, |run.steps|);
    if Settled(s) {
      SettledLoad(w, s, c, host, port);
    }
  }
}
