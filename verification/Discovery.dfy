/**
 * The discovery protocol as a step system: any number of servers and scanners on any hosts and
 * discovery ports, a network that may lose, duplicate and reorder datagrams, and response calls
 * that may fail. Datagrams carry encoded bytes and calls carry the URL text, so that what a peer
 * makes of them depends on the codec and on the address text.
 */
module Discovery {
  import opened Wrappers
  import opened Net
  import opened Wire
  import opened Packets
  import opened Neighbors
  import AddressText
  import ResponseCollector

  // ---------------------------------------------------------------- the world

  type Host = nat

  datatype ServerConfig = ServerConfig(host: Host, discoveryPort: U16, servicePort: U16)

  datatype ScannerConfig = ScannerConfig(host: Host, discoveryPort: U16)

  /**
   * One `serve` or `scan` per configuration. `peers[(h, ip, scope)]` is the host that `h` reaches
   * at that address and sees behind it; `multicast[h]` are the hosts a multicast from `h` reaches.
   */
  datatype World = World(
    servers: seq<ServerConfig>,
    scanners: seq<ScannerConfig>,
    peers: map<(Host, Ipv6Addr, U32), Host>,
    multicast: map<Host, set<Host>>)

  predicate IsPeer(w: World, viewer: Host, ip: Ipv6Addr, scope: U32, peer: Host) {
    (viewer, ip, scope) in w.peers && w.peers[(viewer, ip, scope)] == peer
  }

  function Group(w: World, from: Host): set<Host> {
    if from in w.multicast then w.multicast[from] else {}
  }

  function UnicastReach(w: World, from: Host, address: SocketAddrV6): set<Host> {
    if (from, address.ip, address.scope) in w.peers then {w.peers[(from, address.ip, address.scope)]} else {}
  }

  // ---------------------------------------------------------------- states

  datatype Node = ServerNode(index: nat) | ScannerNode(index: nat)

  /** `source` is the sender as the destination sees it; `sender` is known to no receiver. */
  datatype Datagram = Datagram(sender: Node, source: SocketAddrV6, dest: Host, port: U16, data: Bytes)

  /** A handler awaiting its response call; `requester` is not known to it. */
  datatype Call = Call(requester: Node, response: Response)

  datatype ServeError = InvalidDiscoveryPort | NetworkIo(io: IoError) | IpNeighborFailure(scan: ScanError)

  /** `serve_internal`: announce first, only then listen. */
  datatype ServerPhase =
    | Starting
    | Scanned(neighbors: seq<IpNeighbor>)
    | Announcing(pending: multiset<SocketAddrV6>)
    | Serving
    | Draining
    | Finished(result: Result<(), ServeError>)

  datatype Server = Server(phase: ServerPhase, socket: multiset<Datagram>, calls: multiset<Call>)

  /** `send_requests`. */
  datatype Sending = Unsent | MulticastSent | Unicasting(remaining: seq<SocketAddrV6>) | Done

  datatype Listen = Unbound | Bound | Closed

  /** Receive errors are reported as `SendRequest` too: both are I/O errors. */
  datatype ScanFailure =
    | NoDiscoveryPort | SendRequest(io: IoError)
    | CollectResponse(transport: TransportError) | ScanIpNeighbor(scan: ScanError)

  datatype Item = Found(service: Service) | Failed(error: ScanFailure)

  /** The stream of a scan: its four sources, what they have queued, and what it has yielded. */
  datatype Scanner = Scanner(
    sending: Sending, listen: Listen, accepting: bool, ended: bool,
    socket: multiset<Datagram>, channel: seq<Service>, yielded: seq<Item>)

  /** `faults` bounds the network duplications and passing receive errors still to come. */
  datatype State = State(
    servers: seq<Server>, scanners: seq<Scanner>, collectors: seq<Option<U16>>,
    net: multiset<Datagram>, faults: nat)

  const NEW_SERVER := Server(Starting, multiset{}, multiset{})
  const NEW_SCANNER := Scanner(Unsent, Unbound, false, false, multiset{}, [], [])

  function Init(w: World, faults: nat): State {
    State(seq(|w.servers|, _ => NEW_SERVER), seq(|w.scanners|, _ => NEW_SCANNER),
          seq(|w.scanners|, _ => None), multiset{}, faults)
  }

  // ---------------------------------------------------------------- steps

  datatype ServerAct =
    | RejectPort
    | FindNeighbors(neighbors: seq<IpNeighbor>) | FindFails(scan: ScanError)
    | Multicast(via: map<Host, SocketAddrV6>) | MulticastFails(io: IoError)
    | Unicast(address: SocketAddrV6, via: map<Host, SocketAddrV6>)
    | UnicastFails(address: SocketAddrV6, io: IoError)
    | Bind | BindFails(io: IoError)
    | Handle(datagram: Datagram) | ReceiveFails(io: IoError) | StreamEnds | Finish

  datatype ScannerAct =
    | RejectScan
    | Request(via: map<Host, SocketAddrV6>) | Scan(neighbors: seq<IpNeighbor>)
    | RequestNext(via: map<Host, SocketAddrV6>) | RequestsDone | SendingFails(failure: ScanFailure)
    | Subscribe | SubscribeFails(io: IoError)
    | Hear(datagram: Datagram) | HearFails(io: IoError)
    | TakeResponse | CollectorFails(transport: TransportError)
    | Drop

  datatype Step =
    | ServerStep(server: nat, serverAct: ServerAct)
    | ScannerStep(scanner: nat, scannerAct: ScannerAct)
    | BindCollector(scanner: nat, collectorPort: U16)
    | BindCollectorFails(scanner: nat, io: IoError)
    | Arrive(datagram: Datagram, node: Node)
    | Vanish(datagram: Datagram)
    | Lose(datagram: Datagram)
    | Duplicate(datagram: Datagram)
    | Submit(server: nat, call: Call, scanner: nat, from: SocketAddrV6)
    | CallFails(server: nat, call: Call)

  predicate Listening(w: World, s: State, node: Node, host: Host, port: U16) {
    match node
    case ServerNode(i) =>
      i < |w.servers| && i < |s.servers| && s.servers[i].phase.Serving?
      && w.servers[i].host == host && w.servers[i].discoveryPort == port
    case ScannerNode(c) =>
      c < |w.scanners| && c < |s.scanners| && s.scanners[c].listen.Bound?
      && w.scanners[c].host == host && w.scanners[c].discoveryPort == port
  }

  /** A port is bound by one socket of a host at a time. */
  ghost predicate PortIsFree(w: World, s: State, host: Host, port: U16) {
    forall node :: !Listening(w, s, node, host, port)
  }

  /** One datagram to each host in `via`, seen there under that address. */
  function Copies(sender: Node, port: U16, data: Bytes, via: map<Host, SocketAddrV6>): multiset<Datagram> {
    multiset(set host | host in via :: Datagram(sender, via[host], host, port, data))
  }

  /** The network shows each host in `reach` a true address of the sender's host. */
  ghost predicate Shown(w: World, from: Host, reach: set<Host>, via: map<Host, SocketAddrV6>) {
    && via.Keys == reach
    && forall host :: host in via ==> IsPeer(w, host, via[host].ip, via[host].scope, from)
  }

  function AnnouncementData(servicePort: U16): Bytes {
    Encode(DiscoveryPacket(Some(Announcement(servicePort))))
  }

  function RequestData(collectorPort: U16): Bytes {
    Encode(DiscoveryPacket(Some(Payload.Request(collectorPort))))
  }

  function SocketAddresses(neighbors: seq<IpNeighbor>, port: U16): (addresses: seq<SocketAddrV6>)
    ensures |addresses| == |neighbors|
    ensures forall k :: 0 <= k < |neighbors| ==> addresses[k] == neighbors[k].GetSocketAddress(port)
  {
    seq(|neighbors|, k requires 0 <= k < |neighbors| => neighbors[k].GetSocketAddress(port))
  }

  // ---------------------------------------------------------------- server steps

  ghost predicate ServerEnabled(w: World, s: State, i: nat, act: ServerAct)
    requires i < |w.servers| && i < |s.servers|
  {
    var config, server := w.servers[i], s.servers[i];
    match act
    case RejectPort => server.phase.Starting? && config.discoveryPort == 0
    case FindNeighbors(_) => server.phase.Starting? && config.discoveryPort != 0
    case FindFails(_) => server.phase.Starting? && config.discoveryPort != 0
    case Multicast(via) => server.phase.Scanned? && Shown(w, config.host, Group(w, config.host), via)
    case MulticastFails(_) => server.phase.Scanned?
    case Unicast(address, via) =>
      server.phase.Announcing? && address in server.phase.pending
      && Shown(w, config.host, UnicastReach(w, config.host, address), via)
    case UnicastFails(address, _) => server.phase.Announcing? && address in server.phase.pending
    case Bind =>
      server.phase == Announcing(multiset{}) && PortIsFree(w, s, config.host, config.discoveryPort)
    case BindFails(_) => server.phase == Announcing(multiset{})
    case Handle(d) => server.phase.Serving? && d in server.socket
    case ReceiveFails(_) => server.phase.Serving?
    case StreamEnds => server.phase.Serving?
    case Finish => server.phase.Draining? && server.calls == multiset{}
  }

  function Fail(error: ServeError): Server {
    Server(Finished(Err(error)), multiset{}, multiset{})
  }

  /** The handler started for a received datagram; one that fails at once leaves nothing. */
  function StartedCalls(config: ServerConfig, d: Datagram): multiset<Call> {
    match Decode(d.data)
    case Ok(Some(packet)) =>
      (match HandlePacket(packet, d.source, config.servicePort)
       case Ok(response) => multiset{Call(d.sender, response)}
       case Err(_) => multiset{})
    case _ => multiset{}
  }

  function Handled(config: ServerConfig, server: Server, d: Datagram): Server {
    server.(socket := server.socket - multiset{d}, calls := server.calls + StartedCalls(config, d))
  }

  function ServerAfter(config: ServerConfig, server: Server, act: ServerAct): Server {
    match act
    case RejectPort => Fail(InvalidDiscoveryPort)
    case FindNeighbors(neighbors) => server.(phase := Scanned(neighbors))
    case FindFails(e) => Fail(IpNeighborFailure(e))
    case Multicast(_) =>
      if server.phase.Scanned? then
        server.(phase := Announcing(multiset(SocketAddresses(server.phase.neighbors, config.discoveryPort))))
      else server
    case MulticastFails(e) => Fail(NetworkIo(e))
    case Unicast(address, _) =>
      if server.phase.Announcing? then
        server.(phase := Announcing(server.phase.pending - multiset{address}))
      else server
    case UnicastFails(_, e) => Fail(NetworkIo(e))
    case Bind => server.(phase := Serving)
    case BindFails(e) => Fail(NetworkIo(e))
    case Handle(d) => Handled(config, server, d)
    case ReceiveFails(e) => Fail(NetworkIo(e))
    case StreamEnds => server.(phase := Draining, socket := multiset{})
    case Finish => server.(phase := Finished(Ok(())))
  }

  function ServerSends(config: ServerConfig, i: nat, act: ServerAct): multiset<Datagram> {
    var data := AnnouncementData(config.servicePort);
    match act
    case Multicast(via) => Copies(ServerNode(i), config.discoveryPort, data, via)
    case Unicast(_, via) => Copies(ServerNode(i), config.discoveryPort, data, via)
    case _ => multiset{}
  }

  // ---------------------------------------------------------------- scanner steps

  ghost predicate ScannerEnabled(w: World, s: State, c: nat, act: ScannerAct)
    requires c < |w.scanners| && c < |s.scanners| && c < |s.collectors|
  {
    var config, scanner := w.scanners[c], s.scanners[c];
    && !scanner.ended && s.collectors[c].Some?
    && if act.RejectScan? then config.discoveryPort == 0
       else
         && config.discoveryPort != 0
         && match act
            case RejectScan => false
            case Request(via) => scanner.sending.Unsent? && Shown(w, config.host, Group(w, config.host), via)
            case Scan(_) => scanner.sending.MulticastSent?
            case RequestNext(via) =>
              scanner.sending.Unicasting? && scanner.sending.remaining != []
              && Shown(w, config.host, UnicastReach(w, config.host, scanner.sending.remaining[0]), via)
            case RequestsDone => scanner.sending == Unicasting([])
            case SendingFails(failure) =>
              (match scanner.sending
               case MulticastSent => failure.ScanIpNeighbor?
               case Done => false
               case _ => failure.SendRequest? && scanner.sending != Unicasting([]))
            case Subscribe => scanner.listen.Unbound? && PortIsFree(w, s, config.host, config.discoveryPort)
            case SubscribeFails(_) => scanner.listen.Unbound?
            case Hear(d) => scanner.listen.Bound? && d in scanner.socket
            case HearFails(_) => scanner.listen.Bound? && s.faults > 0
            case TakeResponse => scanner.channel != []
            case CollectorFails(_) => scanner.accepting
            case Drop => true
  }

  /** What a received datagram yields. */
  function Heard(d: Datagram): seq<Item> {
    match Decode(d.data)
    case Ok(Some(packet)) =>
      (match ExtractService(packet, d.source)
       case Ok(service) => [Found(service)]
       case Err(_) => [])
    case _ => []
  }

  function Yield(scanner: Scanner, items: seq<Item>): Scanner {
    scanner.(yielded := scanner.yielded + items)
  }

  function ScannerAfter(config: ScannerConfig, scanner: Scanner, act: ScannerAct): Scanner {
    match act
    case RejectScan =>
      Yield(scanner.(ended := true, accepting := false, channel := []), [Failed(NoDiscoveryPort)])
    case Request(_) => scanner.(sending := MulticastSent)
    case Scan(neighbors) => scanner.(sending := Unicasting(SocketAddresses(neighbors, config.discoveryPort)))
    case RequestNext(_) =>
      if scanner.sending.Unicasting? && scanner.sending.remaining != [] then
        scanner.(sending := Unicasting(scanner.sending.remaining[1..]))
      else scanner
    case RequestsDone => scanner.(sending := Done)
    case SendingFails(failure) => Yield(scanner.(sending := Done), [Failed(failure)])
    case Subscribe => scanner.(listen := Bound)
    case SubscribeFails(e) => Yield(scanner.(listen := Closed), [Failed(SendRequest(e))])
    case Hear(d) => Yield(scanner.(socket := scanner.socket - multiset{d}), Heard(d))
    case HearFails(e) => Yield(scanner, [Failed(SendRequest(e))])
    case TakeResponse =>
      if scanner.channel != [] then
        Yield(scanner.(channel := scanner.channel[1..]), [Found(scanner.channel[0])])
      else scanner
    case CollectorFails(e) => Yield(scanner.(accepting := false), [Failed(CollectResponse(e))])
    case Drop =>
      scanner.(ended := true, sending := Done, listen := Closed, accepting := false,
               socket := multiset{}, channel := [])
  }

  function ScannerSends(config: ScannerConfig, c: nat, collectorPort: U16, act: ScannerAct): multiset<Datagram> {
    match act
    case Request(via) => Copies(ScannerNode(c), config.discoveryPort, RequestData(collectorPort), via)
    case RequestNext(via) => Copies(ScannerNode(c), config.discoveryPort, RequestData(collectorPort), via)
    case _ => multiset{}
  }

  // ---------------------------------------------------------------- network and calls

  /** The call's URL leads from the server's host to the collector of scanner `c`. */
  ghost predicate Reaches(w: World, s: State, i: nat, call: Call, c: nat)
    requires i < |w.servers| && c < |w.scanners| && c < |s.collectors|
  {
    match AddressText.ParseUrl(call.response.url)
    case None => false
    case Some(endpoint) =>
      IsPeer(w, w.servers[i].host, endpoint.ip, endpoint.scope, w.scanners[c].host)
      && s.collectors[c] == Some(endpoint.port)
  }

  /** `submit_response` at scanner `c`, called from a host shown as `from`. */
  function Accept(scanner: Scanner, from: SocketAddrV6, servicePort: U32): Scanner {
    match ResponseCollector.Validate(Some(V6(from)), servicePort)
    case Ok(service) => scanner.(channel := scanner.channel + [service])
    case Err(_) => scanner
  }

  predicate Sized(w: World, s: State) {
    |s.servers| == |w.servers| && |s.scanners| == |s.collectors| == |w.scanners|
  }

  /** The step names participants there are. */
  predicate Names(w: World, step: Step) {
    match step
    case ServerStep(i, _) => i < |w.servers|
    case ScannerStep(c, _) => c < |w.scanners|
    case BindCollector(c, _) => c < |w.scanners|
    case BindCollectorFails(c, _) => c < |w.scanners|
    case Submit(i, _, c, _) => i < |w.servers| && c < |w.scanners|
    case CallFails(i, _) => i < |w.servers|
    case _ => true
  }

  ghost predicate Enabled(w: World, s: State, step: Step)
    requires Sized(w, s)
  {
    Names(w, step) && Permitted(w, s, step)
  }

  ghost predicate Permitted(w: World, s: State, step: Step)
    requires Sized(w, s) && Names(w, step)
  {
    match step
    case ServerStep(i, act) => ServerEnabled(w, s, i, act)
    case ScannerStep(c, act) => ScannerEnabled(w, s, c, act)
    case BindCollector(c, port) =>
      // A fresh nonzero port, not reused on its host within a run.
      && s.collectors[c].None? && !s.scanners[c].ended && port != 0
      && forall other :: 0 <= other < |w.scanners| && w.scanners[other].host == w.scanners[c].host ==>
           s.collectors[other] != Some(port)
    case BindCollectorFails(c, _) => s.collectors[c].None? && !s.scanners[c].ended
    case Arrive(d, node) => d in s.net && Listening(w, s, node, d.dest, d.port)
    case Vanish(d) => d in s.net && PortIsFree(w, s, d.dest, d.port)
    case Lose(d) => d in s.net
    case Duplicate(d) => d in s.net && s.faults > 0
    case Submit(i, call, c, from) =>
      && call in s.servers[i].calls && s.scanners[c].accepting && Reaches(w, s, i, call, c)
      && IsPeer(w, w.scanners[c].host, from.ip, from.scope, w.servers[i].host)
    case CallFails(i, call) => call in s.servers[i].calls
  }

  function Deliver(s: State, d: Datagram, node: Node): State {
    match node
    case ServerNode(i) =>
      if i < |s.servers| then
        s.(servers := s.servers[i := s.servers[i].(socket := s.servers[i].socket + multiset{d})])
      else s
    case ScannerNode(c) =>
      if c < |s.scanners| then
        s.(scanners := s.scanners[c := s.scanners[c].(socket := s.scanners[c].socket + multiset{d})])
      else s
  }

  function EndCall(server: Server, call: Call): Server {
    server.(calls := server.calls - multiset{call})
  }

  /** The port of a collector, once it is bound. */
  function CollectorPort(s: State, c: nat): U16 {
    if c < |s.collectors| && s.collectors[c].Some? then s.collectors[c].value else 0
  }

  function Apply(w: World, s: State, step: Step): (s': State)
    requires Sized(w, s) && Names(w, step)
    ensures Sized(w, s')
  {
    match step
    case ServerStep(i, act) =>
      s.(servers := s.servers[i := ServerAfter(w.servers[i], s.servers[i], act)],
         net := s.net + ServerSends(w.servers[i], i, act))
    case ScannerStep(c, act) =>
      s.(scanners := s.scanners[c := ScannerAfter(w.scanners[c], s.scanners[c], act)],
         net := s.net + ScannerSends(w.scanners[c], c, CollectorPort(s, c), act),
         faults := if act.HearFails? && s.faults > 0 then s.faults - 1 else s.faults)
    case BindCollector(c, port) =>
      s.(collectors := s.collectors[c := Some(port)],
         scanners := s.scanners[c := s.scanners[c].(accepting := true)])
    case BindCollectorFails(c, e) =>
      s.(scanners := s.scanners[c := Yield(s.scanners[c].(ended := true), [Failed(SendRequest(e))])])
    case Arrive(d, node) => Deliver(s.(net := s.net - multiset{d}), d, node)
    case Vanish(d) => s.(net := s.net - multiset{d})
    case Lose(d) => s.(net := s.net - multiset{d})
    case Duplicate(d) => s.(net := s.net + multiset{d}, faults := if s.faults > 0 then s.faults - 1 else 0)
    case Submit(i, call, c, from) =>
      s.(servers := s.servers[i := EndCall(s.servers[i], call)],
         scanners := s.scanners[c := Accept(s.scanners[c], from, call.response.servicePort)])
    case CallFails(i, call) => s.(servers := s.servers[i := EndCall(s.servers[i], call)])
  }

  // ---------------------------------------------------------------- steps one by one

  lemma ServerApplies(w: World, s: State, i: nat, act: ServerAct)
    requires Sized(w, s) && Enabled(w, s, ServerStep(i, act))
    ensures i < |w.servers| && ServerEnabled(w, s, i, act)
    ensures Apply(w, s, ServerStep(i, act))
         == s.(servers := s.servers[i := ServerAfter(w.servers[i], s.servers[i], act)],
               net := s.net + ServerSends(w.servers[i], i, act))
  {
    hide ServerEnabled, ServerAfter, ServerSends;
  }

  /** The acts after which a server has finished with an error. */
  predicate IsFailure(act: ServerAct) {
    || act.RejectPort? || act.FindFails? || act.MulticastFails? || act.UnicastFails?
    || act.BindFails? || act.ReceiveFails?
  }

  lemma OtherActs(config: ServerConfig, server: Server, act: ServerAct)
    requires !act.Handle?
    ensures var server' := ServerAfter(config, server, act);
            if IsFailure(act) then
              server'.phase.Finished? && server'.socket == multiset{} && server'.calls == multiset{}
            else
              server'.calls == server.calls
              && server'.socket == if act.StreamEnds? then multiset{} else server.socket
  {
    hide Handled, SocketAddresses;
  }

  lemma FailsEarly(w: World, s: State, i: nat, act: ServerAct)
    requires i < |w.servers| && i < |s.servers| && ServerEnabled(w, s, i, act) && IsFailure(act)
    ensures var phase := s.servers[i].phase;
            act.ReceiveFails? || phase.Starting? || phase.Scanned? || phase.Announcing?
  {
    hide PortIsFree, Shown;
  }

  lemma HandleActs(w: World, s: State, i: nat, d: Datagram)
    requires i < |w.servers| && i < |s.servers| && ServerEnabled(w, s, i, Handle(d))
    ensures s.servers[i].phase.Serving? && d in s.servers[i].socket
    ensures ServerAfter(w.servers[i], s.servers[i], Handle(d)) == Handled(w.servers[i], s.servers[i], d)
  {
    hide Handled;
  }

  lemma HearActs(w: World, s: State, c: nat, d: Datagram)
    requires Sized(w, s) && c < |w.scanners| && ScannerEnabled(w, s, c, Hear(d))
    ensures d in s.scanners[c].socket
    ensures ScannerAfter(w.scanners[c], s.scanners[c], Hear(d))
         == Yield(s.scanners[c].(socket := s.scanners[c].socket - multiset{d}), Heard(d))
  {
    hide Heard;
  }

  lemma TakeActs(w: World, s: State, c: nat)
    requires Sized(w, s) && c < |w.scanners| && ScannerEnabled(w, s, c, TakeResponse)
    ensures s.scanners[c].channel != []
    ensures ScannerAfter(w.scanners[c], s.scanners[c], TakeResponse)
         == Yield(s.scanners[c].(channel := s.scanners[c].channel[1..]), [Found(s.scanners[c].channel[0])])
  {}

  lemma ScannerApplies(w: World, s: State, c: nat, act: ScannerAct)
    requires Sized(w, s) && Enabled(w, s, ScannerStep(c, act))
    ensures c < |w.scanners| && ScannerEnabled(w, s, c, act)
    ensures Apply(w, s, ScannerStep(c, act))
         == s.(scanners := s.scanners[c := ScannerAfter(w.scanners[c], s.scanners[c], act)],
               net := s.net + ScannerSends(w.scanners[c], c, CollectorPort(s, c), act),
               faults := if act.HearFails? && s.faults > 0 then s.faults - 1 else s.faults)
  {
    hide ScannerEnabled, ScannerAfter, ScannerSends;
  }

  lemma BindApplies(w: World, s: State, c: nat, port: U16)
    requires Sized(w, s) && Enabled(w, s, BindCollector(c, port))
    ensures c < |w.scanners| && s.collectors[c].None? && !s.scanners[c].ended && port != 0
    ensures forall other :: 0 <= other < |w.scanners| && w.scanners[other].host == w.scanners[c].host ==>
              s.collectors[other] != Some(port)
    ensures Apply(w, s, BindCollector(c, port))
         == s.(collectors := s.collectors[c := Some(port)],
               scanners := s.scanners[c := s.scanners[c].(accepting := true)])
  {}

  lemma BindFailsApplies(w: World, s: State, c: nat, e: IoError)
    requires Sized(w, s) && Enabled(w, s, BindCollectorFails(c, e))
    ensures c < |w.scanners| && s.collectors[c].None? && !s.scanners[c].ended
    ensures Apply(w, s, BindCollectorFails(c, e))
         == s.(scanners := s.scanners[c := Yield(s.scanners[c].(ended := true), [Failed(SendRequest(e))])])
  {
    hide Yield;
  }

  predicate IsNetworkStep(step: Step) {
    step.Vanish? || step.Lose? || step.Duplicate?
  }

  /** These steps touch the network alone. */
  lemma NetworkApplies(w: World, s: State, step: Step)
    requires Sized(w, s) && Enabled(w, s, step) && IsNetworkStep(step)
    ensures step.datagram in s.net && (step.Vanish? ==> PortIsFree(w, s, step.datagram.dest, step.datagram.port))
    ensures step.Duplicate? ==> s.faults > 0
    ensures Apply(w, s, step)
         == s.(net := if step.Duplicate? then s.net + multiset{step.datagram} else s.net - multiset{step.datagram},
               faults := if step.Duplicate? then s.faults - 1 else s.faults)
  {
    hide PortIsFree;
  }

  lemma SubmitApplies(w: World, s: State, i: nat, call: Call, c: nat, from: SocketAddrV6)
    requires Sized(w, s) && Enabled(w, s, Submit(i, call, c, from))
    ensures i < |w.servers| && c < |w.scanners| && call in s.servers[i].calls
    ensures s.scanners[c].accepting && Reaches(w, s, i, call, c)
    ensures IsPeer(w, w.scanners[c].host, from.ip, from.scope, w.servers[i].host)
    ensures Apply(w, s, Submit(i, call, c, from))
         == s.(servers := s.servers[i := EndCall(s.servers[i], call)],
               scanners := s.scanners[c := Accept(s.scanners[c], from, call.response.servicePort)])
  {
    hide Accept, EndCall, Reaches, IsPeer;
  }

  lemma CallFailsApplies(w: World, s: State, i: nat, call: Call)
    requires Sized(w, s) && Enabled(w, s, CallFails(i, call))
    ensures i < |w.servers| && call in s.servers[i].calls
    ensures Apply(w, s, CallFails(i, call)) == s.(servers := s.servers[i := EndCall(s.servers[i], call)])
  {
    hide EndCall;
  }

  lemma ArriveApplies(w: World, s: State, d: Datagram, node: Node)
    requires Sized(w, s) && Enabled(w, s, Arrive(d, node))
    ensures d in s.net && Listening(w, s, node, d.dest, d.port)
    ensures Apply(w, s, Arrive(d, node)) == Deliver(s.(net := s.net - multiset{d}), d, node)
  {
    hide Listening, Deliver;
  }

  // ---------------------------------------------------------------- runs

  /** The steps taken, and the states before, between and after them. */
  datatype Run = Run(steps: seq<Step>, states: seq<State>)

  ghost predicate Next(w: World, s: State, step: Step, s': State) {
    Sized(w, s) && Enabled(w, s, step) && s' == Apply(w, s, step)
  }

  ghost predicate NextAt(w: World, run: Run, k: nat)
    requires |run.states| == |run.steps| + 1 && k < |run.steps|
  {
    Next(w, run.states[k], run.steps[k], run.states[k + 1])
  }

  ghost predicate IsRun(w: World, faults: nat, run: Run) {
    && |run.states| == |run.steps| + 1 && run.states[0] == Init(w, faults)
    && forall k {:trigger NextAt(w, run, k)} :: 0 <= k < |run.steps| ==> NextAt(w, run, k)
  }

  ghost function StateAt(w: World, faults: nat, run: Run, k: nat): (s: State)
    requires IsRun(w, faults, run) && k <= |run.steps|
    ensures Sized(w, s)
  {
    assert k > 0 ==> NextAt(w, run, k - 1);
    run.states[k]
  }

  ghost function Final(w: World, faults: nat, run: Run): (s: State)
    requires IsRun(w, faults, run)
    ensures Sized(w, s)
  {
    StateAt(w, faults, run, |run.steps|)
  }

  lemma StepAt(w: World, faults: nat, run: Run, k: nat)
    requires IsRun(w, faults, run) && k < |run.steps|
    ensures Enabled(w, StateAt(w, faults, run, k), run.steps[k])
    ensures StateAt(w, faults, run, k + 1) == Apply(w, StateAt(w, faults, run, k), run.steps[k])
  {
    hide Enabled, Apply;
    assert NextAt(w, run, k);
  }

  /** A run and one step more. */
  lemma ExtendRun(w: World, faults: nat, run: Run, step: Step) returns (run': Run)
    requires IsRun(w, faults, run) && Enabled(w, Final(w, faults, run), step)
    ensures IsRun(w, faults, run') && run'.steps == run.steps + [step]
    ensures Final(w, faults, run') == Apply(w, Final(w, faults, run), step)
  {
    hide Permitted, Apply, Sized;
    run' := Run(run.steps + [step], run.states + [Apply(w, Final(w, faults, run), step)]);
    forall k | 0 <= k < |run'.steps| ensures NextAt(w, run', k) {
      if k < |run.steps| {
        assert NextAt(w, run, k);
      }
    }
  }
}
