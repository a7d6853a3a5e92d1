# A verified model of Tansa

Tansa finds services on an IPv6 LAN without a central server. A *server* announces its service port
to a multicast group and to every known neighbor, and only then listens on the discovery port and
answers requests. A *scanner* binds a response collector, then asks the group and every neighbor,
listens for announcements, and yields whatever services come in by either route. This project
models that protocol in Dafny and proves what it promises, over every run and every schedule.

## How the model is laid out

| file | what it models |
|---|---|
| `Wire.dfy`, `WireGrammar.dfy` | the protobuf form of a discovery packet, the decoder that takes it from a buffer, and the grammar of what that decoder accepts |
| `AddressText.dfy` | the text of a collector address, and an independent reader of that text |
| `Packets.dfy` | the filters between socket and application, and the two readings of a packet |
| `ResponseCollector.dfy` | `submit_response`, its channel, and the accounting over whole runs |
| `Neighbors.dfy` | the Linux and Windows neighbor parsers and the scope rule |
| `Streams.dfy` | `join` and `select`, poll by poll, with shuffle and fairness results |
| `Outside.dfy` | the effects a server or scanner has, with outcomes chosen by the environment |
| `Scanner.dfy`, `Server.dfy` | the send plans under failure, the scan stream, the concurrent handlers |
| `Discovery.dfy` | the protocol as a step system of many servers, scanners and a lossy network |
| `DiscoverySoundness.dfy` | whatever is yielded is a true service |
| `DiscoveryConservation.dfy` | it is yielded once for each datagram that brought it |
| `DiscoveryCompleteness.dfy`, `DiscoveryGap.dfy`, `DiscoveryMiss.dfy` | what is found, exactly, and what is missed |
| `DiscoveryQuiescence.dfy`, `DiscoveryProgress.dfy` | every run comes to an end, and a healthy one to a settled end |
| `DiscoveryStartup.dfy` | a server can always come to serve, and a scanner to send all it has to |
| `DiscoveryPlans.dfy`, `DiscoveryAnswers.dfy` | the step system sends and answers as `Scanner.dfy` and `Server.dfy` do |
| `DiscoverySends.dfy` | what is recorded as sent is on the network, and what that is worth over a run |
| `DiscoveryReports.dfy` | failures and results are reported, and only those; response calls are kept until they end |
| `Counting.dfy`, `Net.dfy`, `Wrappers.dfy` | counting, integers, addresses, `Option` and `Result` |

In the step system datagrams carry encoded bytes and response calls carry the URL as text, so that
soundness and completeness rest on the codec and on the address text. Any number of servers and
scanners share hosts and discovery ports. The network may lose, duplicate and reorder datagrams;
any handler's call may fail; any participant may fail where the code lets it.

## What came out

* Soundness holds of every run, with no assumption on delivery.
* Conservation: in every run a scanner yields each host and port at most as often as datagrams
  brought it, and in a settled run without failures exactly as often. Completeness is the special
  case of "at least once".
* A run in which nothing fails can always deliver what is under way, so it can be brought to a
  settled end, and wherever it can deliver nothing more it is settled. The completeness theorem of
  finished runs therefore assumes nothing of what is left.
* Completeness has an exact condition, and it is not "mutually reachable". In a settled run without
  failures a scanner yields just the servers it was *in touch* with: those whose announcement
  arrived while it listened, and those with a nonzero service port that listened when one of its
  requests arrived. Because a server sends all announcements before it listens, a server and a
  scanner that reach each other can miss each other for good without any loss, even when the
  scanner listens before it asks; `DiscoveryMiss.MissIsReachable` constructs such a run for all
  ports and addresses, and `DiscoveryGap.MissedByRace` shows that this race is the only way to miss.
* A service port of 0 is accepted from an announcement and refused by `submit_response`, so such a
  server is found by one route only. `ResponseCollector.RoutesAgree` shows that 0 is the only
  difference between the routes, and the completeness theorems carry it as `servicePort != 0`.
* The encoding of a packet round-trips on every payload. Two encodings in one buffer do not always
  obey "Last One Wins", because proto3 leaves out a zero port; `Wire.LastOneWins` gives the exact
  condition.
* The decoder accepts far more than the encoder writes: unknown fields and groups, repeated and
  reordered fields, padded varints. `WireGrammar.DecodesExactly` says just which buffers, and what
  each means.

## Assumptions

* `select` of the futures library alternates between its two sides, polls the other side when the
  first is not ready, and does not poll a side that has ended. A source may be ready or not at each
  poll as it likes.
* `try_for_each_concurrent` without a limit starts a handler for each item, lets handlers proceed in
  any order, stops at the first error of the stream and then drops the handlers in flight.
  `try_join_all` completes its futures in any order and drops the rest at the first error.
* The operating system gives a collector a nonzero port that no other collector of that host has in
  the run, shows a receiver an address at which it reaches the sender's host, and binds a port to one
  socket of a host at a time. Only servers and scanners send to the discovery ports.
* The protobuf decoder merges fields as the Protocol Buffers encoding specification says, skips
  unknown fields, and limits nesting to 100 levels. Address text follows section 2.2 of RFC 4291,
  sections 4 and 5 of RFC 5952 and section 11 of RFC 4007.

## Model

| member | source | states |
|---|---|---|
| DiscoverySoundness.Soundness | main/src/scanner.rs:50-62 | in every run, every service a scanner yields is at an address of a server on its discovery port, with that server's service port |
| DiscoverySoundness.RunKeepsInv | main/src/server.rs:46-151 | every reachable state of every run satisfies the invariant over datagrams in flight, sockets, pending calls, channels and yielded items |
| DiscoverySoundness.CollectorBeforeRequest | main/src/scanner.rs:50-53 | in every reachable state each request, in flight or received, decodes to the nonzero port of a collector its scanner has already bound |
| DiscoverySoundness.RequestsNeverFail | main/src/server.rs:131-137 | no participant's request makes a handler fail before its call: the port is in the 16-bit range |
| DiscoveryConservation.Conservation | main/src/scanner.rs:54-62 | in every run a scanner yields a host and port at most as often as arrivals brought it, and in a settled run without failures exactly as often: once for each announcement of such a server that arrived, and (nonzero port) once for each of its own requests that arrived there |
| DiscoveryConservation.StepBalances | main/src/server.rs:120-151 | every step adds to what is under way to a scanner what it brings and, unless it is a failure or an end, takes nothing away |
| DiscoveryCompleteness.Completeness | main/src/server.rs:60-75 | in a settled run without failures a scanner has yielded a host and port if and only if they are those of a server whose announcement arrived while it listened, or which (nonzero port) listened when its request arrived |
| DiscoveryCompleteness.YieldedWasInTouch | main/src/scanner.rs:54-62 | in every run, whatever is yielded comes from a server that was in touch |
| DiscoveryCompleteness.InTouchIsYielded | main/src/scanner.rs:54-62 | in a settled run without failures every server in touch is yielded |
| DiscoveryGap.ReachedIsYielded | main/src/scanner.rs:65-97 | without loss, a send to a listening peer is enough to be yielded, whichever side sent |
| DiscoveryGap.YieldedWasReached | main/src/scanner.rs:54-62 | with prompt delivery, whatever is yielded belongs to a server that sent to the listening scanner or, listening, was sent to by it |
| DiscoveryGap.CompletenessBySends | main/src/server.rs:60-75 | without loss and with prompt delivery, a server is yielded if and only if one side sent to the other while that one listened |
| DiscoveryGap.MissedByRace | main/src/server.rs:60-75 | without loss and failures, a server is missed only if all its announcements to the scanner precede the scanner's bind and (nonzero port) all the scanner's requests to it precede its bind |
| DiscoverySends.StepChangesNetwork | main/src/server.rs:91-117 | each recorded successful send adds one datagram for each host that the world lets its address reach, to the discovery port, with the recorded bytes, and nothing else a participant does adds any; the network itself takes or repeats one at a time |
| DiscoverySends.AnnouncedIsYielded | main/src/server.rs:79-118 | in a settled run without failures or loss, a server whose successful send reaches the host of a scanner that had bound the port is yielded |
| DiscoverySends.AskedIsYielded | main/src/scanner.rs:81-96 | so is, with a nonzero port, a server that had bound the port when a scanner's successful send reached its host |
| DiscoverySends.UnicastIsYielded | main/src/server.rs:110-117 | in particular one unicast announcement to an address of a listening scanner is enough |
| DiscoverySends.RequestNextIsYielded | main/src/scanner.rs:85-94 | and one unicast request to an address of a listening server |
| DiscoveryMiss.MissIsReachable | main/src/server.rs:60-75 | for all ports and addresses there is a run without loss or failure, the scanner listening before it asks, in which a server and a scanner that reach each other never find each other |
| DiscoveryProgress.Progress | main/src/server.rs:67-76 | while anything is in flight, waiting, open or queued, a delivering step is enabled, if peers see each other both ways and collectors stay up |
| DiscoveryProgress.FinishedRunIsComplete | main/src/scanner.rs:54-62 | where a healthy run can deliver nothing more, completeness and conservation hold, with nothing assumed of what is left |
| DiscoveryProgress.RunCanSettle | main/src/server.rs:131-151 | every healthy run can be brought to a settled end by deliveries alone |
| DiscoveryStartup.ServerCanServe | main/src/server.rs:54-77 | in every run, whatever its neighbor scan finds, a server that has not failed can come to serve by its own steps alone, if its port is free and all it reaches see it |
| DiscoveryStartup.ScannerCanSend | main/src/scanner.rs:65-97 | so can a scanner send all its requests once its collector is bound, and its scan yields nothing by that |
| DiscoveryPlans.ScannerSendsRequests | main/src/scanner.rs:65-97 | in every run the sends of a scanner are in the order of `send_requests`, a prefix of its plan, with the port of the bound collector, and when they have ended the result is that of `send_requests` |
| DiscoveryPlans.ServerAnnounces | main/src/server.rs:60-66 | in every run the sends of a server are those of `announce`, and while it serves, and after, all of its plan has gone out |
| DiscoveryReports.FailuresAreReported | main/src/stream.rs:16-19 | in every run the failures a scan has yielded are just those that befell it, in order and each once; an error of `send_requests` is among them |
| DiscoveryReports.ServerResultIsCause | main/src/server.rs:54-77 | in every run a server ends at most once, with just the result of what ended it, and it ends well only when every response call it has begun has ended |
| DiscoveryAnswers.ServerAnswersOneByOne | main/src/server.rs:67-76 | in every run a server begins each call at most as often as handling one by one what arrived makes it, and just as often when nothing is left waiting at it in a run without failures |
| DiscoveryReports.RunKeepsCalls | main/src/server.rs:67-76 | in every run the response calls open and ended are those begun, also while the server drains; only a failing receiver drops open ones |
| DiscoveryQuiescence.StepLowers | main/src/server.rs:131-151 | every step lowers a lexicographic measure of faults, stages, planned sends and load |
| DiscoveryQuiescence.Quiescence | main/src/response_collector.rs:107-110 | no infinite sequence of states from the start is a run: messages dry up |
| Streams.JoinIsShuffle | main/src/stream.rs:9-20 | for every schedule the output of `join` ends, and is the stream's items in order with the future's error among them if it failed, and nothing else |
| Streams.PollsInterleave | main/src/stream.rs:16-19 | at every moment, what came out followed by any outcome of what is left is an interleaving of the sources |
| Streams.EndInterleaves | main/src/stream.rs:16-19 | a nested merge that reports its end has emitted an interleaving of all its sources, each in order |
| Streams.EndIsReached | main/src/stream.rs:16-19 | the end comes within as many polls as there are answers and nodes |
| Streams.EndIsFinal | main/src/stream.rs:16-19 | after that, polls give the end and nothing else |
| Streams.FairPoll | main/src/stream.rs:18-19 | a poll either returns a ready item of a source or returns another and shortens its wait |
| Streams.JoinAsksStreamFirst | main/src/stream.rs:16-19 | the first poll of `join` gives what the stream has ready, and the future's error only when the stream is not ready |
| Streams.NoStarvation | main/src/stream.rs:18-19 | a ready item under n merges comes out within 2^n polls, however busy the others are |
| Scanner.ScanSoFar | main/src/scanner.rs:54-62 | after any number of polls a scan has yielded an interleaving of the first collected services, the first announcements, and each error of sending and serving at most once |
| Scanner.ScanLosesNothing | main/src/scanner.rs:54-62 | at every moment, that followed by anything that what is left may give is all that comes from the sources, each in order |
| Scanner.ScanIsShuffle | main/src/scanner.rs:54-62 | a scan that ends has yielded just that |
| Scanner.ScanConserves | main/src/scanner.rs:54-62 | of these no item is lost or repeated |
| Scanner.ScanEnds | main/src/scanner.rs:54-62 | the end comes within the number of answers of the four sources plus 5 polls |
| Scanner.ScanIsFair | main/src/scanner.rs:54-62 | at any time a ready outcome of sending comes out within 2 polls, an announcement within 4, a collected service and the server's outcome within 8 |
| Scanner.FirstPollOfScan | main/src/scanner.rs:54-62 | of what is ready at the first poll, a collected service comes out first, then the error of the gRPC server, then an announcement, then the error of the sending |
| Scanner.PathsLeadToSources | main/src/response_collector.rs:61-68 | the four sources lie at these depths of the merge, `collect` being nested in `scan_internal` |
| Scanner.SendRequests | main/src/scanner.rs:65-97 | whatever fails, the multicast comes first, then the neighbor scan, then one unicast per neighbor in scan order; the first failure ends it and is reported with its error; success means the whole plan went out |
| Scanner.RequestsSent | main/src/scanner.rs:81-96 | the completed sends are a prefix of the plan, and all of it if and only if success is reported |
| Scanner.RequestsGoToNeighbors | main/src/scanner.rs:85-94 | after a Linux or Windows parse the k-th unicast request goes to the address of the k-th neighbor, which is a host's, on the discovery port, with the scope by the prefix |
| Scanner.RequestsGoToGroup | main/src/scanner.rs:73-84 | every multicast request goes to the address that the text of the crate reads as, on the discovery port, with scope and flow label 0 |
| Server.Announce | main/src/server.rs:79-102 | nothing is sent if the neighbor scan fails, nothing to neighbors unless the multicast went out; sends tried are among those planned; the first failure is reported with its error; success means each planned send went out just once |
| Server.AnnounceToIpNeighbors | main/src/server.rs:104-118 | the same for the unicasts, in any order, stopping at the first failure |
| Server.AnnouncementsSent | main/src/server.rs:91-101 | the completed sends are a sub-multiset of the plan, and all of it if and only if success is reported |
| Server.AnnouncementsGoToNeighbors | main/src/server.rs:110-114 | after a Linux or Windows parse every announcement goes to the group or to a valid neighbor address |
| Server.AnnouncementsGoToGroup | main/src/server.rs:58-66 | so does every multicast announcement |
| Server.HandleConcurrently | main/src/server.rs:67-76 | for every order of events the calls begun are a sub-multiset of those of one-by-one handling, exactly those after a clean end, when all have also ended; an error is the receiver's first one; nothing blocks |
| Server.OneByOneInOrder | main/src/server.rs:120-151 | one-by-one handling makes just the calls of the packets that are requests in range, in order |
| Server.AnyOrder | main/src/server.rs:72-75 | whichever handler goes first, the calls of all are the same multiset |
| Server.ServeInternal | main/src/server.rs:46-77 | a server fails only for port 0, a failed neighbor scan, a failed announcement or a receiver error, and with just that error, never for a handler; it succeeds only when its receiver ended and all handlers finished; it answers only after announcing everywhere |
| Packets.ReceiveDelivers | main/src/packet.rs:25-64 | the receiver delivers just the I/O errors and the packets from IPv6 peers, in order |
| Packets.AnnouncementsAreOneFilter | main/src/scanner.rs:99-113 | the filters from socket to scanner compose to one filter |
| Packets.AnnouncementsInOrder | main/src/scanner.rs:104-112 | a scanner yields the images of the packets that have one, in order, each once |
| Packets.ResponseGoesBack | main/src/server.rs:138-151 | the call's URL parses to the requester's address and zone with the requested port |
| ResponseCollector.RoutesAgree | main/src/response_collector.rs:89-106 | announcement and response route accept the same ports in 1..65535 with the same address and differ exactly at 0 |
| ResponseCollector.ResponseCollectorServiceProvider.SubmitResponse | main/src/response_collector.rs:77-111 | acknowledged if and only if the peer is IPv6, the port in 1..65535 and the receiver there, in which case exactly the peer's address with that port is queued; otherwise nothing changes and the status is that of the first check that fails |
| ResponseCollector.Replay | main/src/response_collector.rs:77-111 | for every sequence of calls, collections and hang-ups, the objects come to the ledger of the run, acknowledge as often, and give the collector the accepted services in order, one for each collection that finds any outstanding |
| ResponseCollector.UnboundedChannel.DropReceiver | main/src/response_collector.rs:107-110 | dropping the receiver drops what is queued and ends acceptance, and nothing else |
| ResponseCollector.UnboundedChannel.Next | main/src/response_collector.rs:61-68 | takes the oldest queued service off the queue and gives it, if there is any |
| ResponseCollector.PushesMatchCalls | main/src/response_collector.rs:77-111 | over every run, acknowledgements equal pushes, which are the valid calls before the receiver went, in order, all with nonzero port |
| ResponseCollector.CollectedInOrder | main/src/response_collector.rs:61-68 | over every run, what was collected is a prefix of what was pushed, the rest being queued |
| ResponseCollector.GivenInOrder | main/src/response_collector.rs:61-68 | over every run, what the collections gave are the first of the accepted services, in order, one for each collection that found fewer given than accepted before a hang-up |
| ResponseCollector.CollectsGiveTheRest | main/src/response_collector.rs:61-68 | before a hang-up, n further collections give the next n outstanding services, or all of them |
| ResponseCollector.CallMeans | main/src/response_collector.rs:89-106 | a call is acknowledged just for an IPv6 peer and a port in 1..65535 while the receiver is there, and then that peer with that port is pushed |
| ResponseCollector.NothingAfterHangup | main/src/response_collector.rs:107-110 | once the receiver is gone nothing is acknowledged, pushed or collected |
| Wire.RoundTrip | protocol/rust/src/lib.rs:24-31 | decoding an encoding gives the packet back, for every payload and port including the left-out 0; only the packet without payload is lost |
| Wire.EncodeInjective | protocol/rust/src/lib.rs:50-64 | two packets never share an encoding, so requests and announcements are never confused |
| Wire.ConcatenationMerges | protocol/rust/src/lib.rs:29-29 | encodings back to back in one buffer decode to their merge |
| Wire.LastOneWins | protocol/grpc/tw/seamlik/tansa/v1/discovery_packet.proto:8-13 | exactly when the last of two encodings wins |
| WireGrammar.DecodesExactly | protocol/rust/src/lib.rs:24-31 | a buffer decodes to a packet if and only if it is a nonempty list of well-formed known and unknown fields that means that packet; all other nonempty buffers are refused |
| WireGrammar.UnknownFieldIsIgnored | protocol/rust/src/lib.rs:29-29 | a field with a tag the schema does not know changes nothing, wherever it stands |
| WireGrammar.UnknownFieldInsideIsIgnored | protocol/rust/src/lib.rs:29-29 | nor does one inside a request or announcement |
| WireGrammar.FieldSkips | protocol/rust/src/lib.rs:29-29 | every well-formed unknown field, with groups nested to 100 levels, is skipped whole and nothing after it is touched |
| WireGrammar.FieldParses | protocol/rust/src/lib.rs:29-29 | whatever is skipped is one well-formed field |
| Wire.NoShorterEncoding | main/src/scanner.rs:71-72 | no buffer that decodes to a packet is shorter than its encoding |
| Wire.BytesOnTheWire | protocol/grpc/tw/seamlik/tansa/v1/discovery_packet.proto:8-13 | for every 16-bit port, the bytes of a request and of an announcement: field 1 or 2, the length, and the port as field 1 in one to three groups, or nothing for 0 |
| Wire.VarintRoundTrip | protocol/grpc/tw/seamlik/tansa/v1/request.proto:5-7 | a port's varint decodes to the port and leaves the rest of the buffer |
| Wire.BytesMut.GetVarint | protocol/rust/src/lib.rs:29-29 | the byte-by-byte loop reads the varint and consumes just its bytes |
| Wire.BytesMut.TakePacket | protocol/rust/src/lib.rs:24-31 | decoding in place gives the specified result and on success consumes the whole buffer |
| AddressText.CollectorUrlReadsBack | main/src/server.rs:153-160 | the collector URL parses back to the peer's address and zone and the collector's port, for all of them |
| AddressText.AddressReadsBack | main/src/server.rs:159-159 | so does the text of any socket address; only the flow label is forgotten |
| AddressText.CollectorUrlInjective | main/src/server.rs:153-160 | two URLs are equal if and only if address, zone and collector port are |
| AddressText.ShortensAsRecommended | main/src/server.rs:159-159 | how every address is written: an IPv4-mapped one as "::ffff:" and a dotted quad; any other with the first of its longest runs of at least two zero groups as "::", and without "::" when there is none |
| AddressText.DiscoveryIpReads | main/src/lib.rs:54-56 | the discovery address is the one its text in the crate reads as |
| Neighbors.MalformedRowFails | main/src/network/ip_neighbor/linux.rs:24-29 | rows parse if and only if each does, and otherwise with the first error |
| Neighbors.IndexFindsLastLink | main/src/network/ip_neighbor/linux.rs:38-38 | the hash map finds the last link of a name |
| Neighbors.IndexedJoinIsPlain | main/src/network/ip_neighbor/linux.rs:38-50 | the filtered and indexed join is the plain row-by-row scan, in order |
| Neighbors.ParseLinuxIsPlainScan | main/src/network/ip_neighbor/linux.rs:20-56 | so is the whole parse, which succeeds if and only if all rows and the links parse; a malformed row is reported before malformed links |
| Neighbors.LinuxPicks | main/src/network/ip_neighbor/linux.rs:40-50 | what is found, in order, is the address of each row that has not failed, has a host's address (neither loopback, unspecified nor multicast, told by its segments) and is on a known link, with the index of the last link of that name, and of no other row |
| Neighbors.PlainScanIsValid | main/src/network/ip_neighbor/linux.rs:40-50 | no neighbor found on Linux is loopback, unspecified or multicast |
| Neighbors.WindowsScanIsValid | main/src/network/ip_neighbor/windows.rs:31-36 | nor is one found on Windows |
| Neighbors.ParseWindowsMeans | main/src/network/ip_neighbor/windows.rs:23-42 | the Windows parse fails with the first malformed row and otherwise gives, in order, the address and interface of just the rows that are not unreachable and have a host's address |
| Neighbors.WindowsPicks | main/src/network/ip_neighbor/windows.rs:31-36 | the same of the filter alone |
| Neighbors.ParsedNeighborsAreValid | main/src/network/ip_neighbor/mod.rs:73-84 | every parsed neighbor is sent to on the discovery port, with the interface as scope exactly when the address starts with FE80 and scope 0 otherwise |
| Scanner.NoPortYieldsError | main/src/scanner.rs:46-48 | with discovery port 0 the stream yields that error alone and ends |
| Packets.YieldedMeans | main/src/scanner.rs:115-125 | a service is yielded exactly for an IPv6 announcement of a 16-bit port, at the sender's address with that port; an error exactly for an I/O error |
| Packets.AnsweredRequests | main/src/server.rs:131-142 | a packet is answered if and only if it is a request of a 16-bit port |

## Left out

- Wire.BytesMut.TakePacket: does not say what an error leaves in the buffer, which is up to the protobuf library; `UdpFramed` is not part of this model.
- DiscoveryCompleteness.Completeness: speaks of settled runs in which no receiver ends, no call fails and no scan is dropped; each of these loses services by design.
- DiscoveryGap.CompletenessBySends: needs prompt delivery for the "only if" half, since a datagram sent early may otherwise arrive after the receiver has bound.
- Sockets, multicast group membership and loopback options: replaced by network steps.
- The gRPC transport, health service and connection set-up: a call is one step that may fail.
- The task scheduler, wake-ups and time: schedules are arbitrary; liveness is stated for settled runs or by numbers of polls.
- `process.rs` and the CSV and JSON readers: parsing starts from rows, each well-formed or malformed; unread columns are not modelled.
- The choice of a neighbor scanner by operating system: a single branch.
- The command line program, logging and build files: no properties.
- Reuse of a collector port within a run, and senders other than servers and scanners: excluded by assumption.
