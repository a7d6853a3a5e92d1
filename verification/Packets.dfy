/**
 * What happens to a received packet: the filters of the packet receiver, and the two readings of
 * a packet, a service for a scanner and a response call for a server.
 */
module Packets {
  import opened Wrappers
  import opened Net
  import opened Wire
  import AddressText

  datatype Service = Service(address: SocketAddrV6)

  datatype IoError = IoError(code: nat)

  datatype TransportError = TransportError(code: nat)

  /** The two errors of the datagram decoder. */
  datatype ReceiveError = Io(error: IoError) | Protobuf(reason: DecodeError)

  type RawPacket = Result<(DiscoveryPacket, SocketAddr), ReceiveError>

  type ReceivedPacket = Result<(DiscoveryPacket, SocketAddrV6), IoError>

  // ---------------------------------------------------------------- filters in order

  /** One step of `filter_map`: an item may have no image. */
  function Push<T>(sofar: seq<T>, image: Option<T>): seq<T> {
    if image.Some? then sofar + [image.value] else sofar
  }

  /** All images, in order. */
  function Images<T>(images: seq<Option<T>>): seq<T> {
    if images == [] then [] else Push(Images(images[..|images| - 1]), images[|images| - 1])
  }

  /** `out` is the images at the positions that have one, in order. */
  ghost predicate PicksInOrder<T>(images: seq<Option<T>>, out: seq<T>, picks: seq<nat>) {
    && |out| == |picks|
    && (forall k :: 0 <= k < |picks| ==> picks[k] < |images| && images[picks[k]] == Some(out[k]))
    && (forall j, k :: 0 <= j < k < |picks| ==> picks[j] < picks[k])
    && (forall i :: 0 <= i < |images| && images[i].Some? ==> i in picks)
  }

  /** Filtering keeps order and multiplicity, and drops exactly what has no image. */
  lemma {:induction false} ImagesInOrder<T>(images: seq<Option<T>>) returns (picks: seq<nat>)
    ensures PicksInOrder(images, Images(images), picks)
  {
    if images == [] {
      picks := [];
    } else {
      hide PicksInOrder;
      var last := |images| - 1;
      var before := ImagesInOrder(images[..last]);
      if images[last].Some? {
        PicksGrow(images, Images(images[..last]), before);
        picks := before + [last];
      } else {
        PicksStay(images, Images(images[..last]), before);
        picks := before;
      }
    }
  }

  lemma PicksGrow<T>(images: seq<Option<T>>, out: seq<T>, picks: seq<nat>)
    requires images != [] && images[|images| - 1].Some?
    requires PicksInOrder(images[..|images| - 1], out, picks)
    ensures PicksInOrder(images, out + [images[|images| - 1].value], picks + [|images| - 1])
  {
    var last := |images| - 1;
    forall i | 0 <= i < |images| && images[i].Some? ensures i in picks + [last] {
      if i < last {
        assert images[..last][i].Some?;
      }
    }
  }

  lemma PicksStay<T>(images: seq<Option<T>>, out: seq<T>, picks: seq<nat>)
    requires images != [] && images[|images| - 1].None?
    requires PicksInOrder(images[..|images| - 1], out, picks)
    ensures PicksInOrder(images, out, picks)
  {
    var last := |images| - 1;
    forall i | 0 <= i < |images| && images[i].Some? ensures i in picks {
      assert images[..last][i].Some?;
    }
  }

  // ---------------------------------------------------------------- the packet receiver

  /** `strip_protobuf_error`: malformed packets are dropped, I/O errors are kept. */
  function StripProtobufError(raw: RawPacket): Option<Result<(DiscoveryPacket, SocketAddr), IoError>> {
    match raw
    case Ok(inner) => Some(Ok(inner))
    case Err(Io(e)) => Some(Err(e))
    case Err(Protobuf(_)) => None
  }

  /** `extract_ipv6`. */
  function ExtractIpv6(result: Result<(DiscoveryPacket, SocketAddr), IoError>): Option<ReceivedPacket> {
    match result
    case Ok((_, V4(_, _))) => None
    case Ok((packet, V6(address))) => Some(Ok((packet, address)))
    case Err(e) => Some(Err(e))
  }

  function StripAll(raw: seq<RawPacket>): seq<Result<(DiscoveryPacket, SocketAddr), IoError>> {
    if raw == [] then [] else Push(StripAll(raw[..|raw| - 1]), StripProtobufError(raw[|raw| - 1]))
  }

  function ExtractAll(results: seq<Result<(DiscoveryPacket, SocketAddr), IoError>>): seq<ReceivedPacket> {
    if results == [] then []
    else Push(ExtractAll(results[..|results| - 1]), ExtractIpv6(results[|results| - 1]))
  }

  /** `DiscoveryPacketReceiver::receive` on everything the socket gives. */
  function Receive(raw: seq<RawPacket>): seq<ReceivedPacket> {
    ExtractAll(StripAll(raw))
  }

  /** What the receiver is for: I/O errors and packets from IPv6 peers. */
  function Deliverable(raw: RawPacket): Option<ReceivedPacket> {
    if raw.Err? && raw.error.Io? then Some(Err(raw.error.error))
    else if raw.Ok? && raw.value.1.V6? then Some(Ok((raw.value.0, raw.value.1.address)))
    else None
  }

  function Deliverables(raw: seq<RawPacket>): (images: seq<Option<ReceivedPacket>>)
    ensures |images| == |raw|
    ensures forall i :: 0 <= i < |raw| ==> images[i] == Deliverable(raw[i])
  {
    if raw == [] then [] else Deliverables(raw[..|raw| - 1]) + [Deliverable(raw[|raw| - 1])]
  }

  lemma {:induction false} ReceiveIsOneFilter(raw: seq<RawPacket>)
    ensures Receive(raw) == Images(Deliverables(raw))
  {
    if raw != [] {
      ReceiveIsOneFilter(raw[..|raw| - 1]);
    }
  }

  /** The receiver gives, in order, the I/O errors and the packets from IPv6 peers, all of them. */
  lemma ReceiveDelivers(raw: seq<RawPacket>) returns (picks: seq<nat>)
    ensures PicksInOrder(Deliverables(raw), Receive(raw), picks)
  {
    ReceiveIsOneFilter(raw);
    picks := ImagesInOrder(Deliverables(raw));
  }

  // ---------------------------------------------------------------- the scanner's reading

  datatype PacketError = NotAnAnnouncement | NotARequest | PortOutOfRange

  /** `extract_service`: the peer's address with the announced port; 0 passes. */
  function ExtractService(packet: DiscoveryPacket, address: SocketAddrV6): Result<Service, PacketError> {
    match packet.UnwrapResponse()
    case None => Err(NotAnAnnouncement)
    case Some(port) =>
      if port >= 0x1_0000 then Err(PortOutOfRange) else Ok(Service(address.(port := port)))
  }

  /** One item of `receive_announcements`: errors pass, packets that are no service are dropped. */
  function AnnouncedService(received: ReceivedPacket): Option<Result<Service, IoError>> {
    match received
    case Err(e) => Some(Err(e))
    case Ok((packet, address)) =>
      match ExtractService(packet, address)
      case Ok(service) => Some(Ok(service))
      case Err(_) => None
  }

  function AnnouncedServices(received: seq<ReceivedPacket>): seq<Result<Service, IoError>> {
    if received == [] then []
    else Push(AnnouncedServices(received[..|received| - 1]), AnnouncedService(received[|received| - 1]))
  }

  function ReceiveAnnouncements(raw: seq<RawPacket>): seq<Result<Service, IoError>> {
    AnnouncedServices(Receive(raw))
  }

  /** The whole way of one packet from the socket to the scanner. */
  function Yielded(raw: RawPacket): Option<Result<Service, IoError>> {
    match Deliverable(raw)
    case Some(received) => AnnouncedService(received)
    case None => None
  }

  function AllYielded(raw: seq<RawPacket>): (images: seq<Option<Result<Service, IoError>>>)
    ensures |images| == |raw|
    ensures forall i :: 0 <= i < |raw| ==> images[i] == Yielded(raw[i])
  {
    if raw == [] then [] else AllYielded(raw[..|raw| - 1]) + [Yielded(raw[|raw| - 1])]
  }

  lemma {:induction false} AnnouncedDeliverables(raw: seq<RawPacket>)
    ensures AnnouncedServices(Images(Deliverables(raw))) == Images(AllYielded(raw))
  {
    hide Deliverable, AnnouncedService;
    if raw != [] {
      AnnouncedDeliverables(raw[..|raw| - 1]);
    }
  }

  lemma AnnouncementsAreOneFilter(raw: seq<RawPacket>)
    ensures ReceiveAnnouncements(raw) == Images(AllYielded(raw))
  {
    hide Images, AnnouncedServices, Deliverables, AllYielded, Receive;
    ReceiveIsOneFilter(raw);
    AnnouncedDeliverables(raw);
  }

  /** The peer at `address` announced `service`. */
  ghost predicate IsAnnouncementOf(raw: RawPacket, service: Service) {
    && raw.Ok? && raw.value.1.V6?
    && raw.value.0 == DiscoveryPacket(Some(Announcement(service.address.port)))
    && service.address == raw.value.1.address.(port := service.address.port)
  }

  /** What gets through: the I/O errors and the IPv6 announcements of a port below 65536. */
  lemma YieldedMeans(raw: RawPacket, service: Service, e: IoError)
    ensures Yielded(raw) == Some(Ok(service)) <==> IsAnnouncementOf(raw, service)
    ensures Yielded(raw) == Some(Err(e)) <==> raw == Err(Io(e))
  {
    match raw
    case Ok((packet, V6(address))) =>
      if packet.payload.Some? && packet.payload.value.Announcement? {
        assert packet == DiscoveryPacket(Some(Announcement(packet.payload.value.servicePort)));
      }
    case _ =>
  }

  /** From the socket to the scanner, just those come out, in the order they went in. */
  lemma AnnouncementsInOrder(raw: seq<RawPacket>)
    ensures exists picks :: PicksInOrder(AllYielded(raw), ReceiveAnnouncements(raw), picks)
  {
    AnnouncementsAreOneFilter(raw);
    var picks := ImagesInOrder(AllYielded(raw));
  }

  // ---------------------------------------------------------------- the server's reading

  /** A response call: the URL to connect to and the port to submit. */
  datatype Response = Response(url: string, servicePort: U32)

  /** `handle_packet` up to the call it awaits. */
  function HandlePacket(packet: DiscoveryPacket, remote: SocketAddrV6, servicePort: U16): Result<Response, PacketError>
  {
    match packet.UnwrapRequest()
    case None => Err(NotARequest)
    case Some(port) =>
      if port >= 0x1_0000 then Err(PortOutOfRange)
      else Ok(Response(AddressText.CollectorUrl(remote, port), servicePort))
  }

  /** Just the requests of a port below 65536 are answered, with the service port as it is. */
  lemma AnsweredRequests(packet: DiscoveryPacket, remote: SocketAddrV6, servicePort: U16)
    ensures var r := HandlePacket(packet, remote, servicePort);
            && (r.Ok? <==> exists port :: port <= 0xFFFF && packet == DiscoveryPacket(Some(Payload.Request(port))))
            && (r.Ok? ==> r.value.servicePort == servicePort)
  {
    hide AddressText.CollectorUrl;
    if HandlePacket(packet, remote, servicePort).Ok? {
      var port := packet.UnwrapRequest().value;
      assert packet == DiscoveryPacket(Some(Payload.Request(port)));
    }
  }

  /** The call goes back to where the request came from, at the port the request names. */
  lemma ResponseGoesBack(port: U32, remote: SocketAddrV6, servicePort: U16, response: Response)
    requires HandlePacket(DiscoveryPacket(Some(Payload.Request(port))), remote, servicePort) == Ok(response)
    ensures AddressText.ParseUrl(response.url) == Some(AddressText.Endpoint(remote.ip, remote.scope, port))
  {
    AddressText.CollectorUrlReadsBack(remote, port);
  }
}
