/** Machine integers and socket addresses. */
module Net {

  type U8 = x: int | 0 <= x < 0x100
  type U16 = x: int | 0 <= x < 0x1_0000
  type U32 = x: int | 0 <= x < 0x1_0000_0000

  /** The eight 16-bit segments of an IPv6 address. */
  type Ipv6Addr = s: seq<U16> | |s| == 8 witness [0, 0, 0, 0, 0, 0, 0, 0]

  datatype SocketAddrV6 = SocketAddrV6(ip: Ipv6Addr, port: U16, flowinfo: U32, scope: U32)

  /** A peer address as the operating system reports it. */
  datatype SocketAddr = V4(ip: U32, port: U16) | V6(address: SocketAddrV6)

  /** The multicast address of the crate, FF05::F329:58AF. */
  const DISCOVERY_IP: Ipv6Addr := [0xFF05, 0, 0, 0, 0, 0, 0xF329, 0x58AF]

  /** The octets of an address, most significant first. */
  function Octet(ip: Ipv6Addr, k: nat): U8
    requires k < 16
  {
    if k % 2 == 0 then ip[k / 2] / 0x100 else ip[k / 2] % 0x100
  }
}
