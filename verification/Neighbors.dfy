/**
 * Neighbor tables: the Linux parser's filter and hash join, the Windows parser's filter, and the
 * socket address of a neighbor. Rows are taken as the CSV and JSON readers give them, each either
 * parsed or malformed.
 */
module Neighbors {
  import opened Wrappers
  import opened Net

  datatype IpNeighbor = IpNeighbor(address: Ipv6Addr, networkInterfaceIndex: U32) {
    predicate IsLinkLocal() {
      Octet(address, 0) == 0xFE && Octet(address, 1) == 0x80
    }

    function GetSocketAddress(port: U16): SocketAddrV6 {
      SocketAddrV6(address, port, 0, if IsLinkLocal() then networkInterfaceIndex else 0)
    }
  }

  datatype ScanError = ChildProcess | ParseCsv(line: nat) | ParseJson

  /** A row of `ip neighbor`; the columns that nothing reads are left out. */
  datatype Neighbor = Neighbor(ip: Ipv6Addr, ifname: string, state: string)

  /** An entry of `ip link`. */
  datatype Link = Link(ifindex: U32, ifname: string)

  /** A row of `Get-NetNeighbor`. */
  datatype NetNeighbor = NetNeighbor(interfaceIndex: U32, ipAddress: Ipv6Addr, state: string)

  predicate IsLoopback(ip: Ipv6Addr) { ip == [0, 0, 0, 0, 0, 0, 0, 1] }

  predicate IsUnspecified(ip: Ipv6Addr) { ip == [0, 0, 0, 0, 0, 0, 0, 0] }

  predicate IsMulticast(ip: Ipv6Addr) { Octet(ip, 0) == 0xFF }

  predicate IsValidIp(ip: Ipv6Addr) {
    !IsLoopback(ip) && !IsUnspecified(ip) && !IsMulticast(ip)
  }

  /** Collects rows, stopping at the first malformed one. */
  function CollectRows<T, E>(rows: seq<Result<T, E>>): Result<seq<T>, E> {
    if rows == [] then Ok([])
    else
      match rows[0]
      case Err(e) => Err(e)
      case Ok(row) =>
        match CollectRows(rows[1..])
        case Err(e) => Err(e)
        case Ok(later) => Ok([row] + later)
  }

  /** The hash map of links by name; a later link replaces an earlier one of the same name. */
  function IndexByName(links: seq<Link>): map<string, Link> {
    if links == [] then map[]
    else
      var last := links[|links| - 1];
      IndexByName(links[..|links| - 1])[last.ifname := last]
  }

  function Usable(neighbors: seq<Neighbor>): seq<Neighbor> {
    if neighbors == [] then []
    else
      (if neighbors[0].state != "FAILED" && IsValidIp(neighbors[0].ip) then [neighbors[0]] else [])
      + Usable(neighbors[1..])
  }

  function JoinLinks(neighbors: seq<Neighbor>, links: map<string, Link>): seq<IpNeighbor> {
    if neighbors == [] then []
    else
      var n := neighbors[0];
      (if n.ifname in links then [IpNeighbor(n.ip, links[n.ifname].ifindex)] else [])
      + JoinLinks(neighbors[1..], links)
  }

  /** `IpRoute2IpNeighborScanner::parse_output`; neighbor rows are read before links. */
  function ParseLinux(links: Result<seq<Link>, ScanError>, rows: seq<Result<Neighbor, ScanError>>):
    Result<seq<IpNeighbor>, ScanError>
  {
    match CollectRows(rows)
    case Err(e) => Err(e)
    case Ok(neighbors) =>
      match links
      case Err(e) => Err(e)
      case Ok(links) => Ok(JoinLinks(Usable(neighbors), IndexByName(links)))
  }

  function UsableWindows(rows: seq<NetNeighbor>): seq<IpNeighbor> {
    if rows == [] then []
    else
      (if rows[0].state != "Unreachable" && IsValidIp(rows[0].ipAddress)
       then [IpNeighbor(rows[0].ipAddress, rows[0].interfaceIndex)] else [])
      + UsableWindows(rows[1..])
  }

  /** `PowerShellIpNeighborScanner::parse_output`. */
  function ParseWindows(rows: seq<Result<NetNeighbor, ScanError>>): Result<seq<IpNeighbor>, ScanError> {
    match CollectRows(rows)
    case Err(e) => Err(e)
    case Ok(neighbors) => Ok(UsableWindows(neighbors))
  }

  // ---------------------------------------------------------------- malformed rows

  /** One malformed row fails the parse with its own error, however many rows are well-formed. */
  lemma {:induction false} MalformedRowFails<T, E>(rows: seq<Result<T, E>>)
    ensures CollectRows(rows).Ok? <==> forall i :: 0 <= i < |rows| ==> rows[i].Ok?
    ensures match CollectRows(rows)
            case Ok(all) => |all| == |rows| && forall i :: 0 <= i < |rows| ==> rows[i] == Ok(all[i])
            case Err(e) => exists i :: 0 <= i < |rows| && rows[i] == Err(e) && forall j :: 0 <= j < i ==> rows[j].Ok?
  {
    if rows != [] && rows[0].Ok? {
      MalformedRowFails(rows[1..]);
      assert forall i :: 1 <= i < |rows| ==> rows[i] == rows[1..][i - 1];
      if CollectRows(rows[1..]).Err? {
        var e := CollectRows(rows[1..]).error;
        var i :| 0 <= i < |rows[1..]| && rows[1..][i] == Err(e) && forall j :: 0 <= j < i ==> rows[1..][j].Ok?;
        assert rows[i + 1] == Err(e);
        assert forall j :: 0 < j < i + 1 ==> rows[j] == rows[1..][j - 1];
      }
    }
  }

  // ---------------------------------------------------------------- the plain scan

  /** The last link of that name, found by looking through the list from its end. */
  function LastLink(links: seq<Link>, name: string): Option<Link> {
    if links == [] then None
    else if links[|links| - 1].ifname == name then Some(links[|links| - 1])
    else LastLink(links[..|links| - 1], name)
  }

  /** What the parser is for, one row at a time and without an index. */
  function PlainScan(neighbors: seq<Neighbor>, links: seq<Link>): seq<IpNeighbor> {
    if neighbors == [] then []
    else
      var n := neighbors[0];
      var link := LastLink(links, n.ifname);
      (if n.state != "FAILED" && IsValidIp(n.ip) && link.Some? then [IpNeighbor(n.ip, link.value.ifindex)] else [])
      + PlainScan(neighbors[1..], links)
  }

  lemma {:induction false} IndexFindsLastLink(links: seq<Link>, name: string)
    ensures LastLink(links, name)
         == if name in IndexByName(links) then Some(IndexByName(links)[name]) else None
  {
    if links != [] {
      IndexFindsLastLink(links[..|links| - 1], name);
    }
  }

  lemma {:induction false} IndexedJoinIsPlain(neighbors: seq<Neighbor>, links: seq<Link>)
    ensures JoinLinks(Usable(neighbors), IndexByName(links)) == PlainScan(neighbors, links)
  {
    if neighbors != [] {
      var n := neighbors[0];
      var later := Usable(neighbors[1..]);
      IndexedJoinIsPlain(neighbors[1..], links);
      IndexFindsLastLink(links, n.ifname);
      if n.state != "FAILED" && IsValidIp(n.ip) {
        assert ([n] + later)[1..] == later;
      } else {
        assert [] + later == later;
      }
    }
  }

  /**
   * The indexed parse is the plain scan; it fails with the error of the first malformed row or, if
   * there is none, with that of the links.
   */
  lemma ParseLinuxIsPlainScan(links: Result<seq<Link>, ScanError>, rows: seq<Result<Neighbor, ScanError>>)
    ensures ParseLinux(links, rows).Ok? <==> links.Ok? && forall i :: 0 <= i < |rows| ==> rows[i].Ok?
    ensures ParseLinux(links, rows).Ok? ==>
              ParseLinux(links, rows).value == PlainScan(CollectRows(rows).value, links.value)
    ensures forall i :: 0 <= i < |rows| && rows[i].Err? && (forall j :: 0 <= j < i ==> rows[j].Ok?) ==>
              ParseLinux(links, rows) == Err(rows[i].error)
    ensures links.Err? && (forall i :: 0 <= i < |rows| ==> rows[i].Ok?) ==> ParseLinux(links, rows) == Err(links.error)
  {
    MalformedRowFails(rows);
    if links.Ok? && CollectRows(rows).Ok? {
      IndexedJoinIsPlain(CollectRows(rows).value, links.value);
    }
  }

  // ---------------------------------------------------------------- which rows are kept

  /** Neither multicast nor unspecified nor loopback, told by the segments. */
  predicate IsHostAddress(ip: Ipv6Addr) {
    ip[0] < 0xFF00 && ((exists k :: 0 <= k < 7 && ip[k] != 0) || ip[7] > 1)
  }

  lemma ValidIsHostAddress(ip: Ipv6Addr)
    ensures IsValidIp(ip) <==> IsHostAddress(ip)
  {
    if forall k :: 0 <= k < 7 ==> ip[k] == 0 {
      assert ip == [0, 0, 0, 0, 0, 0, 0, ip[7]];
    }
  }

  /** The rows at these positions, in order, and no others, are those that `keep` keeps. */
  ghost predicate PicksRows<T(!new)>(rows: seq<T>, at: seq<nat>, keep: T -> bool) {
    && (forall k :: 0 <= k < |at| ==> at[k] < |rows|)
    && (forall j, k :: 0 <= j < k < |at| ==> at[j] < at[k])
    && (forall j: nat :: j < |rows| ==> (j in at <==> keep(rows[j])))
  }

  /** Positions in a list, one further when something stands before it. */
  function Later(at: seq<nat>): (later: seq<nat>)
    ensures |later| == |at| && forall k :: 0 <= k < |at| ==> later[k] == at[k] + 1
  {
    seq(|at|, k requires 0 <= k < |at| => at[k] + 1)
  }

  lemma PicksLater<T(!new)>(rows: seq<T>, at: seq<nat>, keep: T -> bool)
    requires rows != [] && PicksRows(rows[1..], at, keep)
    ensures PicksRows(rows, (if keep(rows[0]) then [0] else []) + Later(at), keep)
  {
    var later := Later(at);
    var all := (if keep(rows[0]) then [0] else []) + later;
    forall j: nat | j < |rows| ensures j in all <==> keep(rows[j]) {
      if j == 0 {
        assert 0 !in later;
      } else {
        assert rows[j] == rows[1..][j - 1];
        assert j - 1 in at <==> j in later by {
          if j - 1 in at {
            var k :| 0 <= k < |at| && at[k] == j - 1;
            assert later[k] == j;
          }
        }
      }
    }
  }

  /** What is found at each of those rows. */
  ghost predicate PicksNeighbors<T(!new)>(rows: seq<T>, at: seq<nat>, found: seq<IpNeighbor>, keep: T -> bool,
                                          gives: (T, IpNeighbor) -> bool)
  {
    && PicksRows(rows, at, keep) && |found| == |at|
    && forall k :: 0 <= k < |at| ==> gives(rows[at[k]], found[k])
  }

  lemma GivesLater<T(!new)>(rows: seq<T>, at: seq<nat>, found: seq<IpNeighbor>, gives: (T, IpNeighbor) -> bool)
    requires rows != [] && |found| == |at| && forall k :: 0 <= k < |at| ==> at[k] < |rows| - 1
    requires forall k :: 0 <= k < |at| ==> gives(rows[1..][at[k]], found[k])
    ensures forall k :: 0 <= k < |at| ==> gives(rows[Later(at)[k]], found[k])
  {
    forall k | 0 <= k < |at| ensures gives(rows[Later(at)[k]], found[k]) {
      assert rows[1..][at[k]] == rows[at[k] + 1];
    }
  }

  /** One row kept or dropped before those. */
  lemma OneRowMore<T(!new)>(rows: seq<T>, at: seq<nat>, found: seq<IpNeighbor>, first: IpNeighbor, keep: T -> bool,
                            gives: (T, IpNeighbor) -> bool)
    requires rows != [] && PicksNeighbors(rows[1..], at, found, keep, gives)
    requires keep(rows[0]) ==> gives(rows[0], first)
    ensures PicksNeighbors(rows, (if keep(rows[0]) then [0] else []) + Later(at),
                           (if keep(rows[0]) then [first] else []) + found, keep, gives)
  {
    PicksLater(rows, at, keep);
    OneGivenMore(rows, at, found, first, keep(rows[0]), gives);
    hide Later, PicksRows;
  }

  lemma OneGivenMore<T(!new)>(rows: seq<T>, at: seq<nat>, found: seq<IpNeighbor>, first: IpNeighbor, kept: bool,
                              gives: (T, IpNeighbor) -> bool)
    requires rows != [] && |found| == |at| && (forall k :: 0 <= k < |at| ==> at[k] < |rows| - 1)
    requires (kept ==> gives(rows[0], first)) && forall k :: 0 <= k < |at| ==> gives(rows[1..][at[k]], found[k])
    ensures var at', found' := (if kept then [0] else []) + Later(at), (if kept then [first] else []) + found;
            |found'| == |at'| && forall k :: 0 <= k < |at'| ==> at'[k] < |rows| && gives(rows[at'[k]], found'[k])
  {
    GivesLater(rows, at, found, gives);
    var later := Later(at);
    assert forall k :: 0 <= k < |at| ==> later[k] < |rows|;
    hide Later;
    if kept {
      GivesFirst(rows, later, found, first, gives);
    } else {
      assert [] + later == later && [] + found == found;
    }
  }

  lemma GivesFirst<T(!new)>(rows: seq<T>, at: seq<nat>, found: seq<IpNeighbor>, first: IpNeighbor,
                            gives: (T, IpNeighbor) -> bool)
    requires rows != [] && |found| == |at| && (forall k :: 0 <= k < |at| ==> at[k] < |rows|)
    requires gives(rows[0], first) && forall k :: 0 <= k < |at| ==> gives(rows[at[k]], found[k])
    ensures forall k :: 0 <= k < |at| + 1 ==> ([0] + at)[k] < |rows| && gives(rows[([0] + at)[k]], ([first] + found)[k])
  {
    forall k | 0 <= k < |at| + 1 ensures ([0] + at)[k] < |rows| && gives(rows[([0] + at)[k]], ([first] + found)[k]) {
      if k > 0 {
        assert ([0] + at)[k] == at[k - 1] && ([first] + found)[k] == found[k - 1];
      }
    }
  }

  /** Just the rows that are not unreachable and have a host's address. */
  function KeepsWindows(): NetNeighbor -> bool {
    (row: NetNeighbor) => row.state != "Unreachable" && IsHostAddress(row.ipAddress)
  }

  function GivesWindows(): (NetNeighbor, IpNeighbor) -> bool {
    (row: NetNeighbor, n: IpNeighbor) => n == IpNeighbor(row.ipAddress, row.interfaceIndex)
  }

  lemma {:induction false} WindowsPicks(rows: seq<NetNeighbor>) returns (at: seq<nat>)
    ensures PicksNeighbors(rows, at, UsableWindows(rows), KeepsWindows(), GivesWindows())
  {
    if rows == [] {
      at := [];
    } else {
      var rest := WindowsPicks(rows[1..]);
      ValidIsHostAddress(rows[0].ipAddress);
      hide PicksNeighbors, IsHostAddress, IsValidIp;
      OneRowMore(rows, rest, UsableWindows(rows[1..]), IpNeighbor(rows[0].ipAddress, rows[0].interfaceIndex),
                 KeepsWindows(), GivesWindows());
      at := (if KeepsWindows()(rows[0]) then [0] else []) + Later(rest);
    }
  }

  /**
   * The Windows parse: it fails with the error of the first malformed row, and otherwise gives, in
   * order, the address and interface of each row that is reachable and has a host's address.
   */
  lemma ParseWindowsMeans(rows: seq<Result<NetNeighbor, ScanError>>)
    ensures match ParseWindows(rows)
            case Ok(found) =>
              && (forall i :: 0 <= i < |rows| ==> rows[i].Ok?)
              && exists all: seq<NetNeighbor>, at: seq<nat> ::
                   && |all| == |rows| && (forall i :: 0 <= i < |rows| ==> rows[i] == Ok(all[i]))
                   && PicksNeighbors(all, at, found, KeepsWindows(), GivesWindows())
            case Err(e) => exists i :: 0 <= i < |rows| && rows[i] == Err(e) && forall j :: 0 <= j < i ==> rows[j].Ok?
  {
    hide PicksNeighbors;
    MalformedRowFails(rows);
    if CollectRows(rows).Ok? {
      var at := WindowsPicks(CollectRows(rows).value);
    }
  }

  /** Just the rows that have not failed, have a host's address and are on a known link. */
  function KeepsLinux(links: seq<Link>): Neighbor -> bool {
    (row: Neighbor) =>
      row.state != "FAILED" && IsHostAddress(row.ip) && exists l :: 0 <= l < |links| && links[l].ifname == row.ifname
  }

  /** The last link of that name in the list has that index. */
  predicate IsLastOf(links: seq<Link>, name: string, ifindex: U32) {
    exists l :: 0 <= l < |links| && links[l] == Link(ifindex, name)
                && forall later :: l < later < |links| ==> links[later].ifname != name
  }

  lemma {:induction false} LastLinkAt(links: seq<Link>, name: string) returns (l: nat)
    ensures match LastLink(links, name)
            case Some(link) =>
              && l < |links| && links[l] == link && link.ifname == name
              && forall later :: l < later < |links| ==> links[later].ifname != name
            case None => forall k :: 0 <= k < |links| ==> links[k].ifname != name
  {
    l := 0;
    if links != [] {
      l := |links| - 1;
      if links[l].ifname != name {
        var before := links[..l];
        assert forall k :: 0 <= k < l ==> before[k] == links[k];
        l := LastLinkAt(before, name);
      }
    }
  }

  lemma LastLinkIsLast(links: seq<Link>, name: string)
    ensures LastLink(links, name).Some? <==> exists l :: 0 <= l < |links| && links[l].ifname == name
    ensures LastLink(links, name).Some? ==> IsLastOf(links, name, LastLink(links, name).value.ifindex)
  {
    hide LastLink;
    var l := LastLinkAt(links, name);
    var link := LastLink(links, name);
    assert link.Some? ==> link.value == Link(link.value.ifindex, name);
  }

  function GivesLinux(links: seq<Link>): (Neighbor, IpNeighbor) -> bool {
    (row: Neighbor, n: IpNeighbor) => n.address == row.ip && IsLastOf(links, row.ifname, n.networkInterfaceIndex)
  }

  /** What the plain scan makes of one row. */
  lemma PlainScanStep(rows: seq<Neighbor>, links: seq<Link>) returns (first: IpNeighbor)
    requires rows != []
    ensures PlainScan(rows, links)
         == (if KeepsLinux(links)(rows[0]) then [first] else []) + PlainScan(rows[1..], links)
    ensures KeepsLinux(links)(rows[0]) ==> GivesLinux(links)(rows[0], first)
  {
    ValidIsHostAddress(rows[0].ip);
    LastLinkIsLast(links, rows[0].ifname);
    hide IsHostAddress, IsValidIp, LastLink, IsLastOf;
    var link := LastLink(links, rows[0].ifname);
    first := IpNeighbor(rows[0].ip, if link.Some? then link.value.ifindex else 0);
  }

  /**
   * The plain scan gives, in order, the address of each row that has not failed, has a host's
   * address and is on a known link, with the index of the last link of that name.
   */
  lemma {:induction false} LinuxPicks(rows: seq<Neighbor>, links: seq<Link>) returns (at: seq<nat>)
    ensures PicksNeighbors(rows, at, PlainScan(rows, links), KeepsLinux(links), GivesLinux(links))
  {
    if rows == [] {
      at := [];
    } else {
      hide PicksNeighbors, KeepsLinux, GivesLinux, PlainScan;
      var rest := LinuxPicks(rows[1..], links);
      var first := PlainScanStep(rows, links);
      OneRowMore(rows, rest, PlainScan(rows[1..], links), first, KeepsLinux(links), GivesLinux(links));
      at := (if KeepsLinux(links)(rows[0]) then [0] else []) + Later(rest);
    }
  }

  // ---------------------------------------------------------------- what neighbors are sent to

  /** An address a neighbor packet may go to, and the scope it carries, told by its first segment. */
  predicate IsNeighborAddress(address: SocketAddrV6, discoveryPort: U16, interfaceIndex: U32) {
    && IsHostAddress(address.ip)
    && address.port == discoveryPort && address.flowinfo == 0
    && address.scope == if address.ip[0] == 0xFE80 then interfaceIndex else 0
  }

  lemma ValidNeighborAddress(n: IpNeighbor, discoveryPort: U16)
    requires IsValidIp(n.address)
    ensures IsNeighborAddress(n.GetSocketAddress(discoveryPort), discoveryPort, n.networkInterfaceIndex)
  {
    ValidIsHostAddress(n.address);
  }

  lemma {:induction false} PlainScanIsValid(neighbors: seq<Neighbor>, links: seq<Link>)
    ensures forall n :: n in PlainScan(neighbors, links) ==> IsValidIp(n.address)
  {
    if neighbors != [] {
      PlainScanIsValid(neighbors[1..], links);
    }
  }

  lemma {:induction false} WindowsScanIsValid(rows: seq<NetNeighbor>)
    ensures forall n :: n in UsableWindows(rows) ==> IsValidIp(n.address)
  {
    if rows != [] {
      WindowsScanIsValid(rows[1..]);
    }
  }

  /** Every neighbor either parser gives is sent to at a valid address with the right scope. */
  lemma ParsedNeighborsAreValid(found: seq<IpNeighbor>, links: Result<seq<Link>, ScanError>,
                                linuxRows: seq<Result<Neighbor, ScanError>>,
                                windowsRows: seq<Result<NetNeighbor, ScanError>>, discoveryPort: U16)
    requires ParseLinux(links, linuxRows) == Ok(found) || ParseWindows(windowsRows) == Ok(found)
    ensures forall n :: n in found ==>
              IsNeighborAddress(n.GetSocketAddress(discoveryPort), discoveryPort, n.networkInterfaceIndex)
  {
    if ParseLinux(links, linuxRows) == Ok(found) {
      ParseLinuxIsPlainScan(links, linuxRows);
      PlainScanIsValid(CollectRows(linuxRows).value, links.value);
    } else {
      WindowsScanIsValid(CollectRows(windowsRows).value);
    }
    forall n | n in found
      ensures IsNeighborAddress(n.GetSocketAddress(discoveryPort), discoveryPort, n.networkInterfaceIndex)
    {
      ValidNeighborAddress(n, discoveryPort);
    }
  }
}
