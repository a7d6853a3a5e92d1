/**
 * The text of a response collector address, `http://[ip%scope]:port`, and a reader of that text.
 *
 * The writer follows `Display` of socket addresses: zero compression per section 2.2 of RFC 4291
 * and section 4 of RFC 5952, the mixed notation of section 5 of RFC 5952 for IPv4-mapped
 * addresses, and the zone per section 11 of RFC 4007. The reader accepts the grammar of
 * section 2.2 of RFC 4291 left to right, independently of what the writer chooses.
 */
module AddressText {
  import opened Wrappers
  import opened Net

  // ---------------------------------------------------------------- writing
  // Every writer takes the text that follows, so that a text is built from its end.

  function Put(c: char, rest: string): (s: string)
    ensures |s| == |rest| + 1 && s[0] == c && s[1..] == rest
  {
    [c] + rest
  }

  /** A lower-case digit. */
  function Digit(n: nat): char
    requires n < 16
  {
    if n < 10 then '0' + n as char else 'a' + (n - 10) as char
  }

  datatype Radix = Decimal | Hexadecimal {
    function Base(): nat { if Decimal? then 10 else 16 }
    function Quotient(n: nat): nat { if Decimal? then n / 10 else n / 16 }
    function Remainder(n: nat): nat { if Decimal? then n % 10 else n % 16 }
    function Append(n: nat, digit: nat): nat { if Decimal? then 10 * n + digit else 16 * n + digit }
  }

  /** A number without leading zeroes. */
  function PutNumber(n: nat, radix: Radix, rest: string): (s: string)
    ensures |s| > |rest|
    decreases n
  {
    if n < radix.Base() then Put(Digit(n), rest)
    else PutNumber(radix.Quotient(n), radix, Put(Digit(radix.Remainder(n)), rest))
  }

  /** Colon-separated hexadecimal groups. */
  function PutGroups(segments: seq<U16>, rest: string): string {
    if segments == [] then rest
    else
      PutNumber(segments[0], Hexadecimal,
                if |segments| == 1 then rest else Put(':', PutGroups(segments[1..], rest)))
  }

  /** Dot-separated decimal numbers. */
  function PutOctets(octets: seq<U8>, rest: string): string {
    if octets == [] then rest
    else
      PutNumber(octets[0], Decimal,
                if |octets| == 1 then rest else Put('.', PutOctets(octets[1..], rest)))
  }

  function PutDotted(high: U16, low: U16, rest: string): string {
    PutOctets([high / 0x100, high % 0x100, low / 0x100, low % 0x100], rest)
  }

  /** How many zero segments there are from `i` on. */
  function ZeroRun(ip: Ipv6Addr, i: nat): (n: nat)
    requires i <= 8
    ensures i + n <= 8
    ensures forall k :: i <= k < i + n ==> ip[k] == 0
    decreases |ip| - i
  {
    if i < 8 && ip[i] == 0 then 1 + ZeroRun(ip, i + 1) else 0
  }

  /** The first of the longest runs of zeroes among those that start at `i` or later. */
  function LongestRunFrom(ip: Ipv6Addr, i: nat): (start: nat)
    requires i < 8
    ensures i <= start < 8
    ensures forall k :: i <= k < 8 ==> ZeroRun(ip, k) <= ZeroRun(ip, start)
    ensures forall k :: i <= k < start ==> ZeroRun(ip, k) < ZeroRun(ip, start)
    decreases |ip| - i
  {
    if i == 7 then 7
    else
      var later := LongestRunFrom(ip, i + 1);
      if ZeroRun(ip, i) >= ZeroRun(ip, later) then i else later
  }

  predicate IsIpv4Mapped(ip: Ipv6Addr) {
    ip[..5] == [0, 0, 0, 0, 0] && ip[5] == 0xFFFF
  }

  function PutIp(ip: Ipv6Addr, rest: string): string {
    if IsIpv4Mapped(ip) then
      // Segment 5 is FFFF here.
      Put(':', Put(':', PutNumber(ip[5], Hexadecimal, Put(':', PutDotted(ip[6], ip[7], rest)))))
    else
      var start := LongestRunFrom(ip, 0);
      var length := ZeroRun(ip, start);
      if length > 1 then
        PutGroups(ip[..start], Put(':', Put(':', PutGroups(ip[start + length..], rest))))
      else
        PutGroups(ip, rest)
  }

  function PutScope(scope: U32, rest: string): string {
    if scope == 0 then rest else Put('%', PutNumber(scope, Decimal, rest))
  }

  function FormatAddress(address: SocketAddrV6): string {
    Put('[', PutIp(address.ip, PutScope(address.scope,
      Put(']', Put(':', PutNumber(address.port, Decimal, ""))))))
  }

  /** `get_response_collector_address`: the packet's source with the collector's port. */
  function CollectorUrl(source: SocketAddrV6, collectorPort: U16): string {
    "http://" + FormatAddress(source.(port := collectorPort))
  }

  lemma MappedMeans(ip: Ipv6Addr)
    ensures IsIpv4Mapped(ip) <==> ip[5] == 0xFFFF && forall k :: 0 <= k < 5 ==> ip[k] == 0
  {
    assert IsIpv4Mapped(ip) ==> forall k :: 0 <= k < 5 ==> ip[..5][k] == 0;
  }

  // ---------------------------------------------------------------- zero compression

  predicate IsZeroRun(ip: Ipv6Addr, i: nat, n: nat) {
    i + n <= 8 && forall k :: i <= k < i + n ==> ip[k] == 0
  }

  /** The run that section 4.2 of RFC 5952 shortens: the longest of at least two, the first of them. */
  ghost predicate IsRunToShorten(ip: Ipv6Addr, i: nat, n: nat) {
    && n >= 2 && IsZeroRun(ip, i, n)
    && forall j: nat, m: nat :: IsZeroRun(ip, j, m) ==> m < n || (m == n && i <= j)
  }

  lemma {:induction false} ZeroRunIsMaximal(ip: Ipv6Addr, i: nat, n: nat)
    requires i + n <= 8
    ensures IsZeroRun(ip, i, n) <==> n <= ZeroRun(ip, i)
    decreases n
  {
    if n > 0 {
      ZeroRunIsMaximal(ip, i + 1, n - 1);
    }
  }

  lemma AllOnes(rest: string)
    ensures PutNumber(0xFFFF, Hexadecimal, rest) == "ffff" + rest
  {
    var f := Put('f', rest);
    var ff := Put('f', f);
    var fff := Put('f', ff);
    assert PutNumber(0xFFFF, Hexadecimal, rest) == PutNumber(0xFFF, Hexadecimal, f);
    assert PutNumber(0xFFF, Hexadecimal, f) == PutNumber(0xFF, Hexadecimal, ff);
    assert PutNumber(0xFF, Hexadecimal, ff) == PutNumber(0xF, Hexadecimal, fff) == Put('f', fff);
  }

  /** An IPv4-mapped address is written in the mixed notation of section 5 of RFC 5952. */
  lemma MixedNotation(ip: Ipv6Addr, rest: string)
    requires IsIpv4Mapped(ip)
    ensures PutIp(ip, rest) == "::ffff:" + PutDotted(ip[6], ip[7], rest)
  {
    hide PutDotted, PutNumber;
    AllOnes(Put(':', PutDotted(ip[6], ip[7], rest)));
  }

  /**
   * Any other address: just that run becomes "::", and nothing does when there is none; all other
   * groups are written out.
   */
  lemma ShortensRun(ip: Ipv6Addr, i: nat, n: nat, rest: string)
    requires !IsIpv4Mapped(ip)
    ensures IsRunToShorten(ip, i, n) ==>
              PutIp(ip, rest) == PutGroups(ip[..i], "::" + PutGroups(ip[i + n..], rest))
    ensures (forall j: nat, m: nat :: !IsRunToShorten(ip, j, m)) ==> PutIp(ip, rest) == PutGroups(ip, rest)
  {
    hide PutGroups;
    var start := LongestRunFrom(ip, 0);
    var length := ZeroRun(ip, start);
    forall j: nat, m: nat | IsZeroRun(ip, j, m) ensures m < length || (m == length && (m == 0 || start <= j)) {
      ZeroRunIsMaximal(ip, j, m);
    }
    assert IsZeroRun(ip, start, length);
    if length > 1 {
      assert IsRunToShorten(ip, start, length);
      var tail := PutGroups(ip[start + length..], rest);
      assert Put(':', Put(':', tail)) == "::" + tail;
    }
  }

  /** How every address is written; an IPv4-mapped one is of the form ::FFFF:0:0/96. */
  lemma ShortensAsRecommended(ip: Ipv6Addr, i: nat, n: nat, rest: string)
    ensures var isMapped := ip[5] == 0xFFFF && forall k :: 0 <= k < 5 ==> ip[k] == 0;
            && (isMapped ==> PutIp(ip, rest) == "::ffff:" + PutDotted(ip[6], ip[7], rest))
            && (!isMapped && IsRunToShorten(ip, i, n) ==>
                  PutIp(ip, rest) == PutGroups(ip[..i], "::" + PutGroups(ip[i + n..], rest)))
            && (!isMapped && (forall j: nat, m: nat :: !IsRunToShorten(ip, j, m)) ==>
                  PutIp(ip, rest) == PutGroups(ip, rest))
  {
    MappedMeans(ip);
    hide PutIp, PutGroups, PutDotted, IsRunToShorten;
    if IsIpv4Mapped(ip) {
      MixedNotation(ip, rest);
    } else {
      ShortensRun(ip, i, n, rest);
    }
  }

  // ---------------------------------------------------------------- reading

  /** A value read from the front of a text, and what follows it. */
  type Read<T> = Option<(T, string)>

  function DigitValue(c: char, radix: Radix): (v: Option<nat>)
    ensures v.Some? ==> v.value < radix.Base()
  {
    var n := if '0' <= c <= '9' then c as int - '0' as int
             else if 'a' <= c <= 'f' then c as int - 'a' as int + 10
             else if 'A' <= c <= 'F' then c as int - 'A' as int + 10
             else 16;
    if n < radix.Base() then Some(n) else None
  }

  /** The longest run of digits, no more than `limit` of them, after a prefix worth `n`. */
  function ReadDigits(s: string, radix: Radix, limit: nat, n: nat): (r: (nat, string))
    ensures |r.1| <= |s| && |s| - |r.1| <= limit
    decreases |s|
  {
    if limit > 0 && s != "" && DigitValue(s[0], radix).Some? then
      ReadDigits(s[1..], radix, limit - 1, radix.Append(n, DigitValue(s[0], radix).value))
    else
      (n, s)
  }

  /** A number of at least one and at most `limit` digits, below `bound`. */
  function ReadNumber(s: string, radix: Radix, limit: nat, bound: nat): (r: Read<nat>)
    ensures r.Some? ==> r.value.0 < bound && |r.value.1| < |s|
  {
    var (n, rest) := ReadDigits(s, radix, limit, 0);
    if |rest| == |s| || n >= bound then None else Some((n, rest))
  }

  function ReadChar(s: string, c: char): (r: Option<string>)
    ensures r.Some? ==> |r.value| == |s| - 1
  {
    if s != "" && s[0] == c then Some(s[1..]) else None
  }

  /** One number of a dotted quad, without leading zeroes. */
  function ReadOctet(s: string): (r: Read<U8>)
    ensures r.Some? ==> |r.value.1| < |s|
  {
    match ReadNumber(s, Decimal, 3, 0x100)
    case Some((n, rest)) => if s[0] == '0' && |s| - |rest| > 1 then None else Some((n, rest))
    case None => None
  }

  /** One number and `more` after it. */
  function ReadOctets(s: string, more: nat): (r: Read<seq<U8>>)
    ensures r.Some? ==> |r.value.0| == more + 1 && |r.value.1| < |s|
    decreases |s|
  {
    match ReadOctet(s)
    case None => None
    case Some((octet, rest)) =>
      if more == 0 then Some(([octet], rest))
      else
        match ReadChar(rest, '.')
        case None => None
        case Some(rest') =>
          match ReadOctets(rest', more - 1)
          case None => None
          case Some((octets, rest'')) => Some(([octet] + octets, rest''))
  }

  function ReadIpv4(s: string): (r: Read<(U16, U16)>)
    ensures r.Some? ==> |r.value.1| < |s|
  {
    match ReadOctets(s, 3)
    case None => None
    case Some((octets, rest)) =>
      Some(((0x100 * (octets[0] as int) + octets[1], 0x100 * (octets[2] as int) + octets[3]), rest))
  }

  /** What must stand before the next group. */
  function SkipSeparator(s: string, first: bool): (r: Option<string>)
    ensures r.Some? ==> |r.value| <= |s|
  {
    if first then Some(s) else ReadChar(s, ':')
  }

  /**
   * Up to `limit` groups, of which a dotted quad is worth two and ends the reading; the flag says
   * whether one did.
   */
  function ReadGroups(s: string, limit: nat, first: bool): (r: (seq<U16>, bool, string))
    ensures |r.0| <= limit && |r.2| <= |s|
    decreases |s|
  {
    if limit == 0 then ([], false, s)
    else
      match SkipSeparator(s, first)
      case None => ([], false, s)
      case Some(body) =>
        if limit > 1 && ReadIpv4(body).Some? then
          var ((high, low), rest) := ReadIpv4(body).value;
          ([high, low], true, rest)
        else
          match ReadNumber(body, Hexadecimal, 4, 0x1_0000)
          case None => ([], false, s)
          case Some((group, rest)) =>
            var (groups, quad, rest') := ReadGroups(rest, limit - 1, false);
            ([group] + groups, quad, rest')
  }

  /** The address with these groups at its two ends and zeroes between. */
  function Fill(head: seq<U16>, tail: seq<U16>): (ip: Ipv6Addr)
    requires |head| + |tail| <= 8
    ensures head <= ip && ip[8 - |tail|..] == tail
    ensures forall k :: |head| <= k < 8 - |tail| ==> ip[k] == 0
  {
    head + seq(8 - |head| - |tail|, _ => 0) + tail
  }

  function ReadGap(s: string): (r: Option<string>)
    ensures r.Some? ==> |r.value| == |s| - 2
  {
    match ReadChar(s, ':')
    case None => None
    case Some(rest) => ReadChar(rest, ':')
  }

  /** All eight groups, or those before and after one "::" that stands for at least one zero. */
  function ReadIp(s: string): (r: Read<Ipv6Addr>)
    ensures r.Some? ==> |r.value.1| <= |s|
  {
    var (head, quad, rest) := ReadGroups(s, 8, true);
    if |head| == 8 then Some((head, rest))
    else if quad then None
    else
      match ReadGap(rest)
      case None => None
      case Some(back) =>
        var (tail, _, rest') := ReadGroups(back, 7 - |head|, true);
        Some((Fill(head, tail), rest'))
  }

  /** The zone, 0 when there is none. */
  function ReadScope(s: string): (r: Read<U32>)
    ensures r.Some? ==> |r.value.1| <= |s|
  {
    match ReadChar(s, '%')
    case None => Some((0, s))
    case Some(rest) => ReadNumber(rest, Decimal, |rest|, 0x1_0000_0000)
  }

  datatype Endpoint = Endpoint(ip: Ipv6Addr, scope: U32, port: U16)

  function ParseAddress(s: string): Option<Endpoint> {
    match ReadChar(s, '[')
    case None => None
    case Some(s1) =>
      match ReadIp(s1)
      case None => None
      case Some((ip, s2)) =>
        match ReadScope(s2)
        case None => None
        case Some((scope, s3)) =>
          match ReadChar(s3, ']')
          case None => None
          case Some(s4) =>
            match ReadChar(s4, ':')
            case None => None
            case Some(s5) =>
              match ReadNumber(s5, Decimal, |s5|, 0x1_0000)
              case Some((port, "")) => Some(Endpoint(ip, scope, port))
              case _ => None
  }

  function ParseUrl(url: string): Option<Endpoint> {
    if "http://" <= url then ParseAddress(url[7..]) else None
  }

  // ---------------------------------------------------------------- numbers read back

  /** No digit of the radix comes next. */
  predicate NoDigit(s: string, radix: Radix) {
    s == "" || DigitValue(s[0], radix).None?
  }

  predicate Dotless(s: string) {
    s == "" || (s[0] != '.' && Dotless(s[1..]))
  }

  function DigitCount(n: nat, radix: Radix): (count: nat)
    ensures count >= 1
  {
    if n < radix.Base() then 1 else 1 + DigitCount(radix.Quotient(n), radix)
  }

  lemma DigitBounds(n: U16)
    ensures DigitCount(n, Hexadecimal) <= 4
    ensures n < 0x100 ==> DigitCount(n, Decimal) <= 3
  {
    assert DigitCount(n / 0x1000, Hexadecimal) == 1;
    assert DigitCount(n / 0x100, Hexadecimal) <= 2;
    assert DigitCount(n / 0x10, Hexadecimal) <= 3;
    if n < 0x100 {
      assert DigitCount(n / 100, Decimal) == 1;
      assert DigitCount(n / 10, Decimal) <= 2;
    }
  }

  lemma LastDigit(n: nat, radix: Radix)
    ensures radix.Append(radix.Quotient(n), radix.Remainder(n)) == n
    ensures DigitValue(Digit(radix.Remainder(n)), radix) == Some(radix.Remainder(n))
  {}

  lemma {:induction false} DigitsReadBack(n: nat, radix: Radix, rest: string, limit: nat)
    requires DigitCount(n, radix) <= limit
    ensures ReadDigits(PutNumber(n, radix, rest), radix, limit, 0)
         == ReadDigits(rest, radix, limit - DigitCount(n, radix), n)
    decreases n
  {
    LastDigit(n, radix);
    if n >= radix.Base() {
      DigitsReadBack(radix.Quotient(n), radix, Put(Digit(radix.Remainder(n)), rest), limit);
    }
  }

  lemma {:induction false} NumberLength(n: nat, radix: Radix, rest: string)
    ensures |PutNumber(n, radix, rest)| == DigitCount(n, radix) + |rest|
    ensures n > 0 ==> PutNumber(n, radix, rest)[0] != '0'
    ensures DigitValue(PutNumber(n, radix, rest)[0], radix).Some?
    ensures Dotless(rest) ==> Dotless(PutNumber(n, radix, rest))
    decreases n
  {
    LastDigit(n, radix);
    if n >= radix.Base() {
      NumberLength(radix.Quotient(n), radix, Put(Digit(radix.Remainder(n)), rest));
    }
  }

  lemma NumberReadsBack(n: nat, radix: Radix, rest: string, limit: nat, bound: nat)
    requires n < bound
    requires DigitCount(n, radix) <= limit
    requires NoDigit(rest, radix) || DigitCount(n, radix) == limit
    ensures ReadNumber(PutNumber(n, radix, rest), radix, limit, bound) == Some((n, rest))
  {
    DigitsReadBack(n, radix, rest, limit);
    NumberLength(n, radix, rest);
  }

  // ---------------------------------------------------------------- groups read back

  lemma {:induction false} GroupsAreDotless(segments: seq<U16>, rest: string)
    requires Dotless(rest)
    ensures Dotless(PutGroups(segments, rest))
  {
    if segments != [] {
      GroupsAreDotless(segments[1..], rest);
      NumberLength(segments[0], Hexadecimal,
                   if |segments| == 1 then rest else Put(':', PutGroups(segments[1..], rest)));
    }
  }

  lemma {:induction false} DigitsLeaveDotless(s: string, radix: Radix, limit: nat, n: nat)
    requires Dotless(s)
    ensures Dotless(ReadDigits(s, radix, limit, n).1)
    decreases |s|
  {
    if limit > 0 && s != "" && DigitValue(s[0], radix).Some? {
      DigitsLeaveDotless(s[1..], radix, limit - 1, radix.Append(n, DigitValue(s[0], radix).value));
    }
  }

  lemma DotlessIsNoQuad(s: string)
    requires Dotless(s)
    ensures ReadIpv4(s).None?
  {
    DigitsLeaveDotless(s, Decimal, 3, 0);
  }

  lemma NothingToRead(s: string)
    requires NoDigit(s, Hexadecimal)
    ensures ReadIpv4(s).None? && ReadNumber(s, Hexadecimal, 4, 0x1_0000).None?
  {
    assert NoDigit(s, Decimal);
  }

  /** Reading groups cannot go on here. */
  predicate Stops(s: string, first: bool) {
    SkipSeparator(s, first).None? || NoDigit(SkipSeparator(s, first).value, Hexadecimal)
  }

  lemma ReadOneGroup(s: string, body: string, limit: nat, first: bool, group: U16, rest: string)
    requires limit > 0 && SkipSeparator(s, first) == Some(body)
    requires ReadIpv4(body).None? && ReadNumber(body, Hexadecimal, 4, 0x1_0000) == Some((group, rest))
    ensures var (groups, quad, rest') := ReadGroups(rest, limit - 1, false);
            ReadGroups(s, limit, first) == ([group] + groups, quad, rest')
  {}

  lemma GroupReadsBack(s: string, segment: U16, later: string, limit: nat, first: bool)
    requires limit > 0 && SkipSeparator(s, first) == Some(PutNumber(segment, Hexadecimal, later))
    requires ReadIpv4(PutNumber(segment, Hexadecimal, later)).None? && NoDigit(later, Hexadecimal)
    ensures var (groups, quad, rest') := ReadGroups(later, limit - 1, false);
            ReadGroups(s, limit, first) == ([segment] + groups, quad, rest')
  {
    DigitBounds(segment);
    NumberReadsBack(segment, Hexadecimal, later, 4, 0x1_0000);
    ReadOneGroup(s, PutNumber(segment, Hexadecimal, later), limit, first, segment, later);
  }

  function Separated(text: string, first: bool): (s: string)
    ensures SkipSeparator(s, first) == Some(text)
  {
    if first then text else Put(':', text)
  }

  lemma {:induction false} GroupsReadBack(segments: seq<U16>, rest: string, limit: nat, first: bool)
    requires 1 <= |segments| <= limit
    requires Dotless(rest) && NoDigit(rest, Hexadecimal)
    requires |segments| == limit || Stops(rest, false)
    ensures ReadGroups(Separated(PutGroups(segments, rest), first), limit, first) == (segments, false, rest)
    decreases |segments|
  {
    hide ReadGroups, ReadIpv4, PutNumber, Dotless;
    var s := Separated(PutGroups(segments, rest), first);
    GroupsAreDotless(segments, rest);
    DotlessIsNoQuad(PutGroups(segments, rest));
    if |segments| == 1 {
      GroupReadsBack(s, segments[0], rest, limit, first);
      NoGroups(rest, limit - 1, false);
      assert [segments[0]] + [] == segments;
    } else {
      var later := Separated(PutGroups(segments[1..], rest), false);
      GroupReadsBack(s, segments[0], later, limit, first);
      GroupsReadBack(segments[1..], rest, limit - 1, false);
      assert [segments[0]] + segments[1..] == segments;
    }
  }

  lemma NoGroups(rest: string, limit: nat, first: bool)
    requires limit == 0 || Stops(rest, first)
    ensures ReadGroups(rest, limit, first) == ([], false, rest)
  {
    if limit > 0 && SkipSeparator(rest, first).Some? {
      NothingToRead(SkipSeparator(rest, first).value);
    }
  }

  /** Groups at the start of an address or after its gap; there may be none. */
  lemma LeadingGroupsReadBack(segments: seq<U16>, rest: string, limit: nat)
    requires |segments| <= limit && Dotless(rest) && NoDigit(rest, Hexadecimal)
    requires |segments| == limit || Stops(rest, false)
    ensures ReadGroups(PutGroups(segments, rest), limit, true) == (segments, false, rest)
  {
    if segments == [] {
      NoGroups(rest, limit, true);
    } else {
      GroupsReadBack(segments, rest, limit, true);
    }
  }

  // ---------------------------------------------------------------- addresses read back

  /** What follows an address inside the brackets. */
  predicate AfterIp(rest: string) {
    rest != "" && (rest[0] == '%' || rest[0] == ']') && Dotless(rest)
  }

  lemma ReadIpAroundGap(s: string, head: seq<U16>, gap: string, back: string, tail: seq<U16>, quad: bool, rest: string)
    requires |head| + |tail| <= 7
    requires ReadGroups(s, 8, true) == (head, false, gap) && ReadGap(gap) == Some(back)
    requires ReadGroups(back, 7 - |head|, true) == (tail, quad, rest)
    ensures ReadIp(s) == Some((Fill(head, tail), rest))
  {
    hide ReadGroups, Fill, ReadGap;
  }

  lemma CompressedIpReadsBack(head: seq<U16>, tail: seq<U16>, rest: string)
    requires |head| + |tail| <= 6 && AfterIp(rest)
    ensures ReadIp(PutGroups(head, Put(':', Put(':', PutGroups(tail, rest))))) == Some((Fill(head, tail), rest))
  {
    var back := PutGroups(tail, rest);
    var gap := Put(':', Put(':', back));
    GroupsAreDotless(tail, rest);
    LeadingGroupsReadBack(head, gap, 8);
    LeadingGroupsReadBack(tail, rest, 7 - |head|);
    ReadIpAroundGap(PutGroups(head, gap), head, gap, back, tail, false, rest);
  }

  lemma OctetReadsBack(n: U8, rest: string)
    requires NoDigit(rest, Decimal)
    ensures ReadOctet(PutNumber(n, Decimal, rest)) == Some((n, rest))
  {
    DigitBounds(n);
    NumberReadsBack(n, Decimal, rest, 3, 0x100);
    NumberLength(n, Decimal, rest);
  }

  lemma {:induction false} OctetsReadBack(octets: seq<U8>, rest: string)
    requires octets != [] && NoDigit(rest, Decimal)
    ensures ReadOctets(PutOctets(octets, rest), |octets| - 1) == Some((octets, rest))
    decreases |octets|
  {
    hide ReadOctet, PutNumber;
    if |octets| == 1 {
      OctetReadsBack(octets[0], rest);
      assert octets == [octets[0]];
    } else {
      var later := PutOctets(octets[1..], rest);
      OctetReadsBack(octets[0], Put('.', later));
      OctetsReadBack(octets[1..], rest);
      assert octets == [octets[0]] + octets[1..];
    }
  }

  lemma QuadReadsBack(high: U16, low: U16, rest: string)
    requires NoDigit(rest, Decimal)
    ensures ReadIpv4(PutDotted(high, low, rest)) == Some(((high, low), rest))
  {
    hide PutOctets, ReadOctets, NoDigit;
    OctetsReadBack([high / 0x100, high % 0x100, low / 0x100, low % 0x100], rest);
  }

  function Leading(n: nat, radix: Radix): (d: nat)
    ensures d < radix.Base()
    decreases n
  {
    if n < radix.Base() then n else Leading(radix.Quotient(n), radix)
  }

  lemma {:induction false} LeadingDigit(n: nat, radix: Radix, rest: string)
    ensures PutNumber(n, radix, rest)[0] == Digit(Leading(n, radix))
    decreases n
  {
    if n >= radix.Base() {
      LeadingDigit(radix.Quotient(n), radix, Put(Digit(radix.Remainder(n)), rest));
    }
  }

  lemma QuadGroupsReadBack(high: U16, low: U16, rest: string, limit: nat)
    requires NoDigit(rest, Decimal) && limit >= 2
    ensures ReadGroups(Put(':', PutDotted(high, low, rest)), limit, false) == ([high, low], true, rest)
  {
    QuadReadsBack(high, low, rest);
    hide PutDotted, ReadIpv4, ReadNumber;
  }

  lemma HexLetterIsNoQuad(group: U16, rest: string)
    requires group / 0x1000 == 0xF
    ensures ReadIpv4(PutNumber(group, Hexadecimal, rest)).None?
  {
    LeadingDigit(group, Hexadecimal, rest);
    assert Leading(group / 0x100, Hexadecimal) == 0xF;
    assert Leading(group / 0x10, Hexadecimal) == 0xF;
  }

  lemma MappedGroupsReadBack(group: U16, high: U16, low: U16, rest: string)
    requires NoDigit(rest, Decimal) && group / 0x1000 == 0xF
    ensures ReadGroups(PutNumber(group, Hexadecimal, Put(':', PutDotted(high, low, rest))), 7, true)
         == ([group, high, low], true, rest)
  {
    hide PutDotted, ReadIpv4, PutNumber, ReadGroups;
    var later := Put(':', PutDotted(high, low, rest));
    HexLetterIsNoQuad(group, later);
    QuadGroupsReadBack(high, low, rest, 6);
    GroupReadsBack(PutNumber(group, Hexadecimal, later), group, later, 7, true);
    assert [group] + [high, low] == [group, high, low];
  }

  lemma MappedTailReadsBack(group: U16, high: U16, low: U16, rest: string)
    requires group / 0x1000 == 0xF && AfterIp(rest)
    ensures ReadIp(Put(':', Put(':', PutNumber(group, Hexadecimal, Put(':', PutDotted(high, low, rest))))))
         == Some((Fill([], [group, high, low]), rest))
  {
    hide PutDotted, PutNumber, ReadGroups, ReadIp, Fill;
    var back := PutNumber(group, Hexadecimal, Put(':', PutDotted(high, low, rest)));
    var s := Put(':', Put(':', back));
    NoGroups(s, 8, true);
    MappedGroupsReadBack(group, high, low, rest);
    ReadIpAroundGap(s, [], s, back, [group, high, low], true, rest);
  }

  lemma MappedIpReadsBack(ip: Ipv6Addr, rest: string)
    requires IsIpv4Mapped(ip) && AfterIp(rest)
    ensures ReadIp(PutIp(ip, rest)) == Some((ip, rest))
  {
    hide PutDotted, PutNumber, ReadIp, PutGroups, LongestRunFrom;
    MappedTailReadsBack(ip[5], ip[6], ip[7], rest);
    assert forall k :: 0 <= k < 5 ==> ip[k] == ip[..5][k] == 0;
    assert Fill([], [ip[5], ip[6], ip[7]]) == ip;
  }

  lemma IpReadsBack(ip: Ipv6Addr, rest: string)
    requires AfterIp(rest)
    ensures ReadIp(PutIp(ip, rest)) == Some((ip, rest))
  {
    if IsIpv4Mapped(ip) {
      MappedIpReadsBack(ip, rest);
    } else {
      var start := LongestRunFrom(ip, 0);
      var length := ZeroRun(ip, start);
      if length > 1 {
        CompressedIpReadsBack(ip[..start], ip[start + length..], rest);
        assert Fill(ip[..start], ip[start + length..]) == ip;
      } else {
        LeadingGroupsReadBack(ip, rest, 8);
      }
    }
  }

  lemma ScopeReadsBack(scope: U32, rest: string)
    requires rest != "" && rest[0] == ']' && Dotless(rest)
    ensures ReadScope(PutScope(scope, rest)) == Some((scope, rest))
    ensures AfterIp(PutScope(scope, rest))
  {
    if scope != 0 {
      NumberLength(scope, Decimal, rest);
      NumberReadsBack(scope, Decimal, rest, |PutNumber(scope, Decimal, rest)|, 0x1_0000_0000);
    }
  }

  /**
   * The text of an address names its IP, zone and port, for every address; the flow label is the
   * only part it leaves out.
   */
  lemma AddressReadsBack(address: SocketAddrV6)
    ensures ParseAddress(FormatAddress(address)) == Some(Endpoint(address.ip, address.scope, address.port))
  {
    var port := PutNumber(address.port, Decimal, "");
    var s3 := Put(']', Put(':', port));
    var s2 := PutScope(address.scope, s3);
    NumberLength(address.port, Decimal, "");
    NumberReadsBack(address.port, Decimal, "", |port|, 0x1_0000);
    ScopeReadsBack(address.scope, s3);
    IpReadsBack(address.ip, s2);
  }

  lemma CollectorUrlReadsBack(source: SocketAddrV6, collectorPort: U16)
    ensures ParseUrl(CollectorUrl(source, collectorPort)) == Some(Endpoint(source.ip, source.scope, collectorPort))
  {
    var address := source.(port := collectorPort);
    assert CollectorUrl(source, collectorPort)[7..] == FormatAddress(address);
    AddressReadsBack(address);
  }

  /** Two collector URLs agree exactly when everything but the flow label and source port does. */
  lemma CollectorUrlInjective(a: SocketAddrV6, p: U16, b: SocketAddrV6, q: U16)
    ensures CollectorUrl(a, p) == CollectorUrl(b, q) <==> (a.ip == b.ip && a.scope == b.scope && p == q)
  {
    CollectorUrlReadsBack(a, p);
    CollectorUrlReadsBack(b, q);
  }

  // ---------------------------------------------------------------- the discovery address

  lemma FourDigits(a: char, b: char, c: char, d: char, rest: string)
    requires DigitValue(a, Hexadecimal).Some? && DigitValue(b, Hexadecimal).Some?
    requires DigitValue(c, Hexadecimal).Some? && DigitValue(d, Hexadecimal).Some?
    ensures var n := 0x1000 * DigitValue(a, Hexadecimal).value + 0x100 * DigitValue(b, Hexadecimal).value
                     + 0x10 * DigitValue(c, Hexadecimal).value + DigitValue(d, Hexadecimal).value;
            ReadNumber(Put(a, Put(b, Put(c, Put(d, rest)))), Hexadecimal, 4, 0x1_0000) == Some((n, rest))
  {
    hide DigitValue;
    var s3 := Put(d, rest);
    var s2 := Put(c, s3);
    var s1 := Put(b, s2);
    var s0 := Put(a, s1);
    var n1 := DigitValue(a, Hexadecimal).value;
    var n2 := 0x10 * n1 + DigitValue(b, Hexadecimal).value;
    var n3 := 0x10 * n2 + DigitValue(c, Hexadecimal).value;
    var n4 := 0x10 * n3 + DigitValue(d, Hexadecimal).value;
    assert ReadDigits(rest, Hexadecimal, 0, n4) == (n4, rest);
    assert ReadDigits(s3, Hexadecimal, 1, n3) == (n4, rest);
    assert ReadDigits(s2, Hexadecimal, 2, n2) == (n4, rest);
    assert ReadDigits(s1, Hexadecimal, 3, n1) == (n4, rest);
    assert ReadDigits(s0, Hexadecimal, 4, 0) == (n4, rest);
  }

  /** Four digits are read as a group wherever groups are read. */
  lemma FourDigitGroup(s: string, a: char, b: char, c: char, d: char, rest: string, limit: nat, first: bool, group: U16)
    requires limit > 0 && SkipSeparator(s, first) == Some(Put(a, Put(b, Put(c, Put(d, rest)))))
    requires DigitValue(a, Hexadecimal).Some? && DigitValue(b, Hexadecimal).Some?
    requires DigitValue(c, Hexadecimal).Some? && DigitValue(d, Hexadecimal).Some?
    requires group == 0x1000 * DigitValue(a, Hexadecimal).value + 0x100 * DigitValue(b, Hexadecimal).value
                      + 0x10 * DigitValue(c, Hexadecimal).value + DigitValue(d, Hexadecimal).value
    requires Dotless(Put(a, Put(b, Put(c, Put(d, rest)))))
    ensures var (groups, quad, rest') := ReadGroups(rest, limit - 1, false);
            ReadGroups(s, limit, first) == ([group] + groups, quad, rest')
  {
    hide DigitValue, ReadGroups, ReadNumber, ReadIpv4, Dotless, SkipSeparator;
    var body := Put(a, Put(b, Put(c, Put(d, rest))));
    FourDigits(a, b, c, d, rest);
    DotlessIsNoQuad(body);
    ReadOneGroup(s, body, limit, first, group, rest);
  }

  lemma DotlessGrows(c: char, rest: string)
    requires c != '.' && Dotless(rest)
    ensures Dotless(Put(c, rest))
  {}

  /** "F329:58AF" and then "]". */
  lemma BackGroupsRead(last: string, back: string)
    requires last == Put('5', Put('8', Put('A', Put('F', "]"))))
    requires back == Put('F', Put('3', Put('2', Put('9', Put(':', last)))))
    ensures ReadGroups(back, 6, true) == ([0xF329, 0x58AF], false, "]") && Dotless(back)
  {
    hide ReadGroups;
    assert Dotless("]");
    DotlessGrows('F', "]");
    DotlessGrows('A', Put('F', "]"));
    DotlessGrows('8', Put('A', Put('F', "]")));
    DotlessGrows('5', Put('8', Put('A', Put('F', "]"))));
    DotlessGrows(':', last);
    DotlessGrows('9', Put(':', last));
    DotlessGrows('2', Put('9', Put(':', last)));
    DotlessGrows('3', Put('2', Put('9', Put(':', last))));
    DotlessGrows('F', Put('3', Put('2', Put('9', Put(':', last)))));
    hide Dotless;
    NoGroups("]", 4, false);
    FourDigitGroup(Put(':', last), '5', '8', 'A', 'F', "]", 5, false, 0x58AF);
    FourDigitGroup(back, 'F', '3', '2', '9', Put(':', last), 6, true, 0xF329);
    assert [0x58AF] + [] == [0x58AF];
    assert [0xF329] + [0x58AF] == [0xF329, 0x58AF];
  }

  /** "FF05" and then "::". */
  lemma FrontGroupReads(back: string, gap: string, s: string)
    requires Dotless(back) && gap == Put(':', Put(':', back)) && s == Put('F', Put('F', Put('0', Put('5', gap))))
    ensures ReadGroups(s, 8, true) == ([0xFF05], false, gap) && ReadGap(gap) == Some(back)
  {
    hide ReadGroups;
    DotlessGrows(':', back);
    DotlessGrows(':', Put(':', back));
    DotlessGrows('5', gap);
    DotlessGrows('0', Put('5', gap));
    DotlessGrows('F', Put('0', Put('5', gap)));
    DotlessGrows('F', Put('F', Put('0', Put('5', gap))));
    hide Dotless;
    NoGroups(gap, 7, false);
    FourDigitGroup(s, 'F', 'F', '0', '5', gap, 8, true, 0xFF05);
    assert [0xFF05] + [] == [0xFF05];
  }

  lemma TailIs(s: string, k: nat)
    requires k < |s|
    ensures s[k..] == Put(s[k], s[k + 1..])
  {}

  lemma CharactersOf(s: string)
    requires s == "FF05::F329:58AF]"
    ensures |s| == 16 && s[0] == 'F' && s[1] == 'F' && s[2] == '0' && s[3] == '5' && s[4] == ':' && s[5] == ':'
    ensures s[6] == 'F' && s[7] == '3' && s[8] == '2' && s[9] == '9' && s[10] == ':'
    ensures s[11] == '5' && s[12] == '8' && s[13] == 'A' && s[14] == 'F' && s[15] == ']'
  {}

  /** The discovery address is the one that the crate writes as FF05::F329:58AF. */
  lemma DiscoveryIpReads(s: string)
    requires s == "FF05::F329:58AF]"
    ensures ReadIp(s) == Some((DISCOVERY_IP, "]"))
  {
    CharactersOf(s);
    DiscoveryTextReads(s);
  }

  lemma DiscoveryTextReads(s: string)
    requires |s| == 16 && s[0] == 'F' && s[1] == 'F' && s[2] == '0' && s[3] == '5' && s[4] == ':' && s[5] == ':'
    requires s[6] == 'F' && s[7] == '3' && s[8] == '2' && s[9] == '9' && s[10] == ':'
    requires s[11] == '5' && s[12] == '8' && s[13] == 'A' && s[14] == 'F' && s[15] == ']'
    ensures ReadIp(s) == Some((DISCOVERY_IP, "]"))
  {
    assert s[15..] == "]" && s[0..] == s;
    hide ReadGroups, ReadIp, Put, ReadGap, Dotless, Fill;
    forall k | 0 <= k < 16 ensures s[k..] == Put(s[k], s[k + 1..]) {
      TailIs(s, k);
    }
    BackGroupsRead(s[11..], s[6..]);
    FrontGroupReads(s[6..], s[4..], s);
    ReadIpAroundGap(s, [0xFF05], s[4..], s[6..], [0xF329, 0x58AF], false, "]");
    FillsDiscoveryIp();
  }

  lemma FillsDiscoveryIp()
    ensures Fill([0xFF05], [0xF329, 0x58AF]) == DISCOVERY_IP
  {}
}
