/**
 * What the decoder accepts, exactly: a grammar of the encoded fields of a discovery packet, known
 * and unknown, with any varint of at most 64 bits and not only the shortest, and the packet that a
 * list of fields means. A buffer decodes to a packet if and only if it is a list of fields that
 * means it; every other buffer is refused.
 */
module WireGrammar {
  import opened Wrappers
  import opened Net
  import opened Wire

  // ---------------------------------------------------------------- varints

  /** Continuation bits on all but the last byte, and no more than 64 bits after `count` bytes. */
  predicate IsVarint(v: Bytes, count: nat := 0) {
    && v != [] && |v| + count <= 10
    && (forall k :: 0 <= k < |v| - 1 ==> v[k] >= 0x80)
    && v[|v| - 1] < (if |v| + count == 10 then 2 else 0x80)
  }

  /** Seven bits a byte, the least significant first. */
  function VarintValue(v: Bytes): nat {
    if v == [] then 0 else v[0] % 0x80 + 0x80 * VarintValue(v[1..])
  }

  lemma {:induction false} VarintReads(v: Bytes, rest: Bytes, count: nat)
    requires IsVarint(v, count)
    ensures DecodeVarint(v + rest, count) == Ok((VarintValue(v), rest))
    decreases |v|
  {
    assert (v + rest)[1..] == v[1..] + rest;
    if |v| > 1 {
      VarintReads(v[1..], rest, count + 1);
    } else {
      assert v[1..] == [] && [] + rest == rest;
    }
  }

  lemma {:induction false} VarintParses(b: Bytes, count: nat) returns (v: Bytes)
    requires DecodeVarint(b, count).Ok?
    ensures IsVarint(v, count) && b == v + DecodeVarint(b, count).value.1
    ensures DecodeVarint(b, count).value.0 == VarintValue(v)
    decreases |b|
  {
    if b[0] < 0x80 {
      v := [b[0]];
      assert v[1..] == [];
    } else {
      var later := VarintParses(b[1..], count + 1);
      v := [b[0]] + later;
      assert v[1..] == later;
    }
  }

  // ---------------------------------------------------------------- fields

  datatype Field =
    | Number(key: Bytes, value: Bytes)
    | Fixed(key: Bytes, bytes: Bytes)
    | Delimited(key: Bytes, length: Bytes, content: Bytes)
    | Group(key: Bytes, fields: seq<Field>, end: Bytes)

  function Tag(key: Bytes): nat { VarintValue(key) / 8 }

  /** A field key of at most 32 bits, with that wire type and a tag that is not 0. */
  predicate IsKey(key: Bytes, wireType: nat) {
    IsVarint(key) && VarintValue(key) <= 0xFFFF_FFFF && VarintValue(key) % 8 == wireType && Tag(key) >= 1
  }

  /** A well-formed field, with no more than `depth` levels. */
  predicate Fits(f: Field, depth: nat) {
    && depth >= 1
    && match f
       case Number(key, value) => IsKey(key, 0) && IsVarint(value)
       case Fixed(key, bytes) => (IsKey(key, 5) && |bytes| == 4) || (IsKey(key, 1) && |bytes| == 8)
       case Delimited(key, length, content) => IsKey(key, 2) && IsVarint(length) && VarintValue(length) == |content|
       case Group(key, fields, end) =>
         && IsKey(key, 3) && IsKey(end, 4) && Tag(end) == Tag(key)
         && forall k :: 0 <= k < |fields| ==> Fits(fields[k], depth - 1)
  }

  /** The bytes of a field after its key. */
  function ValueBytes(f: Field): Bytes {
    match f
    case Number(_, value) => value
    case Fixed(_, bytes) => bytes
    case Delimited(_, length, content) => length + content
    case Group(_, fields, end) => FieldsBytes(fields) + end
  }

  function FieldsBytes(fields: seq<Field>): Bytes {
    if fields == [] then [] else fields[0].key + ValueBytes(fields[0]) + FieldsBytes(fields[1..])
  }

  function TypeOf(f: Field): WireType {
    match f
    case Number(_, _) => Varint
    case Fixed(_, bytes) => if |bytes| == 4 then ThirtyTwoBit else SixtyFourBit
    case Delimited(_, _, _) => LengthDelimited
    case Group(_, _, _) => StartGroup
  }

  lemma KeyReads(key: Bytes, wireType: nat, rest: Bytes)
    requires IsKey(key, wireType) && WireTypeOf(wireType).Some?
    ensures DecodeKey(key + rest) == Ok(((Tag(key), WireTypeOf(wireType).value), rest))
  {
    VarintReads(key, rest, 0);
    hide DecodeVarint;
  }

  lemma KeyParses(b: Bytes) returns (key: Bytes, wireType: nat)
    requires DecodeKey(b).Ok?
    ensures var ((tag, type_), rest) := DecodeKey(b).value;
            IsKey(key, wireType) && b == key + rest && tag == Tag(key) && WireTypeOf(wireType) == Some(type_)
  {
    key := VarintParses(b, 0);
    wireType := VarintValue(key) % 8;
    hide DecodeVarint;
  }

  lemma FlatFieldSkips(f: Field, rest: Bytes, depth: nat)
    requires Fits(f, depth) && !f.Group?
    ensures SkipField(TypeOf(f), Tag(f.key), ValueBytes(f) + rest, depth) == Ok(((), rest))
  {
    hide DecodeVarint, IsVarint, IsKey, VarintValue;
    match f
    case Number(_, value) => VarintReads(value, rest, 0);
    case Fixed(_, bytes) => assert (bytes + rest)[|bytes|..] == rest;
    case Delimited(_, length, content) =>
      VarintReads(length, content + rest, 0);
      assert length + content + rest == length + (content + rest);
      assert (content + rest)[|content|..] == rest;
  }

  /** A well-formed field is skipped, whatever follows it. */
  lemma {:induction false} FieldSkips(f: Field, rest: Bytes, depth: nat)
    requires Fits(f, depth)
    ensures SkipField(TypeOf(f), Tag(f.key), ValueBytes(f) + rest, depth) == Ok(((), rest))
    decreases depth, 1, 0
  {
    if f.Group? {
      assert FieldsBytes(f.fields) + f.end + rest == FieldsBytes(f.fields) + (f.end + rest);
      GroupSkips(Tag(f.key), f.fields, f.end, rest, depth);
      hide FieldsBytes, SkipGroup, IsKey, Tag;
    } else {
      hide SkipField, Fits, ValueBytes, Tag;
      FlatFieldSkips(f, rest, depth);
    }
  }

  lemma GroupStep(group: nat, b: Bytes, tag: nat, wireType: WireType, value: Bytes, later: Bytes, depth: nat)
    requires depth >= 1 && DecodeKey(b) == Ok(((tag, wireType), value)) && !wireType.EndGroup?
    requires SkipField(wireType, tag, value, depth - 1) == Ok(((), later))
    ensures SkipGroup(group, b, depth) == SkipGroup(group, later, depth)
  {
    hide DecodeKey, SkipField;
  }

  lemma GroupEnd(group: nat, b: Bytes, rest: Bytes, depth: nat)
    requires depth >= 1 && DecodeKey(b) == Ok(((group, EndGroup), rest))
    ensures SkipGroup(group, b, depth) == Ok(((), rest))
  {
    hide DecodeKey, SkipField;
  }

  lemma Regroup(a: Bytes, b: Bytes, c: Bytes, d: Bytes)
    ensures a + b + c + d == a + (b + (c + d))
  {}

  lemma SplitFields(fields: seq<Field>, rest: Bytes)
    requires fields != []
    ensures FieldsBytes(fields) + rest == fields[0].key + (ValueBytes(fields[0]) + (FieldsBytes(fields[1..]) + rest))
  {
    var key, value, later := fields[0].key, ValueBytes(fields[0]), FieldsBytes(fields[1..]);
    assert FieldsBytes(fields) == key + value + later;
    hide FieldsBytes, ValueBytes;
    Regroup(key, value, later, rest);
  }

  lemma {:induction false} GroupSkips(tag: nat, fields: seq<Field>, end: Bytes, rest: Bytes, depth: nat)
    requires depth >= 1 && IsKey(end, 4) && Tag(end) == tag
    requires forall k :: 0 <= k < |fields| ==> Fits(fields[k], depth - 1)
    ensures SkipGroup(tag, FieldsBytes(fields) + (end + rest), depth) == Ok(((), rest))
    decreases depth, 0, |fields|
  {
    hide DecodeKey, SkipField, SkipGroup, Fits, IsKey, Tag, ValueBytes;
    if fields == [] {
      KeyReads(end, 4, rest);
      assert FieldsBytes(fields) + (end + rest) == end + rest;
      GroupEnd(tag, end + rest, rest, depth);
    } else {
      var f, later := fields[0], FieldsBytes(fields[1..]) + (end + rest);
      SplitFields(fields, end + rest);
      hide FieldsBytes;
      FieldKeyReads(f, ValueBytes(f) + later, depth - 1);
      FieldSkips(f, later, depth - 1);
      GroupSkips(tag, fields[1..], end, rest, depth);
      GroupStep(tag, f.key + (ValueBytes(f) + later), Tag(f.key), TypeOf(f), ValueBytes(f) + later, later, depth);
    }
  }

  lemma FieldKeyReads(f: Field, rest: Bytes, depth: nat)
    requires Fits(f, depth)
    ensures DecodeKey(f.key + rest) == Ok(((Tag(f.key), TypeOf(f)), rest))
  {
    var wireType := VarintValue(f.key) % 8;
    KeyReads(f.key, wireType, rest);
  }

  /** Whatever is skipped is a well-formed field. */
  lemma {:induction false} FieldParses(key: Bytes, wireType: nat, b: Bytes, depth: nat) returns (f: Field)
    requires IsKey(key, wireType) && WireTypeOf(wireType).Some?
    requires SkipField(WireTypeOf(wireType).value, Tag(key), b, depth).Ok?
    ensures Fits(f, depth) && f.key == key && TypeOf(f) == WireTypeOf(wireType).value
    ensures b == ValueBytes(f) + SkipField(WireTypeOf(wireType).value, Tag(key), b, depth).value.1
    decreases depth, |b|, 1
  {
    if wireType == 0 {
      var value := VarintParses(b, 0);
      f := Number(key, value);
    } else if wireType == 1 {
      f := Fixed(key, b[..8]);
    } else if wireType == 5 {
      f := Fixed(key, b[..4]);
    } else if wireType == 2 {
      var length := VarintParses(b, 0);
      var content := b[|length|..];
      f := Delimited(key, length, content[..VarintValue(length)]);
    } else {
      var fields, end := GroupParses(Tag(key), b, depth);
      f := Group(key, fields, end);
      var rest := SkipGroup(Tag(key), b, depth).value.1;
      assert FieldsBytes(fields) + (end + rest) == FieldsBytes(fields) + end + rest;
    }
  }

  lemma GroupOpens(group: nat, b: Bytes, depth: nat)
    requires depth >= 1 && SkipGroup(group, b, depth).Ok?
    ensures DecodeKey(b).Ok?
    ensures var ((tag, type_), value) := DecodeKey(b).value;
            if type_.EndGroup? then tag == group && SkipGroup(group, b, depth) == Ok(((), value))
            else
              SkipField(type_, tag, value, depth - 1).Ok?
              && SkipGroup(group, b, depth) == SkipGroup(group, SkipField(type_, tag, value, depth - 1).value.1, depth)
  {
    hide DecodeKey, SkipField;
  }

  lemma {:induction false} GroupParses(group: nat, b: Bytes, depth: nat) returns (fields: seq<Field>, end: Bytes)
    requires depth >= 1 && SkipGroup(group, b, depth).Ok?
    ensures IsKey(end, 4) && Tag(end) == group
    ensures forall k :: 0 <= k < |fields| ==> Fits(fields[k], depth - 1)
    ensures b == FieldsBytes(fields) + (end + SkipGroup(group, b, depth).value.1)
    decreases depth, |b|, 0
  {
    hide DecodeKey, SkipField, SkipGroup, Fits, IsKey, Tag, ValueBytes;
    GroupOpens(group, b, depth);
    var key, wireType := KeyParses(b);
    var ((tag, type_), value) := DecodeKey(b).value;
    if type_.EndGroup? {
      fields, end := [], key;
      assert FieldsBytes([]) + (end + value) == end + value;
    } else {
      hide FieldsBytes;
      var f := FieldParses(key, wireType, value, depth - 1);
      var later := SkipField(type_, tag, value, depth - 1).value.1;
      var others;
      others, end := GroupParses(group, later, depth);
      fields := [f] + others;
      assert fields[1..] == others;
      SplitFields(fields, end + SkipGroup(group, later, depth).value.1);
    }
  }

  // ---------------------------------------------------------------- the fields of a request or response

  /** Field 1 must be a varint; others may be anything well-formed. */
  predicate FitsPort(f: Field, depth: nat) {
    if Tag(f.key) == 1 then f.Number? && IsKey(f.key, 0) && IsVarint(f.value) else Fits(f, depth)
  }

  function PortAfterOne(port: U32, f: Field): U32 {
    if f.Number? && Tag(f.key) == 1 then VarintValue(f.value) % 0x1_0000_0000 else port
  }

  /** The last field 1, cut to 32 bits, or what was there before. */
  function PortAfter(port: U32, fields: seq<Field>): U32
    decreases |fields|
  {
    if fields == [] then port else PortAfter(PortAfterOne(port, fields[0]), fields[1..])
  }

  lemma PortFieldReads(port: U32, f: Field, rest: Bytes, depth: nat)
    requires FitsPort(f, depth)
    ensures MergePortField(port, f.key + (ValueBytes(f) + rest), depth) == Ok((PortAfterOne(port, f), rest))
  {
    if Tag(f.key) == 1 {
      KeyReads(f.key, 0, ValueBytes(f) + rest);
      VarintReads(f.value, rest, 0);
    } else {
      FieldKeyReads(f, ValueBytes(f) + rest, depth);
      FieldSkips(f, rest, depth);
    }
    hide DecodeKey, DecodeVarint, SkipField, ValueBytes, IsKey, IsVarint, Tag, Fits;
  }

  lemma PortFieldParses(port: U32, b: Bytes, depth: nat) returns (f: Field)
    requires MergePortField(port, b, depth).Ok?
    ensures FitsPort(f, depth) && b == f.key + (ValueBytes(f) + MergePortField(port, b, depth).value.1)
    ensures MergePortField(port, b, depth).value.0 == PortAfterOne(port, f)
  {
    var key, wireType := KeyParses(b);
    var ((tag, type_), value) := DecodeKey(b).value;
    if tag == 1 {
      var number := VarintParses(value, 0);
      f := Number(key, number);
      assert IsKey(key, 0);
    } else {
      hide DecodeKey, IsKey, Tag;
      f := FieldParses(key, wireType, value, depth);
    }
  }

  lemma {:induction false} PortFieldsRead(port: U32, fields: seq<Field>, rest: Bytes, depth: nat)
    requires forall k :: 0 <= k < |fields| ==> FitsPort(fields[k], depth)
    ensures MergePortFields(port, FieldsBytes(fields) + rest, |rest|, depth) == Ok((PortAfter(port, fields), rest))
    decreases |fields|
  {
    hide MergePortField, FitsPort, ValueBytes, Tag, VarintValue;
    if fields == [] {
      assert FieldsBytes(fields) + rest == rest;
    } else {
      var f, later := fields[0], FieldsBytes(fields[1..]) + rest;
      SplitFields(fields, rest);
      PortFieldReads(port, f, later, depth);
      PortFieldsRead(PortAfterOne(port, f), fields[1..], rest, depth);
      hide FieldsBytes;
    }
  }

  lemma {:induction false} PortFieldsParse(port: U32, b: Bytes, limit: nat, depth: nat) returns (fields: seq<Field>)
    requires MergePortFields(port, b, limit, depth).Ok?
    ensures forall k :: 0 <= k < |fields| ==> FitsPort(fields[k], depth)
    ensures var (port', rest) := MergePortFields(port, b, limit, depth).value;
            b == FieldsBytes(fields) + rest && |rest| == limit && port' == PortAfter(port, fields)
    decreases |b|
  {
    hide MergePortField, FitsPort, ValueBytes, Tag, VarintValue;
    if |b| == limit {
      fields := [];
      assert FieldsBytes([]) + b == b;
    } else {
      var (port', later) := MergePortField(port, b, depth).value;
      var f := PortFieldParses(port, b, depth);
      var others := PortFieldsParse(port', later, limit, depth);
      fields := [f] + others;
      assert fields[1..] == others;
      SplitFields(fields, MergePortFields(port', later, limit, depth).value.1);
      hide FieldsBytes;
    }
  }

  // ---------------------------------------------------------------- the fields of a packet

  /** A request or an announcement, by its tag 1 or 2, or a field that the schema does not know. */
  datatype Entry = Message(key: Bytes, length: Bytes, fields: seq<Field>) | Unknown(field: Field)

  /** Of 100 levels, the message takes one. */
  predicate FitsEntry(e: Entry) {
    match e
    case Message(key, length, fields) =>
      && IsKey(key, 2) && Tag(key) <= 2 && IsVarint(length) && VarintValue(length) == |FieldsBytes(fields)|
      && forall k :: 0 <= k < |fields| ==> FitsPort(fields[k], 99)
    case Unknown(field) => Fits(field, 100) && Tag(field.key) > 2
  }

  function EntryBytes(e: Entry): Bytes {
    match e
    case Message(key, length, fields) => key + (length + FieldsBytes(fields))
    case Unknown(field) => field.key + ValueBytes(field)
  }

  function EntriesBytes(entries: seq<Entry>): Bytes {
    if entries == [] then [] else EntryBytes(entries[0]) + EntriesBytes(entries[1..])
  }

  /** A message starts from the port of a payload of its own kind, and from 0 over any other. */
  function PortBefore(packet: DiscoveryPacket, tag: nat): U32 {
    match packet.payload
    case Some(Request(port)) => if tag == 1 then port else 0
    case Some(Announcement(port)) => if tag == 2 then port else 0
    case None => 0
  }

  /** What an entry makes of the packet read so far. */
  function MeaningOf(packet: DiscoveryPacket, e: Entry): DiscoveryPacket {
    match e
    case Message(key, _, fields) =>
      var port := PortAfter(PortBefore(packet, Tag(key)), fields);
      DiscoveryPacket(Some(if Tag(key) == 1 then Request(port) else Announcement(port)))
    case Unknown(_) => packet
  }

  function MeaningOfAll(packet: DiscoveryPacket, entries: seq<Entry>): DiscoveryPacket
    decreases |entries|
  {
    if entries == [] then packet else MeaningOfAll(MeaningOf(packet, entries[0]), entries[1..])
  }

  lemma MessageReads(port: U32, length: Bytes, fields: seq<Field>, rest: Bytes)
    requires IsVarint(length) && VarintValue(length) == |FieldsBytes(fields)|
    requires forall k :: 0 <= k < |fields| ==> FitsPort(fields[k], 99)
    ensures MergeMessage(port, LengthDelimited, length + (FieldsBytes(fields) + rest), 100)
         == Ok((PortAfter(port, fields), rest))
  {
    hide DecodeVarint, MergePortFields, FitsPort, FieldsBytes, PortAfter, IsVarint, VarintValue;
    VarintReads(length, FieldsBytes(fields) + rest, 0);
    PortFieldsRead(port, fields, rest, 99);
  }

  lemma EntryReads(packet: DiscoveryPacket, e: Entry, rest: Bytes)
    requires FitsEntry(e)
    ensures MergePacketField(packet, EntryBytes(e) + rest) == Ok((MeaningOf(packet, e), rest))
  {
    hide DecodeKey, MergeMessage, SkipField, Fits, FitsPort, FieldsBytes, ValueBytes, PortAfter, IsKey, IsVarint;
    hide VarintValue;
    match e
    case Message(key, length, fields) =>
      var body := length + (FieldsBytes(fields) + rest);
      assert EntryBytes(e) + rest == key + body;
      KeyReads(key, 2, body);
      KeyTag(key, 2);
      MessageReads(PortBefore(packet, Tag(key)), length, fields, rest);
    case Unknown(field) =>
      var body := ValueBytes(field) + rest;
      assert EntryBytes(e) + rest == field.key + body;
      FieldKeyReads(field, body, 100);
      FieldSkips(field, rest, 100);
  }

  lemma KeyTag(key: Bytes, wireType: nat)
    requires IsKey(key, wireType)
    ensures Tag(key) >= 1
  {
    hide VarintValue, IsVarint;
  }

  lemma MessageParses(port: U32, b: Bytes) returns (length: Bytes, fields: seq<Field>)
    requires MergeMessage(port, LengthDelimited, b, 100).Ok?
    ensures IsVarint(length) && VarintValue(length) == |FieldsBytes(fields)|
    ensures forall k :: 0 <= k < |fields| ==> FitsPort(fields[k], 99)
    ensures var (port', rest) := MergeMessage(port, LengthDelimited, b, 100).value;
            b == length + (FieldsBytes(fields) + rest) && port' == PortAfter(port, fields)
  {
    hide DecodeVarint, MergePortFields, FitsPort, FieldsBytes, PortAfter, IsVarint, VarintValue;
    length := VarintParses(b, 0);
    var (n, body) := DecodeVarint(b).value;
    fields := PortFieldsParse(port, body, |body| - n, 99);
  }

  lemma MessageIsDelimited(packet: DiscoveryPacket, b: Bytes)
    requires MergePacketField(packet, b).Ok?
    ensures var (tag, wireType) := DecodeKey(b).value.0; tag <= 2 ==> tag >= 1 && wireType.LengthDelimited?
  {
    hide DecodeVarint, MergePortFields, SkipField;
  }

  lemma EntryParses(packet: DiscoveryPacket, b: Bytes) returns (e: Entry)
    requires MergePacketField(packet, b).Ok?
    ensures var (packet', rest) := MergePacketField(packet, b).value;
            FitsEntry(e) && b == EntryBytes(e) + rest && packet' == MeaningOf(packet, e)
  {
    hide DecodeKey, MergeMessage, SkipField, Fits, FitsPort, FieldsBytes, ValueBytes, PortAfter, IsVarint;
    hide VarintValue;
    var key, wireType := KeyParses(b);
    var ((tag, type_), value) := DecodeKey(b).value;
    var rest := MergePacketField(packet, b).value.1;
    KeyTag(key, wireType);
    hide IsKey, Tag;
    if tag <= 2 {
      MessageIsDelimited(packet, b);
      var length, fields := MessageParses(PortBefore(packet, tag), value);
      e := Message(key, length, fields);
      assert key + (length + (FieldsBytes(fields) + rest)) == key + (length + FieldsBytes(fields)) + rest;
    } else {
      var field := FieldParses(key, wireType, value, 100);
      e := Unknown(field);
      assert field.key + (ValueBytes(field) + rest) == field.key + ValueBytes(field) + rest;
    }
  }

  lemma {:induction false} EntriesRead(packet: DiscoveryPacket, entries: seq<Entry>)
    requires forall k :: 0 <= k < |entries| ==> FitsEntry(entries[k])
    ensures MergePacket(packet, EntriesBytes(entries)) == Ok(MeaningOfAll(packet, entries))
    decreases |entries|
  {
    if entries != [] {
      hide MergePacketField, FitsEntry, EntryBytes, MeaningOf;
      EntryReads(packet, entries[0], EntriesBytes(entries[1..]));
      EntriesRead(MeaningOf(packet, entries[0]), entries[1..]);
    }
  }

  lemma {:induction false} EntriesParse(packet: DiscoveryPacket, b: Bytes) returns (entries: seq<Entry>)
    requires MergePacket(packet, b).Ok?
    ensures forall k :: 0 <= k < |entries| ==> FitsEntry(entries[k])
    ensures b == EntriesBytes(entries) && MergePacket(packet, b).value == MeaningOfAll(packet, entries)
    decreases |b|
  {
    if b == [] {
      entries := [];
    } else {
      hide MergePacketField, FitsEntry, EntryBytes, MeaningOf;
      var (next, rest) := MergePacketField(packet, b).value;
      var e := EntryParses(packet, b);
      var others := EntriesParse(next, rest);
      entries := [e] + others;
      assert entries[1..] == others;
    }
  }

  /** The buffer is a list of well-formed entries that make this of the packet read before. */
  ghost predicate Spells(before: DiscoveryPacket, b: Bytes, packet: DiscoveryPacket) {
    exists entries: seq<Entry> ::
      && (forall k :: 0 <= k < |entries| ==> FitsEntry(entries[k]))
      && b == EntriesBytes(entries) && packet == MeaningOfAll(before, entries)
  }

  /**
   * Exactly what the decoder accepts: a buffer decodes to a packet if and only if it is a list of
   * well-formed fields that means this packet, and is not empty; all other buffers are refused.
   */
  lemma DecodesExactly(b: Bytes, packet: DiscoveryPacket)
    ensures Decode(b) == Ok(Some(packet)) <==> b != [] && Spells(EMPTY_PACKET, b, packet)
    ensures Decode(b).Err? <==> !exists any :: Spells(EMPTY_PACKET, b, any)
  {
    hide MergePacket, FitsEntry, EntriesBytes, MeaningOfAll;
    if MergePacket(EMPTY_PACKET, b).Ok? {
      var entries := EntriesParse(EMPTY_PACKET, b);
      assert Spells(EMPTY_PACKET, b, MergePacket(EMPTY_PACKET, b).value);
    }
    forall any | Spells(EMPTY_PACKET, b, any) ensures MergePacket(EMPTY_PACKET, b) == Ok(any) {
      var entries: seq<Entry> :| (forall k :: 0 <= k < |entries| ==> FitsEntry(entries[k]))
        && b == EntriesBytes(entries) && any == MeaningOfAll(EMPTY_PACKET, entries);
      EntriesRead(EMPTY_PACKET, entries);
    }
    EmptyMerges();
  }

  lemma EmptyMerges()
    ensures MergePacket(EMPTY_PACKET, []).Ok?
  {}

  lemma {:induction false} MeaningSplits(packet: DiscoveryPacket, entries: seq<Entry>, others: seq<Entry>)
    ensures MeaningOfAll(packet, entries + others) == MeaningOfAll(MeaningOfAll(packet, entries), others)
    decreases |entries|
  {
    hide MeaningOf;
    if entries == [] {
      assert [] + others == others;
    } else {
      MeaningSplits(MeaningOf(packet, entries[0]), entries[1..], others);
      assert (entries + others)[1..] == entries[1..] + others;
    }
  }

  lemma UnknownMeansNothing(packet: DiscoveryPacket, field: Field)
    ensures MeaningOfAll(packet, [Unknown(field)]) == packet
  {
    assert MeaningOfAll(packet, [Unknown(field)]) == MeaningOfAll(MeaningOf(packet, Unknown(field)), []);
  }

  /** A field that the schema does not know changes nothing, wherever it stands between the others. */
  lemma UnknownFieldIsIgnored(before: DiscoveryPacket, entries: seq<Entry>, field: Field, others: seq<Entry>)
    requires forall e :: e in entries + [Unknown(field)] + others ==> FitsEntry(e)
    ensures MergePacket(before, EntriesBytes(entries + [Unknown(field)] + others))
         == MergePacket(before, EntriesBytes(entries + others))
  {
    hide MergePacket, FitsEntry, EntriesBytes;
    var unknown := [Unknown(field)];
    MeaningSplits(before, entries + unknown, others);
    MeaningSplits(before, entries, unknown);
    MeaningSplits(before, entries, others);
    UnknownMeansNothing(MeaningOfAll(before, entries), field);
    hide MeaningOfAll;
    EntriesRead(before, entries + unknown + others);
    assert forall e :: e in entries + others ==> e in entries + unknown + others;
    EntriesRead(before, entries + others);
  }

  lemma {:induction false} PortSplits(port: U32, fields: seq<Field>, others: seq<Field>)
    ensures PortAfter(port, fields + others) == PortAfter(PortAfter(port, fields), others)
    decreases |fields|
  {
    hide PortAfterOne;
    if fields == [] {
      assert [] + others == others;
    } else {
      PortSplits(PortAfterOne(port, fields[0]), fields[1..], others);
      assert (fields + others)[1..] == fields[1..] + others;
    }
  }

  lemma OtherTagMeansNothing(port: U32, field: Field)
    requires Tag(field.key) != 1
    ensures PortAfter(port, [field]) == port
  {
    hide Tag;
    assert PortAfter(port, [field]) == PortAfter(PortAfterOne(port, field), []);
  }

  /** Nor does one inside a message. */
  lemma UnknownFieldInsideIsIgnored(port: U32, fields: seq<Field>, field: Field, others: seq<Field>, rest: Bytes)
    requires forall f :: f in fields + [field] + others ==> FitsPort(f, 99)
    requires Tag(field.key) != 1
    ensures MergePortFields(port, FieldsBytes(fields + [field] + others) + rest, |rest|, 99)
         == MergePortFields(port, FieldsBytes(fields + others) + rest, |rest|, 99)
  {
    hide MergePortFields, FitsPort, FieldsBytes, Tag;
    PortSplits(port, fields + [field], others);
    PortSplits(port, fields, [field]);
    PortSplits(port, fields, others);
    OtherTagMeansNothing(PortAfter(port, fields), field);
    hide PortAfter;
    PortFieldsRead(port, fields + [field] + others, rest, 99);
    assert forall f :: f in fields + others ==> f in fields + [field] + others;
    PortFieldsRead(port, fields + others, rest, 99);
  }
}
