/** rdb/structure/ziplist.go: the older packed lists. */
module Ziplist {
  import opened Bytes
  import opened Decimal
  import opened RdbPrimitives
  import opened RdbString

  /** What the prevlen byte first of an entry asks to be skipped. */
  function DecodePrevlen(first: byte, s: bytes): Decoded<nat> {
    if first == 0xFE then DecodeUint(s, 4) else Some((first, s))
  }

  /** The encoding byte and the content it announces. */
  function DecodeContent(s: bytes): Decoded<bytes> {
    var (first, rest) :- DecodeByte(s);
    if first / 64 == 0 then DecodeBytes(rest, first % 64)
    else if first / 64 == 1 then
      var (second, rest) :- DecodeByte(rest);
      DecodeBytes(rest, first % 64 * 256 + second)
    else if first / 64 == 2 then
      var (lenBytes, rest) :- DecodeBytes(rest, 4);
      DecodeBytes(rest, BigValue(lenBytes))
    else if first == 0xFE then DecodeNumber(rest, 1)
    else if first == 0xC0 then DecodeNumber(rest, 2)
    else if first == 0xF0 then DecodeNumber(rest, 3)
    else if first == 0xD0 then DecodeNumber(rest, 4)
    else if first == 0xE0 then DecodeNumber(rest, 8)
    else if first / 16 == 15 && 0 <= (first % 16) as int - 1 <= 12 then Some((Itoa((first % 16) as int - 1), rest))
    else None
  }

  /** readZipListEntry. */
  function DecodeEntry(first: byte, s: bytes): Decoded<bytes> {
    var (_, rest) :- DecodePrevlen(first, s);
    DecodeContent(rest)
  }

  function DecodeEntries(s: bytes, n: nat): Decoded<seq<bytes>>
    decreases n
  {
    if n == 0 then Some(([], s))
    else
      var (first, rest) :- DecodeByte(s);
      var (element, rest) :- DecodeEntry(first, rest);
      var (more, rest) :- DecodeEntries(rest, n - 1);
      Some(([element] + more, rest))
  }

  /** The traversal the code uses for the count 65535: until a prevlen byte 0xFE. */
  function DecodeUntil(s: bytes): Option<seq<bytes>>
    decreases |s|
  {
    var (first, rest) :- DecodeByte(s);
    if first == 0xFE then Some([])
    else
      var (element, rest) :- DecodeEntry(first, rest);
      var more :- DecodeUntil(rest);
      Some([element] + more)
  }

  function Elements(text: bytes): Option<seq<bytes>> {
    var (_, rest) :- DecodeUint(text, 4);
    var (_, rest) :- DecodeUint(rest, 4);
    var (size, rest) :- DecodeUint(rest, 2);
    if size == 65535 then DecodeUntil(rest)
    else
      var (elements, rest) :- DecodeEntries(rest, size);
      var (last, _) :- DecodeByte(rest);
      if last == 0xFF then Some(elements) else None
  }

  /** ReadZipList. */
  function DecodeZiplist(s: bytes): Decoded<seq<bytes>> {
    var (text, rest) :- DecodeString(s);
    var elements :- Elements(text);
    Some((elements, rest))
  }

  // ---- The reading methods -------------------------------------------------------------------

  method ReadNumber(rd: Reader, k: nat) returns (r: Option<bytes>)
    modifies rd
    ensures Did(DecodeNumber(old(rd.rest), k), r, rd.rest)
  {
    var v :- ReadInt(rd, k);
    return Some(Itoa(v));
  }

  method ReadNumber24(rd: Reader) returns (r: Option<bytes>)
    modifies rd
    ensures Did(DecodeNumber(old(rd.rest), 3), r, rd.rest)
  {
    hide DecodeInt;
    var v :- ReadInt24(rd);
    return Some(Itoa(v));
  }

  method ReadZipListEntry(rd: Reader, prevlen: byte) returns (r: Option<bytes>)
    modifies rd
    ensures Did(DecodeEntry(prevlen, old(rd.rest)), r, rd.rest)
  {
    hide DecodeByte, DecodeBytes, DecodeUint, DecodeNumber, DecodeInt, Itoa, BigValue;
    if prevlen == 0xFE {
      var _ :- ReadUint(rd, 4);
    }
    var firstByte :- ReadByte(rd);
    var first2bits := firstByte / 64;
    if first2bits == 0 {
      r := ReadBytes(rd, firstByte % 64);
    } else if first2bits == 1 {
      var secondByte :- ReadByte(rd);
      var high: nat := firstByte % 64;
      r := ReadBytes(rd, high * 256 + secondByte);
    } else if first2bits == 2 {
      var lenBytes :- ReadBytes(rd, 4);
      r := ReadBytes(rd, BigValue(lenBytes));
    } else if firstByte == 0xFE {
      r := ReadNumber(rd, 1);
    } else if firstByte == 0xC0 {
      r := ReadNumber(rd, 2);
    } else if firstByte == 0xF0 {
      r := ReadNumber24(rd);
    } else if firstByte == 0xD0 {
      r := ReadNumber(rd, 4);
    } else if firstByte == 0xE0 {
      r := ReadNumber(rd, 8);
    } else if firstByte / 16 == 15 {
      var v: int := firstByte % 16;
      v := v - 1;
      if v < 0 || v > 12 { return None; }
      r := Some(Itoa(v));
    } else {
      r := None;
    }
  }

  method ReadZipList(rd: Reader) returns (r: Option<seq<bytes>>)
    modifies rd
    ensures Did(DecodeZiplist(old(rd.rest)), r, rd.rest)
  {
    hide DecodeString, DecodeUint, DecodeEntries, DecodeUntil;
    var text :- ReadString(rd);
    var inner := new Reader(text);
    var _ :- ReadUint(inner, 4);
    var _ :- ReadUint(inner, 4);
    var size :- ReadUint(inner, 2);
    ghost var after := rd.rest;
    var elements;
    if size == 65535 {
      elements := ReadUntil(inner);
    } else {
      elements := ReadCounted(inner, size);
    }
    return elements;
  }

  /** The loop for a known count, and the check of the end byte. */
  method ReadCounted(rd: Reader, size: nat) returns (r: Option<seq<bytes>>)
    modifies rd
    ensures r == match DecodeEntries(old(rd.rest), size)
                 case None => None
                 case Some(d) => if d.1 != [] && d.1[0] == 0xFF then Some(d.0) else None
  {
    hide DecodeEntry;
    var elements: seq<bytes> := [];
    Continue([], rd.rest, size);
    for i := 0 to size
      invariant Continues(elements, rd.rest, size - i) == DecodeEntries(old(rd.rest), size)
    {
      NextEntry(elements, rd.rest, size - i);
      var firstByte :- ReadByte(rd);
      var ele :- ReadZipListEntry(rd, firstByte);
      elements := elements + [ele];
    }
    Continue(elements, rd.rest, 0);
    var lastByte :- ReadByte(rd);
    if lastByte != 0xFF { return None; }
    return Some(elements);
  }

  /** The loop for the count 65535. */
  method ReadUntil(rd: Reader) returns (r: Option<seq<bytes>>)
    modifies rd
    ensures r == DecodeUntil(old(rd.rest))
  {
    hide DecodeEntry;
    var elements: seq<bytes> := [];
    Until([], rd.rest);
    ghost var s := rd.rest;
    var firstByte :- ReadByte(rd);
    while firstByte != 0xFE
      invariant s == [firstByte] + rd.rest
      invariant UntilFrom(elements, s) == DecodeUntil(old(rd.rest))
      decreases |rd.rest|
    {
      NextUntil(elements, s);
      assert s[1..] == rd.rest;
      EntryShrinks(firstByte, rd.rest);
      var ele :- ReadZipListEntry(rd, firstByte);
      elements := elements + [ele];
      s := rd.rest;
      Until(elements, s);
      firstByte :- ReadByte(rd);
    }
    Until(elements, s);
    return Some(elements);
  }

  function Continues(elements: seq<bytes>, s: bytes, n: nat): Decoded<seq<bytes>> {
    var (more, rest) :- DecodeEntries(s, n);
    Some((elements + more, rest))
  }

  function UntilFrom(elements: seq<bytes>, s: bytes): Option<seq<bytes>> {
    var more :- DecodeUntil(s);
    Some(elements + more)
  }

  lemma Continue(elements: seq<bytes>, s: bytes, n: nat)
    ensures Continues([], s, n) == DecodeEntries(s, n)
    ensures Continues(elements, s, 0) == Some((elements, s))
  {
    hide DecodeEntry;
    assert elements + [] == elements;
    var d := DecodeEntries(s, n);
    if d.Some? { assert [] + d.value.0 == d.value.0; }
  }

  /** One more entry of a counted list. */
  lemma NextEntry(elements: seq<bytes>, s: bytes, n: nat)
    requires n > 0
    ensures s == [] || DecodeEntry(s[0], s[1..]).None? ==> Continues(elements, s, n) == None
    ensures s != [] && DecodeEntry(s[0], s[1..]).Some? ==>
              var d := DecodeEntry(s[0], s[1..]).value;
              Continues(elements, s, n) == Continues(elements + [d.0], d.1, n - 1)
  {
    hide DecodeEntry;
    if s != [] && DecodeEntry(s[0], s[1..]).Some? {
      var (first, rest) := DecodeEntry(s[0], s[1..]).value;
      var d := DecodeEntries(rest, n - 1);
      if d.Some? { assert elements + [first] + d.value.0 == elements + ([first] + d.value.0); }
    }
  }

  lemma Until(elements: seq<bytes>, s: bytes)
    ensures UntilFrom([], s) == DecodeUntil(s)
    ensures s == [] ==> UntilFrom(elements, s) == None
    ensures s != [] && s[0] == 0xFE ==> UntilFrom(elements, s) == Some(elements)
  {
    hide DecodeEntry;
    assert elements + [] == elements;
    var d := DecodeUntil(s);
    if d.Some? { assert [] + d.value == d.value; }
  }

  lemma EntryShrinks(first: byte, s: bytes)
    ensures DecodeEntry(first, s).Some? ==> |DecodeEntry(first, s).value.1| < |s|
  {
    hide Itoa, BigValue;
  }

  lemma NextUntil(elements: seq<bytes>, s: bytes)
    requires s != [] && s[0] != 0xFE
    ensures DecodeEntry(s[0], s[1..]).None? ==> UntilFrom(elements, s) == None
    ensures DecodeEntry(s[0], s[1..]).Some? ==>
              var d := DecodeEntry(s[0], s[1..]).value;
              UntilFrom(elements, s) == UntilFrom(elements + [d.0], d.1)
  {
    hide DecodeEntry;
    if DecodeEntry(s[0], s[1..]).Some? {
      var (first, rest) := DecodeEntry(s[0], s[1..]).value;
      var d := DecodeUntil(rest);
      if d.Some? { assert elements + [first] + d.value == elements + ([first] + d.value); }
    }
  }

  // ---- The format ----------------------------------------------------------------------------

  datatype Prevlen = Short(n: nat) | Long(n: nat)

  datatype Content =
    | Text6(text: bytes)
    | Text14(text: bytes)
    | Text32(text: bytes)
    | Int(n: int, width: nat)
    | Immediate(n: int)

  datatype Item = Item(prevlen: Prevlen, content: Content)

  predicate ValidPrevlen(p: Prevlen) {
    match p
    case Short(n) => n < 0xFE
    case Long(n) => n < Pow256(4)
  }

  predicate ValidContent(c: Content) {
    match c
    case Text6(text) => |text| < 0x40
    case Text14(text) => |text| < 0x4000
    case Text32(text) => |text| < Pow256(4)
    case Int(n, width) => width in {1, 2, 3, 4, 8} && FitsSigned(n, width)
    case Immediate(n) => 0 <= n <= 12
  }

  predicate ValidItem(i: Item) { ValidPrevlen(i.prevlen) && ValidContent(i.content) }

  predicate ValidItems(items: seq<Item>) {
    forall k :: 0 <= k < |items| ==> ValidItem(items[k])
  }

  function PrevlenBytes(p: Prevlen): (b: bytes)
    requires ValidPrevlen(p)
    ensures b != [] && b[0] != 0xFF && (b[0] == 0xFE <==> p.Long?)
  {
    match p
    case Short(n) => [n]
    case Long(n) => [0xFE] + Little(n, 4)
  }

  function IntByte(width: nat): byte {
    if width == 1 then 0xFE else if width == 2 then 0xC0 else if width == 3 then 0xF0
    else if width == 4 then 0xD0 else 0xE0
  }

  function ContentBytes(c: Content): bytes
    requires ValidContent(c)
  {
    match c
    case Text6(text) => [|text|] + text
    case Text14(text) => [0x40 + |text| / 256, |text| % 256] + text
    case Text32(text) => [0x80] + Big(|text|, 4) + text
    case Int(n, width) => [IntByte(width)] + Little(Unsigned(n, width), width)
    case Immediate(n) => [0xF1 + n]
  }

  function ContentText(c: Content): bytes {
    match c
    case Text6(text) => text
    case Text14(text) => text
    case Text32(text) => text
    case Int(n, _) => Itoa(n)
    case Immediate(n) => Itoa(n)
  }

  function ItemBytes(items: seq<Item>): bytes
    requires ValidItems(items)
  {
    if items == [] then []
    else PrevlenBytes(items[0].prevlen) + ContentBytes(items[0].content) + ItemBytes(items[1..])
  }

  function Texts(items: seq<Item>): (r: seq<bytes>)
    ensures |r| == |items|
  {
    if items == [] then [] else [ContentText(items[0].content)] + Texts(items[1..])
  }

  /** A ziplist: total length, offset of the last entry, count, entries, end byte. */
  function ZiplistText(total: nat, tail: nat, items: seq<Item>): bytes
    requires ValidItems(items)
  {
    Little(total, 4) + (Little(tail, 4) + (Little(CountField(|items|), 2) + (ItemBytes(items) + [0xFF])))
  }

  // ---- Round trip ----------------------------------------------------------------------------

  lemma Number(n: int, k: nat, rest: bytes)
    requires k > 0 && FitsSigned(n, k)
    ensures DecodeNumber(Little(Unsigned(n, k), k) + rest, k) == Some((Itoa(n), rest))
  {
    hide DecodeInt, Little, Unsigned, Itoa;
    IntAppend(n, k, rest);
  }

  lemma ContentInt(n: int, width: nat, rest: bytes)
    requires width in {1, 2, 3, 4, 8} && FitsSigned(n, width)
    ensures DecodeContent([IntByte(width)] + (Little(Unsigned(n, width), width) + rest)) == Some((Itoa(n), rest))
  {
    hide DecodeByte, DecodeNumber, Little, Unsigned, Itoa, FitsSigned;
    ByteAppend(IntByte(width), Little(Unsigned(n, width), width) + rest);
    Number(n, width, rest);
  }

  lemma Content14(text: bytes, rest: bytes)
    requires |text| < 0x4000
    ensures DecodeContent([0x40 + |text| / 256, |text| % 256] + (text + rest)) == Some((text, rest))
  {
    hide DecodeByte, DecodeBytes;
    var first, second := 0x40 + |text| / 256, |text| % 256;
    assert [first, second] + (text + rest) == [first] + ([second] + (text + rest));
    ByteAppend(first, [second] + (text + rest));
    ByteAppend(second, text + rest);
    assert first / 64 == 1 && first % 64 * 256 + second == |text|;
    BytesAppend(text, rest);
  }

  lemma Content32(text: bytes, rest: bytes)
    requires |text| < Pow256(4)
    ensures DecodeContent([0x80] + (Big(|text|, 4) + (text + rest))) == Some((text, rest))
  {
    hide DecodeByte, DecodeBytes, Big, BigValue, Pow256;
    ByteAppend(0x80, Big(|text|, 4) + (text + rest));
    BytesAppend(Big(|text|, 4), text + rest);
    BigRoundTrip(|text|, 4);
    BytesAppend(text, rest);
  }

  lemma Content6(text: bytes, rest: bytes)
    requires |text| < 0x40
    ensures DecodeContent([|text|] + (text + rest)) == Some((text, rest))
  {
    hide DecodeByte, DecodeBytes;
    ByteAppend(|text|, text + rest);
    BytesAppend(text, rest);
  }

  lemma ContentImmediate(n: nat, rest: bytes)
    requires n <= 12
    ensures DecodeContent([0xF1 + n] + rest) == Some((Itoa(n), rest))
  {
    hide DecodeByte, Itoa;
    ByteAppend(0xF1 + n, rest);
  }

  lemma ContentRoundTrip(c: Content, rest: bytes)
    requires ValidContent(c)
    ensures DecodeContent(ContentBytes(c) + rest) == Some((ContentText(c), rest))
  {
    hide DecodeContent, Big, Little, Unsigned, Itoa, Pow256, FitsSigned, IntByte;
    match c
    case Text6(text) =>
      Content6(text, rest);
      Regroup([|text|], text, rest);
    case Text14(text) =>
      Content14(text, rest);
      Regroup([0x40 + |text| / 256, |text| % 256], text, rest);
    case Text32(text) =>
      Content32(text, rest);
      Regroup([0x80] + Big(|text|, 4), text, rest);
      Regroup([0x80], Big(|text|, 4), text + rest);
    case Int(n, width) =>
      ContentInt(n, width, rest);
      Regroup([IntByte(width)], Little(Unsigned(n, width), width), rest);
    case Immediate(n) =>
      ContentImmediate(n, rest);
  }

  /** Every entry decodes to its text, with either form of the preceding length. */
  lemma EntryRoundTrip(i: Item, rest: bytes)
    requires ValidItem(i)
    ensures var s := PrevlenBytes(i.prevlen) + ContentBytes(i.content) + rest;
            DecodeEntry(s[0], s[1..]) == Some((ContentText(i.content), rest))
  {
    hide DecodeContent, DecodeUint, ContentBytes, ContentText, Little, Pow256, ValidContent;
    var content := ContentBytes(i.content) + rest;
    var s := PrevlenBytes(i.prevlen) + ContentBytes(i.content) + rest;
    match i.prevlen
    case Short(n) =>
      assert s[1..] == content;
      ContentRoundTrip(i.content, rest);
    case Long(n) =>
      assert s[1..] == Little(n, 4) + content;
      UintAppend(n, 4, content);
      ContentRoundTrip(i.content, rest);
  }

  lemma {:induction false} EntriesRoundTrip(items: seq<Item>, rest: bytes)
    requires ValidItems(items)
    ensures DecodeEntries(ItemBytes(items) + rest, |items|) == Some((Texts(items), rest))
    decreases items
  {
    hide DecodeEntry, PrevlenBytes, ContentBytes, ContentText, ValidPrevlen, ValidContent;
    if items == [] {
      assert [] + rest == rest;
    } else {
      var more := ItemBytes(items[1..]) + rest;
      assert ValidItem(items[0]);
      assert ItemBytes(items) + rest == PrevlenBytes(items[0].prevlen) + ContentBytes(items[0].content) + more;
      EntryRoundTrip(items[0], more);
      EntriesRoundTrip(items[1..], rest);
    }
  }

  /** The first entry whose preceding length takes five bytes. */
  function FirstLong(items: seq<Item>): (k: nat)
    ensures k <= |items|
  {
    if items == [] || items[0].prevlen.Long? then 0 else 1 + FirstLong(items[1..])
  }

  lemma {:induction false} UntilRoundTrip(items: seq<Item>)
    requires ValidItems(items)
    ensures DecodeUntil(ItemBytes(items) + [0xFF]) ==
            if FirstLong(items) < |items| then Some(Texts(items)[..FirstLong(items)]) else None
    decreases items
  {
    hide DecodeContent, ContentBytes, ContentText, ValidContent;
    if items == [] {
      EndIsNoEntry();
    } else {
      var more := ItemBytes(items[1..]) + [0xFF];
      var item := items[0];
      assert ValidItem(item);
      var s := ItemBytes(items) + [0xFF];
      assert s == PrevlenBytes(item.prevlen) + ContentBytes(item.content) + more;
      EntryRoundTrip(item, more);
      UntilRoundTrip(items[1..]);
      UntilOne(s);
      if item.prevlen.Short? {
        var k := FirstLong(items[1..]);
        assert Texts(items)[..k + 1] == [ContentText(item.content)] + Texts(items[1..])[..k];
      }
    }
  }

  lemma EndIsNoEntry()
    ensures DecodeUntil([] + [0xFF]) == None
  {
    assert [0xFF][1..] == [];
    assert DecodeEntry(0xFF, []) == None;
  }

  lemma UntilOne(s: bytes)
    requires s != []
    ensures s[0] == 0xFE ==> DecodeUntil(s) == Some([])
    ensures s[0] != 0xFE && DecodeEntry(s[0], s[1..]).Some? ==>
              var d := DecodeEntry(s[0], s[1..]).value;
              DecodeUntil(s) == match DecodeUntil(d.1) case None => None case Some(more) => Some([d.0] + more)
  {
    hide DecodeEntry;
  }

  /** With fewer than 65535 entries, decoding a ziplist returns its elements. With more, the count is
      saturated and the traversal loses the list: it panics at the end byte, or stops in front of the
      first entry that follows a long one. */
  lemma ZiplistRoundTrip(total: nat, tail: nat, items: seq<Item>)
    requires total < Pow256(4) && tail < Pow256(4) && ValidItems(items)
    ensures Elements(ZiplistText(total, tail, items)) ==
            if |items| < 65535 then Some(Texts(items))
            else if FirstLong(items) < |items| then Some(Texts(items)[..FirstLong(items)])
            else None
  {
    hide DecodeUint, DecodeEntries, DecodeUntil, ItemBytes, Little, Pow256, ValidItem, Texts, FirstLong;
    var n := CountField(|items|);
    var entries := ItemBytes(items) + [0xFF];
    UintAppend(total, 4, Little(tail, 4) + (Little(n, 2) + entries));
    UintAppend(tail, 4, Little(n, 2) + entries);
    UintAppend(n, 2, entries);
    if |items| < 65535 {
      EntriesRoundTrip(items, [0xFF]);
    } else {
      UntilRoundTrip(items);
    }
  }

  /** So a ziplist is decoded to its elements if and only if it has fewer than 65535 of them. */
  lemma ZiplistComplete(total: nat, tail: nat, items: seq<Item>)
    requires total < Pow256(4) && tail < Pow256(4) && ValidItems(items)
    ensures Elements(ZiplistText(total, tail, items)) == Some(Texts(items)) <==> |items| < 65535
  {
    hide Elements, ZiplistText, Texts, Pow256;
    ZiplistRoundTrip(total, tail, items);
  }

  lemma StoredZiplist(s: StringForm, total: nat, tail: nat, items: seq<Item>, rest: bytes)
    requires total < Pow256(4) && tail < Pow256(4) && ValidItems(items) && |items| < 65535
    requires ValidString(s) && StringText(s) == ZiplistText(total, tail, items)
    ensures DecodeZiplist(StringBytes(s) + rest) == Some((Texts(items), rest))
  {
    hide DecodeString, Elements, StringBytes, StringText, ValidString, ZiplistText, Texts, Pow256, ValidItems;
    StringRoundTrip(s, rest);
    ZiplistRoundTrip(total, tail, items);
  }

  /** Any other end byte panics. */
  lemma OtherEnd(total: nat, tail: nat, items: seq<Item>, last: byte)
    requires total < Pow256(4) && tail < Pow256(4) && ValidItems(items) && |items| < 65535 && last != 0xFF
    ensures Elements(Little(total, 4) + (Little(tail, 4) + (Little(|items|, 2) + (ItemBytes(items) + [last])))) == None
  {
    hide DecodeUint, DecodeEntries, ItemBytes, Little, Pow256, ValidItem, Texts;
    Widths();
    var n := |items|;
    var entries := ItemBytes(items) + [last];
    UintAppend(total, 4, Little(tail, 4) + (Little(n, 2) + entries));
    UintAppend(tail, 4, Little(n, 2) + entries);
    UintAppend(n, 2, entries);
    EntriesRoundTrip(items, [last]);
  }
}
