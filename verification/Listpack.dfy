/** rdb/structure/listpack.go: packed lists of strings and integers. */
module Listpack {
  import opened Bytes
  import opened Decimal
  import opened RdbPrimitives
  import opened RdbString

  /** lpEncodeBacklen: how many bytes follow an entry of len bytes. */
  function BacklenSize(len: nat): nat {
    if len <= 127 then 1
    else if len < 16383 then 2
    else if len < 2097151 then 3
    else if len < 268435455 then 4
    else 5
  }

  /** The closing conversion of readListpackEntry, on 64-bit words. */
  function FromUnsigned(uval: nat, negstart: nat, negmax: nat): int {
    if uval >= negstart then -Signed((negmax - uval) % Pow256(8), 8) - 1 else Signed(uval, 8)
  }

  /** The text read so far, once the trailing length of the entry has been skipped. */
  function SkipBacklen(text: bytes, rest: bytes, len: nat): Decoded<bytes> {
    var (_, rest) :- DecodeBytes(rest, BacklenSize(len));
    Some((text, rest))
  }

  function DecodeIntEntry(s: bytes, k: nat): Decoded<bytes> {
    var (uval, rest) :- DecodeUint(s, k);
    SkipBacklen(Itoa(FromUnsigned(uval, Pow256(k) / 2, Pow256(k) - 1)), rest, 1 + k)
  }

  function DecodeTextEntry(s: bytes, header: nat, length: nat): Decoded<bytes> {
    var (text, rest) :- DecodeBytes(s, length);
    SkipBacklen(text, rest, header + length)
  }

  /** readListpackEntry. */
  function DecodeEntry(s: bytes): Decoded<bytes> {
    var (first, rest) :- DecodeByte(s);
    if first < 0x80 then SkipBacklen(Itoa(first), rest, 1)
    else if first / 64 == 2 then DecodeTextEntry(rest, 1, first % 64)
    else if first / 32 == 6 then
      var (second, rest) :- DecodeByte(rest);
      SkipBacklen(Itoa(FromUnsigned(first % 32 * 256 + second, 4096, 8191)), rest, 2)
    else if first == 0xF1 then DecodeIntEntry(rest, 2)
    else if first == 0xF2 then DecodeIntEntry(rest, 3)
    else if first == 0xF3 then DecodeIntEntry(rest, 4)
    else if first == 0xF4 then DecodeIntEntry(rest, 8)
    else if first / 16 == 14 then
      var (second, rest) :- DecodeByte(rest);
      DecodeTextEntry(rest, 2, first % 16 * 256 + second)
    else if first == 0xF0 then
      var (length, rest) :- DecodeUint(rest, 4);
      DecodeTextEntry(rest, 5, length)
    else None
  }

  function DecodeEntries(s: bytes, n: nat): Decoded<seq<bytes>>
    decreases n
  {
    if n == 0 then Some(([], s))
    else
      var (first, rest) :- DecodeEntry(s);
      var (more, rest) :- DecodeEntries(rest, n - 1);
      Some(([first] + more, rest))
  }

  /** The elements of one listpack. */
  function Elements(text: bytes): Option<seq<bytes>> {
    var (_, rest) :- DecodeUint(text, 4);
    var (size, rest) :- DecodeUint(rest, 2);
    var (elements, rest) :- DecodeEntries(rest, size);
    var (last, _) :- DecodeByte(rest);
    if last == 0xFF then Some(elements) else None
  }

  /** ReadListpack. */
  function DecodeListpack(s: bytes): Decoded<seq<bytes>> {
    var (text, rest) :- DecodeString(s);
    var elements :- Elements(text);
    Some((elements, rest))
  }

  // ---- The reading methods -------------------------------------------------------------------

  method ReadListpackEntry(rd: Reader) returns (r: Option<bytes>)
    modifies rd
    ensures Did(DecodeEntry(old(rd.rest)), r, rd.rest)
  {
    hide DecodeByte, DecodeBytes, DecodeUint, Itoa, FromUnsigned, BacklenSize;
    Widths();
    var fireByte :- ReadByte(rd);
    var uval, negstart, negmax;
    if fireByte < 0x80 {
      uval, negstart, negmax := fireByte, 0xFFFF_FFFF_FFFF_FFFF, 0;
      Small(fireByte);
      var _ :- ReadBytes(rd, BacklenSize(1));
    } else if fireByte / 64 == 2 {
      var length: nat := fireByte % 64;
      var ele :- ReadBytes(rd, length);
      var _ :- ReadBytes(rd, BacklenSize(1 + length));
      return Some(ele);
    } else if fireByte / 32 == 6 {
      var secondByte :- ReadByte(rd);
      var high: nat := fireByte % 32;
      uval, negstart, negmax := high * 256 + secondByte, 4096, 8191;
      var _ :- ReadBytes(rd, BacklenSize(2));
    } else if fireByte == 0xF1 {
      uval :- ReadUint(rd, 2);
      negstart, negmax := 0x8000, 0xFFFF;
      var _ :- ReadBytes(rd, BacklenSize(1 + 2));
    } else if fireByte == 0xF2 {
      uval :- ReadUint(rd, 3);
      negstart, negmax := 0x80_0000, 0xFF_FFFF;
      var _ :- ReadBytes(rd, BacklenSize(1 + 3));
    } else if fireByte == 0xF3 {
      uval :- ReadUint(rd, 4);
      negstart, negmax := 0x8000_0000, 0xFFFF_FFFF;
      var _ :- ReadBytes(rd, BacklenSize(1 + 4));
    } else if fireByte == 0xF4 {
      uval :- ReadUint(rd, 8);
      negstart, negmax := 0x8000_0000_0000_0000, 0xFFFF_FFFF_FFFF_FFFF;
      var _ :- ReadBytes(rd, BacklenSize(1 + 8));
    } else if fireByte / 16 == 14 {
      var secondByte :- ReadByte(rd);
      var high: nat := fireByte % 16;
      var length := high * 256 + secondByte;
      var ele :- ReadBytes(rd, length);
      var _ :- ReadBytes(rd, BacklenSize(2 + length));
      return Some(ele);
    } else if fireByte == 0xF0 {
      var length :- ReadUint(rd, 4);
      var ele :- ReadBytes(rd, length);
      var _ :- ReadBytes(rd, BacklenSize(5 + length));
      return Some(ele);
    } else {
      return None;
    }
    return Some(Itoa(FromUnsigned(uval, negstart, negmax)));
  }

  lemma Small(n: nat)
    requires n < 0x80
    ensures FromUnsigned(n, 0xFFFF_FFFF_FFFF_FFFF, 0) == n
  {
    Widths();
  }

  method ReadListpack(rd: Reader) returns (r: Option<seq<bytes>>)
    modifies rd
    ensures Did(DecodeListpack(old(rd.rest)), r, rd.rest)
  {
    hide DecodeString, DecodeUint, DecodeByte, DecodeEntry;
    var text :- ReadString(rd);
    var inner := new Reader(text);
    var _ :- ReadUint(inner, 4);
    var size :- ReadUint(inner, 2);
    var elements: seq<bytes> := [];
    ghost var start, after := inner.rest, rd.rest;
    Continue([], start, size);
    for i := 0 to size
      invariant rd.rest == after
      invariant Continues(elements, inner.rest, size - i) == DecodeEntries(start, size)
    {
      NextEntry(elements, inner.rest, size - i);
      var ele :- ReadListpackEntry(inner);
      elements := elements + [ele];
    }
    Continue(elements, inner.rest, 0);
    var lastByte :- ReadByte(inner);
    if lastByte != 0xFF { return None; }
    return Some(elements);
  }

  /** The elements read so far, then n more. */
  function Continues(elements: seq<bytes>, s: bytes, n: nat): Decoded<seq<bytes>> {
    var (more, rest) :- DecodeEntries(s, n);
    Some((elements + more, rest))
  }

  lemma Continue(elements: seq<bytes>, s: bytes, n: nat)
    ensures Continues([], s, n) == DecodeEntries(s, n)
    ensures Continues(elements, s, 0) == Some((elements, s))
  {
    hide DecodeEntry;
    assert elements + [] == elements;
    var d := DecodeEntries(s, n);
    if d.Some? { assert [] + d.value.0 == d.value.0; }
  }

  lemma NextEntry(elements: seq<bytes>, s: bytes, n: nat)
    requires n > 0
    ensures DecodeEntry(s).None? ==> Continues(elements, s, n) == None
    ensures DecodeEntry(s).Some? ==>
              Continues(elements, s, n) == Continues(elements + [DecodeEntry(s).value.0], DecodeEntry(s).value.1, n - 1)
  {
    hide DecodeEntry;
    if DecodeEntry(s).Some? {
      var (first, rest) := DecodeEntry(s).value;
      var d := DecodeEntries(rest, n - 1);
      if d.Some? { assert elements + [first] + d.value.0 == elements + ([first] + d.value.0); }
    }
  }

  // ---- The format ----------------------------------------------------------------------------

  /** The entry encodings of Redis listpacks. */
  datatype Entry =
    | Uint7(n: int)
    | Int13(n: int)
    | Int(n: int, width: nat)
    | Text6(text: bytes)
    | Text12(text: bytes)
    | Text32(text: bytes)

  /** An entry and the bytes of its trailing length. */
  datatype Item = Item(entry: Entry, backlen: bytes)

  predicate ValidEntry(e: Entry) {
    match e
    case Uint7(n) => 0 <= n < 0x80
    case Int13(n) => -4096 <= n < 4096
    case Int(n, width) => width in {2, 3, 4, 8} && FitsSigned(n, width)
    case Text6(text) => |text| < 0x40
    case Text12(text) => |text| < 0x1000
    case Text32(text) => |text| < Pow256(4)
  }

  function EntryText(e: Entry): bytes {
    match e
    case Uint7(n) => Itoa(n)
    case Int13(n) => Itoa(n)
    case Int(n, _) => Itoa(n)
    case Text6(text) => text
    case Text12(text) => text
    case Text32(text) => text
  }

  function EntryBody(e: Entry): (b: bytes)
    requires ValidEntry(e)
    ensures b != [] && b[0] != 0xFF
  {
    match e
    case Uint7(n) => [n]
    case Int13(n) =>
      var uval := if n < 0 then n + 8192 else n;
      [0xC0 + uval / 256, uval % 256]
    case Int(n, width) => [if width == 8 then 0xF4 else 0xF1 + (width - 2)] + Little(Unsigned(n, width), width)
    case Text6(text) => [0x80 + |text|] + text
    case Text12(text) => [0xE0 + |text| / 256, |text| % 256] + text
    case Text32(text) => [0xF0] + Little(|text|, 4) + text
  }

  predicate ValidItem(i: Item) {
    ValidEntry(i.entry) && |i.backlen| == BacklenSize(|EntryBody(i.entry)|)
  }

  predicate ValidItems(items: seq<Item>) {
    forall k :: 0 <= k < |items| ==> ValidItem(items[k])
  }

  function ItemBytes(items: seq<Item>): bytes
    requires ValidItems(items)
  {
    if items == [] then [] else EntryBody(items[0].entry) + items[0].backlen + ItemBytes(items[1..])
  }

  function Texts(items: seq<Item>): (r: seq<bytes>)
    ensures |r| == |items|
  {
    if items == [] then [] else [EntryText(items[0].entry)] + Texts(items[1..])
  }

  /** A listpack: total length, count, entries, end byte. */
  function ListpackText(total: nat, items: seq<Item>): bytes
    requires ValidItems(items)
  {
    Little(total, 4) + (Little(CountField(|items|), 2) + (ItemBytes(items) + [0xFF]))
  }

  /** The trailing length has room for the entry length in groups of seven bits, none of them wasted
      but for the one value below each power of 128. */
  lemma BacklenRoom(len: nat)
    requires len < 0x8_0000_0000
    ensures len < Pow128(BacklenSize(len))
    ensures BacklenSize(len) > 1 ==> Pow128(BacklenSize(len) - 1) <= len + 1
    ensures BacklenSize(len) == Groups(len) + if len == 16383 || len == 2097151 || len == 268435455 then 1 else 0
  {
    assert Pow128(5) == 128 * Pow128(4) == 16384 * Pow128(3);
    assert Pow128(3) == 128 * Pow128(2) == 16384 * Pow128(1);
  }

  /** How many groups of seven bits a number has. */
  function Groups(n: nat): nat { if n < 128 then 1 else 1 + Groups(n / 128) }

  function Pow128(k: nat): nat { if k == 0 then 1 else 128 * Pow128(k - 1) }

  // ---- Round trip ----------------------------------------------------------------------------

  lemma BacklenAppend(text: bytes, backlen: bytes, rest: bytes, len: nat)
    requires |backlen| == BacklenSize(len)
    ensures SkipBacklen(text, backlen + rest, len) == Some((text, rest))
  {
    hide DecodeBytes;
    BytesAppend(backlen, rest);
  }

  /** The conversion is two's complement: over k bytes, and over 13 bits. */
  lemma FromUnsignedSigned(n: int, k: nat)
    requires k in {2, 3, 4, 8} && FitsSigned(n, k)
    ensures FromUnsigned(Unsigned(n, k), Pow256(k) / 2, Pow256(k) - 1) == n
  {
    Widths();
  }

  lemma FromUnsigned13(n: int)
    requires -4096 <= n < 4096
    ensures FromUnsigned(if n < 0 then n + 8192 else n, 4096, 8191) == n
  {
    Widths();
  }

  lemma IntEntry(n: int, k: nat, backlen: bytes, rest: bytes)
    requires k in {2, 3, 4, 8} && FitsSigned(n, k) && |backlen| == BacklenSize(1 + k)
    ensures DecodeIntEntry(Little(Unsigned(n, k), k) + (backlen + rest), k) == Some((Itoa(n), rest))
  {
    hide DecodeUint, Little, Unsigned, FromUnsigned, SkipBacklen, Itoa;
    SignedUnsigned(n, k);
    UintAppend(Unsigned(n, k), k, backlen + rest);
    FromUnsignedSigned(n, k);
    BacklenAppend(Itoa(n), backlen, rest, 1 + k);
  }

  lemma TextEntry(text: bytes, header: nat, backlen: bytes, rest: bytes)
    requires |backlen| == BacklenSize(header + |text|)
    ensures DecodeTextEntry(text + (backlen + rest), header, |text|) == Some((text, rest))
  {
    hide DecodeBytes, SkipBacklen;
    BytesAppend(text, backlen + rest);
    BacklenAppend(text, backlen, rest, header + |text|);
  }

  lemma Entry7(n: nat, backlen: bytes, rest: bytes)
    requires n < 0x80 && |backlen| == BacklenSize(1)
    ensures DecodeEntry([n] + (backlen + rest)) == Some((Itoa(n), rest))
  {
    hide DecodeByte, SkipBacklen, Itoa;
    ByteAppend(n, backlen + rest);
    BacklenAppend(Itoa(n), backlen, rest, 1);
  }

  lemma Entry13(n: int, backlen: bytes, rest: bytes)
    requires -4096 <= n < 4096 && |backlen| == BacklenSize(2)
    ensures var uval := if n < 0 then n + 8192 else n;
            DecodeEntry([0xC0 + uval / 256, uval % 256] + (backlen + rest)) == Some((Itoa(n), rest))
  {
    hide DecodeByte, SkipBacklen, Itoa, FromUnsigned;
    var uval := if n < 0 then n + 8192 else n;
    var first, second := 0xC0 + uval / 256, uval % 256;
    assert [first, second] + (backlen + rest) == [first] + ([second] + (backlen + rest));
    ByteAppend(first, [second] + (backlen + rest));
    ByteAppend(second, backlen + rest);
    assert first / 32 == 6 && first % 32 * 256 + second == uval;
    FromUnsigned13(n);
    BacklenAppend(Itoa(n), backlen, rest, 2);
  }

  lemma EntryInt(n: int, k: nat, backlen: bytes, rest: bytes)
    requires k in {2, 3, 4, 8} && FitsSigned(n, k) && |backlen| == BacklenSize(1 + k)
    ensures DecodeEntry([if k == 8 then 0xF4 else 0xF1 + (k - 2)] + (Little(Unsigned(n, k), k) + (backlen + rest))) ==
            Some((Itoa(n), rest))
  {
    hide DecodeByte, DecodeIntEntry, Little, Unsigned, Itoa;
    ByteAppend(if k == 8 then 0xF4 else 0xF1 + (k - 2), Little(Unsigned(n, k), k) + (backlen + rest));
    IntEntry(n, k, backlen, rest);
  }

  lemma EntryText6(text: bytes, backlen: bytes, rest: bytes)
    requires |text| < 0x40 && |backlen| == BacklenSize(1 + |text|)
    ensures DecodeEntry([0x80 + |text|] + (text + (backlen + rest))) == Some((text, rest))
  {
    hide DecodeByte, DecodeTextEntry;
    ByteAppend(0x80 + |text|, text + (backlen + rest));
    TextEntry(text, 1, backlen, rest);
  }

  lemma EntryText12(text: bytes, backlen: bytes, rest: bytes)
    requires |text| < 0x1000 && |backlen| == BacklenSize(2 + |text|)
    ensures DecodeEntry([0xE0 + |text| / 256, |text| % 256] + (text + (backlen + rest))) == Some((text, rest))
  {
    hide DecodeByte, DecodeTextEntry;
    var first, second := 0xE0 + |text| / 256, |text| % 256;
    var more := text + (backlen + rest);
    assert [first, second] + more == [first] + ([second] + more);
    ByteAppend(first, [second] + more);
    ByteAppend(second, more);
    assert first / 16 == 14 && first % 16 * 256 + second == |text|;
    TextEntry(text, 2, backlen, rest);
  }

  lemma EntryText32(text: bytes, backlen: bytes, rest: bytes)
    requires |text| < Pow256(4) && |backlen| == BacklenSize(5 + |text|)
    ensures DecodeEntry([0xF0] + (Little(|text|, 4) + (text + (backlen + rest)))) == Some((text, rest))
  {
    hide DecodeByte, DecodeUint, DecodeTextEntry, Little, Pow256;
    var more := text + (backlen + rest);
    ByteAppend(0xF0, Little(|text|, 4) + more);
    UintAppend(|text|, 4, more);
    TextEntry(text, 5, backlen, rest);
  }

  /** Every encoding of every entry decodes to its text, and the cursor lands behind its backlen. */
  lemma EntryRoundTrip(i: Item, rest: bytes)
    requires ValidItem(i)
    ensures DecodeEntry(EntryBody(i.entry) + i.backlen + rest) == Some((EntryText(i.entry), rest))
  {
    hide DecodeEntry, Little, Unsigned, Itoa, BacklenSize, Pow256;
    var body := EntryBody(i.entry);
    assert body + i.backlen + rest == body + (i.backlen + rest);
    match i.entry
    case Uint7(n) => Entry7(n, i.backlen, rest);
    case Int13(n) => Entry13(n, i.backlen, rest);
    case Int(n, k) =>
      EntryInt(n, k, i.backlen, rest);
      assert body + (i.backlen + rest) == [body[0]] + (Little(Unsigned(n, k), k) + (i.backlen + rest));
    case Text6(text) =>
      EntryText6(text, i.backlen, rest);
      assert body + (i.backlen + rest) == [0x80 + |text|] + (text + (i.backlen + rest));
    case Text12(text) =>
      EntryText12(text, i.backlen, rest);
      assert body + (i.backlen + rest) == [0xE0 + |text| / 256, |text| % 256] + (text + (i.backlen + rest));
    case Text32(text) =>
      EntryText32(text, i.backlen, rest);
      assert body + (i.backlen + rest) == [0xF0] + (Little(|text|, 4) + (text + (i.backlen + rest)));
  }

  /** Reading the first n of a run of entries. */
  lemma {:induction false} EntriesRoundTrip(items: seq<Item>, n: nat, rest: bytes)
    requires ValidItems(items) && n <= |items|
    ensures DecodeEntries(ItemBytes(items) + rest, n) == Some((Texts(items)[..n], ItemBytes(items[n..]) + rest))
    decreases n
  {
    hide DecodeEntry, EntryBody, EntryText, ValidEntry, BacklenSize;
    if n == 0 {
      assert items[0..] == items;
    } else {
      assert ValidItem(items[0]);
      var more := ItemBytes(items[1..]) + rest;
      assert ItemBytes(items) + rest == EntryBody(items[0].entry) + items[0].backlen + more;
      EntryRoundTrip(items[0], more);
      EntriesRoundTrip(items[1..], n - 1, rest);
      assert items[1..][n - 1..] == items[n..];
      assert Texts(items)[..n] == [EntryText(items[0].entry)] + Texts(items[1..])[..n - 1];
    }
  }

  lemma ItemsAfter(items: seq<Item>, n: nat)
    requires ValidItems(items) && n <= |items|
    ensures var after := ItemBytes(items[n..]) + [0xFF];
            after != [] && (after[0] == 0xFF <==> n == |items|)
  {
    hide EntryBody;
    if n < |items| {
      var after := ItemBytes(items[n..]) + [0xFF];
      assert ValidItem(items[n]) && items[n..][0] == items[n];
      assert after[0] == EntryBody(items[n].entry)[0];
    }
  }

  /** Decoding a listpack returns its elements exactly when it has at most 65535 of them; a longer
      one, whose count field is saturated, panics. */
  lemma ListpackRoundTrip(total: nat, items: seq<Item>)
    requires total < Pow256(4) && ValidItems(items)
    ensures Elements(ListpackText(total, items)) == if |items| <= 65535 then Some(Texts(items)) else None
  {
    hide DecodeUint, DecodeEntries, ItemBytes, Little, Pow256, ValidItem, Texts;
    var n := CountField(|items|);
    var entries := ItemBytes(items) + [0xFF];
    UintAppend(total, 4, Little(n, 2) + entries);
    UintAppend(n, 2, entries);
    EntriesRoundTrip(items, n, [0xFF]);
    ItemsAfter(items, n);
    assert |items| <= 65535 ==> Texts(items)[..n] == Texts(items);
  }

  /** The same behind any string encoding of the listpack, with anything following. */
  lemma StoredListpack(s: StringForm, total: nat, items: seq<Item>, rest: bytes)
    requires total < Pow256(4) && ValidItems(items)
    requires ValidString(s) && StringText(s) == ListpackText(total, items)
    ensures DecodeListpack(StringBytes(s) + rest) ==
            if |items| <= 65535 then Some((Texts(items), rest)) else None
  {
    hide DecodeString, Elements, StringBytes, StringText, ValidString, ListpackText, Texts, Pow256, ValidItems;
    StringRoundTrip(s, rest);
    ListpackRoundTrip(total, items);
  }

  /** Any other end byte panics. */
  lemma OtherEnd(total: nat, items: seq<Item>, last: byte)
    requires total < Pow256(4) && ValidItems(items) && |items| < 65535 && last != 0xFF
    ensures Elements(Little(total, 4) + (Little(|items|, 2) + (ItemBytes(items) + [last]))) == None
  {
    hide DecodeUint, DecodeEntries, ItemBytes, Little, Pow256, ValidItem, Texts;
    Widths();
    var n := |items|;
    var entries := ItemBytes(items) + [last];
    UintAppend(total, 4, Little(n, 2) + entries);
    UintAppend(n, 2, entries);
    EntriesRoundTrip(items, n, [last]);
    assert items[n..] == [] && ItemBytes([]) + [last] == [last] by { NoItems([last]); }
  }

  lemma NoItems(rest: bytes)
    ensures ItemBytes([]) + rest == rest
  {
  }
}
