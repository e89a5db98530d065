/** rdb/types/hash.go: hash values, with and without field expiry, as HSET and HPEXPIREAT commands. */
module RdbHash {
  import opened Bytes
  import opened Decimal
  import opened RdbPrimitives
  import opened RdbString
  import Listpack
  import Ziplist

  const TYPE_HASH := 4
  const TYPE_ZIPLIST := 13
  const TYPE_LISTPACK := 16
  const TYPE_EXPIRY_22 := 22
  const TYPE_EXPIRY_23 := 23
  const TYPE_EXPIRY_24 := 24
  const TYPE_EXPIRY_25 := 25

  /** A field as it is sent on; expireAt is milliseconds, and 0 for none. */
  datatype Field = Field(name: bytes, value: bytes, expireAt: int)

  // ---- The decoder ---------------------------------------------------------------------------

  /** How one counted field is laid out: name and value; those and eight bytes of expiry; a length of
      expiry and those, the length being relative to a minimum if there is one. */
  datatype Layout = Bare | Trailing | Leading(minExpire: Option<int>)

  function DecodeField(s: bytes, layout: Layout): Decoded<Field> {
    match layout
    case Bare =>
      var (name, rest) :- DecodeString(s);
      var (value, rest) :- DecodeString(rest);
      Some((Field(name, value, 0), rest))
    case Trailing =>
      var (name, rest) :- DecodeString(s);
      var (value, rest) :- DecodeString(rest);
      var (expireAt, rest) :- DecodeUint(rest, 8);
      Some((Field(name, value, Signed(expireAt, 8)), rest))
    case Leading(minExpire) =>
      var (ttl, rest) :- DecodeLength(s);
      var (name, rest) :- DecodeString(rest);
      var (value, rest) :- DecodeString(rest);
      Some((Field(name, value, Deadline(Signed(ttl, 8), minExpire)), rest))
  }

  /** The absolute expiry of a stored one. */
  function Deadline(ttl: int, minExpire: Option<int>): int {
    if ttl == 0 || minExpire.None? then ttl else Wrap(ttl + minExpire.value - 1)
  }

  function DecodeFields(s: bytes, n: nat, layout: Layout): Decoded<seq<Field>>
    decreases n
  {
    if n == 0 then Some(([], s))
    else
      var (first, rest) :- DecodeField(s, layout);
      var (more, rest) :- DecodeFields(rest, n - 1, layout);
      Some(([first] + more, rest))
  }

  function DecodeCounted(s: bytes, layout: Layout): Decoded<seq<Field>> {
    var (n, rest) :- DecodeLength(s);
    DecodeFields(rest, Turns(n), layout)
  }

  /** Names and values in turn; None is the index behind an odd number of them. */
  function Paired(es: seq<bytes>): Option<seq<Field>> {
    if es == [] then Some([])
    else if |es| < 2 then None
    else
      var more :- Paired(es[2..]);
      Some([Field(es[0], es[1], 0)] + more)
  }

  /** Names, values and decimal expiries in turn. */
  function Tripled(es: seq<bytes>): Option<seq<Field>> {
    if es == [] then Some([])
    else if |es| < 3 then None
    else
      var expireAt :- ParseInt(es[2]);
      var more :- Tripled(es[3..]);
      Some([Field(es[0], es[1], expireAt)] + more)
  }

  function DecodeHash(s: bytes, typeByte: int, isValkey: bool): Decoded<seq<Field>> {
    if typeByte == TYPE_HASH then DecodeCounted(s, Bare)
    else if typeByte == TYPE_ZIPLIST then
      var (es, rest) :- Ziplist.DecodeZiplist(s);
      var fields :- Paired(es);
      Some((fields, rest))
    else if typeByte == TYPE_LISTPACK then
      var (es, rest) :- Listpack.DecodeListpack(s);
      var fields :- Paired(es);
      Some((fields, rest))
    else if typeByte == TYPE_EXPIRY_22 then DecodeCounted(s, if isValkey then Trailing else Leading(None))
    else if typeByte == TYPE_EXPIRY_23 then DecodeTriples(s)
    else if typeByte == TYPE_EXPIRY_24 then
      var (minExpire, rest) :- DecodeUint(s, 8);
      DecodeCounted(rest, Leading(Some(Signed(minExpire, 8))))
    else if typeByte == TYPE_EXPIRY_25 then
      var (_, rest) :- DecodeUint(s, 8);
      DecodeTriples(rest)
    else None
  }

  function DecodeTriples(s: bytes): Decoded<seq<Field>> {
    var (es, rest) :- Listpack.DecodeListpack(s);
    var fields :- Tripled(es);
    Some((fields, rest))
  }

  // ---- The commands --------------------------------------------------------------------------

  function Set(key: bytes, f: Field): Argv { [Ascii("hset"), key, f.name, f.value] }

  function Expire(key: bytes, f: Field): Argv {
    [Ascii("hpexpireat"), key, Itoa(f.expireAt), Ascii("fields"), Ascii("1"), f.name]
  }

  function FieldCommands(key: bytes, f: Field): seq<Argv> {
    if f.expireAt == 0 then [Set(key, f)] else [Set(key, f), Expire(key, f)]
  }

  function FieldsCommands(key: bytes, fields: seq<Field>): seq<Argv> {
    if fields == [] then [] else FieldCommands(key, fields[0]) + FieldsCommands(key, fields[1..])
  }

  /** The commands of the fields still to come, behind those already sent. */
  function After(sent: seq<Argv>, key: bytes, d: Decoded<seq<Field>>): Decoded<seq<Argv>> {
    match d
    case None => None
    case Some((fields, rest)) => Some((sent + FieldsCommands(key, fields), rest))
  }

  lemma AfterNext(sent: seq<Argv>, key: bytes, f: Field, d: Decoded<seq<Field>>)
    ensures After(sent + FieldCommands(key, f), key, d) ==
            match d case None => None case Some(x) => After(sent, key, Some(([f] + x.0, x.1)))
  {
    hide FieldCommands;
    if d.Some? {
      var fields := d.value.0;
      assert ([f] + fields)[1..] == fields;
      assert sent + FieldCommands(key, f) + FieldsCommands(key, fields)
          == sent + (FieldCommands(key, f) + FieldsCommands(key, fields));
    }
  }

  lemma AfterNothing(sent: seq<Argv>, key: bytes, rest: bytes)
    ensures After(sent, key, Some(([], rest))) == Some((sent, rest))
  {
    assert sent + [] == sent;
  }

  /** Without a panic, exactly the commands of the fields were sent and the reader stands behind the value. */
  ghost predicate Sends(spec: Decoded<seq<Argv>>, ok: bool, sent: seq<Argv>, rest: bytes) {
    match spec
    case None => !ok
    case Some(d) => ok && sent == d.0 && rest == d.1
  }

  class HashObject {
    const key: bytes
    const typeByte: int
    const isValkey: bool
    const rd: Reader
    var cmdC: seq<Argv>

    constructor (rd: Reader, key: bytes, typeByte: int, isValkey: bool)
      ensures this.rd == rd && this.key == key && this.typeByte == typeByte && this.isValkey == isValkey && cmdC == []
    {
      this.rd, this.key, this.typeByte, this.isValkey, cmdC := rd, key, typeByte, isValkey, [];
    }

    method Send(f: Field)
      modifies this
      ensures cmdC == old(cmdC) + FieldCommands(key, f)
    {
      cmdC := cmdC + [Set(key, f)];
      if f.expireAt != 0 { cmdC := cmdC + [Expire(key, f)]; }
    }

    method ReadField(layout: Layout) returns (r: Option<Field>)
      modifies rd
      ensures Did(DecodeField(old(rd.rest), layout), r, rd.rest)
    {
      hide DecodeString, DecodeLength, DecodeUint, Signed, Wrap;
      var ttl := 0;
      if layout.Leading? {
        var stored :- ReadLength(rd);
        ttl := Signed(stored, 8);
      }
      var name :- ReadString(rd);
      var value :- ReadString(rd);
      match layout
      case Bare => return Some(Field(name, value, 0));
      case Trailing =>
        var expireAt :- ReadUint(rd, 8);
        return Some(Field(name, value, Signed(expireAt, 8)));
      case Leading(minExpire) => return Some(Field(name, value, Deadline(ttl, minExpire)));
    }

    /** readHash, readHashValkey and readHashTtl are one loop over counted fields. */
    method ReadCounted(layout: Layout) returns (ok: bool)
      modifies this, rd
      ensures Sends(After(old(cmdC), key, DecodeCounted(old(rd.rest), layout)), ok, cmdC, rd.rest)
    {
      hide DecodeLength, DecodeField, Turns, FieldCommands;
      var size := ReadLength(rd);
      if size.None? { return false; }
      var n := Turns(size.value);
      ghost var start := rd.rest;
      for i := 0 to n
        invariant After(cmdC, key, DecodeFields(rd.rest, n - i, layout)) ==
                  After(old(cmdC), key, DecodeFields(start, n, layout))
      {
        ghost var was := cmdC;
        var f := ReadField(layout);
        if f.None? { return false; }
        Send(f.value);
        AfterNext(was, key, f.value, DecodeFields(rd.rest, n - i - 1, layout));
      }
      AfterNothing(cmdC, key, rd.rest);
      return true;
    }

    /** The loop of readHashZiplist and readHashListpack. */
    method SendPairs(list: seq<bytes>) returns (ok: bool)
      modifies this
      ensures match Paired(list) case None => !ok case Some(fs) => ok && cmdC == old(cmdC) + FieldsCommands(key, fs)
    {
      hide FieldCommands;
      var i := 0;
      assert list[0..] == list;
      while i < |list|
        invariant 0 <= i <= |list|
        invariant Behind(cmdC, key, Paired(list[i..])) == Behind(old(cmdC), key, Paired(list))
        decreases |list| - i
      {
        if |list| < i + 2 {
          assert Paired(list[i..]) == None;
          return false;
        }
        ghost var was := cmdC;
        var f := Field(list[i], list[i + 1], 0);
        Send(f);
        assert list[i..][2..] == list[i + 2..];
        BehindNext(was, key, f, Paired(list[i + 2..]));
        i := i + 2;
      }
      assert cmdC + [] == cmdC;
      return true;
    }

    /** The loop of readHashListpackTtl. */
    method SendTriples(list: seq<bytes>) returns (ok: bool)
      modifies this
      ensures match Tripled(list) case None => !ok case Some(fs) => ok && cmdC == old(cmdC) + FieldsCommands(key, fs)
    {
      hide FieldCommands, ParseInt;
      var i := 0;
      assert list[0..] == list;
      while i < |list|
        invariant 0 <= i <= |list|
        invariant Behind(cmdC, key, Tripled(list[i..])) == Behind(old(cmdC), key, Tripled(list))
        decreases |list| - i
      {
        if |list| < i + 3 {
          assert Tripled(list[i..]) == None;
          return false;
        }
        ghost var was := cmdC;
        var expireAt := ParseInt(list[i + 2]);
        assert list[i..][3..] == list[i + 3..];
        if expireAt.None? { return false; }
        var f := Field(list[i], list[i + 1], expireAt.value);
        Send(f);
        BehindNext(was, key, f, Tripled(list[i + 3..]));
        i := i + 3;
      }
      assert cmdC + [] == cmdC;
      return true;
    }

    method ReadTriples() returns (ok: bool)
      modifies this, rd
      ensures Sends(After(old(cmdC), key, DecodeTriples(old(rd.rest))), ok, cmdC, rd.rest)
    {
      hide Listpack.DecodeListpack, Tripled, FieldsCommands;
      var list := Listpack.ReadListpack(rd);
      if list.None? { return false; }
      ok := SendTriples(list.value);
    }

    method Rewrite() returns (ok: bool)
      requires cmdC == []
      modifies this, rd
      ensures Sends(After([Delete(key)], key, DecodeHash(old(rd.rest), typeByte, isValkey)), ok, cmdC, rd.rest)
    {
      hide Listpack.DecodeListpack, Ziplist.DecodeZiplist, DecodeCounted, DecodeTriples, DecodeUint, Paired, Signed,
        FieldsCommands, Delete;
      cmdC := cmdC + [Delete(key)];
      if typeByte == TYPE_HASH {
        ok := ReadCounted(Bare);
      } else if typeByte == TYPE_ZIPLIST {
        var list := Ziplist.ReadZipList(rd);
        if list.None? { return false; }
        ok := SendPairs(list.value);
      } else if typeByte == TYPE_LISTPACK {
        var list := Listpack.ReadListpack(rd);
        if list.None? { return false; }
        ok := SendPairs(list.value);
      } else if typeByte == TYPE_EXPIRY_22 {
        ok := ReadCounted(if isValkey then Trailing else Leading(None));
      } else if typeByte == TYPE_EXPIRY_23 {
        ok := ReadTriples();
      } else if typeByte == TYPE_EXPIRY_24 {
        var minExpire := ReadUint(rd, 8);
        if minExpire.None? { return false; }
        ok := ReadCounted(Leading(Some(Signed(minExpire.value, 8))));
      } else if typeByte == TYPE_EXPIRY_25 {
        var minExpire := ReadUint(rd, 8);
        if minExpire.None? { return false; }
        ok := ReadTriples();
      } else {
        ok := false;
      }
    }
  }

  function Behind(sent: seq<Argv>, key: bytes, fields: Option<seq<Field>>): Option<seq<Argv>> {
    match fields
    case None => None
    case Some(fs) => Some(sent + FieldsCommands(key, fs))
  }

  lemma BehindNext(sent: seq<Argv>, key: bytes, f: Field, fields: Option<seq<Field>>)
    ensures Behind(sent + FieldCommands(key, f), key, fields) ==
            match fields case None => None case Some(fs) => Behind(sent, key, Some([f] + fs))
  {
    hide FieldCommands;
    if fields.Some? {
      var fs := fields.value;
      assert ([f] + fs)[1..] == fs;
      assert sent + FieldCommands(key, f) + FieldsCommands(key, fs)
          == sent + (FieldCommands(key, f) + FieldsCommands(key, fs));
    }
  }

  // ---- The format ----------------------------------------------------------------------------

  /** A counted field: how its parts are written. */
  datatype Stored = Stored(name: StringForm, value: StringForm, expireAt: nat, form: LengthForm)

  datatype HashValue =
    | Counted(layout: Layout, form: LengthForm, stored: seq<Stored>)
    | Zipped(total: nat, tail: nat, zips: seq<Ziplist.Item>, text: StringForm, fields: seq<Field>)
    | Packed(size: nat, items: seq<Listpack.Item>, text: StringForm, fields: seq<Field>)
    | Expiring(minExpire: Option<int>, size: nat, items: seq<Listpack.Item>, text: StringForm, fields: seq<Field>)

  /** The type byte of a value, and whether the file is Valkey's. */
  function TypeByte(v: HashValue): (int, bool) {
    match v
    case Counted(layout, _, _) => (
      match layout
      case Bare => (4, false)
      case Trailing => (22, true)
      case Leading(None) => (22, false)
      case Leading(Some(_)) => (24, false))
    case Zipped(_, _, _, _, _) => (13, false)
    case Packed(_, _, _, _) => (16, false)
    case Expiring(minExpire, _, _, _, _) => (if minExpire.None? then 23 else 25, false)
  }

  predicate ValidMin(minExpire: Option<int>) { minExpire.Some? ==> 0 <= minExpire.value <= MAX_INT64 }

  /** The length stored for an expiry: none is 0, and the minimum itself is 1. */
  function Ttl(expireAt: nat, minExpire: Option<int>): int {
    if expireAt == 0 || minExpire.None? then expireAt else expireAt - minExpire.value + 1
  }

  predicate ValidStored(f: Stored, layout: Layout) {
    && ValidString(f.name) && ValidString(f.value) && f.expireAt <= MAX_INT64
    && match layout
       case Bare => f.expireAt == 0
       case Trailing => true
       case Leading(minExpire) =>
         && ValidMin(minExpire)
         && (f.expireAt != 0 && minExpire.Some? ==> 1 <= minExpire.value <= f.expireAt)
         && 0 <= Ttl(f.expireAt, minExpire) && FitsForm(Ttl(f.expireAt, minExpire), f.form)
  }

  predicate AllValid(stored: seq<Stored>, layout: Layout) {
    forall k :: 0 <= k < |stored| ==> ValidStored(stored[k], layout)
  }

  function Pairs(fields: seq<Field>): seq<bytes> {
    if fields == [] then [] else [fields[0].name, fields[0].value] + Pairs(fields[1..])
  }

  function Triples(fields: seq<Field>): seq<bytes> {
    if fields == [] then []
    else [fields[0].name, fields[0].value, Itoa(fields[0].expireAt)] + Triples(fields[1..])
  }

  predicate ValidHash(v: HashValue) {
    match v
    case Counted(layout, form, stored) =>
      && FitsForm(|stored|, form) && |stored| <= MAX_INT64 && AllValid(stored, layout)
      && (layout.Leading? ==> ValidMin(layout.minExpire))
    case Zipped(total, tail, zips, text, fields) =>
      && total < Pow256(4) && tail < Pow256(4) && Ziplist.ValidItems(zips) && |zips| < 65535
      && ValidString(text) && StringText(text) == Ziplist.ZiplistText(total, tail, zips)
      && Ziplist.Texts(zips) == Pairs(fields) && forall k :: 0 <= k < |fields| ==> fields[k].expireAt == 0
    case Packed(size, items, text, fields) =>
      && size < Pow256(4) && Listpack.ValidItems(items) && |items| <= 65535
      && ValidString(text) && StringText(text) == Listpack.ListpackText(size, items)
      && Listpack.Texts(items) == Pairs(fields) && forall k :: 0 <= k < |fields| ==> fields[k].expireAt == 0
    case Expiring(minExpire, size, items, text, fields) =>
      && ValidMin(minExpire)
      && size < Pow256(4) && Listpack.ValidItems(items) && |items| <= 65535
      && ValidString(text) && StringText(text) == Listpack.ListpackText(size, items)
      && Listpack.Texts(items) == Triples(fields)
      && forall k :: 0 <= k < |fields| ==> 0 <= fields[k].expireAt <= MAX_INT64
  }

  function Plain(f: Stored): Field
    requires ValidString(f.name) && ValidString(f.value)
  {
    Field(StringText(f.name), StringText(f.value), f.expireAt)
  }

  function Plains(stored: seq<Stored>, layout: Layout): seq<Field>
    requires AllValid(stored, layout)
  {
    if stored == [] then []
    else
      assert ValidStored(stored[0], layout);
      [Plain(stored[0])] + Plains(stored[1..], layout)
  }

  /** The fields of the hash. */
  function FieldsOf(v: HashValue): seq<Field>
    requires ValidHash(v)
  {
    if v.Counted? then Plains(v.stored, v.layout) else v.fields
  }

  function PutField(f: Stored, layout: Layout, rest: bytes): bytes
    requires ValidStored(f, layout)
  {
    match layout
    case Bare => StringBytes(f.name) + (StringBytes(f.value) + rest)
    case Trailing => StringBytes(f.name) + (StringBytes(f.value) + (Little(f.expireAt, 8) + rest))
    case Leading(minExpire) =>
      LengthBytes(Ttl(f.expireAt, minExpire), f.form) + (StringBytes(f.name) + (StringBytes(f.value) + rest))
  }

  function PutFields(stored: seq<Stored>, layout: Layout, rest: bytes): bytes
    requires AllValid(stored, layout)
  {
    if stored == [] then rest
    else
      assert ValidStored(stored[0], layout);
      PutField(stored[0], layout, PutFields(stored[1..], layout, rest))
  }

  function PutMin(minExpire: Option<int>, rest: bytes): bytes
    requires ValidMin(minExpire)
  {
    if minExpire.None? then rest else Little(minExpire.value, 8) + rest
  }

  /** The bytes of a hash value, followed by rest. */
  function PutHash(v: HashValue, rest: bytes): bytes
    requires ValidHash(v)
  {
    match v
    case Counted(layout, form, stored) =>
      PutMin(if layout.Leading? then layout.minExpire else None,
             LengthBytes(|stored|, form) + PutFields(stored, layout, rest))
    case Zipped(_, _, _, text, _) => StringBytes(text) + rest
    case Packed(_, _, text, _) => StringBytes(text) + rest
    case Expiring(minExpire, _, _, text, _) => PutMin(minExpire, StringBytes(text) + rest)
  }

  // ---- Round trip ----------------------------------------------------------------------------

  lemma Time(n: nat, rest: bytes)
    requires n <= MAX_INT64
    ensures DecodeUint(Little(n, 8) + rest, 8) == Some((n, rest)) && Signed(n, 8) == n
  {
    hide DecodeUint, Little, Signed;
    Widths();
    UintAppend(n, 8, rest);
    TurnsSmall(n);
  }

  /** Adding the minimum back to a stored expiry gives the expiry. */
  lemma DeadlineBack(expireAt: nat, minExpire: Option<int>)
    requires expireAt <= MAX_INT64 && ValidMin(minExpire)
    requires expireAt != 0 && minExpire.Some? ==> 1 <= minExpire.value <= expireAt
    ensures 0 <= Ttl(expireAt, minExpire) <= MAX_INT64
    ensures Deadline(Ttl(expireAt, minExpire), minExpire) == expireAt
  {
  }

  lemma FieldBack(f: Stored, layout: Layout, rest: bytes)
    requires ValidStored(f, layout)
    ensures DecodeField(PutField(f, layout, rest), layout) == Some((Plain(f), rest))
  {
    hide DecodeString, DecodeLength, DecodeUint, StringBytes, StringText, ValidString, LengthBytes, FitsForm, Little,
      Signed, Ttl, Deadline;
    match layout
    case Bare =>
      StringRoundTrip(f.name, StringBytes(f.value) + rest);
      StringRoundTrip(f.value, rest);
    case Trailing =>
      StringRoundTrip(f.name, StringBytes(f.value) + (Little(f.expireAt, 8) + rest));
      StringRoundTrip(f.value, Little(f.expireAt, 8) + rest);
      Time(f.expireAt, rest);
    case Leading(minExpire) =>
      DeadlineBack(f.expireAt, minExpire);
      LengthRoundTrip(Ttl(f.expireAt, minExpire), f.form, StringBytes(f.name) + (StringBytes(f.value) + rest));
      TurnsSmall(Ttl(f.expireAt, minExpire));
      StringRoundTrip(f.name, StringBytes(f.value) + rest);
      StringRoundTrip(f.value, rest);
  }

  lemma {:induction false} FieldsBack(stored: seq<Stored>, layout: Layout, rest: bytes)
    requires AllValid(stored, layout)
    ensures DecodeFields(PutFields(stored, layout, rest), |stored|, layout) == Some((Plains(stored, layout), rest))
    decreases stored
  {
    hide DecodeField, PutField, ValidString, Plain;
    if stored != [] {
      assert ValidStored(stored[0], layout);
      FieldBack(stored[0], layout, PutFields(stored[1..], layout, rest));
      FieldsBack(stored[1..], layout, rest);
    }
  }

  lemma CountedBack(stored: seq<Stored>, layout: Layout, form: LengthForm, rest: bytes)
    requires FitsForm(|stored|, form) && |stored| <= MAX_INT64 && AllValid(stored, layout)
    ensures DecodeCounted(LengthBytes(|stored|, form) + PutFields(stored, layout, rest), layout) ==
            Some((Plains(stored, layout), rest))
  {
    hide DecodeLength, LengthBytes, FitsForm, DecodeFields, PutFields, Plains, AllValid, Turns;
    LengthRoundTrip(|stored|, form, PutFields(stored, layout, rest));
    TurnsSmall(|stored|);
    FieldsBack(stored, layout, rest);
  }

  lemma {:induction false} PairsBack(fields: seq<Field>)
    requires forall k :: 0 <= k < |fields| ==> fields[k].expireAt == 0
    ensures Paired(Pairs(fields)) == Some(fields)
  {
    if fields != [] {
      PairsBack(fields[1..]);
      assert Pairs(fields)[2..] == Pairs(fields[1..]);
      assert fields == [fields[0]] + fields[1..];
    }
  }

  lemma {:induction false} TriplesBack(fields: seq<Field>)
    requires forall k :: 0 <= k < |fields| ==> 0 <= fields[k].expireAt <= MAX_INT64
    ensures Tripled(Triples(fields)) == Some(fields)
  {
    hide ParseInt, Itoa;
    if fields != [] {
      TriplesBack(fields[1..]);
      ParseItoa(fields[0].expireAt);
      assert Triples(fields)[3..] == Triples(fields[1..]);
      assert fields == [fields[0]] + fields[1..];
    }
  }

  /** Every hash, in every one of its formats and ways of writing them, decodes to its fields and is
      consumed exactly. */
  lemma HashRoundTrip(v: HashValue, rest: bytes)
    requires ValidHash(v)
    ensures DecodeHash(PutHash(v, rest), TypeByte(v).0, TypeByte(v).1) == Some((FieldsOf(v), rest))
  {
    hide Listpack.DecodeListpack, Ziplist.DecodeZiplist, DecodeCounted, DecodeUint, Paired, Tripled, PutFields,
      LengthBytes, StringBytes, StringText, ValidString, Little, Plains, Pairs, Triples, FitsForm, AllValid, Signed,
      Ziplist.ZiplistText, Ziplist.Texts, Listpack.ListpackText, Listpack.Texts, Ziplist.ValidItems,
      Listpack.ValidItems, Pow256;
    match v
    case Counted(layout, form, stored) =>
      CountedBack(stored, layout, form, rest);
      if layout.Leading? && layout.minExpire.Some? {
        Time(layout.minExpire.value, LengthBytes(|stored|, form) + PutFields(stored, layout, rest));
      }
    case Zipped(total, tail, zips, text, fields) =>
      Ziplist.StoredZiplist(text, total, tail, zips, rest);
      PairsBack(fields);
    case Packed(size, items, text, fields) =>
      Listpack.StoredListpack(text, size, items, rest);
      PairsBack(fields);
    case Expiring(minExpire, size, items, text, fields) =>
      Listpack.StoredListpack(text, size, items, rest);
      TriplesBack(fields);
      if minExpire.Some? { Time(minExpire.value, StringBytes(text) + rest); }
  }

  // ---- What the commands do ------------------------------------------------------------------

  /** Value and expiry of each field. */
  type Hash = map<bytes, (bytes, int)>

  /** A hash under DEL, HSET and HPEXPIREAT; HSET clears the expiry of the field. */
  function Execute(state: Hash, argv: Argv, key: bytes): Hash {
    if |argv| == 2 && argv[0] == Ascii("del") && argv[1] == key then map[]
    else if |argv| == 4 && argv[..2] == [Ascii("hset"), key] then state[argv[2] := (argv[3], 0)]
    else if |argv| == 6 && argv[..2] == [Ascii("hpexpireat"), key] && argv[3..5] == [Ascii("fields"), Ascii("1")]
            && argv[5] in state && ParseInt(argv[2]).Some? then
      state[argv[5] := (state[argv[5]].0, ParseInt(argv[2]).value)]
    else state
  }

  function ExecuteAll(state: Hash, argvs: seq<Argv>, key: bytes): Hash
    decreases argvs
  {
    if argvs == [] then state else ExecuteAll(Execute(state, argvs[0], key), argvs[1..], key)
  }

  /** Each name with the value and expiry it was last given. */
  function Assigned(state: Hash, fields: seq<Field>): Hash
    decreases fields
  {
    if fields == [] then state
    else Assigned(state[fields[0].name := (fields[0].value, fields[0].expireAt)], fields[1..])
  }

  lemma SetRuns(state: Hash, key: bytes, f: Field)
    requires MIN_INT64 <= f.expireAt <= MAX_INT64
    ensures Execute(state, Set(key, f), key) == state[f.name := (f.value, 0)]
    ensures Execute(state[f.name := (f.value, 0)], Expire(key, f), key) == state[f.name := (f.value, f.expireAt)]
  {
    hide ParseInt, Itoa;
    ParseItoa(f.expireAt);
    assert |Delete(key)| == 2;
    assert Set(key, f)[..2] == [Ascii("hset"), key];
    assert Expire(key, f)[..2] == [Ascii("hpexpireat"), key];
    assert Expire(key, f)[3..5] == [Ascii("fields"), Ascii("1")];
  }

  lemma FieldRuns(state: Hash, key: bytes, f: Field, more: seq<Argv>)
    requires MIN_INT64 <= f.expireAt <= MAX_INT64
    ensures ExecuteAll(state, FieldCommands(key, f) + more, key) ==
            ExecuteAll(state[f.name := (f.value, f.expireAt)], more, key)
  {
    hide Execute, Set, Expire;
    SetRuns(state, key, f);
    var argvs := FieldCommands(key, f) + more;
    var cleared := state[f.name := (f.value, 0)];
    assert argvs[0] == Set(key, f);
    if f.expireAt == 0 {
      assert argvs[1..] == more;
    } else {
      var rest := [Expire(key, f)] + more;
      assert argvs[1..] == rest && rest[1..] == more;
      assert ExecuteAll(state, argvs, key) == ExecuteAll(cleared, rest, key);
    }
  }

  lemma {:induction false} FieldsRun(state: Hash, key: bytes, fields: seq<Field>)
    requires forall k :: 0 <= k < |fields| ==> MIN_INT64 <= fields[k].expireAt <= MAX_INT64
    ensures ExecuteAll(state, FieldsCommands(key, fields), key) == Assigned(state, fields)
    decreases fields
  {
    hide Execute, FieldCommands;
    if fields != [] {
      var f := fields[0];
      FieldRuns(state, key, f, FieldsCommands(key, fields[1..]));
      FieldsRun(state[f.name := (f.value, f.expireAt)], key, fields[1..]);
    }
  }

  function Look(state: Hash, name: bytes): Option<(bytes, int)> {
    if name in state then Some(state[name]) else None
  }

  /** The last field of that name. */
  function LastOf(fields: seq<Field>, name: bytes): Option<Field> {
    if fields == [] then None
    else if LastOf(fields[1..], name).Some? then LastOf(fields[1..], name)
    else if fields[0].name == name then Some(fields[0])
    else None
  }

  /** The last field of a name decides; other names keep what they had. */
  lemma {:induction false} AssignedLast(state: Hash, fields: seq<Field>, name: bytes)
    ensures Look(Assigned(state, fields), name) ==
            match LastOf(fields, name)
            case Some(f) => Some((f.value, f.expireAt))
            case None => Look(state, name)
    decreases fields
  {
    if fields != [] {
      AssignedLast(state[fields[0].name := (fields[0].value, fields[0].expireAt)], fields[1..], name);
    }
  }

  lemma {:induction false} PlainTimes(stored: seq<Stored>, layout: Layout)
    requires AllValid(stored, layout)
    ensures forall k :: 0 <= k < |Plains(stored, layout)| ==> 0 <= Plains(stored, layout)[k].expireAt <= MAX_INT64
  {
    if stored != [] {
      assert ValidStored(stored[0], layout);
      PlainTimes(stored[1..], layout);
    }
  }

  /** Whatever the key held, running what Rewrite sends leaves exactly the stored hash, each field with
      its own expiry. */
  lemma HashRebuilt(v: HashValue, key: bytes, rest: bytes, before: Hash)
    requires ValidHash(v)
    ensures var d := DecodeHash(PutHash(v, rest), TypeByte(v).0, TypeByte(v).1);
            d.Some? && d.value.1 == rest
            && ExecuteAll(before, [Delete(key)] + FieldsCommands(key, d.value.0), key) == Assigned(map[], FieldsOf(v))
  {
    hide DecodeHash, PutHash, TypeByte, FieldsCommands, Plains, AllValid;
    HashRoundTrip(v, rest);
    if v.Counted? { PlainTimes(v.stored, v.layout); }
    var argvs := FieldsCommands(key, FieldsOf(v));
    assert ([Delete(key)] + argvs)[1..] == argvs;
    FieldsRun(map[], key, FieldsOf(v));
  }

  /** A name without a value panics. */
  lemma {:induction false} OddElements(es: seq<bytes>, pairs: nat)
    requires |es| == 2 * pairs + 1
    ensures Paired(es) == None
    decreases pairs
  {
    if pairs > 0 { OddElements(es[2..], pairs - 1); }
  }

  /** So does a field without the expiry there has to be. */
  lemma {:induction false} NoExpiry(es: seq<bytes>, triples: nat)
    requires |es| == 3 * triples + 1 || |es| == 3 * triples + 2
    ensures Tripled(es) == None
    decreases triples
  {
    hide ParseInt;
    if triples > 0 { NoExpiry(es[3..], triples - 1); }
  }
}
