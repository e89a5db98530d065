/** ParseObject of rdb/types/interface.go for strings, lists, hashes and streams, and whole RDB files of
    such values. */
module RdbValues {
  import opened Bytes
  import opened Decimal
  import opened CommandStream
  import opened RdbPrimitives
  import opened RdbString
  import Listpack
  import Ziplist
  import L = RdbList
  import H = RdbHash
  import T = RdbStream
  import F = RdbStreamFormat
  import S = RdbStreamServer
  import opened RdbLoop
  import opened RdbFile

  const TYPE_STRING := 0

  function SetString(key: bytes, value: bytes): Argv { [Ascii("set"), key, value] }

  function Behind(first: seq<Argv>, d: Decoded<seq<Argv>>): Decoded<seq<Argv>> {
    match d
    case None => None
    case Some((argvs, rest)) => Some((first + argvs, rest))
  }

  function DecodeStringValue(s: bytes, key: bytes): Decoded<seq<Argv>> {
    var (value, rest) :- DecodeString(s);
    Some(([SetString(key, value)], rest))
  }

  function DecodeListValue(s: bytes, typeByte: int, key: bytes): Decoded<seq<Argv>> {
    var (elements, rest) :- L.DecodeList(s, typeByte);
    Some(([Delete(key)] + L.Pushes(key, elements), rest))
  }

  function DecodeHashValue(s: bytes, typeByte: int, key: bytes, isValkey: bool): Decoded<seq<Argv>> {
    var (fields, rest) :- H.DecodeHash(s, typeByte, isValkey);
    Some(([Delete(key)] + H.FieldsCommands(key, fields), rest))
  }

  predicate IsList(typeByte: int) {
    typeByte in {L.TYPE_LIST, L.TYPE_ZIPLIST, L.TYPE_QUICKLIST, L.TYPE_QUICKLIST_2}
  }

  predicate IsHash(typeByte: int) {
    typeByte in {H.TYPE_HASH, H.TYPE_ZIPLIST, H.TYPE_LISTPACK, H.TYPE_EXPIRY_22, H.TYPE_EXPIRY_23, H.TYPE_EXPIRY_24,
                 H.TYPE_EXPIRY_25}
  }

  predicate IsStream(typeByte: int) { typeByte in {T.TYPE_STREAM, T.TYPE_STREAM_2, T.TYPE_STREAM_3} }

  /** The value decoder of the loop, for the types modelled here. */
  function DecodeValue(s: bytes, typeByte: byte, key: bytes, isValkey: bool): Decoded<seq<Argv>> {
    if typeByte == TYPE_STRING then DecodeStringValue(s, key)
    else if IsList(typeByte) then DecodeListValue(s, typeByte, key)
    else if IsHash(typeByte) then DecodeHashValue(s, typeByte, key, isValkey)
    else if IsStream(typeByte) then Behind([Delete(key)], T.DecodeStream(s, key, typeByte))
    else None
  }

  // ---- Values --------------------------------------------------------------------------------

  datatype Value =
    | StringValue(s: StringForm)
    | Listed(list: L.ListValue)
    | Hashed(hash: H.HashValue)
    | Streamed(stream: F.Stream, version: byte)

  predicate ValidValue(v: Value) {
    match v
    case StringValue(s) => ValidString(s)
    case Listed(list) => L.ValidList(list)
    case Hashed(hash) => H.ValidHash(hash)
    case Streamed(stream, version) => F.ValidStream(stream) && IsStream(version)
  }

  /** The type byte of a value. */
  function TypeOf(v: Value): byte
    requires ValidValue(v)
  {
    match v
    case StringValue(_) => 0
    case Listed(list) => list.typeByte
    case Hashed(hash) => H.TypeByte(hash).0
    case Streamed(_, version) => version
  }

  /** Type 22 is laid out differently by Valkey and by Redis. */
  predicate Fits(v: Value, isValkey: bool) {
    v.Hashed? && H.TypeByte(v.hash).0 == H.TYPE_EXPIRY_22 ==> H.TypeByte(v.hash).1 == isValkey
  }

  function PutValue(v: Value, rest: bytes): bytes
    requires ValidValue(v)
  {
    match v
    case StringValue(s) => PutString(s, rest)
    case Listed(list) => L.PutList(list, rest)
    case Hashed(hash) => H.PutHash(hash, rest)
    case Streamed(stream, version) => F.PutStream(stream, version, rest)
  }

  /** The commands that rebuild a value. */
  function Rebuild(v: Value, key: bytes): seq<Argv>
    requires ValidValue(v)
  {
    match v
    case StringValue(s) => [[Ascii("set"), key, StringText(s)]]
    case Listed(list) => [Delete(key)] + L.Pushes(key, L.ElementsOf(list.pieces))
    case Hashed(hash) => [Delete(key)] + H.FieldsCommands(key, H.FieldsOf(hash))
    case Streamed(stream, _) => [Delete(key)] + F.Commands(stream, key)
  }

  lemma HashValkey(s: bytes, typeByte: int, isValkey: bool)
    requires typeByte != H.TYPE_EXPIRY_22
    ensures H.DecodeHash(s, typeByte, isValkey) == H.DecodeHash(s, typeByte, false)
  {
  }

  /** Each value is decoded to the commands that rebuild it, and exactly its bytes are read. */
  lemma ValueRoundTrip(v: Value, key: bytes, isValkey: bool, rest: bytes)
    requires ValidValue(v) && Fits(v, isValkey)
    ensures DecodeValue(PutValue(v, rest), TypeOf(v), key, isValkey) == Some((Rebuild(v, key), rest))
  {
    hide DecodeString, PutString, StringText, ValidString, L.DecodeList, L.PutList, L.ElementsOf, L.Pushes,
      H.DecodeHash, H.PutHash, H.FieldsOf, H.FieldsCommands, H.ValidHash, T.DecodeStream, F.PutStream, F.Commands,
      F.ValidStream, Delete;
    match v
    case StringValue(s) => NameBack(s, rest);
    case Listed(list) => L.ListRoundTrip(list, rest);
    case Hashed(hash) =>
      H.HashRoundTrip(hash, rest);
      if H.TypeByte(hash).0 != H.TYPE_EXPIRY_22 {
        HashValkey(H.PutHash(hash, rest), H.TypeByte(hash).0, isValkey);
        HashValkey(H.PutHash(hash, rest), H.TypeByte(hash).0, H.TypeByte(hash).1);
      }
    case Streamed(stream, version) => F.StreamRoundTrip(stream, key, version, rest);
  }

  // ---- What the commands do ------------------------------------------------------------------

  ghost predicate RebuildsList(list: L.ListValue, argvs: seq<Argv>, key: bytes)
    requires L.ValidList(list)
  {
    var elements := L.ElementsOf(list.pieces);
    forall before :: L.ExecuteAll(before, argvs, key) == (if elements == [] then None else Some(elements))
  }

  ghost predicate RebuildsHash(hash: H.HashValue, argvs: seq<Argv>, key: bytes)
    requires H.ValidHash(hash)
  {
    forall before :: H.ExecuteAll(before, argvs, key) == H.Assigned(map[], H.FieldsOf(hash))
  }

  ghost predicate RebuildsStream(stream: F.Stream, argvs: seq<Argv>, key: bytes)
    requires F.ValidStream(stream)
  {
    S.DistinctGroups(stream.groups) ==>
      forall before :: S.ExecuteAll(before, argvs, key) ==
                       (if S.Rebuildable(stream) then Some(Some(S.StreamOf(stream))) else None)
  }

  /** Whatever the key held, a server that runs these commands holds exactly the value: the text, the list, the
      hash with the expiry of each field, or the stream. */
  ghost predicate Rebuilds(v: Value, argvs: seq<Argv>, key: bytes)
    requires ValidValue(v)
  {
    match v
    case StringValue(s) => argvs == [[Ascii("set"), key, StringText(s)]]
    case Listed(list) => RebuildsList(list, argvs, key)
    case Hashed(hash) => RebuildsHash(hash, argvs, key)
    case Streamed(stream, _) => RebuildsStream(stream, argvs, key)
  }

  lemma ListRebuilds(list: L.ListValue, key: bytes)
    requires L.ValidList(list)
    ensures RebuildsList(list, Rebuild(Listed(list), key), key)
  {
    hide L.ElementsOf, L.Pushes, L.DecodeList, L.PutList, L.ExecuteAll, L.ValidPiece, Delete;
    L.ListRoundTrip(list, []);
    var elements := L.ElementsOf(list.pieces);
    forall before
      ensures L.ExecuteAll(before, Rebuild(Listed(list), key), key) == (if elements == [] then None else Some(elements))
    {
      L.ListRebuilt(list, key, [], before);
    }
  }

  lemma HashRebuilds(hash: H.HashValue, key: bytes)
    requires H.ValidHash(hash)
    ensures RebuildsHash(hash, Rebuild(Hashed(hash), key), key)
  {
    hide H.DecodeHash, H.PutHash, H.FieldsOf, H.FieldsCommands, H.ExecuteAll, H.Assigned, H.ValidHash, Delete;
    H.HashRoundTrip(hash, []);
    forall before
      ensures H.ExecuteAll(before, Rebuild(Hashed(hash), key), key) == H.Assigned(map[], H.FieldsOf(hash))
    {
      H.HashRebuilt(hash, key, [], before);
    }
  }

  lemma StreamRebuilds(stream: F.Stream, version: byte, key: bytes)
    requires F.ValidStream(stream) && IsStream(version)
    ensures RebuildsStream(stream, Rebuild(Streamed(stream, version), key), key)
  {
    hide T.DecodeStream, F.PutStream, F.Commands, S.ExecuteAll, S.StreamOf, S.Rebuildable, S.DistinctGroups,
      F.ValidNodes, F.ValidGroups, ValidNum, ValidNums, ValidCount;
    if S.DistinctGroups(stream.groups) {
      F.StreamRoundTrip(stream, key, version, []);
      forall before
        ensures S.ExecuteAll(before, Rebuild(Streamed(stream, version), key), key) ==
                (if S.Rebuildable(stream) then Some(Some(S.StreamOf(stream))) else None)
      {
        S.StreamRebuilt(stream, key, version, [], before);
      }
    }
  }

  /** Each value is decoded to commands that rebuild it on a server, and exactly its bytes are read. */
  lemma ValueRebuilt(v: Value, key: bytes, isValkey: bool, rest: bytes)
    requires ValidValue(v) && Fits(v, isValkey)
    ensures var d := DecodeValue(PutValue(v, rest), TypeOf(v), key, isValkey);
            d.Some? && d.value.1 == rest && Rebuilds(v, d.value.0, key)
  {
    hide DecodeValue, PutValue, StringText, ValidString, RebuildsList, RebuildsHash, RebuildsStream, L.ValidList,
      H.ValidHash, F.ValidStream, Fits, TypeOf;
    ValueRoundTrip(v, key, isValkey, rest);
    match v
    case StringValue(_) =>
    case Listed(list) => ListRebuilds(list, key);
    case Hashed(hash) => HashRebuilds(hash, key);
    case Streamed(stream, version) => StreamRebuilds(stream, version, key);
  }

  // ---- What follows a value does not change its bytes ----------------------------------------

  lemma NumLocal(x: Num, a: bytes, rest: bytes)
    requires ValidNum(x)
    ensures PutNum(x, a + rest) == PutNum(x, a) + rest
  {
    hide LengthBytes, FitsForm;
    Regroup(LengthBytes(x.n, x.form), a, rest);
  }

  lemma CountLocal(n: nat, form: LengthForm, a: bytes, rest: bytes)
    requires ValidCount(n, form)
    ensures PutCount(n, form, a + rest) == PutCount(n, form, a) + rest
  {
    hide LengthBytes;
    Regroup(LengthBytes(n, form), a, rest);
  }

  lemma StringLocal(s: StringForm, a: bytes, rest: bytes)
    requires ValidString(s)
    ensures PutString(s, a + rest) == PutString(s, a) + rest
  {
    hide StringBytes, ValidString;
    Regroup(StringBytes(s), a, rest);
  }

  lemma TimeLocal(t: nat, a: bytes, rest: bytes)
    ensures PutTime(t, a + rest) == PutTime(t, a) + rest
  {
    Regroup(Little(t, 8), a, rest);
  }

  lemma IdLocal(id: F.Id, a: bytes, rest: bytes)
    ensures F.PutId(id, a + rest) == F.PutId(id, a) + rest
  {
    Regroup(Big(id.ms, 8) + Big(id.seqno, 8), a, rest);
  }

  lemma {:induction false} NumsLocal(xs: seq<Num>, a: bytes, rest: bytes)
    requires ValidNums(xs)
    ensures PutNums(xs, a + rest) == PutNums(xs, a) + rest
    decreases xs
  {
    hide PutNum, ValidNum;
    if xs != [] {
      NumsLocal(xs[1..], a, rest);
      NumLocal(xs[0], PutNums(xs[1..], a), rest);
    }
  }

  lemma {:induction false} IdsLocal(ids: seq<F.Id>, a: bytes, rest: bytes)
    ensures F.PutIds(ids, a + rest) == F.PutIds(ids, a) + rest
    decreases ids
  {
    hide F.PutId;
    if ids != [] {
      IdsLocal(ids[1..], a, rest);
      IdLocal(ids[0], F.PutIds(ids[1..], a), rest);
    }
  }

  lemma {:induction false} NodesLocal(nodes: seq<F.Node>, a: bytes, rest: bytes)
    requires F.ValidNodes(nodes)
    ensures F.PutNodes(nodes, a + rest) == F.PutNodes(nodes, a) + rest
    decreases nodes
  {
    hide PutString, F.ValidNode;
    if nodes != [] {
      F.NodeValid(nodes);
      NodesLocal(nodes[1..], a, rest);
      StringLocal(nodes[0].form, F.PutNodes(nodes[1..], a), rest);
      StringLocal(nodes[0].idForm, PutString(nodes[0].form, F.PutNodes(nodes[1..], a)), rest);
    }
  }

  lemma {:induction false} PelLocal(pel: seq<F.Delivery>, a: bytes, rest: bytes)
    requires forall k :: 0 <= k < |pel| ==> F.ValidDelivery(pel[k])
    ensures F.PutPel(pel, a + rest) == F.PutPel(pel, a) + rest
    decreases pel
  {
    hide F.PutId, PutTime, PutNum, ValidNum;
    if pel != [] {
      var d := pel[0];
      assert F.ValidDelivery(d);
      var more := F.PutPel(pel[1..], a);
      PelLocal(pel[1..], a, rest);
      NumLocal(d.count, more, rest);
      TimeLocal(d.time, PutNum(d.count, more), rest);
      IdLocal(d.id, PutTime(d.time, PutNum(d.count, more)), rest);
    }
  }

  lemma ConsumerLocal(c: F.Consumer, typeByte: int, a: bytes, rest: bytes)
    requires F.ValidConsumer(c)
    ensures F.PutConsumer(c, typeByte, a + rest) == F.PutConsumer(c, typeByte, a) + rest
  {
    hide PutString, PutTime, PutCount, F.PutIds, ValidString, ValidCount;
    IdsLocal(c.pel, a, rest);
    CountLocal(|c.pel|, c.form, F.PutIds(c.pel, a), rest);
    var pel := PutCount(|c.pel|, c.form, F.PutIds(c.pel, a));
    TimeLocal(c.active, pel, rest);
    var seen := if typeByte >= T.TYPE_STREAM_3 then PutTime(c.active, pel) else pel;
    TimeLocal(c.seen, seen, rest);
    StringLocal(c.name, PutTime(c.seen, seen), rest);
  }

  lemma {:induction false} ConsumersLocal(cs: seq<F.Consumer>, typeByte: int, a: bytes, rest: bytes)
    requires forall k :: 0 <= k < |cs| ==> F.ValidConsumer(cs[k])
    ensures F.PutConsumers(cs, typeByte, a + rest) == F.PutConsumers(cs, typeByte, a) + rest
    decreases cs
  {
    hide F.PutConsumer, F.ValidConsumer;
    if cs != [] {
      ConsumersLocal(cs[1..], typeByte, a, rest);
      ConsumerLocal(cs[0], typeByte, F.PutConsumers(cs[1..], typeByte, a), rest);
    }
  }

  lemma GroupLocal(g: F.Group, typeByte: int, a: bytes, rest: bytes)
    requires F.ValidGroup(g)
    ensures F.PutGroup(g, typeByte, a + rest) == F.PutGroup(g, typeByte, a) + rest
  {
    hide PutString, PutNum, PutCount, F.PutPel, F.PutConsumers, ValidString, ValidNum, ValidCount, F.ValidDelivery,
      F.ValidConsumer;
    ConsumersLocal(g.consumers, typeByte, a, rest);
    var consumers := F.PutConsumers(g.consumers, typeByte, a);
    CountLocal(|g.consumers|, g.form, consumers, rest);
    var counted := PutCount(|g.consumers|, g.form, consumers);
    PelLocal(g.pel, counted, rest);
    CountLocal(|g.pel|, g.pelForm, F.PutPel(g.pel, counted), rest);
    var pel := PutCount(|g.pel|, g.pelForm, F.PutPel(g.pel, counted));
    NumLocal(g.offset, pel, rest);
    var offset := if typeByte >= T.TYPE_STREAM_2 then PutNum(g.offset, pel) else pel;
    NumLocal(g.seqno, offset, rest);
    NumLocal(g.ms, PutNum(g.seqno, offset), rest);
    StringLocal(g.name, PutNum(g.ms, PutNum(g.seqno, offset)), rest);
  }

  lemma {:induction false} GroupsLocal(gs: seq<F.Group>, typeByte: int, a: bytes, rest: bytes)
    requires F.ValidGroups(gs)
    ensures F.PutGroups(gs, typeByte, a + rest) == F.PutGroups(gs, typeByte, a) + rest
    decreases gs
  {
    hide F.PutGroup, F.ValidGroup;
    if gs != [] {
      GroupsLocal(gs[1..], typeByte, a, rest);
      GroupLocal(gs[0], typeByte, F.PutGroups(gs[1..], typeByte, a), rest);
    }
  }

  lemma StreamLocal(x: F.Stream, typeByte: int, a: bytes, rest: bytes)
    requires F.ValidStream(x)
    ensures F.PutStream(x, typeByte, a + rest) == F.PutStream(x, typeByte, a) + rest
  {
    hide PutNum, PutNums, PutCount, F.PutNodes, F.PutGroups, ValidNum, ValidNums, ValidCount, F.ValidNodes, F.ValidGroups;
    GroupsLocal(x.groups, typeByte, a, rest);
    var groups := F.PutGroups(x.groups, typeByte, a);
    CountLocal(|x.groups|, x.groupForm, groups, rest);
    var counted := PutCount(|x.groups|, x.groupForm, groups);
    NumsLocal(x.extra, counted, rest);
    var extra := if typeByte >= T.TYPE_STREAM_2 then PutNums(x.extra, counted) else counted;
    NumLocal(x.seqno, extra, rest);
    NumLocal(x.ms, PutNum(x.seqno, extra), rest);
    NumLocal(x.length, PutNum(x.ms, PutNum(x.seqno, extra)), rest);
    var trailer := F.PutTrailer(x, typeByte, a);
    NodesLocal(x.nodes, trailer, rest);
    CountLocal(|x.nodes|, x.form, F.PutNodes(x.nodes, trailer), rest);
  }

  lemma PieceLocal(p: L.Piece, a: bytes, rest: bytes)
    requires L.ValidPiece(p)
    ensures L.PutPiece(p, a + rest) == L.PutPiece(p, a) + rest
  {
    hide StringBytes, ValidString, Ziplist.ZiplistText, Listpack.ListpackText, StringText;
    match p
    case Element(s) => Regroup(StringBytes(s), a, rest);
    case Zip(_, _, _, form) => Regroup(StringBytes(form), a, rest);
    case Plain(s) =>
      Regroup(StringBytes(s), a, rest);
      Regroup([L.PLAIN], StringBytes(s) + a, rest);
    case Packed(_, _, form) =>
      Regroup(StringBytes(form), a, rest);
      Regroup([L.PACKED], StringBytes(form) + a, rest);
  }

  lemma {:induction false} PiecesLocal(pieces: seq<L.Piece>, a: bytes, rest: bytes)
    requires forall k :: 0 <= k < |pieces| ==> L.ValidPiece(pieces[k])
    ensures L.PutPieces(pieces, a + rest) == L.PutPieces(pieces, a) + rest
    decreases pieces
  {
    hide L.PutPiece, L.ValidPiece;
    if pieces != [] {
      PiecesLocal(pieces[1..], a, rest);
      PieceLocal(pieces[0], L.PutPieces(pieces[1..], a), rest);
    }
  }

  lemma ListLocal(v: L.ListValue, a: bytes, rest: bytes)
    requires L.ValidList(v)
    ensures L.PutList(v, a + rest) == L.PutList(v, a) + rest
  {
    hide LengthBytes, FitsForm, L.PutPieces, L.ValidPiece;
    PiecesLocal(v.pieces, a, rest);
    if v.typeByte != L.TYPE_ZIPLIST { Regroup(LengthBytes(|v.pieces|, v.form), L.PutPieces(v.pieces, a), rest); }
  }

  lemma FieldLocal(f: H.Stored, layout: H.Layout, a: bytes, rest: bytes)
    requires H.ValidStored(f, layout)
    ensures H.PutField(f, layout, a + rest) == H.PutField(f, layout, a) + rest
  {
    hide StringBytes, ValidString, LengthBytes, FitsForm, Little, H.Ttl;
    var name, value := StringBytes(f.name), StringBytes(f.value);
    Regroup(value, a, rest);
    Regroup(name, value + a, rest);
    match layout
    case Bare =>
    case Trailing =>
      var time := Little(f.expireAt, 8);
      Regroup(time, a, rest);
      Regroup(value, time + a, rest);
      Regroup(name, value + (time + a), rest);
    case Leading(minExpire) =>
      Regroup(LengthBytes(H.Ttl(f.expireAt, minExpire), f.form), name + (value + a), rest);
  }

  lemma {:induction false} FieldsLocal(stored: seq<H.Stored>, layout: H.Layout, a: bytes, rest: bytes)
    requires H.AllValid(stored, layout)
    ensures H.PutFields(stored, layout, a + rest) == H.PutFields(stored, layout, a) + rest
    decreases stored
  {
    hide H.PutField;
    if stored != [] {
      assert H.ValidStored(stored[0], layout);
      FieldsLocal(stored[1..], layout, a, rest);
      FieldLocal(stored[0], layout, H.PutFields(stored[1..], layout, a), rest);
    }
  }

  lemma MinLocal(minExpire: Option<int>, a: bytes, rest: bytes)
    requires H.ValidMin(minExpire)
    ensures H.PutMin(minExpire, a + rest) == H.PutMin(minExpire, a) + rest
  {
    if minExpire.Some? { Regroup(Little(minExpire.value, 8), a, rest); }
  }

  lemma HashLocal(v: H.HashValue, a: bytes, rest: bytes)
    requires H.ValidHash(v)
    ensures H.PutHash(v, a + rest) == H.PutHash(v, a) + rest
  {
    hide StringBytes, StringText, ValidString, LengthBytes, FitsForm, H.PutFields, H.PutMin, H.AllValid, H.Pairs,
      H.Triples, Ziplist.ZiplistText, Listpack.ListpackText, Ziplist.Texts, Listpack.Texts, Ziplist.ValidItems,
      Listpack.ValidItems;
    match v
    case Counted(layout, form, stored) =>
      FieldsLocal(stored, layout, a, rest);
      var fields := H.PutFields(stored, layout, a);
      Regroup(LengthBytes(|stored|, form), fields, rest);
      MinLocal(if layout.Leading? then layout.minExpire else None, LengthBytes(|stored|, form) + fields, rest);
    case Zipped(_, _, _, text, _) => Regroup(StringBytes(text), a, rest);
    case Packed(_, _, text, _) => Regroup(StringBytes(text), a, rest);
    case Expiring(minExpire, _, _, text, _) =>
      Regroup(StringBytes(text), a, rest);
      MinLocal(minExpire, StringBytes(text) + a, rest);
  }

  lemma ValueLocal(v: Value, rest: bytes)
    requires ValidValue(v)
    ensures PutValue(v, rest) == PutValue(v, []) + rest
  {
    hide PutString, ValidString, L.PutList, L.ValidList, H.PutHash, H.ValidHash, F.PutStream, F.ValidStream;
    assert [] + rest == rest;
    match v
    case StringValue(s) => StringLocal(s, [], rest);
    case Listed(list) => ListLocal(list, [], rest);
    case Hashed(hash) => HashLocal(hash, [], rest);
    case Streamed(stream, version) => StreamLocal(stream, version, [], rest);
  }

  // ---- Files ---------------------------------------------------------------------------------

  /** The file item of a key and its value. */
  function KeyItem(key: StringForm, v: Value): Item
    requires ValidString(key) && ValidValue(v)
  {
    Key(TypeOf(v), key, PutValue(v, []), Rebuild(v, StringText(key)))
  }

  lemma TypeSmall(v: Value)
    requires ValidValue(v)
    ensures TypeOf(v) < 244
  {
  }

  /** A key with any such value is a legal item of an RDB file: so the loop of the file captures
      exactly the bytes of the value, and sends what rebuilds it when it is too large to restore. */
  lemma KeyItemValid(key: StringForm, v: Value, cfg: Config)
    requires ValidString(key) && ValidValue(v) && Fits(v, cfg.isValkey)
    ensures ValidItem(KeyItem(key, v), cfg, DecodeValue)
  {
    hide PutValue, TypeOf, Rebuild, ValidValue, DecodeValue, ValidString, StringText, Fits;
    TypeSmall(v);
    var i := KeyItem(key, v);
    forall rest: bytes
      ensures DecodeValue(i.value + rest, i.typeByte, StringText(i.key), cfg.isValkey) == Some((i.argvs, rest))
    {
      ValueLocal(v, rest);
      ValueRoundTrip(v, StringText(key), cfg.isValkey, rest);
    }
  }
}
