/** The stream formats of RDB types 15, 19 and 21, and what decoding makes of them. */
module RdbStreamFormat {
  import opened Bytes
  import opened Decimal
  import opened RdbPrimitives
  import opened RdbString
  import opened Listpack
  import opened RdbStream

  // ---- Abstract streams ----------------------------------------------------------------------

  datatype Id = Id(ms: nat, seqno: nat)

  predicate ValidId(id: Id) { id.ms <= MAX_UINT64 && id.seqno <= MAX_UINT64 }

  function Text(id: Id): bytes { IdText(id.ms, id.seqno) }

  /** An entry of a listpack node; same means "the field names of the master entry". */
  datatype Record = Record(id: Id, deleted: bool, same: bool, pairs: seq<(bytes, bytes)>, lpCount: bytes)

  /** A node of the radix tree: its master id, the records, and how key and listpack are written. */
  datatype Node = Node(master: Id, fields: seq<bytes>, records: seq<Record>,
                       idForm: StringForm, total: nat, items: seq<Item>, form: StringForm)

  datatype Delivery = Delivery(id: Id, time: nat, count: Num)

  datatype Consumer = Consumer(name: StringForm, seen: nat, active: nat, form: LengthForm, pel: seq<Id>)

  datatype Group = Group(name: StringForm, ms: Num, seqno: Num, offset: Num,
                         pelForm: LengthForm, pel: seq<Delivery>, form: LengthForm, consumers: seq<Consumer>)

  datatype Stream = Stream(form: LengthForm, nodes: seq<Node>, length: Num, ms: Num, seqno: Num,
                           extra: seq<Num>, groupForm: LengthForm, groups: seq<Group>)

  // ---- Which of them the format can hold -----------------------------------------------------

  function Names(pairs: seq<(bytes, bytes)>): seq<bytes> {
    if pairs == [] then [] else [pairs[0].0] + Names(pairs[1..])
  }

  function Values(pairs: seq<(bytes, bytes)>): seq<bytes> {
    if pairs == [] then [] else [pairs[0].1] + Values(pairs[1..])
  }

  function Flat(pairs: seq<(bytes, bytes)>): (r: seq<bytes>)
    ensures |r| == 2 * |pairs|
  {
    if pairs == [] then [] else [pairs[0].0, pairs[0].1] + Flat(pairs[1..])
  }

  predicate ValidRecord(r: Record, fields: seq<bytes>) {
    && ValidId(r.id)
    && (r.same ==> Names(r.pairs) == fields)
    && 2 * |r.pairs| <= MAX_INT64
  }

  predicate ValidRecords(records: seq<Record>, fields: seq<bytes>) {
    forall k :: 0 <= k < |records| ==> ValidRecord(records[k], fields)
  }

  function Live(records: seq<Record>): (n: nat)
    ensures n <= |records|
  {
    if records == [] then 0 else (if records[0].deleted then 0 else 1) + Live(records[1..])
  }

  function Dead(records: seq<Record>): (n: nat)
    ensures n <= |records|
  {
    if records == [] then 0 else (if records[0].deleted then 1 else 0) + Dead(records[1..])
  }

  /** The listpack elements of a record: flags, id relative to the master, pairs, piece count. */
  function RecordElements(r: Record, master: Id): seq<bytes> {
    var flags := (if r.deleted then 1 else 0) + (if r.same then 2 else 0);
    [Itoa(flags), Itoa(Wrap(r.id.ms - master.ms)), Itoa(Wrap(r.id.seqno - master.seqno))]
    + ((if r.same then Values(r.pairs) else [Itoa(|r.pairs|)] + Flat(r.pairs)) + [r.lpCount])
  }

  function RecordsElements(records: seq<Record>, master: Id): seq<bytes> {
    if records == [] then [] else RecordElements(records[0], master) + RecordsElements(records[1..], master)
  }

  /** The listpack of a node: counts, master fields, a zero, the records. */
  function NodeElements(node: Node): seq<bytes> {
    [Itoa(Live(node.records)), Itoa(Dead(node.records)), Itoa(|node.fields|)]
    + (node.fields + ([[48]] + RecordsElements(node.records, node.master)))
  }

  predicate ValidNode(node: Node) {
    && ValidId(node.master) && ValidRecords(node.records, node.fields)
    && |node.records| <= MAX_INT64 && |node.fields| <= MAX_INT64
    && ValidString(node.idForm) && StringText(node.idForm) == Big(node.master.ms, 8) + Big(node.master.seqno, 8)
    && node.total < Pow256(4) && ValidItems(node.items) && |node.items| <= 65535
    && Texts(node.items) == NodeElements(node)
    && ValidString(node.form) && StringText(node.form) == ListpackText(node.total, node.items)
  }

  predicate ValidDelivery(d: Delivery) { ValidId(d.id) && d.time < Pow256(8) && ValidNum(d.count) }

  predicate ValidConsumer(c: Consumer) {
    && ValidString(c.name) && c.seen < Pow256(8) && c.active < Pow256(8) && ValidCount(|c.pel|, c.form)
    && forall k :: 0 <= k < |c.pel| ==> ValidId(c.pel[k])
  }

  predicate ValidGroup(g: Group) {
    && ValidString(g.name) && ValidNum(g.ms) && ValidNum(g.seqno) && ValidNum(g.offset)
    && ValidCount(|g.pel|, g.pelForm) && (forall k :: 0 <= k < |g.pel| ==> ValidDelivery(g.pel[k]))
    && ValidCount(|g.consumers|, g.form) && (forall k :: 0 <= k < |g.consumers| ==> ValidConsumer(g.consumers[k]))
  }

  predicate ValidNodes(nodes: seq<Node>) { forall k :: 0 <= k < |nodes| ==> ValidNode(nodes[k]) }

  predicate ValidGroups(groups: seq<Group>) { forall k :: 0 <= k < |groups| ==> ValidGroup(groups[k]) }

  predicate ValidStream(x: Stream) {
    && ValidCount(|x.nodes|, x.form) && ValidNodes(x.nodes)
    && ValidNum(x.length) && ValidNum(x.ms) && ValidNum(x.seqno) && |x.extra| == 5 && ValidNums(x.extra)
    && ValidCount(|x.groups|, x.groupForm) && ValidGroups(x.groups)
  }

  // ---- Encoding: each function writes its part in front of what follows ----------------------

  function PutId(id: Id, rest: bytes): bytes { Big(id.ms, 8) + Big(id.seqno, 8) + rest }

  function PutIds(ids: seq<Id>, rest: bytes): bytes {
    if ids == [] then rest else PutId(ids[0], PutIds(ids[1..], rest))
  }

  function PutNodes(nodes: seq<Node>, rest: bytes): bytes
    requires ValidNodes(nodes)
  {
    if nodes == [] then rest
    else PutString(nodes[0].idForm, PutString(nodes[0].form, PutNodes(nodes[1..], rest)))
  }

  function PutPel(pel: seq<Delivery>, rest: bytes): bytes
    requires forall k :: 0 <= k < |pel| ==> ValidDelivery(pel[k])
  {
    if pel == [] then rest
    else
      var d := pel[0];
      assert ValidDelivery(d);
      PutId(d.id, PutTime(d.time, PutNum(d.count, PutPel(pel[1..], rest))))
  }

  function PutConsumer(c: Consumer, typeByte: int, rest: bytes): bytes
    requires ValidConsumer(c)
  {
    var pel := PutCount(|c.pel|, c.form, PutIds(c.pel, rest));
    PutString(c.name, PutTime(c.seen, if typeByte >= 21 then PutTime(c.active, pel) else pel))
  }

  function PutConsumers(cs: seq<Consumer>, typeByte: int, rest: bytes): bytes
    requires forall k :: 0 <= k < |cs| ==> ValidConsumer(cs[k])
  {
    if cs == [] then rest else PutConsumer(cs[0], typeByte, PutConsumers(cs[1..], typeByte, rest))
  }

  function PutGroup(g: Group, typeByte: int, rest: bytes): bytes
    requires ValidGroup(g)
  {
    var consumers := PutCount(|g.consumers|, g.form, PutConsumers(g.consumers, typeByte, rest));
    var pel := PutCount(|g.pel|, g.pelForm, PutPel(g.pel, consumers));
    PutString(g.name, PutNum(g.ms, PutNum(g.seqno, if typeByte >= 19 then PutNum(g.offset, pel) else pel)))
  }

  function PutGroups(gs: seq<Group>, typeByte: int, rest: bytes): bytes
    requires ValidGroups(gs)
  {
    if gs == [] then rest else PutGroup(gs[0], typeByte, PutGroups(gs[1..], typeByte, rest))
  }

  function PutTrailer(x: Stream, typeByte: int, rest: bytes): bytes
    requires ValidStream(x)
  {
    var groups := PutCount(|x.groups|, x.groupForm, PutGroups(x.groups, typeByte, rest));
    PutNum(x.length, PutNum(x.ms, PutNum(x.seqno, if typeByte >= 19 then PutNums(x.extra, groups) else groups)))
  }

  /** The bytes of a stream value, followed by rest. */
  function PutStream(x: Stream, typeByte: int, rest: bytes): bytes
    requires ValidStream(x)
  {
    PutCount(|x.nodes|, x.form, PutNodes(x.nodes, PutTrailer(x, typeByte, rest)))
  }

  // ---- The commands a stream is rebuilt with -------------------------------------------------

  /** The id an XADD carries: 64-bit numbers read as signed ones. */
  function SignedText(id: Id): bytes { IdText(Wrap(id.ms), Wrap(id.seqno)) }

  function Adds(records: seq<Record>, key: bytes): seq<Argv> {
    if records == [] then []
    else if records[0].deleted then Adds(records[1..], key)
    else [[Ascii("xadd"), key, SignedText(records[0].id)] + Flat(records[0].pairs)] + Adds(records[1..], key)
  }

  function NodeAdds(nodes: seq<Node>, key: bytes): seq<Argv> {
    if nodes == [] then [] else Adds(nodes[0].records, key) + NodeAdds(nodes[1..], key)
  }

  /** The delivery of an id in a group's pending entries: the last one listed, zeros if none is. */
  function TimeOf(pel: seq<Delivery>, id: Id): nat {
    if pel == [] then 0
    else if pel[|pel| - 1].id == id then pel[|pel| - 1].time
    else TimeOf(pel[..|pel| - 1], id)
  }

  function CountOf(pel: seq<Delivery>, id: Id): nat {
    if pel == [] then 0
    else if pel[|pel| - 1].id == id then pel[|pel| - 1].count.n
    else CountOf(pel[..|pel| - 1], id)
  }

  function Claims(ids: seq<Id>, key: bytes, group: bytes, consumer: bytes, pel: seq<Delivery>): seq<Argv> {
    if ids == [] then []
    else [Claim(key, group, consumer, Text(ids[0]), TimeOf(pel, ids[0]), CountOf(pel, ids[0]))]
         + Claims(ids[1..], key, group, consumer, pel)
  }

  function ConsumerClaims(cs: seq<Consumer>, key: bytes, group: bytes, pel: seq<Delivery>): seq<Argv>
    requires forall k :: 0 <= k < |cs| ==> ValidConsumer(cs[k])
  {
    if cs == [] then []
    else
      var c := cs[0];
      assert ValidConsumer(c);
      Claims(c.pel, key, group, StringText(c.name), pel) + ConsumerClaims(cs[1..], key, group, pel)
  }

  function GroupCommands(g: Group, key: bytes): seq<Argv>
    requires ValidGroup(g)
  {
    var name := StringText(g.name);
    [CreateGroup(key, name, IdText(g.ms.n, g.seqno.n))] + ConsumerClaims(g.consumers, key, name, g.pel)
  }

  function GroupsCommands(gs: seq<Group>, key: bytes): seq<Argv>
    requires ValidGroups(gs)
  {
    if gs == [] then [] else GroupCommands(gs[0], key) + GroupsCommands(gs[1..], key)
  }

  function Commands(x: Stream, key: bytes): seq<Argv>
    requires ValidStream(x)
  {
    NodeAdds(x.nodes, key)
    + ((if x.nodes == [] then [EmptyStream(key)] else [])
       + [SetId(key, IdText(x.ms.n, x.seqno.n))]
       + GroupsCommands(x.groups, key))
  }

  // ---- Ids -----------------------------------------------------------------------------------

  /** A delta added back to its master is the id again, modulo 2^64. */
  lemma DeltaBack(a: nat, master: nat)
    ensures Wrap(Wrap(a - master) + Wrap(master)) == Wrap(a)
  {
    hide Wrap;
    var p := WrapTurns(a - master);
    var q := WrapTurns(master);
    WrapShift(a, p + q);
  }

  lemma WrapTurns(n: int) returns (q: int)
    ensures Wrap(n) == n + 0x1_0000_0000_0000_0000 * q
  {
    q := -(n / 0x1_0000_0000_0000_0000) - (if n % 0x1_0000_0000_0000_0000 < 0x8000_0000_0000_0000 then 0 else 1);
  }

  lemma WrapShift(n: int, q: int)
    ensures Wrap(n + 0x1_0000_0000_0000_0000 * q) == Wrap(n)
  {
    assert (n + 0x1_0000_0000_0000_0000 * q) % 0x1_0000_0000_0000_0000 == n % 0x1_0000_0000_0000_0000;
  }

  lemma WrapSmall(n: nat)
    requires n <= MAX_INT64
    ensures Wrap(n) == n
  {
  }

  lemma WrapSign(n: nat)
    requires n <= MAX_UINT64
    ensures if n <= MAX_INT64 then Wrap(n) == n else Wrap(n) < 0
  {
  }

  lemma Signs(n: int)
    ensures if n < 0 then Itoa(n)[0] == MINUS else IsDigit(Itoa(n)[0])
  {
    hide Digits;
  }

  lemma DashAt(a: nat, b: nat)
    ensures var t := IdText(a, b);
            |Itoa(a)| < |t| && t[|Itoa(a)|] == DASH && t[..|Itoa(a)|] == Itoa(a) && t[|Itoa(a)| + 1..] == Itoa(b)
    ensures forall k :: 0 <= k < |Itoa(a)| ==> IdText(a, b)[k] != DASH
  {
    hide Digits;
  }

  lemma {:induction false} IdTextInjective(a: Id, b: Id)
    ensures Text(a) == Text(b) <==> a == b
  {
    if Text(a) == Text(b) {
      DashAt(a.ms, a.seqno);
      DashAt(b.ms, b.seqno);
      assert |Itoa(a.ms)| == |Itoa(b.ms)|;
      ItoaInjective(a.ms, b.ms);
      ItoaInjective(a.seqno, b.seqno);
    }
  }

  /** The id of an XADD is the id of the entry exactly when both halves are below 2^63. */
  lemma {:induction false} AddedIdCorrect(id: Id)
    requires ValidId(id)
    ensures SignedText(id) == Text(id) <==> id.ms <= MAX_INT64 && id.seqno <= MAX_INT64
  {
    hide Itoa, Wrap;
    var ms, seqno := Wrap(id.ms), Wrap(id.seqno);
    WrapSign(id.ms);
    WrapSign(id.seqno);
    Signs(ms);
    Signs(id.ms);
    Signs(seqno);
    Signs(id.seqno);
    assert SignedText(id)[0] == Itoa(ms)[0] && Text(id)[0] == Itoa(id.ms)[0];
    if ms == id.ms {
      assert SignedText(id)[|Itoa(ms)| + 1] == Itoa(seqno)[0] && Text(id)[|Itoa(ms)| + 1] == Itoa(id.seqno)[0];
    }
  }

  // ---- Round trip: one listpack --------------------------------------------------------------

  lemma TakeInteger(n: int64, es: seq<bytes>)
    ensures NextInteger([Itoa(n)] + es) == Some((n, es))
  {
    ParseItoa(n);
    assert ([Itoa(n)] + es)[1..] == es;
  }

  lemma TakeString(t: bytes, es: seq<bytes>)
    ensures NextString([t] + es) == Some((t, es))
  {
    assert ([t] + es)[1..] == es;
  }

  lemma {:induction false} SameFieldsBack(pairs: seq<(bytes, bytes)>, es: seq<bytes>)
    ensures SameFields(Names(pairs), Values(pairs) + es) == Some((Flat(pairs), es))
    decreases pairs
  {
    if pairs == [] {
      assert [] + es == es;
    } else {
      var more := Values(pairs[1..]) + es;
      assert Values(pairs) + es == [pairs[0].1] + more;
      TakeString(pairs[0].1, more);
      SameFieldsBack(pairs[1..], es);
      assert Names(pairs)[1..] == Names(pairs[1..]);
    }
  }

  lemma OwnFieldsBack(pairs: seq<(bytes, bytes)>, es: seq<bytes>)
    requires 2 * |pairs| <= MAX_INT64
    ensures OwnFields([Itoa(|pairs|)] + Flat(pairs) + es) == Some((Flat(pairs), es))
  {
    hide Flat, NextInteger, Itoa, Wrap;
    WrapSmall(2 * |pairs|);
    var flat := Flat(pairs);
    Regroup([Itoa(|pairs|)], flat, es);
    TakeInteger(|pairs|, flat + es);
    Cut(flat, es);
  }

  function PairElements(r: Record): seq<bytes> {
    if r.same then Values(r.pairs) else [Itoa(|r.pairs|)] + Flat(r.pairs)
  }

  lemma PairsBack(r: Record, fields: seq<bytes>, es: seq<bytes>)
    requires ValidRecord(r, fields)
    ensures (if r.same then SameFields(fields, PairElements(r) + es) else OwnFields(PairElements(r) + es)) ==
            Some((Flat(r.pairs), es))
  {
    hide SameFields, OwnFields, Itoa;
    if r.same { SameFieldsBack(r.pairs, es); } else { OwnFieldsBack(r.pairs, es); }
  }

  /** One record is one turn of the loop: its id, its pairs, and whether it is deleted. */
  lemma RecordBack(r: Record, master: Id, fields: seq<bytes>, key: bytes, es: seq<bytes>)
    requires ValidRecord(r, fields)
    ensures EntryTurn(RecordElements(r, master) + es, key, Wrap(master.ms), Wrap(master.seqno), fields) ==
            Some((Turn(r.deleted, [Ascii("xadd"), key, SignedText(r.id)] + Flat(r.pairs)), es))
  {
    hide NextInteger, NextString, SameFields, OwnFields, PairElements, Itoa, IdText, Wrap, Flat, Values, Names;
    var flags := (if r.deleted then 1 else 0) + (if r.same then 2 else 0);
    var a, b := Wrap(r.id.ms - master.ms), Wrap(r.id.seqno - master.seqno);
    RecordShape(r, master, es);
    var pairs := PairElements(r) + ([r.lpCount] + es);
    TakeInteger(flags, [Itoa(a)] + ([Itoa(b)] + pairs));
    TakeInteger(a, [Itoa(b)] + pairs);
    TakeInteger(b, pairs);
    PairsBack(r, fields, [r.lpCount] + es);
    TakeString(r.lpCount, es);
    DeltaBack(r.id.ms, master.ms);
    DeltaBack(r.id.seqno, master.seqno);
  }

  lemma RecordShape(r: Record, master: Id, es: seq<bytes>)
    ensures var flags := (if r.deleted then 1 else 0) + (if r.same then 2 else 0);
            RecordElements(r, master) + es ==
            [Itoa(flags)] + ([Itoa(Wrap(r.id.ms - master.ms))] + ([Itoa(Wrap(r.id.seqno - master.seqno))]
              + (PairElements(r) + ([r.lpCount] + es))))
  {
    hide Itoa, Wrap, Flat, Values;
  }

  lemma {:induction false} EntriesBack(records: seq<Record>, master: Id, fields: seq<bytes>, key: bytes)
    requires ValidRecords(records, fields)
    ensures Entries(RecordsElements(records, master), Live(records), Dead(records), key,
                    Wrap(master.ms), Wrap(master.seqno), fields) == Some(Adds(records, key))
    decreases records
  {
    hide EntryTurn, RecordElements, SignedText, Flat, Wrap, ValidRecord;
    if records != [] {
      var r := records[0];
      var more := RecordsElements(records[1..], master);
      RecordBack(r, master, fields, key, more);
      EntriesBack(records[1..], master, fields, key);
      if r.deleted {
        assert Live(records) == Live(records[1..]) && Dead(records) == Dead(records[1..]) + 1;
      } else {
        assert Live(records) == Live(records[1..]) + 1 && Dead(records) == Dead(records[1..]);
      }
    }
  }

  lemma {:induction false} LiveDead(records: seq<Record>)
    ensures Live(records) + Dead(records) == |records|
  {
    if records != [] { LiveDead(records[1..]); }
  }

  lemma MasterBack(node: Node)
    requires |node.records| <= MAX_INT64 && |node.fields| <= MAX_INT64
    ensures MasterEntry(NodeElements(node)) ==
            Some(Master(Live(node.records), Dead(node.records), node.fields,
                        RecordsElements(node.records, node.master)))
  {
    hide NextInteger, NextString, Itoa, Live, Dead, RecordsElements;
    var fields, records := node.fields, RecordsElements(node.records, node.master);
    var live, dead := Live(node.records), Dead(node.records);
    LiveDead(node.records);
    var tail := fields + ([[48]] + records);
    assert NodeElements(node) == [Itoa(live)] + ([Itoa(dead)] + ([Itoa(|fields|)] + tail));
    TakeInteger(live, [Itoa(dead)] + ([Itoa(|fields|)] + tail));
    TakeInteger(dead, [Itoa(|fields|)] + tail);
    TakeInteger(|fields|, tail);
    assert tail[..|fields|] == fields && tail[|fields|..] == [[48]] + records;
    TakeString([48], records);
  }

  /** A master entry that does not end in a zero panics. */
  lemma NoZero(count: int64, deleted: int64, fields: seq<bytes>, last: bytes, more: seq<bytes>)
    requires |fields| <= MAX_INT64 && last != [48]
    ensures MasterEntry([Itoa(count), Itoa(deleted), Itoa(|fields|)] + (fields + ([last] + more))) == None
  {
    hide NextInteger, NextString, Itoa;
    var tail := fields + ([last] + more);
    assert [Itoa(count), Itoa(deleted), Itoa(|fields|)] + tail
        == [Itoa(count)] + ([Itoa(deleted)] + ([Itoa(|fields|)] + tail));
    TakeInteger(count, [Itoa(deleted)] + ([Itoa(|fields|)] + tail));
    TakeInteger(deleted, [Itoa(|fields|)] + tail);
    TakeInteger(|fields|, tail);
    assert tail[..|fields|] == fields && tail[|fields|..] == [last] + more;
    TakeString(last, more);
  }

  lemma MasterId(id: Id)
    requires ValidId(id)
    ensures var b := Big(id.ms, 8) + Big(id.seqno, 8);
            |b| == 16 && BigValue(b[..8]) == id.ms && BigValue(b[8..16]) == id.seqno && BigValue(b[8..]) == id.seqno
  {
    hide Big, BigValue;
    Widths();
    BigRoundTrip(id.ms, 8);
    BigRoundTrip(id.seqno, 8);
    var b := Big(id.ms, 8) + Big(id.seqno, 8);
    assert b[..8] == Big(id.ms, 8) && b[8..16] == Big(id.seqno, 8) && b[8..] == Big(id.seqno, 8);
  }

  lemma NodeBack(node: Node, key: bytes, rest: bytes)
    requires ValidNode(node)
    ensures DecodeNode(PutString(node.idForm, PutString(node.form, rest)), key) ==
            Some((Adds(node.records, key), rest))
  {
    hide DecodeString, DecodeListpack, StringBytes, StringText, ValidString, ListpackText, NodeElements,
      MasterEntry, Entries, BigValue, Big, Wrap, Texts, ValidItems, ValidRecords, Adds, RecordsElements,
      Live, Dead, Pow256;
    StringRoundTrip(node.idForm, PutString(node.form, rest));
    StoredListpack(node.form, node.total, node.items, rest);
    MasterId(node.master);
    MasterBack(node);
    EntriesBack(node.records, node.master, node.fields, key);
  }

  lemma {:induction false} NodesBack(nodes: seq<Node>, key: bytes, rest: bytes)
    requires ValidNodes(nodes)
    ensures DecodeNodes(PutNodes(nodes, rest), |nodes|, key) == Some((NodeAdds(nodes, key), rest))
    decreases nodes
  {
    hide DecodeNode, PutString, ValidNode, Adds;
    if nodes != [] {
      NodeValid(nodes);
      NodesBack(nodes[1..], key, rest);
      NodeBack(nodes[0], key, PutNodes(nodes[1..], rest));
    }
  }

  lemma NodeValid(nodes: seq<Node>)
    requires ValidNodes(nodes) && nodes != []
    ensures ValidNode(nodes[0]) && ValidString(nodes[0].idForm) && ValidString(nodes[0].form)
    ensures ValidNodes(nodes[1..])
  {
    hide ValidString, StringText, ValidItems, ValidRecords;
    assert ValidNode(nodes[0]);
  }

  // ---- Round trip: the rest ------------------------------------------------------------------

  lemma IdBack(id: Id, rest: bytes)
    requires ValidId(id)
    ensures DecodeId(PutId(id, rest)) == Some((Text(id), rest))
  {
    hide Big, BigValue, DecodeBytes, IdText;
    MasterId(id);
    BytesAppend(Big(id.ms, 8) + Big(id.seqno, 8), rest);
  }

  /** The two maps hold, under the text of an id, its last delivery in pel. */
  ghost predicate Reflects(p: Pending, pel: seq<Delivery>) {
    forall id: Id {:trigger Text(id)} ::
      Get(p.times, Text(id)) == TimeOf(pel, id) && Get(p.counts, Text(id)) == CountOf(pel, id)
  }

  lemma ReflectsNext(p: Pending, pel: seq<Delivery>, d: Delivery)
    requires Reflects(p, pel)
    ensures Reflects(Pending(p.times[Text(d.id) := d.time], p.counts[Text(d.id) := d.count.n]), pel + [d])
  {
    hide Text;
    var q := Pending(p.times[Text(d.id) := d.time], p.counts[Text(d.id) := d.count.n]);
    var more := pel + [d];
    assert more[..|more| - 1] == pel && more[|more| - 1] == d;
    forall id: Id
      ensures Get(q.times, Text(id)) == TimeOf(more, id) && Get(q.counts, Text(id)) == CountOf(more, id)
    {
      IdTextInjective(id, d.id);
      assert Get(p.times, Text(id)) == TimeOf(pel, id);
    }
  }

  lemma {:induction false} PelBack(done: seq<Delivery>, pel: seq<Delivery>, p: Pending, rest: bytes) returns (q: Pending)
    requires forall k :: 0 <= k < |pel| ==> ValidDelivery(pel[k])
    requires Reflects(p, done)
    ensures DecodePel(PutPel(pel, rest), |pel|, p) == Some((q, rest)) && Reflects(q, done + pel)
    decreases pel
  {
    hide DecodeId, DecodeUint, DecodeLength, PutId, PutTime, PutNum, Text, TimeOf, CountOf, Reflects, ValidNum, ValidId, Pow256;
    if pel == [] {
      assert done + pel == done;
      q := p;
    } else {
      var d := pel[0];
      assert ValidDelivery(d);
      var more := PutPel(pel[1..], rest);
      IdBack(d.id, PutTime(d.time, PutNum(d.count, more)));
      TimeBack(d.time, PutNum(d.count, more));
      NumBack(d.count, more);
      ReflectsNext(p, done, d);
      var next := Pending(p.times[Text(d.id) := d.time], p.counts[Text(d.id) := d.count.n]);
      q := PelBack(done + [d], pel[1..], next, rest);
      assert done + [d] + pel[1..] == done + pel;
    }
  }

  lemma {:induction false} ClaimsBack(ids: seq<Id>, key: bytes, group: bytes, consumer: bytes, p: Pending,
                                      pel: seq<Delivery>, rest: bytes)
    requires (forall k :: 0 <= k < |ids| ==> ValidId(ids[k])) && Reflects(p, pel)
    ensures DecodeClaims(PutIds(ids, rest), |ids|, key, group, consumer, p) ==
            Some((Claims(ids, key, group, consumer, pel), rest))
    decreases ids
  {
    hide DecodeId, PutId, Text, Claim, TimeOf, CountOf, Get, ValidId;
    if ids != [] {
      IdBack(ids[0], PutIds(ids[1..], rest));
      ClaimsBack(ids[1..], key, group, consumer, p, pel, rest);
    }
  }

  lemma ConsumerBack(c: Consumer, key: bytes, typeByte: int, group: bytes, p: Pending, pel: seq<Delivery>, rest: bytes)
    requires ValidConsumer(c) && Reflects(p, pel)
    ensures DecodeConsumer(PutConsumer(c, typeByte, rest), key, typeByte, group, p) ==
            Some((Claims(c.pel, key, group, StringText(c.name), pel), rest))
  {
    hide DecodeString, DecodeUint, DecodeLength, DecodeClaims, PutString, PutTime, PutCount, PutIds, Turns, Claims,
      StringText, ValidString, ValidCount, Reflects, ValidId, Pow256;
    var ids := PutIds(c.pel, rest);
    var counted := PutCount(|c.pel|, c.form, ids);
    var seen := if typeByte >= 21 then PutTime(c.active, counted) else counted;
    NameBack(c.name, PutTime(c.seen, seen));
    TimeBack(c.seen, seen);
    TimeBack(c.active, counted);
    CountBack(|c.pel|, c.form, ids);
    ClaimsBack(c.pel, key, group, StringText(c.name), p, pel, rest);
  }

  lemma {:induction false} ConsumersBack(cs: seq<Consumer>, key: bytes, typeByte: int, group: bytes, p: Pending,
                                         pel: seq<Delivery>, rest: bytes)
    requires (forall k :: 0 <= k < |cs| ==> ValidConsumer(cs[k])) && Reflects(p, pel)
    ensures DecodeConsumers(PutConsumers(cs, typeByte, rest), |cs|, key, typeByte, group, p) ==
            Some((ConsumerClaims(cs, key, group, pel), rest))
    decreases cs
  {
    hide DecodeConsumer, PutConsumer, ValidConsumer, Claims, StringText, Reflects;
    if cs != [] {
      ConsumerName(cs[0]);
      ConsumerBack(cs[0], key, typeByte, group, p, pel, PutConsumers(cs[1..], typeByte, rest));
      ConsumersBack(cs[1..], key, typeByte, group, p, pel, rest);
    }
  }

  lemma ConsumerName(c: Consumer)
    requires ValidConsumer(c)
    ensures ValidString(c.name)
  {
  }

  lemma GroupBack(g: Group, key: bytes, typeByte: int, rest: bytes)
    requires ValidGroup(g)
    ensures DecodeGroup(PutGroup(g, typeByte, rest), key, typeByte) == Some((GroupCommands(g, key), rest))
  {
    hide DecodeString, DecodeLength, SkipLengths, DecodePel, DecodeConsumers, PutString, PutNum, PutCount, PutPel,
      PutConsumers, Turns, StringText, ConsumerClaims, CreateGroup, IdText, ValidString, ValidNum, ValidCount,
      ValidDelivery, ValidConsumer, TimeOf, CountOf;
    var name := StringText(g.name);
    var consumers := PutConsumers(g.consumers, typeByte, rest);
    var counted := PutCount(|g.consumers|, g.form, consumers);
    var pel := PutPel(g.pel, counted);
    var pelCounted := PutCount(|g.pel|, g.pelForm, pel);
    var offset := if typeByte >= 19 then PutNum(g.offset, pelCounted) else pelCounted;
    NameBack(g.name, PutNum(g.ms, PutNum(g.seqno, offset)));
    NumBack(g.ms, PutNum(g.seqno, offset));
    NumBack(g.seqno, offset);
    NoNums(pelCounted);
    OneNum(g.offset, pelCounted);
    CountBack(|g.pel|, g.pelForm, pel);
    NothingPending();
    var p := PelBack([], g.pel, Pending(map[], map[]), counted);
    assert [] + g.pel == g.pel;
    CountBack(|g.consumers|, g.form, consumers);
    ConsumersBack(g.consumers, key, typeByte, name, p, g.pel, rest);
  }

  lemma NothingPending()
    ensures Reflects(Pending(map[], map[]), [])
  {
  }

  lemma {:induction false} GroupsBack(gs: seq<Group>, key: bytes, typeByte: int, rest: bytes)
    requires ValidGroups(gs)
    ensures DecodeGroups(PutGroups(gs, typeByte, rest), |gs|, key, typeByte) == Some((GroupsCommands(gs, key), rest))
    decreases gs
  {
    hide DecodeGroup, PutGroup, ValidGroup, GroupCommands;
    if gs != [] {
      GroupBack(gs[0], key, typeByte, PutGroups(gs[1..], typeByte, rest));
      GroupsBack(gs[1..], key, typeByte, rest);
    }
  }

  lemma TrailerBack(x: Stream, key: bytes, typeByte: int, rest: bytes)
    requires ValidStream(x)
    ensures DecodeTrailer(PutTrailer(x, typeByte, rest), key, typeByte, x.nodes == []) ==
            Some(((if x.nodes == [] then [EmptyStream(key)] else [])
                  + [SetId(key, IdText(x.ms.n, x.seqno.n))]
                  + GroupsCommands(x.groups, key), rest))
  {
    hide DecodeLength, SkipLengths, DecodeGroups, PutNum, PutNums, PutCount, PutGroups, Turns, GroupsCommands,
      EmptyStream, SetId, IdText, ValidNum, ValidNums, ValidCount, ValidNodes, ValidGroups;
    var groups := PutGroups(x.groups, typeByte, rest);
    var counted := PutCount(|x.groups|, x.groupForm, groups);
    var extra := if typeByte >= 19 then PutNums(x.extra, counted) else counted;
    NumBack(x.length, PutNum(x.ms, PutNum(x.seqno, extra)));
    NumBack(x.ms, PutNum(x.seqno, extra));
    NumBack(x.seqno, extra);
    NoNums(counted);
    NumsBack(x.extra, counted);
    CountBack(|x.groups|, x.groupForm, groups);
    GroupsBack(x.groups, key, typeByte, rest);
  }

  /** For every stream value, in each of the three formats and every legal way of writing it, decoding
      sends exactly the commands that rebuild it, and consumes exactly its bytes. */
  lemma StreamRoundTrip(x: Stream, key: bytes, typeByte: int, rest: bytes)
    requires ValidStream(x) && typeByte in {15, 19, 21}
    ensures DecodeStream(PutStream(x, typeByte, rest), key, typeByte) == Some((Commands(x, key), rest))
  {
    hide DecodeLength, DecodeNodes, DecodeTrailer, PutCount, PutNodes, PutTrailer, Turns, Signed, NodeAdds,
      GroupsCommands, EmptyStream, SetId, IdText, ValidNum, ValidNums, ValidCount, ValidNodes, ValidGroups;
    var trailer := PutTrailer(x, typeByte, rest);
    CountBack(|x.nodes|, x.form, PutNodes(x.nodes, trailer));
    NodesBack(x.nodes, key, trailer);
    TrailerBack(x, key, typeByte, rest);
  }
}
