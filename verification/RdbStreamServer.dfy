/**
 What a Redis server makes of the commands a stream value is decoded to: the stream, its groups and their
 pending entries as the server keeps them, changed by commands read word by word.
 */
module RdbStreamServer {
  import opened Bytes
  import opened Decimal
  import opened RdbPrimitives
  import opened RdbString
  import opened RdbStream
  import opened RdbStreamFormat

  // ---- The server ----------------------------------------------------------------------------

  /** A pending entry: who it was delivered to, when last, and how often. */
  datatype Pended = Pended(consumer: bytes, time: int, count: int)

  datatype GroupState = GroupState(last: Id, pending: map<Id, Pended>)

  datatype StreamState = StreamState(entries: seq<(Id, seq<(bytes, bytes)>)>, last: Id, groups: map<bytes, GroupState>)

  /** The key: absent, or a stream. */
  type Key = Option<StreamState>

  /** The number written, if it is written without a sign. */
  function Natural(text: bytes): Option<nat> {
    if text == [] || !IsDigit(text[0]) then None else DigitsValue(text)
  }

  /** A stream id: two numbers around the first dash. */
  function ParseId(text: bytes): Option<Id> {
    var k := Find(45, text);
    if k == |text| then None
    else
      var ms :- Natural(text[..k]);
      var seqno :- Natural(text[k + 1..]);
      Some(Id(ms, seqno))
  }

  /** Names and values in turn. */
  function PairUp(words: seq<bytes>): Option<seq<(bytes, bytes)>> {
    if words == [] then Some([])
    else if |words| < 2 then None
    else
      var more :- PairUp(words[2..]);
      Some([(words[0], words[1])] + more)
  }

  /** XADD of an entry, which makes an absent stream exist. */
  function Added(k: Key, id: Id, pairs: seq<(bytes, bytes)>): StreamState {
    match k
    case None => StreamState([(id, pairs)], id, map[])
    case Some(s) => s.(entries := s.entries + [(id, pairs)], last := id)
  }

  /** The newest n entries. */
  function Newest<T>(entries: seq<T>, n: nat): seq<T> {
    if |entries| <= n then entries else entries[|entries| - n..]
  }

  /** XADD key [MAXLEN n] id name value ... */
  function Xadd(k: Key, words: seq<bytes>): Option<StreamState> {
    if |words| >= 2 && words[0] == Ascii("MAXLEN") then
      var n :- Natural(words[1]);
      var s :- Xadd(k, words[2..]);
      Some(s.(entries := Newest(s.entries, n)))
    else if words == [] then None
    else
      var id :- ParseId(words[0]);
      var pairs :- PairUp(words[1..]);
      Some(Added(k, id, pairs))
  }

  /** XCLAIM key group consumer 0 id TIME t RETRYCOUNT n JUSTID FORCE, behind the key. */
  function Xclaim(s: StreamState, words: seq<bytes>): Option<StreamState> {
    if |words| != 10 || words[0] !in s.groups || words[2] != Ascii("0") || words[4] != Ascii("TIME")
       || words[6] != Ascii("RETRYCOUNT") || words[8] != Ascii("JUSTID") || words[9] != Ascii("FORCE") then None
    else
      var id :- ParseId(words[3]);
      var time :- Natural(words[5]);
      var count :- Natural(words[7]);
      var g := s.groups[words[0]];
      Some(s.(groups := s.groups[words[0] := g.(pending := g.pending[id := Pended(words[1], time, count)])]))
  }

  /** One command on the key; None is an error reply. */
  function Execute(k: Key, argv: Argv, key: bytes): Option<Key> {
    if |argv| == 2 && argv[0] == Ascii("del") && argv[1] == key then Some(None)
    else if |argv| >= 2 && argv[0] == Ascii("xadd") && argv[1] == key then
      var s :- Xadd(k, argv[2..]);
      Some(Some(s))
    else if |argv| == 3 && argv[0] == Ascii("xsetid") && argv[1] == key then
      var s :- k;
      var id :- ParseId(argv[2]);
      Some(Some(s.(last := id)))
    else if |argv| == 5 && argv[0] == Ascii("XGROUP") && argv[1] == Ascii("CREATE") && argv[2] == key then
      var s :- k;
      var id :- ParseId(argv[4]);
      if argv[3] in s.groups then None
      else Some(Some(s.(groups := s.groups[argv[3] := GroupState(id, map[])])))
    else if |argv| == 12 && argv[0] == Ascii("xclaim") && argv[1] == key then
      var s :- k;
      var s :- Xclaim(s, argv[2..]);
      Some(Some(s))
    else None
  }

  function ExecuteAll(k: Key, argvs: seq<Argv>, key: bytes): Option<Key>
    decreases argvs
  {
    if argvs == [] then Some(k)
    else
      var k :- Execute(k, argvs[0], key);
      ExecuteAll(k, argvs[1..], key)
  }

  lemma {:induction false} ExecuteAppend(k: Key, a: seq<Argv>, b: seq<Argv>, key: bytes)
    ensures ExecuteAll(k, a + b, key) ==
            match ExecuteAll(k, a, key) case None => None case Some(k) => ExecuteAll(k, b, key)
    decreases a
  {
    hide Execute;
    if a == [] {
      assert a + b == b;
    } else {
      assert (a + b)[0] == a[0] && (a + b)[1..] == a[1..] + b;
      var next := Execute(k, a[0], key);
      if next.Some? { ExecuteAppend(next.value, a[1..], b, key); }
    }
  }

  // ---- The stream that was stored ------------------------------------------------------------

  function LiveOf(records: seq<Record>): seq<(Id, seq<(bytes, bytes)>)> {
    if records == [] then []
    else (if records[0].deleted then [] else [(records[0].id, records[0].pairs)]) + LiveOf(records[1..])
  }

  /** The entries that are not deleted, node by node. */
  function EntriesOf(nodes: seq<Node>): seq<(Id, seq<(bytes, bytes)>)> {
    if nodes == [] then [] else LiveOf(nodes[0].records) + EntriesOf(nodes[1..])
  }

  /** The ids a consumer owns, each with the delivery the group has of it. */
  function Owned(ids: seq<Id>, consumer: bytes, pel: seq<Delivery>): map<Id, Pended> {
    if ids == [] then map[]
    else map[ids[0] := Pended(consumer, TimeOf(pel, ids[0]), CountOf(pel, ids[0]))] + Owned(ids[1..], consumer, pel)
  }

  function PendingOf(cs: seq<Consumer>, pel: seq<Delivery>): map<Id, Pended>
    requires forall k :: 0 <= k < |cs| ==> ValidConsumer(cs[k])
  {
    if cs == [] then map[]
    else
      assert ValidConsumer(cs[0]);
      Owned(cs[0].pel, StringText(cs[0].name), pel) + PendingOf(cs[1..], pel)
  }

  function GroupOf(g: Group): GroupState
    requires ValidGroup(g)
  {
    GroupState(Id(g.ms.n, g.seqno.n), PendingOf(g.consumers, g.pel))
  }

  function GroupsOf(gs: seq<Group>): map<bytes, GroupState>
    requires ValidGroups(gs)
  {
    if gs == [] then map[]
    else
      assert ValidGroup(gs[0]);
      map[StringText(gs[0].name) := GroupOf(gs[0])] + GroupsOf(gs[1..])
  }

  function StreamOf(x: Stream): StreamState
    requires ValidStream(x)
  {
    StreamState(EntriesOf(x.nodes), Id(x.ms.n, x.seqno.n), GroupsOf(x.groups))
  }

  /** No two groups have the same name: they are the keys of one radix tree. */
  predicate DistinctGroups(gs: seq<Group>)
    requires ValidGroups(gs)
  {
    if gs == [] then true
    else
      assert ValidGroup(gs[0]);
      StringText(gs[0].name) !in GroupsOf(gs[1..]) && DistinctGroups(gs[1..])
  }

  /** Ids that fit a signed number twice. */
  predicate SmallIds(entries: seq<(Id, seq<(bytes, bytes)>)>) {
    forall k :: 0 <= k < |entries| ==> entries[k].0.ms <= MAX_INT64 && entries[k].0.seqno <= MAX_INT64
  }

  // ---- Reading back words --------------------------------------------------------------------

  lemma NaturalBack(n: nat)
    ensures Natural(Itoa(n)) == Some(n)
  {
    DigitsRoundTrip(n);
  }

  lemma NoNatural(n: int)
    requires n < 0
    ensures Natural(Itoa(n)) == None
  {
    hide Digits, DigitsValue;
  }

  lemma DashFirst(a: int, b: int)
    requires a >= 0
    ensures var t := IdText(a, b);
            Find(45, t) == |Itoa(a)| < |t| && t[..|Itoa(a)|] == Itoa(a) && t[|Itoa(a)| + 1..] == Itoa(b)
  {
    hide Digits;
    var t := IdText(a, b);
    assert t[|Itoa(a)|] == 45;
    assert forall k :: 0 <= k < |Itoa(a)| ==> t[k] == Itoa(a)[k] != 45;
  }

  /** The text of an id is read as that id exactly when neither number is negative. */
  lemma ParseIdBack(a: int, b: int)
    ensures ParseId(IdText(a, b)) == if a >= 0 && b >= 0 then Some(Id(a, b)) else None
  {
    hide Digits, Natural, Itoa;
    if a < 0 {
      assert IdText(a, b)[0] == 45 by { Signs(a); }
      assert IdText(a, b)[..0] == [];
      NoText();
    } else {
      DashFirst(a, b);
      NaturalBack(a);
      if b >= 0 { NaturalBack(b); } else { NoNatural(b); }
    }
  }

  lemma NoText()
    ensures Natural([]) == None
  {
  }

  lemma {:induction false} PairUpFlat(pairs: seq<(bytes, bytes)>)
    ensures PairUp(Flat(pairs)) == Some(pairs)
  {
    if pairs != [] {
      PairUpFlat(pairs[1..]);
      assert Flat(pairs)[2..] == Flat(pairs[1..]);
      assert pairs == [(pairs[0].0, pairs[0].1)] + pairs[1..];
    }
  }

  // ---- Adding the entries --------------------------------------------------------------------

  predicate Small(id: Id) { id.ms <= MAX_INT64 && id.seqno <= MAX_INT64 }

  /** One XADD as it is sent. */
  lemma AddRuns(k: Key, key: bytes, id: Id, pairs: seq<(bytes, bytes)>)
    requires ValidId(id)
    ensures Execute(k, [Ascii("xadd"), key, SignedText(id)] + Flat(pairs), key) ==
            if Small(id) then Some(Some(Added(k, id, pairs))) else None
  {
    hide Flat, IdText, Wrap, ParseId, PairUp, Natural;
    var argv := [Ascii("xadd"), key, SignedText(id)] + Flat(pairs);
    var words := [SignedText(id)] + Flat(pairs);
    assert argv[2..] == words && words[1..] == Flat(pairs);
    ParseIdBack(Wrap(id.ms), Wrap(id.seqno));
    WrapSign(id.ms);
    WrapSign(id.seqno);
    PairUpFlat(pairs);
    NotAnOption(Wrap(id.ms), Wrap(id.seqno));
    XaddPlain(k, words);
    AddNames();
  }

  lemma NotAnOption(a: int, b: int)
    ensures IdText(a, b) != Ascii("MAXLEN")
  {
    hide Digits;
    assert IdText(a, b)[0] == Itoa(a)[0];
    Signs(a);
    assert Ascii("MAXLEN")[0] == 77;
  }

  lemma XaddPlain(k: Key, words: seq<bytes>)
    requires words != [] && words[0] != Ascii("MAXLEN")
    ensures var id, pairs := ParseId(words[0]), PairUp(words[1..]);
            Xadd(k, words) == if id.Some? && pairs.Some? then Some(Added(k, id.value, pairs.value)) else None
  {
    hide ParseId, PairUp;
  }

  /** The command names differ from each other. */
  lemma AddNames()
    ensures Ascii("xadd") != Ascii("del") && Ascii("xsetid") != Ascii("del") && Ascii("xsetid") != Ascii("xadd")
    ensures Ascii("XGROUP") != Ascii("del") && Ascii("XGROUP") != Ascii("xadd") && Ascii("XGROUP") != Ascii("xsetid")
    ensures Ascii("xclaim") != Ascii("del") && Ascii("xclaim") != Ascii("xadd") && Ascii("xclaim") != Ascii("xsetid")
    ensures Ascii("xclaim") != Ascii("XGROUP")
  {
    assert |Ascii("del")| == 3 && |Ascii("xadd")| == 4 && |Ascii("xsetid")| == 6 && |Ascii("XGROUP")| == 6;
    assert Ascii("xsetid")[1] == 115 && Ascii("XGROUP")[1] == 71 && Ascii("xclaim")[1] == 99;
  }

  function AddedAll(k: Key, entries: seq<(Id, seq<(bytes, bytes)>)>): Key
    decreases entries
  {
    if entries == [] then k else AddedAll(Some(Added(k, entries[0].0, entries[0].1)), entries[1..])
  }

  lemma {:induction false} AddedSome(s: StreamState, entries: seq<(Id, seq<(bytes, bytes)>)>)
    ensures AddedAll(Some(s), entries) ==
            Some(s.(entries := s.entries + entries, last := if entries == [] then s.last else entries[|entries| - 1].0))
    decreases entries
  {
    if entries == [] {
      assert s.entries + [] == s.entries;
    } else {
      var next := Added(Some(s), entries[0].0, entries[0].1);
      AddedSome(next, entries[1..]);
      assert [(entries[0].0, entries[0].1)] + entries[1..] == entries;
      Regroup(s.entries, [(entries[0].0, entries[0].1)], entries[1..]);
    }
  }

  lemma AddedFresh(entries: seq<(Id, seq<(bytes, bytes)>)>)
    requires entries != []
    ensures AddedAll(None, entries) == Some(StreamState(entries, entries[|entries| - 1].0, map[]))
  {
    AddedSome(Added(None, entries[0].0, entries[0].1), entries[1..]);
    assert [(entries[0].0, entries[0].1)] + entries[1..] == entries;
  }

  lemma {:induction false} AddedAppend(k: Key, a: seq<(Id, seq<(bytes, bytes)>)>, b: seq<(Id, seq<(bytes, bytes)>)>)
    ensures AddedAll(k, a + b) == AddedAll(AddedAll(k, a), b)
    ensures SmallIds(a + b) <==> SmallIds(a) && SmallIds(b)
    decreases a
  {
    SmallAppend(a, b);
    if a == [] {
      assert a + b == b;
    } else {
      assert (a + b)[0] == a[0] && (a + b)[1..] == a[1..] + b;
      AddedAppend(Some(Added(k, a[0].0, a[0].1)), a[1..], b);
    }
  }

  lemma SmallAppend(a: seq<(Id, seq<(bytes, bytes)>)>, b: seq<(Id, seq<(bytes, bytes)>)>)
    ensures SmallIds(a + b) <==> SmallIds(a) && SmallIds(b)
  {
    if SmallIds(a + b) {
      assert forall k :: 0 <= k < |a| ==> a[k] == (a + b)[k];
      assert forall k :: 0 <= k < |b| ==> b[k] == (a + b)[|a| + k];
    }
  }

  lemma {:induction false} RecordsRun(k: Key, records: seq<Record>, fields: seq<bytes>, key: bytes)
    requires ValidRecords(records, fields)
    ensures ExecuteAll(k, Adds(records, key), key) ==
            if SmallIds(LiveOf(records)) then Some(AddedAll(k, LiveOf(records))) else None
    decreases records
  {
    hide Execute, Flat, SignedText;
    if records != [] {
      var r := records[0];
      assert ValidRecord(r, fields);
      RecordsLater(records, fields);
      if r.deleted {
        assert [] + LiveOf(records[1..]) == LiveOf(records[1..]);
        RecordsRun(k, records[1..], fields, key);
      } else {
        AddRuns(k, key, r.id, r.pairs);
        var one: seq<(Id, seq<(bytes, bytes)>)> := [(r.id, r.pairs)];
        assert SmallIds(one) <==> Small(r.id) by { assert one[0] == (r.id, r.pairs); }
        AddedAppend(k, one, LiveOf(records[1..]));
        assert one[1..] == [];
        FirstRuns(k, [Ascii("xadd"), key, SignedText(r.id)] + Flat(r.pairs), Adds(records[1..], key), key);
        if Small(r.id) { RecordsRun(Some(Added(k, r.id, r.pairs)), records[1..], fields, key); }
      }
    }
  }

  lemma RecordsLater(records: seq<Record>, fields: seq<bytes>)
    requires ValidRecords(records, fields) && records != []
    ensures ValidRecords(records[1..], fields)
  {
    hide ValidRecord;
  }

  lemma FirstRuns(k: Key, first: Argv, more: seq<Argv>, key: bytes)
    ensures ExecuteAll(k, [first] + more, key) ==
            match Execute(k, first, key) case None => None case Some(k) => ExecuteAll(k, more, key)
  {
    hide Execute;
    assert ([first] + more)[1..] == more;
  }

  lemma {:induction false} NodesRun(k: Key, nodes: seq<Node>, key: bytes)
    requires ValidNodes(nodes)
    ensures ExecuteAll(k, NodeAdds(nodes, key), key) ==
            if SmallIds(EntriesOf(nodes)) then Some(AddedAll(k, EntriesOf(nodes))) else None
    decreases nodes
  {
    hide Execute, ExecuteAll, Adds, LiveOf, SmallIds, AddedAll, ValidNode;
    if nodes == [] {
      NothingAdded(k, key);
    } else {
      NodeRecords(nodes);
      RecordsRun(k, nodes[0].records, nodes[0].fields, key);
      ExecuteAppend(k, Adds(nodes[0].records, key), NodeAdds(nodes[1..], key), key);
      AddedAppend(k, LiveOf(nodes[0].records), EntriesOf(nodes[1..]));
      NodesRun(AddedAll(k, LiveOf(nodes[0].records)), nodes[1..], key);
    }
  }

  lemma NothingAdded(k: Key, key: bytes)
    ensures ExecuteAll(k, [], key) == Some(k) && SmallIds([]) && AddedAll(k, []) == k
  {
  }

  lemma NodeRecords(nodes: seq<Node>)
    requires ValidNodes(nodes) && nodes != []
    ensures ValidRecords(nodes[0].records, nodes[0].fields) && ValidNodes(nodes[1..])
  {
    hide ValidRecords, ValidString, StringText;
    assert ValidNode(nodes[0]);
  }

  // ---- Groups and claims ---------------------------------------------------------------------

  /** The same stream with other pending entries in one group. */
  function With(s: StreamState, group: bytes, pending: map<Id, Pended>): StreamState
    requires group in s.groups
  {
    s.(groups := s.groups[group := s.groups[group].(pending := pending)])
  }

  function PendingIn(s: StreamState, group: bytes): map<Id, Pended>
    requires group in s.groups
  {
    s.groups[group].pending
  }

  lemma WithLast(s: StreamState, group: bytes, p: map<Id, Pended>, q: map<Id, Pended>)
    requires group in s.groups
    ensures With(With(s, group, p), group, q) == With(s, group, q) && PendingIn(With(s, group, p), group) == p
    ensures With(s, group, PendingIn(s, group)) == s
  {
    assert s.groups[group := s.groups[group]] == s.groups;
    assert With(With(s, group, p), group, q).groups == With(s, group, q).groups;
  }

  lemma {:induction false} ClaimRuns(s: StreamState, key: bytes, group: bytes, consumer: bytes, id: Id, time: nat, count: nat)
    requires group in s.groups
    ensures Execute(Some(s), Claim(key, group, consumer, Text(id), time, count), key) ==
            Some(Some(With(s, group, PendingIn(s, group)[id := Pended(consumer, time, count)])))
  {
    hide ParseId, Natural, Itoa, IdText, Xadd;
    var argv := Claim(key, group, consumer, Text(id), time, count);
    var words := argv[2..];
    assert |argv| == 12 && argv[0] == Ascii("xclaim") && argv[1] == key;
    assert words[0] == group && words[1] == consumer && words[2] == Ascii("0") && words[3] == Text(id);
    assert words[4] == Ascii("TIME") && words[5] == Itoa(time) && words[6] == Ascii("RETRYCOUNT");
    assert words[7] == Itoa(count) && words[8] == Ascii("JUSTID") && words[9] == Ascii("FORCE");
    ParseIdBack(id.ms, id.seqno);
    NaturalBack(time);
    NaturalBack(count);
    AddNames();
  }

  lemma {:induction false} ClaimsRun(s: StreamState, ids: seq<Id>, key: bytes, group: bytes, consumer: bytes,
                                     pel: seq<Delivery>)
    requires group in s.groups
    ensures ExecuteAll(Some(s), Claims(ids, key, group, consumer, pel), key) ==
            Some(Some(With(s, group, PendingIn(s, group) + Owned(ids, consumer, pel))))
    decreases ids
  {
    hide Execute, Claim, Text, TimeOf, CountOf, With, PendingIn;
    var pending := PendingIn(s, group);
    if ids == [] {
      NothingAdded(Some(s), key);
      NoMore(pending);
      WithLast(s, group, pending, pending);
    } else {
      var p := Pended(consumer, TimeOf(pel, ids[0]), CountOf(pel, ids[0]));
      var owned := Owned(ids[1..], consumer, pel);
      ClaimRuns(s, key, group, consumer, ids[0], p.time, p.count);
      FirstRuns(Some(s), Claim(key, group, consumer, Text(ids[0]), p.time, p.count),
                Claims(ids[1..], key, group, consumer, pel), key);
      var next := With(s, group, pending[ids[0] := p]);
      WithGroups(s, group, pending[ids[0] := p]);
      ClaimsRun(next, ids[1..], key, group, consumer, pel);
      WithLast(s, group, pending[ids[0] := p], pending[ids[0] := p] + owned);
      MapLast(pending, ids[0], p, owned);
    }
  }

  lemma WithGroups(s: StreamState, group: bytes, p: map<Id, Pended>)
    requires group in s.groups
    ensures group in With(s, group, p).groups
  {
  }

  lemma NoMore<K, V>(m: map<K, V>)
    ensures m + map[] == m
  {
  }

  lemma MapLast<K, V>(m: map<K, V>, k: K, v: V, n: map<K, V>)
    ensures m[k := v] + n == m + (map[k := v] + n)
  {
  }

  lemma MapRegroup<K, V>(m: map<K, V>, a: map<K, V>, b: map<K, V>)
    ensures m + a + b == m + (a + b)
  {
  }

  lemma {:induction false} ConsumersRun(s: StreamState, cs: seq<Consumer>, key: bytes, group: bytes, pel: seq<Delivery>)
    requires group in s.groups && forall k :: 0 <= k < |cs| ==> ValidConsumer(cs[k])
    ensures ExecuteAll(Some(s), ConsumerClaims(cs, key, group, pel), key) ==
            Some(Some(With(s, group, PendingIn(s, group) + PendingOf(cs, pel))))
    decreases cs
  {
    hide Execute, Claims, Owned, ValidConsumer, StringText, ExecuteAll, With, PendingIn;
    var pending := PendingIn(s, group);
    if cs == [] {
      NothingAdded(Some(s), key);
      NoMore(pending);
      WithLast(s, group, pending, pending);
    } else {
      ConsumerName(cs[0]);
      var name := StringText(cs[0].name);
      ClaimsRun(s, cs[0].pel, key, group, name, pel);
      ExecuteAppend(Some(s), Claims(cs[0].pel, key, group, name, pel), ConsumerClaims(cs[1..], key, group, pel), key);
      var mine, others := Owned(cs[0].pel, name, pel), PendingOf(cs[1..], pel);
      WithGroups(s, group, pending + mine);
      ConsumersRun(With(s, group, pending + mine), cs[1..], key, group, pel);
      WithLast(s, group, pending + mine, pending + mine + others);
      MapRegroup(pending, mine, others);
    }
  }

  lemma {:induction false} GroupRuns(s: StreamState, g: Group, key: bytes)
    requires ValidGroup(g) && StringText(g.name) !in s.groups
    ensures ExecuteAll(Some(s), GroupCommands(g, key), key) ==
            Some(Some(s.(groups := s.groups[StringText(g.name) := GroupOf(g)])))
  {
    hide Execute, ExecuteAll, ConsumerClaims, PendingOf, StringText, ValidString, ValidConsumer, ValidNum, IdText,
      CreateGroup, ValidCount, ValidDelivery;
    var name := StringText(g.name);
    var newborn := GroupState(Id(g.ms.n, g.seqno.n), map[]);
    CreateRuns(s, key, name, g.ms.n, g.seqno.n);
    var made := s.(groups := s.groups[name := newborn]);
    FirstRuns(Some(s), CreateGroup(key, name, IdText(g.ms.n, g.seqno.n)), ConsumerClaims(g.consumers, key, name, g.pel), key);
    ConsumersRun(made, g.consumers, key, name, g.pel);
    var pending := PendingOf(g.consumers, g.pel);
    assert PendingIn(made, name) == map[] && map[] + pending == pending;
    assert With(made, name, pending).groups == s.groups[name := GroupOf(g)];
  }

  lemma CreateRuns(s: StreamState, key: bytes, group: bytes, ms: nat, seqno: nat)
    requires group !in s.groups
    ensures Execute(Some(s), CreateGroup(key, group, IdText(ms, seqno)), key) ==
            Some(Some(s.(groups := s.groups[group := GroupState(Id(ms, seqno), map[])])))
  {
    hide ParseId, IdText, Xadd, Xclaim;
    ParseIdBack(ms, seqno);
    AddNames();
  }

  lemma {:induction false} GroupsRun(s: StreamState, gs: seq<Group>, key: bytes)
    requires ValidGroups(gs) && DistinctGroups(gs) && s.groups.Keys !! GroupsOf(gs).Keys
    ensures ExecuteAll(Some(s), GroupsCommands(gs, key), key) == Some(Some(s.(groups := s.groups + GroupsOf(gs))))
    decreases gs
  {
    hide Execute, ExecuteAll, GroupCommands, GroupOf, ValidGroup, StringText;
    if gs == [] {
      NothingAdded(Some(s), key);
      assert s.groups + map[] == s.groups;
    } else {
      assert ValidGroup(gs[0]);
      GroupName(gs[0]);
      var name := StringText(gs[0].name);
      assert name in GroupsOf(gs);
      GroupRuns(s, gs[0], key);
      ExecuteAppend(Some(s), GroupCommands(gs[0], key), GroupsCommands(gs[1..], key), key);
      var next := s.(groups := s.groups[name := GroupOf(gs[0])]);
      GroupsRun(next, gs[1..], key);
      MapLast(s.groups, name, GroupOf(gs[0]), GroupsOf(gs[1..]));
    }
  }

  lemma GroupName(g: Group)
    requires ValidGroup(g)
    ensures ValidString(g.name)
  {
  }

  // ---- The whole value -----------------------------------------------------------------------

  lemma XaddLimited(k: Key, n: nat, rest: seq<bytes>)
    ensures Xadd(k, [Ascii("MAXLEN"), Itoa(n)] + rest) ==
            match Xadd(k, rest) case None => None case Some(s) => Some(s.(entries := Newest(s.entries, n)))
  {
    hide Natural, Itoa, Newest, ParseId, PairUp;
    var words := [Ascii("MAXLEN"), Itoa(n)] + rest;
    assert words[2..] == rest;
    NaturalBack(n);
  }

  lemma OneAdded(id: Id, name: bytes, value: bytes)
    ensures Xadd(None, [IdText(id.ms, id.seqno), name, value]) ==
            Some(StreamState([(id, [(name, value)])], id, map[]))
  {
    hide Natural, Itoa, IdText, ParseId, PairUp;
    var words: seq<bytes> := [IdText(id.ms, id.seqno), name, value];
    NotAnOption(id.ms, id.seqno);
    XaddPlain(None, words);
    ParseIdBack(id.ms, id.seqno);
    FlatOne(name, value);
    PairUpFlat([(name, value)]);
    assert words[1..] == [name, value];
  }

  lemma FlatOne(name: bytes, value: bytes)
    ensures Flat([(name, value)]) == [name, value]
  {
    var one := [(name, value)];
    assert one[1..] == [];
  }

  /** An empty stream is made by adding an entry and trimming it away. */
  lemma EmptyRuns(key: bytes)
    ensures Execute(None, EmptyStream(key), key) == Some(Some(StreamState([], Id(0, 1), map[])))
  {
    hide Xadd, IdText, Itoa;
    var argv := EmptyStream(key);
    SmallTexts();
    var plain: seq<bytes> := [IdText(0, 1), Ascii("x"), Ascii("y")];
    var limit: seq<bytes> := [Ascii("MAXLEN"), Itoa(0)];
    var name: seq<bytes> := [Ascii("xadd"), key];
    assert argv == name + (limit + plain) && |name| == 2;
    Cut(name, limit + plain);
    XaddLimited(None, 0, plain);
    OneAdded(Id(0, 1), Ascii("x"), Ascii("y"));
    assert Newest(Xadd(None, plain).value.entries, 0) == [];
    assert argv[2..] == limit + plain && Xadd(None, limit + plain) == Some(StreamState([], Id(0, 1), map[]));
    AddNames();
  }

  lemma SmallTexts()
    ensures Ascii("0") == Itoa(0) && Ascii("0-1") == IdText(0, 1)
  {
    assert Itoa(0) == [48] && Itoa(1) == [49];
  }

  lemma SetIdRuns(k: Key, key: bytes, ms: nat, seqno: nat)
    ensures Execute(k, SetId(key, IdText(ms, seqno)), key) ==
            match k case None => None case Some(s) => Some(Some(s.(last := Id(ms, seqno))))
  {
    hide ParseId, IdText, Xadd, Xclaim;
    ParseIdBack(ms, seqno);
    AddNames();
  }

  /** Every live entry has an id below 2^63 in both halves, and a stream with nodes has a live entry. */
  predicate Rebuildable(x: Stream) {
    SmallIds(EntriesOf(x.nodes)) && (x.nodes == [] || EntriesOf(x.nodes) != [])
  }

  /** From an absent key. */
  lemma {:induction false} CommandsRun(x: Stream, key: bytes)
    requires ValidStream(x) && DistinctGroups(x.groups)
    ensures ExecuteAll(None, Commands(x, key), key) == if Rebuildable(x) then Some(Some(StreamOf(x))) else None
  {
    hide Execute, ExecuteAll, NodeAdds, GroupsCommands, EntriesOf, SmallIds, AddedAll, EmptyStream, SetId, IdText,
      ValidNodes, ValidGroups, ValidNum, ValidNums, ValidCount, GroupsOf, DistinctGroups;
    var adds, groups := NodeAdds(x.nodes, key), GroupsCommands(x.groups, key);
    var create := if x.nodes == [] then [EmptyStream(key)] else [];
    var trailer := create + [SetId(key, IdText(x.ms.n, x.seqno.n))] + groups;
    NodesRun(None, x.nodes, key);
    ExecuteAppend(None, adds, trailer, key);
    if SmallIds(EntriesOf(x.nodes)) {
      Regroup(create, [SetId(key, IdText(x.ms.n, x.seqno.n))], groups);
      var built := AddedAll(None, EntriesOf(x.nodes));
      if EntriesOf(x.nodes) == [] { NothingAdded(None, key); } else { AddedFresh(EntriesOf(x.nodes)); }
      if x.nodes == [] {
        NoEntries(key);
        EmptyRuns(key);
        FirstRuns(None, EmptyStream(key), [SetId(key, IdText(x.ms.n, x.seqno.n))] + groups, key);
        TrailerRuns(Some(StreamState([], Id(0, 1), map[])), x, key);
      } else {
        assert create + ([SetId(key, IdText(x.ms.n, x.seqno.n))] + groups) == [SetId(key, IdText(x.ms.n, x.seqno.n))] + groups;
        TrailerRuns(built, x, key);
      }
    }
  }

  lemma NoEntries(key: bytes)
    ensures EntriesOf([]) == [] && AddedAll(None, []) == None
  {
  }

  /** XSETID and the groups on a stream without groups; on an absent key XSETID is an error. */
  lemma {:induction false} TrailerRuns(k: Key, x: Stream, key: bytes)
    requires ValidStream(x) && DistinctGroups(x.groups) && (k.Some? ==> k.value.groups == map[])
    ensures ExecuteAll(k, [SetId(key, IdText(x.ms.n, x.seqno.n))] + GroupsCommands(x.groups, key), key) ==
            match k
            case None => None
            case Some(s) => Some(Some(s.(last := Id(x.ms.n, x.seqno.n), groups := GroupsOf(x.groups))))
  {
    hide Execute, ExecuteAll, GroupsCommands, SetId, IdText, GroupsOf, DistinctGroups, ValidNodes, ValidGroups, ValidNum,
      ValidNums, ValidCount;
    SetIdRuns(k, key, x.ms.n, x.seqno.n);
    FirstRuns(k, SetId(key, IdText(x.ms.n, x.seqno.n)), GroupsCommands(x.groups, key), key);
    if k.Some? {
      var s := k.value.(last := Id(x.ms.n, x.seqno.n));
      GroupsRun(s, x.groups, key);
      assert s.groups + GroupsOf(x.groups) == GroupsOf(x.groups);
    }
  }

  lemma DeleteRuns(k: Key, key: bytes)
    ensures Execute(k, [Ascii("del"), key], key) == Some(None)
  {
  }

  /**
   Whatever the key held, a server that runs what a stream value is decoded to, behind the DEL of Rewrite,
   holds exactly the stored stream: the entries that are not deleted, in order and with their fields, the last
   id, and every group with its last id and each pending entry's consumer, delivery time and count. It fails,
   if and only if an entry's id is beyond 2^63 in a half, or there are nodes without a live entry, so that
   XSETID finds no stream.
   */
  lemma StreamRebuilt(x: Stream, key: bytes, typeByte: int, rest: bytes, before: Key)
    requires ValidStream(x) && DistinctGroups(x.groups) && typeByte in {15, 19, 21}
    ensures var d := DecodeStream(PutStream(x, typeByte, rest), key, typeByte);
            && d.Some? && d.value.1 == rest
            && ExecuteAll(before, [[Ascii("del"), key]] + d.value.0, key) ==
               if Rebuildable(x) then Some(Some(StreamOf(x))) else None
  {
    hide DecodeStream, PutStream, Execute, ExecuteAll, Commands, ValidStream, DistinctGroups, StreamOf, Rebuildable;
    StreamRoundTrip(x, key, typeByte, rest);
    DeleteRuns(before, key);
    ValidParts(x);
    FirstRuns(before, [Ascii("del"), key], Commands(x, key), key);
    CommandsRun(x, key);
  }

  lemma ValidParts(x: Stream)
    requires ValidStream(x)
    ensures ValidGroups(x.groups)
  {
    hide ValidGroups, ValidNodes, ValidNum, ValidNums, ValidCount;
  }
}
