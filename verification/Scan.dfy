/** dump and restore of scan_standalone_reader.go: what is sent for a key, and what its replies become. */
module Scan {
  import opened Bytes
  import opened Decimal
  import opened CommandStream
  import opened RdbPrimitives
  import opened RdbLoop

  /** dbKey and needRestoreItem. */
  datatype Item = Item(db: int64, key: bytes)

  /** The commands of dump on the connection it shares with restore. */
  datatype Request = Select(db: int64) | Dump(key: bytes) | Pttl(key: bytes) | Type(key: bytes)

  /** client.Receive: a string, an integer, the nil error, or another error. */
  datatype Reply = Text(text: bytes) | Number(n: int64) | Nil | Failure

  /** What the source holds of a key: its serialized value, its remaining time to live, and its type. */
  datatype Stored = Stored(dump: bytes, remaining: Option<millis>, kind: bytes)

  type millis = n: int64 | 0 <= n

  /** The data of the source by database and key. It is live, so every answer may see another one. */
  type Keyspace = map<(int64, bytes), Stored>

  /** A request as it was answered: the reply, the database the connection had selected, and the data then. */
  datatype Answer = Answer(request: Request, reply: Reply, db: int64, keys: Keyspace)

  const OK: Reply := Text(Ascii("OK"))

  /** The database the connection has selected behind an answer; a refused SELECT leaves it. */
  function DbBehind(a: Answer): int64 {
    if a.request.Select? && a.reply == OK then a.request.db else a.db
  }

  /** skip_unknown_type, and the options of the target. */
  datatype Options = Options(skip: seq<bytes>, cfg: Config)

  // ---- Sending -------------------------------------------------------------------------------

  /** The requests for one item when the last item was in database now. */
  function RequestsOf(item: Item, now: int64, typed: bool): (r: seq<Request>)
    ensures |r| >= 2
  {
    (if item.db != now then [Select(item.db)] else [])
    + [Dump(item.key), Pttl(item.key)]
    + (if typed then [Type(item.key)] else [])
  }

  function LastDb(items: seq<Item>, now: int64): int64 {
    if items == [] then now else items[|items| - 1].db
  }

  /** The requests for a sequence of items. */
  function Requests(items: seq<Item>, now: int64, typed: bool): seq<Request> {
    if items == [] then []
    else RequestsOf(items[0], now, typed) + Requests(items[1..], items[0].db, typed)
  }

  /** One turn of dump. */
  method DumpOne(item: Item, now: int64, typed: bool) returns (sent: seq<Request>)
    ensures sent == RequestsOf(item, now, typed)
  {
    sent := [];
    if now != item.db { sent := sent + [Select(item.db)]; }
    sent := sent + [Dump(item.key)];
    sent := sent + [Pttl(item.key)];
    if typed { sent := sent + [Type(item.key)]; }
  }

  /** The loop of dump. */
  method DumpLoop(items: seq<Item>, opts: Options) returns (sent: seq<Request>, passed: seq<Item>)
    ensures sent == Requests(items, 0, opts.skip != []) && passed == items
  {
    hide RequestsOf;
    var nowDbId: int64 := 0;
    sent, passed := [], [];
    assert items[0..] == items;
    for i := 0 to |items|
      invariant passed == items[..i]
      invariant sent + Requests(items[i..], nowDbId, opts.skip != []) == Requests(items, 0, opts.skip != [])
    {
      var more := DumpOne(items[i], nowDbId, |opts.skip| > 0);
      assert items[i..][1..] == items[i + 1..];
      Regroup(sent, more, Requests(items[i + 1..], items[i].db, opts.skip != []));
      sent, nowDbId, passed := sent + more, items[i].db, passed + [items[i]];
    }
    assert sent + [] == sent;
  }

  // ---- Receiving -----------------------------------------------------------------------------

  predicate Skipped(text: bytes, skip: seq<bytes>) {
    exists k :: 0 <= k < |skip| && EqualFold(text, skip[k])
  }

  /** The RESTORE time-to-live: 0 is raised to 1, and -1, no expiry, becomes 0. */
  function RestoreTtl(pttl: int64): int64 {
    if pttl == 0 then 1 else if pttl == -1 then 0 else pttl
  }

  /** The commands a dump too large for one bulk string is taken apart into. */
  function TakenApart(dump: bytes, key: bytes, isValkey: bool, decode: ValueDecoder): Option<seq<Argv>> {
    if |dump| < 11 then None
    else
      var (argvs, _) :- decode(dump[1..|dump| - 10], dump[0], key, isValkey);
      Some(argvs)
  }

  /** The entries of a key that exists. */
  function Survivor(item: Item, dump: bytes, ttl: int64, cfg: Config, decode: ValueDecoder): Option<seq<Entry>> {
    if |dump| > cfg.maxBulk then
      var argvs :- TakenApart(dump, item.key, cfg.isValkey, decode);
      Some(InDb(item.db, argvs) + if ttl != 0 then [Entry(item.db, PExpire(item.key, ttl))] else [])
    else
      Some([Entry(item.db, [Ascii("RESTORE"), item.key, Itoa(ttl), dump]
                           + if cfg.rewrite then [Ascii("replace")] else [])])
  }

  /** What restore makes of the replies to DUMP and PTTL. */
  function FromDump(item: Item, dump: Reply, pttl: Reply, cfg: Config, decode: ValueDecoder): Option<seq<Entry>> {
    if dump.Nil? then Some([])
    else if dump.Failure? || pttl.Failure? || pttl.Nil? then None
    else if !dump.Text? || !pttl.Number? then None
    else if pttl.n == -2 then Some([])
    else Survivor(item, dump.text, RestoreTtl(pttl.n), cfg, decode)
  }

  /** What restore makes of all replies to one item's requests, in order; None is a panic. */
  function Restored(item: Item, now: int64, replies: seq<Reply>, opts: Options, decode: ValueDecoder): Option<seq<Entry>>
    requires |replies| == |RequestsOf(item, now, opts.skip != [])|
  {
    if item.db != now && replies[0] != OK then None
    else
      var rest := if item.db != now then replies[1..] else replies;
      if opts.skip != [] then
        if !rest[2].Text? then None
        else if Skipped(rest[2].text, opts.skip) then Some([])
        else FromDump(item, rest[0], rest[1], opts.cfg, decode)
      else FromDump(item, rest[0], rest[1], opts.cfg, decode)
  }

  /** Restoring items one after another, each from its own stretch of the replies. */
  function RestoredAll(items: seq<Item>, now: int64, replies: seq<Reply>, opts: Options, decode: ValueDecoder)
    : Option<seq<Entry>>
    requires |replies| == |Requests(items, now, opts.skip != [])|
    decreases items
  {
    if items == [] then Some([])
    else
      var n := |RequestsOf(items[0], now, opts.skip != [])|;
      var first :- Restored(items[0], now, replies[..n], opts, decode);
      var more :- RestoredAll(items[1..], items[0].db, replies[n..], opts, decode);
      Some(first + more)
  }

  /** The inner loop over skip_unknown_type. */
  method IsSkipped(typeStr: bytes, skip: seq<bytes>) returns (skipped: bool)
    ensures skipped == Skipped(typeStr, skip)
  {
    skipped := false;
    for k := 0 to |skip|
      invariant skipped <==> exists m :: 0 <= m < k && EqualFold(typeStr, skip[m])
    {
      if EqualFold(typeStr, skip[k]) { skipped := true; }
    }
  }

  /** One turn of restore, from the replies at position at. */
  method RestoreOne(item: Item, now: int64, replies: seq<Reply>, at: nat, opts: Options, decode: ValueDecoder)
    returns (entries: Option<seq<Entry>>, next: nat)
    requires at + |RequestsOf(item, now, opts.skip != [])| <= |replies|
    ensures next == at + |RequestsOf(item, now, opts.skip != [])|
    ensures entries == Restored(item, now, replies[at..next], opts, decode)
  {
    hide Skipped, FromDump;
    next := at + |RequestsOf(item, now, opts.skip != [])|;
    ghost var own := replies[at..next];
    var inx := at;
    if now != item.db {
      var reply := replies[inx];
      inx := inx + 1;
      assert reply == own[0];
      if reply != OK { return None, next; }
    }
    ghost var rest := if item.db != now then own[1..] else own;
    var iDump, iPttl := replies[inx], replies[inx + 1];
    assert iDump == rest[0] && iPttl == rest[1];
    inx := inx + 2;
    if |opts.skip| > 0 {
      var iType := replies[inx];
      assert iType == rest[2];
      if !iType.Text? { return None, next; }
      var skip := IsSkipped(iType.text, opts.skip);
      if skip { return Some([]), next; }
    }
    entries := FromReplies(item, iDump, iPttl, opts.cfg, decode);
  }

  /** The rest of the turn: nil, errors, the three special PTTL values, and the size limit. */
  method FromReplies(item: Item, iDump: Reply, iPttl: Reply, cfg: Config, decode: ValueDecoder)
    returns (entries: Option<seq<Entry>>)
    ensures entries == FromDump(item, iDump, iPttl, cfg, decode)
  {
    hide InDb, PExpire, Itoa;
    if iDump.Nil? { return Some([]); }
    if iDump.Failure? || iPttl.Failure? || iPttl.Nil? || !iDump.Text? { return None; }
    if !iPttl.Number? { return None; }
    var pttl := iPttl.n;
    if pttl == 0 { pttl := 1; }
    if pttl == -2 { return Some([]); }
    if pttl == -1 { pttl := 0; }
    if |iDump.text| > cfg.maxBulk {
      var argvs := TakenApart(iDump.text, item.key, cfg.isValkey, decode);
      if argvs.None? { return None; }
      var sent := InDb(item.db, argvs.value);
      assert sent + [] == sent;
      if pttl != 0 { sent := sent + [Entry(item.db, PExpire(item.key, pttl))]; }
      return Some(sent);
    }
    var argv := [Ascii("RESTORE"), item.key, Itoa(pttl), iDump.text];
    assert argv + [] == argv;
    if cfg.rewrite { argv := argv + [Ascii("replace")]; }
    return Some([Entry(item.db, argv)]);
  }

  /** The loop of restore over items and the reply stream; stopping early is a panic. */
  method RestoreLoop(items: seq<Item>, replies: seq<Reply>, opts: Options, decode: ValueDecoder)
    returns (ch: Option<seq<Entry>>)
    requires |replies| == |Requests(items, 0, opts.skip != [])|
    ensures ch == RestoredAll(items, 0, replies, opts, decode)
  {
    hide Restored, RequestsOf;
    var nowDbId: int64 := 0;
    var sent: seq<Entry> := [];
    var at := 0;
    assert items[0..] == items && replies[0..] == replies;
    MoreNothing(RestoredAll(items, 0, replies, opts, decode));
    for i := 0 to |items|
      invariant at <= |replies| && |replies| - at == |Requests(items[i..], nowDbId, opts.skip != [])|
      invariant More(sent, RestoredAll(items[i..], nowDbId, replies[at..], opts, decode)) ==
                RestoredAll(items, 0, replies, opts, decode)
    {
      var item := items[i];
      assert items[i..][1..] == items[i + 1..];
      assert |Requests(items[i..], nowDbId, opts.skip != [])|
          == |RequestsOf(item, nowDbId, opts.skip != [])| + |Requests(items[i + 1..], item.db, opts.skip != [])|;
      var entries, next := RestoreOne(item, nowDbId, replies, at, opts, decode);
      ghost var n := |RequestsOf(item, nowDbId, opts.skip != [])|;
      assert replies[at..][..n] == replies[at..next] && replies[at..][n..] == replies[next..];
      if entries.None? { return None; }
      MoreAppend(sent, entries.value, RestoredAll(items[i + 1..], item.db, replies[next..], opts, decode));
      sent, at, nowDbId := sent + entries.value, next, item.db;
    }
    assert sent + [] == sent;
    return Some(sent);
  }

  function More(sent: seq<Entry>, d: Option<seq<Entry>>): Option<seq<Entry>> {
    match d
    case None => None
    case Some(es) => Some(sent + es)
  }

  lemma MoreNothing(d: Option<seq<Entry>>)
    ensures More([], d) == d
  {
    if d.Some? { assert [] + d.value == d.value; }
  }

  lemma MoreAppend(sent: seq<Entry>, first: seq<Entry>, d: Option<seq<Entry>>)
    ensures More(sent + first, d) == match d case None => None case Some(es) => More(sent, Some(first + es))
  {
    if d.Some? { assert sent + first + d.value == sent + (first + d.value); }
  }

  // ---- What becomes of one key ---------------------------------------------------------------

  /** A dump sealed as in an RDB file gives the entries the RDB loop gives for the same value. */
  lemma SameAsFile(item: Item, typeByte: byte, value: bytes, pttl: int64, argvs: seq<Argv>, cfg: Config,
                   decode: ValueDecoder)
    requires decode(value, typeByte, item.key, cfg.isValkey) == Some((argvs, [])) && pttl >= -1
    ensures FromDump(item, Text(CreateValueDump(typeByte, value)), Number(pttl), cfg, decode) ==
            Some(KeyEntries(cfg, item.db, RestoreTtl(pttl), typeByte, item.key, value, argvs))
  {
    hide CreateValueDump, InDb, PExpire, Itoa;
    DumpSealed(typeByte, value);
  }
}
