/**
 Each key's own dump from its own database. dump keeps track of the selected database by its own
 nowDbId; here is what the server makes of that, and what the restored entries say about the source.
 */
module ScanKeyspace {
  import opened Bytes
  import opened Decimal
  import opened CommandStream
  import opened RdbPrimitives
  import opened RdbLoop
  import opened Scan
  import F = RdbFile
  import opened ScanAlignment

  // ---- The database every request runs in ----------------------------------------------------

  function DbsIn(answers: seq<Answer>): (r: seq<int64>)
    ensures |r| == |answers|
  {
    seq(|answers|, k requires 0 <= k < |answers| => answers[k].db)
  }

  /** Where the requests for one item belong: SELECT in the database of the item before, the rest in its own. */
  function DbsOf(item: Item, now: int64, typed: bool): seq<int64> {
    (if item.db != now then [now] else []) + [item.db, item.db] + (if typed then [item.db] else [])
  }

  function Dbs(items: seq<Item>, now: int64, typed: bool): seq<int64> {
    if items == [] then [] else DbsOf(items[0], now, typed) + Dbs(items[1..], items[0].db, typed)
  }

  ghost predicate SelectsOk(answers: seq<Answer>) {
    forall k :: 0 <= k < |answers| && answers[k].request.Select? ==> answers[k].reply == OK
  }

  /** Every answer was given in the database the one before it left, the first in now and the next in end. */
  ghost predicate Tracked(now: int64, answers: seq<Answer>, end: int64)
    decreases answers
  {
    if answers == [] then now == end
    else answers[0].db == now && Tracked(DbBehind(answers[0]), answers[1..], end)
  }

  lemma {:induction false} TrackedSnoc(now: int64, answers: seq<Answer>, a: Answer)
    requires Tracked(now, answers, a.db)
    ensures Tracked(now, answers + [a], DbBehind(a))
    decreases answers
  {
    if answers == [] {
      var one := [a];
      assert answers + [a] == one && one[1..] == [];
    } else {
      assert (answers + [a])[1..] == answers[1..] + [a];
      TrackedSnoc(DbBehind(answers[0]), answers[1..], a);
    }
  }

  function Answers(s: State): seq<Answer> { s.consumed + (s.got + s.replies) }

  lemma AnswersStep(x: Setup, s: State, a: Action)
    requires Enabled(x, s, a) && Tracked(0, Answers(s), s.serverDb)
    ensures Tracked(0, Answers(Next(x, s, a)), Next(x, s, a).serverDb)
  {
    hide RequestsOf, Restored, RepliesOf, LastDb, Tracked;
    var t := Next(x, s, a);
    match a
    case Serve(reply, keys) =>
      var answer := t.replies[|s.replies|];
      TrackedSnoc(0, Answers(s), answer);
      assert Answers(t) == Answers(s) + [answer];
    case Receive =>
      Slide(s.got, s.replies);
      assert Answers(t) == Answers(s);
    case Finish => assert Answers(t) == Answers(s);
    case _ =>
  }

  lemma {:induction false} AnswersRun(x: Setup, s: State, actions: seq<Action>, t: State)
    requires Runs(x, s, actions, t) && Tracked(0, Answers(s), s.serverDb)
    ensures Tracked(0, Answers(t), t.serverDb)
    decreases actions
  {
    hide Enabled, Next, Answers, Tracked;
    if actions != [] {
      AnswersStep(x, s, actions[0]);
      AnswersRun(x, Next(x, s, actions[0]), actions[1..], t);
    }
  }

  // ---- What the requests alone say -----------------------------------------------------------

  /** Where requests run if every SELECT succeeds. */
  function Trace(now: int64, requests: seq<Request>): (r: seq<int64>)
    ensures |r| == |requests|
    decreases requests
  {
    if requests == [] then [] else [now] + Trace(After(now, requests[0]), requests[1..])
  }

  function After(now: int64, r: Request): int64 { if r.Select? then r.db else now }

  function TraceEnd(now: int64, requests: seq<Request>): int64
    decreases requests
  {
    if requests == [] then now else TraceEnd(After(now, requests[0]), requests[1..])
  }

  lemma {:induction false} TraceAppend(now: int64, a: seq<Request>, b: seq<Request>)
    ensures Trace(now, a + b) == Trace(now, a) + Trace(TraceEnd(now, a), b)
    decreases a
  {
    if a == [] {
      assert a + b == b;
    } else {
      assert (a + b)[1..] == a[1..] + b;
      TraceAppend(After(now, a[0]), a[1..], b);
    }
  }

  lemma TraceItem(item: Item, now: int64, typed: bool)
    ensures Trace(now, RequestsOf(item, now, typed)) == DbsOf(item, now, typed)
    ensures TraceEnd(now, RequestsOf(item, now, typed)) == item.db
  {
    var kind: seq<Request> := if typed then [Type(item.key)] else [];
    var pttl := [Pttl(item.key)] + kind;
    var rest := [Dump(item.key)] + pttl;
    assert typed ==> kind[1..] == [];
    assert pttl[1..] == kind && rest[1..] == pttl;
    assert Trace(item.db, kind) == if typed then [item.db] else [];
    assert Trace(item.db, pttl) == [item.db] + Trace(item.db, kind);
    assert Trace(item.db, rest) == [item.db] + Trace(item.db, pttl);
    assert TraceEnd(item.db, kind) == item.db && TraceEnd(item.db, pttl) == item.db && TraceEnd(item.db, rest) == item.db;
    var all := RequestsOf(item, now, typed);
    if item.db != now {
      assert all == [Select(item.db)] + rest && all[1..] == rest;
    } else {
      assert all == rest;
    }
  }

  /** dump's own nowDbId puts every request of an item into the item's database. */
  lemma {:induction false} TraceItems(items: seq<Item>, now: int64, typed: bool)
    ensures Trace(now, Requests(items, now, typed)) == Dbs(items, now, typed)
    decreases items
  {
    hide RequestsOf, DbsOf;
    if items != [] {
      TraceItem(items[0], now, typed);
      TraceItems(items[1..], items[0].db, typed);
      TraceAppend(now, RequestsOf(items[0], now, typed), Requests(items[1..], items[0].db, typed));
    }
  }

  lemma {:induction false} TrackedTrace(now: int64, answers: seq<Answer>, end: int64)
    requires Tracked(now, answers, end) && SelectsOk(answers)
    ensures DbsIn(answers) == Trace(now, RequestsIn(answers))
    decreases answers
  {
    if answers != [] {
      assert RequestsIn(answers)[1..] == RequestsIn(answers[1..]);
      TrackedTrace(DbBehind(answers[0]), answers[1..], end);
      assert DbsIn(answers) == [now] + DbsIn(answers[1..]);
    }
  }

  /** In every interleaving, as long as no SELECT was refused, every request that has been answered ran in the
      database of the item it was sent for. */
  lemma OwnDatabase(x: Setup, s: State)
    requires Reachable(x, s) && !s.panicked && SelectsOk(Answers(s))
    ensures s.taken <= |x.items|
    ensures RequestsIn(Answers(s)) <= Requests(x.items[..s.taken], 0, x.Typed())
    ensures DbsIn(Answers(s)) <= Dbs(x.items[..s.taken], 0, x.Typed())
  {
    hide Requests, RequestsIn, DbsIn, Dbs, Trace, Placed, Aligned, Written, Sending;
    var actions :| Runs(x, Init(), actions, s);
    InvInit(x);
    InvRun(x, Init(), actions, s);
    AnswersRun(x, Init(), actions, s);
    TrackedTrace(0, Answers(s), s.serverDb);
    TraceItems(x.items[..s.taken], 0, x.Typed());
    RequestsSplit(s.got, s.replies);
    RequestsSplit(s.consumed, s.got + s.replies);
    var done, pending := RequestsIn(Answers(s)), s.wire + s.toSend;
    Regroup(RequestsIn(s.got), RequestsIn(s.replies), pending);
    Regroup(RequestsIn(s.consumed), RequestsIn(s.got) + RequestsIn(s.replies), pending);
    assert Requests(x.items[..s.taken], 0, x.Typed()) == done + pending;
    TraceAppend(0, done, pending);
  }

  // ---- What the source held ------------------------------------------------------------------

  /** The type is on the skip list, in upper or lower case. */
  predicate OnList(kind: bytes, skip: seq<bytes>) {
    exists k :: 0 <= k < |skip| && SameLetters(kind, skip[k])
  }

  lemma OnListIs(kind: bytes, skip: seq<bytes>)
    ensures OnList(kind, skip) <==> Scan.Skipped(kind, skip)
  {
    forall k | 0 <= k < |skip| ensures EqualFold(kind, skip[k]) <==> SameLetters(kind, skip[k]) {
      FoldLetters(kind, skip[k]);
    }
  }

  function TypeOf(keys: Keyspace, at: (int64, bytes)): bytes {
    if at in keys then keys[at].kind else Ascii("none")
  }

  /** How a Redis server answers from its data, in the database it has selected. */
  function Truth(keys: Keyspace, db: int64, request: Request): Reply {
    match request
    case Select(_) => OK
    case Dump(key) => if (db, key) in keys then Text(keys[(db, key)].dump) else Nil
    case Pttl(key) =>
      if (db, key) !in keys then Number(-2)
      else (match keys[(db, key)].remaining case None => Number(-1) case Some(ms) => Number(ms))
    case Type(key) => Text(TypeOf(keys, (db, key)))
  }

  predicate Truthful(a: Answer) { a.reply == Truth(a.keys, a.db, a.request) }

  /** The server tells the truth or refuses. */
  ghost predicate TruthfulOrFailed(answers: seq<Answer>) {
    forall k {:trigger answers[k]} :: 0 <= k < |answers| ==> answers[k].reply == Failure || Truthful(answers[k])
  }

  ghost predicate AllTruthful(answers: seq<Answer>) {
    forall k {:trigger answers[k]} :: 0 <= k < |answers| ==> Truthful(answers[k])
  }

  /**
   What is to be restored of a key, by the data DUMP and PTTL saw under its own database and name: nothing if
   it was gone; else its dump, with the time it had left, at least 1, or without expiry if it had none. A dump
   too large for one bulk string is taken apart into the commands of the value between its type byte and its
   ten last bytes.
   */
  function Held(item: Item, dumped: Keyspace, timed: Keyspace, cfg: Config, decode: ValueDecoder): Option<seq<Entry>> {
    var at := (item.db, item.key);
    if at !in dumped || at !in timed then Some([])
    else
      var ttl: int64 := match timed[at].remaining case None => 0 case Some(ms) => if ms == 0 then 1 else ms;
      var dump := dumped[at].dump;
      if |dump| <= cfg.maxBulk then Some([F.Whole(item.db, ttl, item.key, dump, cfg.rewrite)])
      else if |dump| < 11 then None
      else
        var (argvs, _) :- decode(dump[1..|dump| - 10], dump[0], item.key, cfg.isValkey);
        Some(F.Apart(item.db, ttl, item.key, argvs))
  }

  /** And nothing if the type TYPE saw is skipped. */
  function Wanted(item: Item, dumped: Keyspace, timed: Keyspace, typed: Keyspace, opts: Options, decode: ValueDecoder)
    : Option<seq<Entry>>
  {
    if opts.skip != [] && OnList(TypeOf(typed, (item.db, item.key)), opts.skip) then Some([])
    else Held(item, dumped, timed, opts.cfg, decode)
  }

  /** The same for one item after another, each with the data its own stretch of the answers saw. */
  function WantedAll(items: seq<Item>, now: int64, answers: seq<Answer>, opts: Options, decode: ValueDecoder)
    : Option<seq<Entry>>
    requires |answers| == |Requests(items, now, opts.skip != [])|
    decreases items
  {
    if items == [] then Some([])
    else
      var n := |RequestsOf(items[0], now, opts.skip != [])|;
      var first :- WantedOf(items[0], now, answers[..n], opts, decode);
      var more :- WantedAll(items[1..], items[0].db, answers[n..], opts, decode);
      Some(first + more)
  }

  function WantedOf(item: Item, now: int64, answers: seq<Answer>, opts: Options, decode: ValueDecoder): Option<seq<Entry>>
    requires |answers| == |RequestsOf(item, now, opts.skip != [])|
  {
    var own := if item.db != now then answers[1..] else answers;
    Wanted(item, own[0].keys, own[1].keys, own[|own| - 1].keys, opts, decode)
  }

  lemma DumpHeld(item: Item, dump: Answer, pttl: Answer, cfg: Config, decode: ValueDecoder)
    requires dump.request == Dump(item.key) && pttl.request == Pttl(item.key) && dump.db == pttl.db == item.db
    requires (dump.reply == Failure || Truthful(dump)) && (pttl.reply == Failure || Truthful(pttl))
    requires FromDump(item, dump.reply, pttl.reply, cfg, decode).Some? || (Truthful(dump) && Truthful(pttl))
    ensures FromDump(item, dump.reply, pttl.reply, cfg, decode) == Held(item, dump.keys, pttl.keys, cfg, decode)
  {
    hide Itoa, InDb, F.Apart;
    var at := (item.db, item.key);
    if Truthful(dump) && Truthful(pttl) && at in dump.keys && at in pttl.keys && 11 <= |dump.keys[at].dump| {
      var text := dump.keys[at].dump;
      var d := decode(text[1..|text| - 10], text[0], item.key, cfg.isValkey);
      if d.Some? { F.ApartIs(item.db, RestoreTtl(pttl.reply.n), item.key, d.value.0); }
    }
  }

  /** The two or three answers behind the one to SELECT. */
  lemma OwnAnswersOf(item: Item, now: int64, answers: seq<Answer>, typed: bool)
    requires RequestsIn(answers) == RequestsOf(item, now, typed) && DbsIn(answers) == DbsOf(item, now, typed)
    ensures var own := if item.db != now then answers[1..] else answers;
            && own[0].request == Dump(item.key) && own[1].request == Pttl(item.key)
            && own[0].db == own[1].db == item.db
            && RepliesOf(own) == (if item.db != now then RepliesOf(answers)[1..] else RepliesOf(answers))
            && |own| == (if typed then 3 else 2)
            && (typed ==> own[2].request == Type(item.key) && own[2].db == item.db)
  {
    var at := if item.db != now then 1 else 0;
    var own := if item.db != now then answers[1..] else answers;
    forall k | 0 <= k < |own|
      ensures own[k].request == RequestsOf(item, now, typed)[at + k] && own[k].db == DbsOf(item, now, typed)[at + k]
    {
      assert RequestsIn(answers)[at + k] == own[k].request && DbsIn(answers)[at + k] == own[k].db;
    }
  }

  /** One item's answers, given in its own database, restore what the source held of it. */
  lemma OneWanted(item: Item, now: int64, answers: seq<Answer>, opts: Options, decode: ValueDecoder)
    requires RequestsIn(answers) == RequestsOf(item, now, opts.skip != [])
    requires DbsIn(answers) == DbsOf(item, now, opts.skip != []) && TruthfulOrFailed(answers)
    requires Restored(item, now, RepliesOf(answers), opts, decode).Some? || AllTruthful(answers)
    ensures Restored(item, now, RepliesOf(answers), opts, decode) == WantedOf(item, now, answers, opts, decode)
  {
    hide Scan.Skipped, OnList, FromDump, Held, DbsOf, DbsIn;
    OwnAnswersOf(item, now, answers, opts.skip != []);
    var own := if item.db != now then answers[1..] else answers;
    if item.db != now { assert RequestsIn(answers)[0] == Select(item.db) == answers[0].request; }
    assert RepliesOf(own)[0] == own[0].reply && RepliesOf(own)[1] == own[1].reply;
    if FromDump(item, own[0].reply, own[1].reply, opts.cfg, decode).Some? || AllTruthful(answers) {
      DumpHeld(item, own[0], own[1], opts.cfg, decode);
    }
    if opts.skip != [] {
      assert RepliesOf(own)[2] == own[2].reply;
      OnListIs(TypeOf(own[2].keys, (item.db, item.key)), opts.skip);
    }
  }

  lemma {:induction false} AllWanted(items: seq<Item>, now: int64, answers: seq<Answer>, opts: Options, decode: ValueDecoder)
    requires RequestsIn(answers) == Requests(items, now, opts.skip != [])
    requires DbsIn(answers) == Dbs(items, now, opts.skip != []) && TruthfulOrFailed(answers)
    requires RestoredAll(items, now, RepliesOf(answers), opts, decode).Some? || AllTruthful(answers)
    ensures RestoredAll(items, now, RepliesOf(answers), opts, decode) == WantedAll(items, now, answers, opts, decode)
    decreases items
  {
    hide RequestsOf, DbsOf, Restored, Wanted, Truth;
    if items != [] {
      var typed := opts.skip != [];
      var n := |RequestsOf(items[0], now, typed)|;
      Stretch(items[0], now, typed);
      Cut(answers, n);
      Halves(RequestsOf(items[0], now, typed), Requests(items[1..], items[0].db, typed));
      Halves(DbsOf(items[0], now, typed), Dbs(items[1..], items[0].db, typed));
      if Restored(items[0], now, RepliesOf(answers[..n]), opts, decode).Some? || AllTruthful(answers) {
        OneWanted(items[0], now, answers[..n], opts, decode);
        if RestoredAll(items[1..], items[0].db, RepliesOf(answers[n..]), opts, decode).Some? || AllTruthful(answers) {
          AllWanted(items[1..], items[0].db, answers[n..], opts, decode);
        }
      }
    }
  }

  lemma Halves<T>(a: seq<T>, b: seq<T>)
    ensures (a + b)[..|a|] == a && (a + b)[|a|..] == b
  {
  }

  lemma Cut(answers: seq<Answer>, n: nat)
    requires n <= |answers|
    ensures RequestsIn(answers[..n]) == RequestsIn(answers)[..n] && RequestsIn(answers[n..]) == RequestsIn(answers)[n..]
    ensures RepliesOf(answers[..n]) == RepliesOf(answers)[..n] && RepliesOf(answers[n..]) == RepliesOf(answers)[n..]
    ensures DbsIn(answers[..n]) == DbsIn(answers)[..n] && DbsIn(answers[n..]) == DbsIn(answers)[n..]
  {
  }

  lemma Stretch(item: Item, now: int64, typed: bool)
    ensures |DbsOf(item, now, typed)| == |RequestsOf(item, now, typed)|
  {
  }

  /** An item is finished only if its SELECT, where it needed one, was not refused. */
  lemma {:induction false} FinishedSelects(items: seq<Item>, now: int64, answers: seq<Answer>, opts: Options,
                                           decode: ValueDecoder)
    requires RequestsIn(answers) == Requests(items, now, opts.skip != [])
    requires RestoredAll(items, now, RepliesOf(answers), opts, decode).Some?
    ensures SelectsOk(answers)
    decreases items
  {
    hide FromDump, Scan.Skipped, RequestsOf;
    if items != [] {
      var n := |RequestsOf(items[0], now, opts.skip != [])|;
      Cut(answers, n);
      Halves(RequestsOf(items[0], now, opts.skip != []), Requests(items[1..], items[0].db, opts.skip != []));
      FinishedSelects(items[1..], items[0].db, answers[n..], opts, decode);
      forall k | 0 <= k < |answers| && answers[k].request.Select? ensures answers[k].reply == OK {
        if k < n {
          assert answers[k].request == RequestsIn(answers)[k] == RequestsOf(items[0], now, opts.skip != [])[k];
          OnlyFirstSelects(items[0], now, opts.skip != [], k);
          assert RepliesOf(answers)[..n][0] == answers[0].reply;
        } else {
          assert answers[n..][k - n] == answers[k];
        }
      }
    }
  }

  lemma OnlyFirstSelects(item: Item, now: int64, typed: bool, k: nat)
    requires k < |RequestsOf(item, now, typed)| && RequestsOf(item, now, typed)[k].Select?
    ensures k == 0 && item.db != now
  {
  }

  /**
   In every interleaving with a FIFO server that answers truthfully or with an error, whatever happens to the
   data meanwhile: what restore has sent for the finished items is, item by item and in order, what the
   source held under the item's own database and key.
   */
  lemma OwnDumps(x: Setup, s: State)
    requires Reachable(x, s) && !s.panicked && TruthfulOrFailed(s.consumed)
    ensures s.done <= |x.items| && RequestsIn(s.consumed) == Requests(x.items[..s.done], 0, x.Typed())
    ensures DbsIn(s.consumed) == Dbs(x.items[..s.done], 0, x.Typed())
    ensures |s.consumed| == |Requests(x.items[..s.done], 0, x.Typed())|
    ensures WantedAll(x.items[..s.done], 0, s.consumed, x.opts, x.decode) == Some(s.out)
  {
    hide Requests, RequestsIn, DbsIn, Dbs, Trace, RestoredAll, WantedAll, RepliesOf, Truth, SelectsOk;
    ReplyAlignment(x, s);
    var actions :| Runs(x, Init(), actions, s);
    AnswersRun(x, Init(), actions, s);
    FinishedSelects(x.items[..s.done], 0, s.consumed, x.opts, x.decode);
    var end := TrackedPrefix(0, s.consumed, s.got + s.replies, s.serverDb);
    TrackedTrace(0, s.consumed, end);
    TraceItems(x.items[..s.done], 0, x.Typed());
    AllWanted(x.items[..s.done], 0, s.consumed, x.opts, x.decode);
  }

  lemma {:induction false} TrackedPrefix(now: int64, a: seq<Answer>, b: seq<Answer>, end: int64) returns (mid: int64)
    requires Tracked(now, a + b, end)
    ensures Tracked(now, a, mid)
    decreases a
  {
    if a == [] {
      mid := now;
    } else {
      assert (a + b)[1..] == a[1..] + b;
      mid := TrackedPrefix(DbBehind(a[0]), a[1..], b, end);
    }
  }
}
