/**
 The two goroutines dump and restore of scan_standalone_reader.go around one connection.

 dump sends requests and passes items on through a bounded channel; a FIFO server answers requests in
 order; restore takes items and receives replies. Each keeps its own database number, and nothing but
 order ties a reply to the item it is for. Every action below is one atomic step of one of the three.
 */
module ScanAlignment {
  import opened Bytes
  import opened Decimal
  import opened CommandStream
  import opened RdbPrimitives
  import opened RdbLoop
  import opened Scan

  /** The items of one run, the channel's capacity, and what restore depends on. */
  datatype Setup = Setup(items: seq<Item>, cap: nat, opts: Options, decode: ValueDecoder) {
    predicate Typed() { opts.skip != [] }
  }

  datatype State = State(
    taken: nat, holding: bool, toSend: seq<Request>, dumpDb: int64,   // dump
    wire: seq<Request>, replies: seq<Answer>, serverDb: int64,        // the connection
    chan: seq<Item>,                                                  // needRestoreChan
    restoring: Option<Item>, need: nat, got: seq<Answer>, restoreDb: int64,
    done: nat, consumed: seq<Answer>,                                 // items finished, and their answers
    out: seq<Entry>, panicked: bool)

  function Init(): State {
    State(0, false, [], 0, [], [], 0, [], None, 0, [], 0, 0, [], [], false)
  }

  /** A served request may be answered in any way, with any data in the source at that moment. */
  datatype Action = DumpTake | DumpSend | DumpPass | Serve(reply: Reply, keys: Keyspace)
                  | RestoreTake | Receive | Finish

  predicate Enabled(x: Setup, s: State, a: Action) {
    !s.panicked &&
    match a
    case DumpTake => !s.holding && s.taken < |x.items|
    case DumpSend => s.toSend != []
    case DumpPass => s.holding && s.toSend == [] && |s.chan| < x.cap && s.taken <= |x.items| && s.taken > 0
    case Serve(_, _) => s.wire != []
    case RestoreTake => s.restoring.None? && s.chan != []
    case Receive => s.restoring.Some? && |s.got| < s.need && s.replies != []
    case Finish => s.restoring.Some? && |s.got| == s.need
                   && s.need == |RequestsOf(s.restoring.value, OldDb(x, s), x.Typed())|
  }

  function OldDb(x: Setup, s: State): int64 {
    if s.done <= |x.items| then LastDb(x.items[..s.done], 0) else 0
  }

  function RepliesOf(answers: seq<Answer>): (r: seq<Reply>)
    ensures |r| == |answers|
  {
    seq(|answers|, k requires 0 <= k < |answers| => answers[k].reply)
  }

  function RequestsIn(answers: seq<Answer>): (r: seq<Request>)
    ensures |r| == |answers|
  {
    seq(|answers|, k requires 0 <= k < |answers| => answers[k].request)
  }

  function Next(x: Setup, s: State, a: Action): State
    requires Enabled(x, s, a)
  {
    match a
    case DumpTake =>
      var item := x.items[s.taken];
      s.(taken := s.taken + 1, holding := true, toSend := RequestsOf(item, s.dumpDb, x.Typed()), dumpDb := item.db)
    case DumpSend => s.(toSend := s.toSend[1..], wire := s.wire + [s.toSend[0]])
    case DumpPass => s.(holding := false, chan := s.chan + [x.items[s.taken - 1]])
    case Serve(reply, keys) =>
      var answer := Answer(s.wire[0], reply, s.serverDb, keys);
      s.(wire := s.wire[1..], replies := s.replies + [answer], serverDb := DbBehind(answer))
    case RestoreTake =>
      var item := s.chan[0];
      s.(restoring := Some(item), chan := s.chan[1..], need := |RequestsOf(item, s.restoreDb, x.Typed())|,
         restoreDb := item.db)
    case Receive => s.(replies := s.replies[1..], got := s.got + [s.replies[0]])
    case Finish =>
      (match Restored(s.restoring.value, OldDb(x, s), RepliesOf(s.got), x.opts, x.decode)
       case None => s.(panicked := true)
       case Some(entries) =>
         s.(restoring := None, got := [], done := s.done + 1, consumed := s.consumed + s.got, out := s.out + entries))
  }

  ghost predicate Runs(x: Setup, s: State, actions: seq<Action>, t: State)
    decreases actions
  {
    if actions == [] then s == t
    else Enabled(x, s, actions[0]) && Runs(x, Next(x, s, actions[0]), actions[1..], t)
  }

  ghost predicate Reachable(x: Setup, s: State) {
    exists actions :: Runs(x, Init(), actions, s)
  }

  // ---- Invariant -----------------------------------------------------------------------------

  /** Where each item is: finished, being restored, in the channel, or held by dump. */
  ghost predicate Placed(x: Setup, s: State) {
    var active := s.done + if s.restoring.Some? then 1 else 0;
    && active + |s.chan| + (if s.holding then 1 else 0) == s.taken <= |x.items|
    && s.chan == x.items[active..active + |s.chan|]
    && (s.restoring.Some? ==> s.restoring.value == x.items[s.done])
    && s.dumpDb == LastDb(x.items[..s.taken], 0)
    && s.restoreDb == LastDb(x.items[..active], 0)
  }

  /** The requests dump has made for the items it took, in the order they are on their way. */
  ghost predicate Streamed(x: Setup, s: State) {
    s.taken <= |x.items| &&
    Requests(x.items[..s.taken], 0, x.Typed()) ==
    RequestsIn(s.consumed) + (RequestsIn(s.got) + (RequestsIn(s.replies) + (s.wire + s.toSend)))
  }

  /** The finished items have consumed exactly their own answers. */
  ghost predicate Aligned(x: Setup, s: State) {
    && s.done <= |x.items|
    && RequestsIn(s.consumed) == Requests(x.items[..s.done], 0, x.Typed())
    && (s.restoring.None? ==> s.got == [])
    && (s.restoring.Some? ==> s.done < |x.items| && |s.got| <= s.need
                              && s.need == |RequestsOf(x.items[s.done], OldDb(x, s), x.Typed())|)
  }

  /** Nothing is in hand unless dump holds an item. */
  ghost predicate Sending(s: State) { s.toSend != [] ==> s.holding }

  ghost predicate Written(x: Setup, s: State) {
    && s.done <= |x.items|
    && |s.consumed| == |Requests(x.items[..s.done], 0, x.Typed())|
    && RestoredAll(x.items[..s.done], 0, RepliesOf(s.consumed), x.opts, x.decode) == Some(s.out)
  }

  ghost predicate Inv(x: Setup, s: State) {
    Placed(x, s) && Streamed(x, s) && Aligned(x, s) && Sending(s) && Written(x, s)
  }

  // ---- Lemmas about sequences of items -------------------------------------------------------

  lemma {:induction false} RequestsSnoc(items: seq<Item>, last: Item, now: int64, typed: bool)
    ensures Requests(items + [last], now, typed) == Requests(items, now, typed) + RequestsOf(last, LastDb(items, now), typed)
    decreases items
  {
    hide RequestsOf;
    if items == [] {
      assert [last][1..] == [];
      assert RequestsOf(last, now, typed) + [] == RequestsOf(last, now, typed);
      assert [] + RequestsOf(last, now, typed) == RequestsOf(last, now, typed);
      assert [] + [last] == [last];
    } else {
      RequestsSnoc(items[1..], last, items[0].db, typed);
      assert (items + [last])[1..] == items[1..] + [last];
      Regroup(RequestsOf(items[0], now, typed), Requests(items[1..], items[0].db, typed),
              RequestsOf(last, LastDb(items, now), typed));
    }
  }

  lemma RequestsNext(items: seq<Item>, n: nat, typed: bool)
    requires n < |items|
    ensures Requests(items[..n + 1], 0, typed) ==
            Requests(items[..n], 0, typed) + RequestsOf(items[n], LastDb(items[..n], 0), typed)
    ensures LastDb(items[..n + 1], 0) == items[n].db
  {
    hide RequestsOf;
    assert items[..n + 1] == items[..n] + [items[n]];
    RequestsSnoc(items[..n], items[n], 0, typed);
  }

  /** The requests of item n lie right behind those of the items before it. */
  lemma {:induction false} RequestsAt(items: seq<Item>, n: nat, m: nat, typed: bool)
    requires n < m <= |items|
    ensures Requests(items[..n], 0, typed) + RequestsOf(items[n], LastDb(items[..n], 0), typed)
         <= Requests(items[..m], 0, typed)
    decreases m
  {
    hide RequestsOf, Requests;
    if m == n + 1 {
      RequestsNext(items, n, typed);
    } else {
      RequestsAt(items, n, m - 1, typed);
      RequestsNext(items, m - 1, typed);
    }
  }

  lemma {:induction false} RestoredSnoc(items: seq<Item>, last: Item, now: int64, a: seq<Reply>, b: seq<Reply>,
                                        opts: Options, decode: ValueDecoder)
    requires |a| == |Requests(items, now, opts.skip != [])|
    requires |b| == |RequestsOf(last, LastDb(items, now), opts.skip != [])|
    ensures |a + b| == |Requests(items + [last], now, opts.skip != [])|
    ensures RestoredAll(items + [last], now, a + b, opts, decode) ==
            match (RestoredAll(items, now, a, opts, decode), Restored(last, LastDb(items, now), b, opts, decode))
            case (Some(x), Some(y)) => Some(x + y)
            case _ => None
    decreases items
  {
    hide RequestsOf, Restored;
    RequestsSnoc(items, last, now, opts.skip != []);
    if items == [] {
      RestoredOne(last, now, b, opts, decode);
      assert items + [last] == [last] && a + b == b;
      var y := Restored(last, now, b, opts, decode);
      if y.Some? { assert [] + y.value == y.value; }
    } else {
      var typed := opts.skip != [];
      var n := |RequestsOf(items[0], now, typed)|;
      assert (items + [last])[1..] == items[1..] + [last];
      CutAppend(a, b, n);
      RestoredSnoc(items[1..], last, items[0].db, a[n..], b, opts, decode);
      var first := Restored(items[0], now, a[..n], opts, decode);
      var more := RestoredAll(items[1..], items[0].db, a[n..], opts, decode);
      var y := Restored(last, LastDb(items, now), b, opts, decode);
      if first.Some? && more.Some? && y.Some? { Regroup(first.value, more.value, y.value); }
    }
  }

  lemma CutAppend<T>(a: seq<T>, b: seq<T>, n: nat)
    requires n <= |a|
    ensures (a + b)[..n] == a[..n] && (a + b)[n..] == a[n..] + b
  {
  }

  lemma RestoredOne(last: Item, now: int64, b: seq<Reply>, opts: Options, decode: ValueDecoder)
    requires |b| == |RequestsOf(last, now, opts.skip != [])|
    ensures |Requests([last], now, opts.skip != [])| == |b|
    ensures RestoredAll([last], now, b, opts, decode) == Restored(last, now, b, opts, decode)
  {
    hide RequestsOf, Restored;
    assert [last][1..] == [] && b[..|b|] == b && b[|b|..] == [];
    assert Requests([last], now, opts.skip != []) == RequestsOf(last, now, opts.skip != []) + [];
    var first := Restored(last, now, b, opts, decode);
    if first.Some? { assert first.value + [] == first.value; }
  }

  lemma {:induction false} RequestsSplit(a: seq<Answer>, b: seq<Answer>)
    ensures RequestsIn(a + b) == RequestsIn(a) + RequestsIn(b)
    ensures RepliesOf(a + b) == RepliesOf(a) + RepliesOf(b)
  {
  }

  // ---- Steps ---------------------------------------------------------------------------------

  lemma LastDbNext(items: seq<Item>, n: nat)
    requires n < |items|
    ensures LastDb(items[..n + 1], 0) == items[n].db
  {
    assert items[..n + 1][n] == items[n];
  }

  lemma WindowGrows(items: seq<Item>, from: nat, to: nat)
    requires from <= to < |items|
    ensures items[from..to] + [items[to]] == items[from..to + 1]
  {
  }

  lemma WindowMoves(items: seq<Item>, from: nat, to: nat)
    requires from < to <= |items|
    ensures items[from..to][0] == items[from] && items[from..to][1..] == items[from + 1..to]
  {
  }

  lemma PlacedTake(x: Setup, s: State)
    requires Placed(x, s) && Enabled(x, s, DumpTake)
    ensures Placed(x, Next(x, s, DumpTake))
  {
    hide RequestsOf, LastDb;
    LastDbNext(x.items, s.taken);
  }

  lemma PlacedPass(x: Setup, s: State)
    requires Placed(x, s) && Enabled(x, s, DumpPass)
    ensures Placed(x, Next(x, s, DumpPass))
  {
    hide RequestsOf, LastDb;
    var active := s.done + if s.restoring.Some? then 1 else 0;
    WindowGrows(x.items, active, active + |s.chan|);
  }

  lemma PlacedRestore(x: Setup, s: State)
    requires Placed(x, s) && Enabled(x, s, RestoreTake)
    ensures Placed(x, Next(x, s, RestoreTake))
  {
    hide RequestsOf, LastDb;
    LastDbNext(x.items, s.done);
    WindowMoves(x.items, s.done, s.done + |s.chan|);
  }

  lemma PlacedStep(x: Setup, s: State, a: Action)
    requires Placed(x, s) && Enabled(x, s, a)
    ensures !Next(x, s, a).panicked ==> Placed(x, Next(x, s, a))
  {
    hide RequestsOf, Restored, RequestsIn, RepliesOf, LastDb;
    match a
    case DumpTake => PlacedTake(x, s);
    case DumpPass => PlacedPass(x, s);
    case RestoreTake => PlacedRestore(x, s);
    case _ =>
  }

  lemma SendingStep(x: Setup, s: State, a: Action)
    requires Sending(s) && Enabled(x, s, a)
    ensures Sending(Next(x, s, a))
  {
    hide RequestsOf, Restored, RequestsIn, RepliesOf;
  }

  lemma Slide<T>(head: seq<T>, tail: seq<T>)
    requires tail != []
    ensures (head + [tail[0]]) + tail[1..] == head + tail
  {
  }

  lemma StreamedTake(x: Setup, s: State)
    requires Placed(x, s) && Sending(s) && Streamed(x, s) && Enabled(x, s, DumpTake)
    ensures Streamed(x, Next(x, s, DumpTake))
  {
    hide RequestsOf, RequestsIn, Requests;
    RequestsNext(x.items, s.taken, x.Typed());
    assert s.toSend == [] && s.wire + [] == s.wire;
    var more := RequestsOf(x.items[s.taken], s.dumpDb, x.Typed());
    var a, b, c := RequestsIn(s.consumed), RequestsIn(s.got), RequestsIn(s.replies);
    Regroup(c, s.wire, more);
    Regroup(b, c + s.wire, more);
    Regroup(a, b + (c + s.wire), more);
  }

  lemma StreamedStep(x: Setup, s: State, a: Action)
    requires Placed(x, s) && Sending(s) && Streamed(x, s) && Enabled(x, s, a)
    ensures Streamed(x, Next(x, s, a)) || Next(x, s, a).panicked
  {
    hide RequestsOf, Restored, Requests;
    match a
    case DumpTake => StreamedTake(x, s);
    case DumpSend => Slide(s.wire, s.toSend);
    case DumpPass =>
    case Serve(reply, keys) =>
      var answer := Answer(s.wire[0], reply, s.serverDb, keys);
      RequestsSplit(s.replies, [answer]);
      assert RequestsIn([answer]) == [s.wire[0]];
      Slide(RequestsIn(s.replies), s.wire);
      Regroup(RequestsIn(s.replies) + [s.wire[0]], s.wire[1..], s.toSend);
      Regroup(RequestsIn(s.replies), s.wire, s.toSend);
    case RestoreTake =>
    case Receive =>
      RequestsSplit(s.got, [s.replies[0]]);
      assert RequestsIn([s.replies[0]]) == [s.replies[0].request];
      assert RequestsIn(s.replies)[1..] == RequestsIn(s.replies[1..]);
      var tail := s.wire + s.toSend;
      Slide(RequestsIn(s.got), RequestsIn(s.replies));
      Regroup(RequestsIn(s.got) + [s.replies[0].request], RequestsIn(s.replies[1..]), tail);
      Regroup(RequestsIn(s.got), RequestsIn(s.replies), tail);
    case Finish =>
      RequestsSplit(s.consumed, s.got);
      Regroup(RequestsIn(s.consumed), RequestsIn(s.got), RequestsIn(s.replies) + (s.wire + s.toSend));
      assert RequestsIn([]) == [];
      Empty(RequestsIn(s.replies) + (s.wire + s.toSend));
  }

  lemma Empty<T>(s: seq<T>)
    ensures [] + s == s
  {
  }

  /** When restore has received as many replies as item done needs, they are the replies to its requests. */
  lemma OwnAnswers(x: Setup, s: State)
    requires Placed(x, s) && Streamed(x, s) && Aligned(x, s) && s.restoring.Some? && |s.got| == s.need
    ensures RequestsIn(s.got) == RequestsOf(x.items[s.done], OldDb(x, s), x.Typed())
  {
    hide RequestsOf, Requests, RequestsIn;
    var own := RequestsOf(x.items[s.done], OldDb(x, s), x.Typed());
    RequestsAt(x.items, s.done, s.taken, x.Typed());
    SameStretch(RequestsIn(s.consumed), RequestsIn(s.got), RequestsIn(s.replies) + (s.wire + s.toSend), own);
  }

  lemma SameStretch<T>(a: seq<T>, got: seq<T>, tail: seq<T>, own: seq<T>)
    requires |got| == |own| && a + own <= a + (got + tail)
    ensures got == own
  {
    var all := a + (got + tail);
    assert a + own == all[..|a| + |own|];
    assert forall k :: 0 <= k < |own| ==> own[k] == (a + own)[|a| + k] == all[|a| + k] == got[k];
  }

  lemma AlignedStep(x: Setup, s: State, a: Action)
    requires Placed(x, s) && Streamed(x, s) && Aligned(x, s) && Enabled(x, s, a)
    ensures Aligned(x, Next(x, s, a)) || Next(x, s, a).panicked
  {
    hide RequestsOf, Restored, Requests, RequestsIn, RepliesOf;
    match a
    case RestoreTake =>
      assert x.items[..s.done] == x.items[..s.done];
    case Finish =>
      OwnAnswers(x, s);
      RequestsNext(x.items, s.done, x.Typed());
      RequestsSplit(s.consumed, s.got);
    case _ =>
  }

  lemma WrittenStep(x: Setup, s: State, a: Action)
    requires Placed(x, s) && Aligned(x, s) && Written(x, s) && Enabled(x, s, a)
    ensures Written(x, Next(x, s, a)) || Next(x, s, a).panicked
  {
    hide RequestsOf, Restored, Requests, RequestsIn, RepliesOf, RestoredAll;
    if a.Finish? {
      var items, last := x.items[..s.done], x.items[s.done];
      assert x.items[..s.done + 1] == items + [last];
      RestoredSnoc(items, last, 0, RepliesOf(s.consumed), RepliesOf(s.got), x.opts, x.decode);
      RequestsSplit(s.consumed, s.got);
    }
  }

  lemma InvInit(x: Setup)
    ensures Inv(x, Init())
  {
    assert x.items[..0] == [];
  }

  lemma {:induction false} InvRun(x: Setup, s: State, actions: seq<Action>, t: State)
    requires Inv(x, s) && Runs(x, s, actions, t)
    ensures Inv(x, t) || t.panicked
    decreases actions
  {
    hide Placed, Streamed, Aligned, Sending, Written, Enabled, Next;
    if actions != [] {
      PlacedStep(x, s, actions[0]);
      SendingStep(x, s, actions[0]);
      StreamedStep(x, s, actions[0]);
      AlignedStep(x, s, actions[0]);
      WrittenStep(x, s, actions[0]);
      var next := Next(x, s, actions[0]);
      if next.panicked {
        Stuck(x, next, actions[1..], t);
      } else {
        InvRun(x, next, actions[1..], t);
      }
    }
  }

  lemma Stuck(x: Setup, s: State, actions: seq<Action>, t: State)
    requires s.panicked && Runs(x, s, actions, t)
    ensures t.panicked
  {
  }

  // ---- Theorems ------------------------------------------------------------------------------

  /** In every interleaving, for every sequence of items and every course of replies: the items restore has
      finished have consumed exactly the replies to the requests dump sent for them, skipped and missing keys
      included, and what came out is what each item's own replies make of it. */
  lemma ReplyAlignment(x: Setup, s: State)
    requires Reachable(x, s) && !s.panicked
    ensures s.done <= |x.items| && RequestsIn(s.consumed) == Requests(x.items[..s.done], 0, x.Typed())
    ensures RestoredAll(x.items[..s.done], 0, RepliesOf(s.consumed), x.opts, x.decode) == Some(s.out)
    ensures s.restoring.Some? && |s.got| == s.need ==>
              s.done < |x.items| && RequestsIn(s.got) == RequestsOf(x.items[s.done], OldDb(x, s), x.Typed())
  {
    hide Placed, Streamed, RequestsIn, RestoredAll, Requests, RequestsOf;
    var actions :| Runs(x, Init(), actions, s);
    InvInit(x);
    InvRun(x, Init(), actions, s);
    if s.restoring.Some? && |s.got| == s.need { OwnAnswers(x, s); }
  }

  /** The goroutines never block each other for good: as long as an item is unfinished, some step can be taken. */
  lemma NoDeadlock(x: Setup, s: State)
    requires Reachable(x, s) && !s.panicked && x.cap >= 1 && s.done < |x.items|
    ensures exists a :: Enabled(x, s, a)
  {
    hide Inv, Enabled, Next;
    var actions :| Runs(x, Init(), actions, s);
    InvInit(x);
    InvRun(x, Init(), actions, s);
    var a := CanStep(x, s);
  }

  lemma CanStep(x: Setup, s: State) returns (a: Action)
    requires Inv(x, s) && !s.panicked && x.cap >= 1 && s.done < |x.items|
    ensures Enabled(x, s, a)
  {
    hide RequestsOf, Restored, Requests, RestoredAll, Streamed, Written, RequestsIn, LastDb;
    if s.wire != [] {
      a := Serve(Nil, map[]);
    } else if s.toSend != [] {
      a := DumpSend;
    } else if s.restoring.Some? {
      if |s.got| == s.need {
        a := Finish;
      } else {
        Awaited(x, s);
        a := Receive;
      }
    } else if s.chan != [] {
      a := RestoreTake;
    } else {
      a := if s.holding then DumpPass else DumpTake;
    }
  }

  /** With nothing left to send or to serve, the replies restore waits for have arrived. */
  lemma Awaited(x: Setup, s: State)
    requires Placed(x, s) && Streamed(x, s) && Aligned(x, s) && s.restoring.Some? && |s.got| < s.need
    requires s.wire == [] && s.toSend == []
    ensures s.replies != []
  {
    hide RequestsOf, Requests;
    RequestsAt(x.items, s.done, s.taken, x.Typed());
  }
}
