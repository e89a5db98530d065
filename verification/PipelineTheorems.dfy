/** What every run of the pipelined writer guarantees. */
module PipelineTheorems {
  import opened Bytes
  import opened Decimal
  import opened CommandStream
  import opened Pipeline
  import opened PipelineSafety
  import opened PipelineBuffer
  import SendAof
  import RespWriter

  // ---- Replies -------------------------------------------------------------------------------

  /** The i-th answer belongs to the i-th executed command, and was read for that very command. */
  lemma ReplyPairing(c: Config, s: State, i: nat)
    requires Reachable(c, s) && i < |s.answers|
    ensures i < |s.executed| && s.answers[i].waiting == s.answers[i].cause == s.executed[i]
  {
    ReachableInv(c, s);
    assert AnswerCauses(s.answers)[i] == s.answers[i].cause;
  }

  /** A reply that ends the process: an error other than a busy key, or a busy key where that is to panic. */
  predicate Fatal(c: Config, r: Reply) { r == ErrorReply || (r == BusyKey && c.behavior == Behavior.Panic) }

  ghost predicate PanicsOnFatal(c: Config, s: State) {
    && (forall i :: 0 <= i < |s.answers| - 1 ==> !Fatal(c, s.answers[i].reply))
    && (s.rpc.Panicked? <==> s.answers != [] && Fatal(c, s.answers[|s.answers| - 1].reply))
  }

  lemma FatalStep(c: Config, s: State, a: Action)
    requires PanicsOnFatal(c, s) && Enabled(c, s, a)
    ensures PanicsOnFatal(c, Next(c, s, a))
  {
    if a.Receive? { FatalReceive(c, s); } else { FatalFrame(c, s, a); }
  }

  lemma FatalReceive(c: Config, s: State)
    requires PanicsOnFatal(c, s) && Enabled(c, s, Receive)
    ensures PanicsOnFatal(c, Next(c, s, Receive))
  {
    var t := Next(c, s, Receive);
    assert t.answers[..|s.answers|] == s.answers;
    assert t.answers[|s.answers|].reply == s.replies[0].1;
  }

  lemma FatalFrame(c: Config, s: State, a: Action)
    requires Enabled(c, s, a) && !a.Receive?
    ensures Next(c, s, a).answers == s.answers && !Next(c, s, a).rpc.Panicked? && !s.rpc.Panicked?
  {
  }

  lemma {:induction false} FatalRuns(c: Config, s: State, acts: seq<Action>, t: State)
    requires PanicsOnFatal(c, s) && Runs(c, s, acts, t)
    ensures PanicsOnFatal(c, t)
    decreases acts
  {
    hide PanicsOnFatal, Next, Enabled;
    if acts != [] {
      FatalStep(c, s, acts[0]);
      FatalRuns(c, Next(c, s, acts[0]), acts[1..], t);
    }
  }

  /** In every interleaving: the reply loop panics at the first reply that is an error other than a busy key, or
      a busy key where the behaviour is to panic, and at no other reply. */
  lemma PanicsExactly(c: Config, s: State)
    requires Reachable(c, s)
    ensures forall i :: 0 <= i < |s.answers| - 1 ==> !Fatal(c, s.answers[i].reply)
    ensures s.rpc.Panicked? <==> s.answers != [] && Fatal(c, s.answers[|s.answers| - 1].reply)
  {
    var acts :| Runs(c, Init(), acts, s);
    FatalRuns(c, Init(), acts, s);
  }

  // ---- Counters ------------------------------------------------------------------------------

  lemma EntriesNonNegative(s: State)
    requires Counted(s) && Aligned(s)
    ensures s.unansweredEntries >= 0
  {
    if s.wpc.AddBytes? || s.wpc.AddEntries? {
      var pre := (if s.rpc.SubBytes? || s.rpc.SubEntries? then [s.rpc.item] else []) + InFlight(s);
      assert OwedEntries(s) == pre + [Data(s.wpc.e)];
      AppendItem(pre, Data(s.wpc.e));
    }
  }

  lemma {:induction false} LastDataWritten(es: seq<Entry>, x: Item)
    requires x in Emitted(es) && x.Data?
    ensures x.entry in es
  {
    if es != [] {
      var init, last := es[..|es| - 1], es[|es| - 1];
      if x in Emitted(init) {
        LastDataWritten(init, x);
      }
    }
  }

  lemma {:induction false} WrittenIsEmitted(es: seq<Entry>, e: Entry)
    requires e in es
    ensures Data(e) in Emitted(es)
  {
    var init, last := es[..|es| - 1], es[|es| - 1];
    if e != last { WrittenIsEmitted(init, e); }
  }

  lemma {:induction false} NothingLost(answers: seq<Answer>)
    ensures LostBytes(answers) == 0 <==> forall i :: 0 <= i < |answers| ==> !Lost(answers[i]).Data?
    ensures LostBytes(answers) == 0 <==> LostCount(answers) == 0
  {
    if answers != [] {
      NothingLost(answers[..|answers| - 1]);
      assert forall i :: 0 <= i < |answers| - 1 ==> answers[..|answers| - 1][i] == answers[i];
    }
  }

  /** Without SELECT among the written entries, no answer is ever lost to the counters. */
  lemma NoSelectNoLoss(c: Config, s: State)
    requires Inv(c, s) && NoSelects(s.written)
    ensures LostBytes(s.answers) == 0 && LostCount(s.answers) == 0
  {
    forall i | 0 <= i < |s.answers| ensures !Lost(s.answers[i]).Data? {
      var x := s.answers[i].waiting;
      if x.Data? {
        assert AnswerCauses(s.answers)[i] == x;
        assert x in s.executed && x in AllSent(s);
        LastDataWritten(s.taken, x);
        assert x.entry in s.written;
      }
    }
    NothingLost(s.answers);
  }

  /**
   In every interleaving: both counters stay non-negative, they equal what is really unanswered up
   to the step in progress, and UnansweredBytes exceeds the limit only for a single entry.
   */
  lemma CounterSafety(c: Config, s: State)
    requires Reachable(c, s) && !s.rpc.Panicked?
    ensures s.unansweredBytes >= 0 && s.unansweredEntries >= 0
    ensures NoSelects(s.written) ==>
        s.unansweredBytes <= TotalBytes(Owed(s)) && s.unansweredEntries <= DataCount(OwedEntries(s))
    ensures NoSelects(s.written) ==> s.unansweredBytes <= c.maxQuery || DataCount(Owed(s)) == 1
  {
    ReachableInv(c, s);
    BytesNonNegative(s);
    EntriesNonNegative(s);
    if NoSelects(s.written) { NoSelectNoLoss(c, s); }
  }

  /** The bytes of the entries among these commands, as the command writer writes them. */
  function Wire(items: seq<Item>): bytes {
    if items == [] then []
    else (if items[0].Data? then RespWriter.EncodeArgs(items[0].entry.argv) else []) + Wire(items[1..])
  }

  lemma {:induction false} TotalIsWire(items: seq<Item>)
    ensures TotalBytes(items) == |Wire(items)|
  {
    if items != [] { TotalIsWire(items[1..]); }
  }

  /** Between two steps of each loop, UnansweredBytes is exactly the number of bytes of the entries whose replies
      are outstanding, and UnansweredEntries their number. */
  lemma UnansweredIsWire(c: Config, s: State)
    requires Reachable(c, s) && NoSelects(s.written) && s.rpc.Waiting? && (s.wpc.Idle? || s.wpc.Gate?)
    ensures s.unansweredBytes == |Wire(s.wait)|
    ensures s.unansweredEntries == DataCount(s.wait)
  {
    hide TotalBytes, DataCount, Wire, LostBytes, LostCount;
    ReachableInv(c, s);
    NoSelectNoLoss(c, s);
    assert Owed(s) == s.wait && OwedEntries(s) == s.wait;
    TotalIsWire(s.wait);
  }

  // ---- Blocking ------------------------------------------------------------------------------

  predicate WriteLoopBlocked(c: Config, s: State) {
    (s.wpc.SwitchPush? || s.wpc.PushBlocked?) && |s.wait| >= c.waitCap
  }

  predicate AnswerSide(a: Action) {
    a.Serve? || a.Pop? || a.Receive? || a.UncountBytes? || a.UncountEntry?
  }

  /** A write loop blocked on a full queue has flushed everything in that queue, so the other side can move. */
  lemma BlockedIsFlushed(c: Config, s: State)
    requires Reachable(c, s) && !s.rpc.Panicked? && WriteLoopBlocked(c, s)
    ensures s.buffer == [] && Expected(s) <= Causes(s.replies) + s.wire
    ensures exists a :: AnswerSide(a) && Enabled(c, s, a)
  {
    ReachableInv(c, s);
    assert InFlight(s) == Causes(s.replies) + s.wire;
    match s.rpc
    case Waiting => assert Enabled(c, s, Pop);
    case Receiving(item) =>
      if |s.replies| > 0 {
        assert Enabled(c, s, Receive);
      } else {
        assert |Expected(s)| > 0;
        assert Enabled(c, s, Serve(OkReply));
      }
    case SubBytes(item) => assert Enabled(c, s, UncountBytes);
    case SubEntries(item) => assert Enabled(c, s, UncountEntry);
    case Finished =>
  }

  // ---- Close ---------------------------------------------------------------------------------

  /**
   When Close returns: every written entry was sent exactly once, in order, with the SELECTs it
   needs, all of it was executed and answered, and the counters are back at zero exactly when no
   written entry was itself a SELECT.
   */
  lemma CloseComplete(c: Config, s: State)
    requires Reachable(c, s) && s.rpc.Finished?
    ensures s.executed == Emitted(s.written)
    ensures |s.answers| == |s.executed|
    ensures s.unansweredBytes == 0 <==> NoSelects(s.written)
    ensures s.unansweredEntries == 0 <==> NoSelects(s.written)
  {
    hide Emitted, LastDb;
    ReachableInv(c, s);
    assert InFlight(s) == [] && s.replies == [] && s.wire == [] && s.buffer == [];
    assert AllSent(s) == s.executed;
    assert s.written == s.taken;
    assert Owed(s) == [] && OwedEntries(s) == [];
    NothingLost(s.answers);
    if NoSelects(s.written) {
      NoSelectNoLoss(c, s);
    } else {
      var k :| 0 <= k < |s.written| && IsSelect(s.written[k].argv);
      WrittenIsEmitted(s.written, s.written[k]);
      var i :| 0 <= i < |s.executed| && s.executed[i] == Data(s.written[k]);
      assert AnswerCauses(s.answers)[i] == s.executed[i];
      assert Lost(s.answers[i]).Data?;
    }
  }

  // ---- Witness runs --------------------------------------------------------------------------

  lemma Starts(c: Config)
    requires c.Valid()
    ensures Reachable(c, Init())
  {
    assert Runs(c, Init(), [], Init());
  }

  /** One step further from a reachable state. */
  lemma Step(c: Config, s: State, a: Action) returns (t: State)
    requires Reachable(c, s) && Enabled(c, s, a)
    ensures Reachable(c, t) && t == Next(c, s, a)
  {
    var acts :| Runs(c, Init(), acts, s);
    t := Next(c, s, a);
    RunsAppend(c, Init(), acts, s, a);
  }

  /** The write loop has taken, counted and sent its first entry, of database 0, which stays in the buffer if
      it fits. */
  lemma FirstSent(c: Config, e: Entry) returns (s: State)
    requires c.Valid() && e.db == 0
    ensures Reachable(c, s) && s.wpc.Idle? && s.rpc.Waiting? && !s.closed && !s.waitClosed && s.db == 0
    ensures s.ch == [] && s.written == [e] && s.wait == [Data(e)] && s.replies == []
    ensures if Data(e).Size() <= WRITE_BUFFER then s.buffer == [Data(e)] && s.wire == []
            else s.buffer == [] && s.wire == [Data(e)]
    ensures s.unansweredBytes == Data(e).Size() && s.unansweredEntries == 1
  {
    hide Runs, Reachable;
    Starts(c);
    s := Step(c, Init(), Write(e));
    s := Step(c, s, Take);
    s := Step(c, s, PassGate);
    s := Step(c, s, PushNow);
    s := Step(c, s, CountBytes);
    s := Step(c, s, CountEntry);
    s := Step(c, s, Buffer);
  }

  /** That entry is a SELECT, and has been executed and answered: the counters keep it. */
  lemma SelectAnswered(c: Config, e: Entry) returns (s: State)
    requires c.Valid() && e.db == 0 && IsSelect(e.argv)
    ensures Reachable(c, s) && s.wpc.Idle? && s.rpc.Waiting? && !s.closed && !s.waitClosed
    ensures s.ch == [] && s.written == [e] && s.wait == []
    ensures s.unansweredBytes == Data(e).Size() && s.unansweredEntries == 1
  {
    hide Runs, Reachable;
    s := FirstSent(c, e);
    s := Step(c, s, Tick);
    assert s.wire == [Data(e)];
    s := Step(c, s, Serve(OkReply));
    s := Step(c, s, Pop);
    s := Step(c, s, Receive);
  }

  /** Under every configuration, Close returns after a single SELECT entry with both counters above zero. */
  lemma SelectEntryNeverUncounted(c: Config, e: Entry) returns (s: State)
    requires c.Valid() && e.db == 0 && IsSelect(e.argv)
    ensures Reachable(c, s) && s.rpc.Finished? && s.written == [e]
    ensures s.unansweredBytes == Data(e).Size() > 0 && s.unansweredEntries == 1
  {
    hide Runs, Reachable;
    SizePositive(e);
    s := SelectAnswered(c, e);
    s := Step(c, s, Close);
    s := Step(c, s, Exit);
    s := Step(c, s, CloseWait);
    s := Step(c, s, Finish);
  }

  // ---- The size gate -------------------------------------------------------------------------

  /** Bytes still in the write loop's own buffer: only the write loop can flush them. */
  predicate GateDeadlocked(c: Config, s: State)
    requires s.wpc.Gate?
  {
    TotalBytes(s.buffer) > 0 && Data(s.wpc.e).Size() + TotalBytes(s.buffer) > c.maxQuery
  }

  lemma BufferIsOwed(s: State)
    requires s.wpc.Gate? && Aligned(s) && BytesCounted(s)
    ensures s.unansweredBytes >= TotalBytes(s.buffer)
  {
    var pre := (if s.rpc.SubBytes? then [s.rpc.item] else []) + Causes(s.replies) + s.wire;
    assert Owed(s) == pre + s.buffer;
    TotalsAppend(pre, s.buffer);
  }

  lemma GateHolds(c: Config, s: State, a: Action)
    requires s.wpc.Gate? && !a.PassGate? && Enabled(c, s, a)
    ensures Next(c, s, a).wpc == s.wpc && Next(c, s, a).buffer == s.buffer
  {
  }

  lemma {:induction false} DeadlockedForever(c: Config, s: State, acts: seq<Action>, t: State)
    requires Inv(c, s) && s.wpc.Gate? && GateDeadlocked(c, s) && Runs(c, s, acts, t)
    ensures t.wpc == s.wpc
    decreases acts
  {
    if acts != [] {
      BufferIsOwed(s);
      GateHolds(c, s, acts[0]);
      InvStep(c, s, acts[0]);
      if Next(c, s, acts[0]).rpc != Panicked {
        DeadlockedForever(c, Next(c, s, acts[0]), acts[1..], t);
      }
    }
  }

  predicate Harmless(c: Config, s: State) {
    forall i :: 0 <= i < |s.replies| ==>
      !(s.replies[i].1.ErrorReply? || (s.replies[i].1.BusyKey? && c.behavior == Panic))
  }

  /** The next step of the server or the reply loop, while there is something to answer. */
  function DrainAction(s: State): Option<Action> {
    match s.rpc
    case SubBytes(_) => Some(UncountBytes)
    case SubEntries(_) => Some(UncountEntry)
    case Waiting => if s.wait != [] then Some(Pop) else None
    case Receiving(_) =>
      if s.replies != [] then Some(Receive)
      else if s.wire != [] then Some(Serve(OkReply))
      else None
    case _ => None
  }

  function DrainMeasure(s: State): nat {
    6 * |s.wire| + 5 * |s.replies| + 3 * |s.wait|
    + (match s.rpc case Receiving(_) => 2 case SubBytes(_) => 4 case SubEntries(_) => 3 case _ => 0)
  }

  lemma DrainStep(c: Config, s: State)
    requires Inv(c, s) && s.wpc.Gate? && !s.rpc.Panicked? && Harmless(c, s) && DrainAction(s).Some?
    ensures Enabled(c, s, DrainAction(s).value)
    ensures var t := Next(c, s, DrainAction(s).value);
            t.wpc == s.wpc && t.buffer == s.buffer && t.written == s.written && !t.rpc.Panicked? && Harmless(c, t)
            && DrainMeasure(t) < DrainMeasure(s)
  {
    hide Inv;
  }

  /** Whatever is on the wire can always be answered, down to what is in the buffer. */
  lemma {:induction false} Drain(c: Config, s: State) returns (acts: seq<Action>, t: State)
    requires Inv(c, s) && s.wpc.Gate? && !s.rpc.Panicked? && Harmless(c, s) && NoSelects(s.written)
    ensures Runs(c, s, acts, t) && t.wpc == s.wpc && !t.rpc.Panicked?
    ensures t.unansweredBytes == TotalBytes(s.buffer)
    decreases DrainMeasure(s)
  {
    hide Next, Enabled, Harmless;
    if DrainAction(s).Some? {
      var a := DrainAction(s).value;
      DrainStep(c, s);
      InvStep(c, s, a);
      var more;
      more, t := Drain(c, Next(c, s, a));
      acts := [a] + more;
      assert acts[1..] == more;
    } else {
      acts, t := [], s;
      NoSelectNoLoss(c, s);
      assert s.rpc.Waiting? ==> InFlight(s) == [] && s.buffer == [];
      assert s.rpc.Receiving? ==> InFlight(s) == s.buffer;
      assert Owed(s) == s.buffer;
    }
  }

  ghost predicate GateCanOpen(c: Config, s: State) {
    exists acts, t :: Runs(c, s, acts, t) && !t.wpc.Gate?
  }

  lemma NeverOpens(c: Config, s: State)
    requires Reachable(c, s) && s.wpc.Gate? && GateDeadlocked(c, s)
    ensures !GateCanOpen(c, s)
  {
    ReachableInv(c, s);
    forall acts, t | Runs(c, s, acts, t) ensures t.wpc.Gate? { DeadlockedForever(c, s, acts, t); }
  }

  /**
   The wait on UnansweredBytes ends in some continuation exactly when the bytes that only the waiting
   loop itself could flush leave room for the entry.
   */
  lemma GateOpensIff(c: Config, s: State)
    requires Reachable(c, s) && s.wpc.Gate? && !s.rpc.Panicked? && Harmless(c, s) && NoSelects(s.written)
    ensures GateCanOpen(c, s) <==> !GateDeadlocked(c, s)
  {
    ReachableInv(c, s);
    if GateDeadlocked(c, s) {
      NeverOpens(c, s);
    } else {
      var acts, t := Drain(c, s);
      assert Enabled(c, t, PassGate);
      var u := Next(c, t, PassGate);
      RunsAppend(c, s, acts, t, PassGate);
      assert Runs(c, s, acts + [PassGate], u) && !u.wpc.Gate?;
    }
  }

  /** Enough room for the entry and for two buffers less one byte, one of them half sent, and the wait ends:
      a limit that a caller can check against the largest entry. */
  lemma RoomForBuffer(c: Config, s: State)
    requires Reachable(c, s) && s.wpc.Gate? && Data(s.wpc.e).Size() + 2 * WRITE_BUFFER - 1 <= c.maxQuery
    ensures !GateDeadlocked(c, s)
    ensures !s.rpc.Panicked? && Harmless(c, s) && NoSelects(s.written) ==> GateCanOpen(c, s)
  {
    hide GateCanOpen, Harmless;
    ReachableBuffer(c, s);
    if !s.rpc.Panicked? && Harmless(c, s) && NoSelects(s.written) { GateOpensIff(c, s); }
  }

  /** A first entry that fits the write buffer, and a second one that is too much on top of it, both of database
      0: under every configuration they can leave the write loop waiting for good on bytes that only it could
      flush. */
  lemma DeadlockReachable(c: Config, e: Entry, f: Entry) returns (s: State)
    requires c.Valid() && e.db == f.db == 0
    requires Data(e).Size() <= WRITE_BUFFER && Data(e).Size() + Data(f).Size() > c.maxQuery
    ensures Reachable(c, s) && s.wpc == Gate(f) && !s.rpc.Panicked? && Harmless(c, s) && s.written == [e, f]
    ensures GateDeadlocked(c, s) && !GateCanOpen(c, s)
  {
    hide Runs, Reachable;
    SizePositive(e);
    s := FirstSent(c, e);
    s := Step(c, s, Write(f));
    s := Step(c, s, Take);
    assert s.buffer == [Data(e)] && TotalBytes(s.buffer) == Data(e).Size();
    NeverOpens(c, s);
  }

  /** A run of two entries has come to the second one's wait, and no continuation leaves it. */
  ghost predicate StuckAtSecond(c: Config, e: Entry, f: Entry, s: State) {
    && Reachable(c, s) && s.wpc == Gate(f) && !s.rpc.Panicked? && Harmless(c, s) && s.written == [e, f]
    && !GateCanOpen(c, s)
  }

  lemma StuckFits(c: Config, e: Entry, f: Entry, s: State)
    requires c.Valid() && e.db == f.db == 0 && NoSelects([e, f]) && StuckAtSecond(c, e, f, s)
    ensures Data(e).Size() <= WRITE_BUFFER && Data(e).Size() + Data(f).Size() > c.maxQuery
  {
    hide GateCanOpen, Harmless, Runs;
    GateOpensIff(c, s);
    ReachableInv(c, s);
    ReachableBuffer(c, s);
    FirstOfTwo(s, e, f);
    OneItem(Data(e));
  }

  /** Then the first entry is all that can be in the buffer. */
  lemma FirstOfTwo(s: State, e: Entry, f: Entry)
    requires Ledger(s) && s.wpc == Gate(f) && s.written == [e, f] && e.db == f.db == 0 && s.buffer != []
    ensures s.buffer == [Data(e)] && s.executed == s.wire == []
  {
    EmittedTwo(e, f);
    assert s.taken == [e] || s.taken == [e, f];
    var sent, both := AllSent(s), [Data(e), Data(f)];
    assert |sent| == |s.executed| + |s.wire| + |s.buffer| > 0;
    assert |sent + [Data(f)]| == |sent| + 1;
    assert sent + [Data(f)] == both && both[..1] == [Data(e)] && (sent + [Data(f)])[..1] == sent;
    assert s.executed == s.wire == [];
  }

  lemma EmittedTwo(e: Entry, f: Entry)
    requires e.db == f.db == 0
    ensures Emitted([e]) == [Data(e)] && Emitted([e, f]) == [Data(e), Data(f)]
  {
    EmittedSnoc([], e);
    EmittedSnoc([e], f);
    assert [] + [e] == [e] && [e] + [f] == [e, f];
  }

  /** Exactly when two entries of database 0 can end that way. */
  lemma DeadlockIff(c: Config, e: Entry, f: Entry)
    requires c.Valid() && e.db == f.db == 0 && NoSelects([e, f])
    ensures (exists s :: StuckAtSecond(c, e, f, s))
            <==> Data(e).Size() <= WRITE_BUFFER && Data(e).Size() + Data(f).Size() > c.maxQuery
  {
    hide Reachable, GateCanOpen, Harmless;
    if Data(e).Size() <= WRITE_BUFFER && Data(e).Size() + Data(f).Size() > c.maxQuery {
      var s := DeadlockReachable(c, e, f);
      assert StuckAtSecond(c, e, f, s);
    }
    if s :| StuckAtSecond(c, e, f, s) { StuckFits(c, e, f, s); }
  }

  lemma {:induction false} RunsAppend(c: Config, s: State, acts: seq<Action>, t: State, a: Action)
    requires Runs(c, s, acts, t) && Enabled(c, t, a)
    ensures Runs(c, s, acts + [a], Next(c, t, a))
    decreases acts
  {
    if acts == [] {
      var one := [a];
      assert acts + [a] == one && one[1..] == [];
    } else {
      assert (acts + [a])[1..] == acts[1..] + [a];
      RunsAppend(c, Next(c, s, acts[0]), acts[1..], t, a);
    }
  }

  // ---- End to end ----------------------------------------------------------------------------

  const PING: Entry := Entry(0, [Ascii("PING")])

  /** written is es with any number of keep-alive PINGs put in anywhere. */
  ghost predicate WithPings(written: seq<Entry>, es: seq<Entry>)
    decreases written
  {
    if written == [] then es == []
    else
      || (written[0] == PING && WithPings(written[1..], es))
      || (es != [] && written[0] == es[0] && WithPings(written[1..], es[1..]))
  }

  ghost predicate ExecutedWithPings(run: seq<Executed>, wanted: seq<Executed>)
    decreases run
  {
    if run == [] then wanted == []
    else
      || (run[0] == Executed(0, PING.argv) && ExecutedWithPings(run[1..], wanted))
      || (wanted != [] && run[0] == wanted[0] && ExecutedWithPings(run[1..], wanted[1..]))
  }

  lemma {:induction false} PingsCarryOver(written: seq<Entry>, es: seq<Entry>)
    requires WithPings(written, es)
    ensures ExecutedWithPings(Intended(written), Intended(es))
    ensures NoSelects(es) ==> NoSelects(written)
    decreases written
  {
    if written != [] {
      assert Intended(written)[1..] == Intended(written[1..]);
      if written[0] == PING && WithPings(written[1..], es) {
        assert |Lower(Ascii("PING"))| == 4 && |Lower(Ascii("select"))| == 6;
        PingsCarryOver(written[1..], es);
      } else {
        assert Intended(es)[1..] == Intended(es[1..]);
        PingsCarryOver(written[1..], es[1..]);
      }
    }
  }

  /**
   Source to target: when the writer has closed after taking what sendAOF made of a source stream,
   with keep-alive PINGs in between, the target has executed exactly what the source executed, command
   by command in the same databases, minus the commands sendAOF leaves out.
   */
  lemma EndToEnd(c: Config, s: State, db: int64, source: seq<Command>)
    requires Reachable(c, s) && s.rpc.Finished?
    requires SendAof.Filter(db, source).Some? && SendAof.NoWrappedSelect(source)
    requires WithPings(s.written, SendAof.Filter(db, source).value)
    ensures ExecutedWithPings(Meaning(0, Argvs(s.executed)), SendAof.Forwarded(Meaning(db, source)))
  {
    SendAof.FilterMeaning(db, source);
    PingsCarryOver(s.written, SendAof.Filter(db, source).value);
    CloseComplete(c, s);
    EmittedMeaning(s.written);
  }

  function SelectEntry(d: int64, n: int64): Entry { Entry(d, [Ascii("SELECT"), Itoa(n)]) }

  lemma SelectThenCommand(d: int64, n: int64, cmd: Command)
    requires !IsSelect(cmd)
    ensures Meaning(d, [SelectEntry(d, n).argv, cmd]) == [Executed(n, cmd)]
  {
    ParseItoa(n);
    assert Lower(Ascii("SELECT")) == Lower(Ascii("select"));
    var stream: seq<Command> := [SelectEntry(d, n).argv, cmd];
    assert stream[1..] == [cmd];
    var rest: seq<Command> := [cmd];
    assert rest[1..] == [];
    assert Meaning(n, rest) == [Executed(n, cmd)];
  }

  lemma SelectEntryStream(es: seq<Entry>, d: int64, n: int64, cmd: Command)
    ensures Argvs(Emitted(es + [SelectEntry(d, n)] + [Entry(d, cmd)]))
         == Argvs(Emitted(es)) + Argvs(SwitchTo(LastDb(es), d)) + [SelectEntry(d, n).argv, cmd]
  {
    hide Emitted, Argvs;
    var both := es + [SelectEntry(d, n)] + [Entry(d, cmd)];
    var tail := [Data(SelectEntry(d, n)), Data(Entry(d, cmd))];
    assert Emitted(both) == Emitted(es) + SwitchTo(LastDb(es), d) + tail by {
      EmittedSnoc(es, SelectEntry(d, n));
      EmittedSnoc(es + [SelectEntry(d, n)], Entry(d, cmd));
    }
    ArgvsAppend(Emitted(es) + SwitchTo(LastDb(es), d), tail);
    ArgvsAppend(Emitted(es), SwitchTo(LastDb(es), d));
    TwoArgvs(SelectEntry(d, n), Entry(d, cmd));
  }

  lemma TwoArgvs(a: Entry, b: Entry)
    ensures Argvs([Data(a), Data(b)]) == [a.argv, b.argv]
  {
  }

  /** What such a stream executes. */
  lemma SelectEntryMeaning(es: seq<Entry>, d: int64, n: int64, cmd: Command)
    requires NoSelects(es) && !IsSelect(cmd)
    ensures Meaning(0, Argvs(Emitted(es + [SelectEntry(d, n)] + [Entry(d, cmd)]))) == Intended(es) + [Executed(n, cmd)]
  {
    hide Emitted, Argvs, Meaning, DbAfterAll, Intended;
    SelectEntryStream(es, d, n, cmd);
    var before, switch := Argvs(Emitted(es)), Argvs(SwitchTo(LastDb(es), d));
    MeaningAppend(0, before + switch, [SelectEntry(d, n).argv, cmd]);
    MeaningAppend(0, before, switch);
    EmittedMeaning(es);
    SwitchMeaning(LastDb(es), d);
    SelectThenCommand(d, n, cmd);
  }

  /** An entry that is itself SELECT n, sent for database d, misroutes the next command for d unless n is d. */
  lemma SelectEntryMisroutes(es: seq<Entry>, d: int64, n: int64, cmd: Command)
    requires NoSelects(es) && !IsSelect(cmd)
    ensures Meaning(0, Argvs(Emitted(es + [SelectEntry(d, n)] + [Entry(d, cmd)]))) == Intended(es) + [Executed(d, cmd)]
            <==> n == d
  {
    hide Emitted, Argvs, Meaning;
    SelectEntryMeaning(es, d, n, cmd);
    assert (Intended(es) + [Executed(n, cmd)])[|es|] == Executed(n, cmd);
    assert (Intended(es) + [Executed(d, cmd)])[|es|] == Executed(d, cmd);
  }
}
