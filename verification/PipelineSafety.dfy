/** Invariants of the pipelined writer, preserved by every step of every process, and what they give. */
module PipelineSafety {
  import opened Bytes
  import opened CommandStream
  import opened Pipeline

  // ---- The queue of expected replies against the connection ----------------------------------

  /** Items the reply loop still expects an answer for, oldest first. */
  function Expected(s: State): seq<Item> {
    (if s.rpc.Receiving? then [s.rpc.item] else []) + s.wait
  }

  function Causes(replies: seq<(Item, Reply)>): seq<Item> {
    seq(|replies|, i requires 0 <= i < |replies| => replies[i].0)
  }

  /** Commands handed to the connection and not yet answered, oldest first. */
  function InFlight(s: State): seq<Item> {
    Causes(s.replies) + s.wire + s.buffer
  }

  /** The queue and the connection agree, up to the one item the write loop is between the two. */
  ghost predicate Aligned(s: State) {
    match s.wpc
    case SwitchPush(e) => InFlight(s) == Expected(s) + [Switch(e.db)]
    case AddBytes(e) => Expected(s) == InFlight(s) + [Data(e)]
    case AddEntries(e) => Expected(s) == InFlight(s) + [Data(e)]
    case Buffering(e) => Expected(s) == InFlight(s) + [Data(e)]
    case _ => InFlight(s) == Expected(s)
  }

  ghost predicate Paired(s: State) {
    forall i :: 0 <= i < |s.answers| ==> s.answers[i].waiting == s.answers[i].cause
  }

  /** Everything ever handed to the connection, oldest first. */
  function AllSent(s: State): seq<Item> { s.executed + s.wire + s.buffer }

  function AnswerCauses(answers: seq<Answer>): seq<Item> {
    seq(|answers|, i requires 0 <= i < |answers| => answers[i].cause)
  }

  ghost predicate Ledger(s: State) {
    && s.written == s.taken + s.ch
    && s.executed == AnswerCauses(s.answers) + Causes(s.replies)
    && s.db == LastDb(s.taken)
    && (s.wpc.HasEntry() ==> s.taken != [] && s.taken[|s.taken| - 1] == s.wpc.e)
    && (s.wpc.HasEntry() ==> Emitted(s.taken) == AllSent(s) + [Data(s.wpc.e)])
    && (!s.wpc.HasEntry() ==> Emitted(s.taken) == AllSent(s))
  }

  ghost predicate FlushedWhenBlocked(s: State) {
    s.wpc.SwitchPush? || s.wpc.PushBlocked? || s.wpc.Exited? ==> s.buffer == []
  }

  ghost predicate Closing(s: State) {
    && (s.wpc.Exited? ==> s.closed && s.ch == [])
    && (s.waitClosed ==> s.wpc.Exited?)
    && (s.rpc.Finished? ==> s.waitClosed && s.wait == [])
  }

  ghost predicate Wired(s: State) {
    Aligned(s) && Paired(s) && Ledger(s) && FlushedWhenBlocked(s) && Closing(s)
  }

  lemma FlushedInto<T>(head: seq<T>, wire: seq<T>, buffer: seq<T>, more: seq<T>)
    ensures head + (wire + buffer + more) + [] == head + wire + buffer + more
  {
  }

  lemma MoveHead<T>(a: seq<T>, b: seq<T>)
    requires |b| > 0
    ensures a + b == (a + [b[0]]) + b[1..]
  {
  }

  lemma Spilled<T>(head: seq<T>, wire: seq<T>, buffer: seq<T>, more: seq<T>, spill: nat)
    requires spill <= |buffer + more|
    ensures head + (wire + (buffer + more)[..spill]) + (buffer + more)[spill..] == head + wire + buffer + more
  {
    var all := buffer + more;
    assert all[..spill] + all[spill..] == all;
    assert wire + all[..spill] + all[spill..] == wire + all;
  }

  lemma FlushKeeps(s: State)
    ensures InFlight(Flushed(s)) == InFlight(s) && AllSent(Flushed(s)) == AllSent(s)
  {
  }

  lemma TakeAligned(c: Config, s: State)
    requires Aligned(s) && Enabled(c, s, Take)
    ensures Aligned(Next(c, s, Take))
  {
    hide Emitted, LastDb;
    var t := Next(c, s, Take);
    assert Expected(t) == Expected(s);
    assert s.db != s.ch[0].db ==> InFlight(t) == InFlight(s) + [Switch(s.ch[0].db)];
    assert s.db == s.ch[0].db ==> InFlight(t) == InFlight(s);
  }

  lemma TakeSent(c: Config, s: State)
    requires Enabled(c, s, Take)
    ensures AllSent(Next(c, s, Take)) == AllSent(s) + SwitchTo(s.db, s.ch[0].db)
  {
    FlushedInto(s.executed, s.wire, s.buffer, [Switch(s.ch[0].db)]);
  }

  lemma TakeEmitted(c: Config, s: State)
    requires s.db == LastDb(s.taken) && Emitted(s.taken) == AllSent(s) && Enabled(c, s, Take)
    ensures Emitted(s.taken + [s.ch[0]]) == AllSent(Next(c, s, Take)) + [Data(s.ch[0])]
  {
    TakeSent(c, s);
    EmittedSnoc(s.taken, s.ch[0]);
  }

  lemma TakeLedger(c: Config, s: State)
    requires Ledger(s) && Enabled(c, s, Take)
    ensures Ledger(Next(c, s, Take))
  {
    TakeEmitted(c, s);
    MoveHead(s.taken, s.ch);
  }

  lemma PushStep(c: Config, s: State, a: Action)
    requires a.SwitchQueued? || a.PushNow? || a.PushLate?
    requires Wired(s) && Enabled(c, s, a)
    ensures Wired(Next(c, s, a))
  {
    hide Emitted, LastDb;
    var t := Next(c, s, a);
    var item := if a.SwitchQueued? then Switch(s.wpc.e.db) else Data(s.wpc.e);
    assert Expected(t) == Expected(s) + [item];
    assert InFlight(t) == InFlight(s) && AllSent(t) == AllSent(s);
  }

  lemma BufferSent(c: Config, s: State, a: Action)
    requires a.Buffer? && Enabled(c, s, a)
    ensures InFlight(Next(c, s, a)) == InFlight(s) + [Data(s.wpc.e)]
    ensures AllSent(Next(c, s, a)) == AllSent(s) + [Data(s.wpc.e)]
  {
    var spill := Spill(s.buffered, |s.buffer|, Data(s.wpc.e).Size());
    Spilled(Causes(s.replies), s.wire, s.buffer, [Data(s.wpc.e)], spill);
    Spilled(s.executed, s.wire, s.buffer, [Data(s.wpc.e)], spill);
  }

  lemma BufferStep(c: Config, s: State, a: Action)
    requires a.Buffer?
    requires Wired(s) && Enabled(c, s, a)
    ensures Wired(Next(c, s, a))
  {
    hide Emitted, LastDb;
    BufferSent(c, s, a);
  }

  lemma ServeStep(c: Config, s: State, a: Action)
    requires a.Serve?
    requires Wired(s) && Enabled(c, s, a)
    ensures Wired(Next(c, s, a))
  {
    hide Emitted, LastDb;
    var t := Next(c, s, a);
    assert Causes(t.replies) == Causes(s.replies) + [s.wire[0]];
    assert InFlight(t) == InFlight(s);
    assert AllSent(t) == AllSent(s);
    assert Expected(t) == Expected(s);
  }

  /** The answer at the head of the connection belongs to the item the reply loop holds. */
  lemma HeadsAgree(s: State)
    requires Aligned(s) && s.rpc.Receiving? && |s.replies| > 0
    ensures s.replies[0].0 == s.rpc.item
  {
    assert Expected(s)[0] == s.rpc.item && InFlight(s)[0] == s.replies[0].0;
  }

  lemma ReceiveHead(c: Config, s: State)
    requires Aligned(s) && Enabled(c, s, Receive)
    ensures Expected(Next(c, s, Receive)) == Expected(s)[1..] && |Expected(s)| > 0
    ensures InFlight(Next(c, s, Receive)) == InFlight(s)[1..] && |InFlight(s)| > 0
    ensures Next(c, s, Receive).wpc == s.wpc
  {
    hide Aligned;
    var t := Next(c, s, Receive);
    assert Causes(t.replies) == Causes(s.replies)[1..];
  }

  lemma ReceiveAligned(c: Config, s: State)
    requires Aligned(s) && Enabled(c, s, Receive)
    ensures Aligned(Next(c, s, Receive))
  {
    hide Emitted, LastDb, Next, Enabled, Expected, InFlight;
    ReceiveHead(c, s);
  }

  lemma ReceiveLedger(c: Config, s: State)
    requires Ledger(s) && Enabled(c, s, Receive)
    ensures Ledger(Next(c, s, Receive))
  {
    var t := Next(c, s, Receive);
    assert Causes(s.replies) == [s.replies[0].0] + Causes(t.replies);
    assert AnswerCauses(t.answers) == AnswerCauses(s.answers) + [s.replies[0].0];
    assert AllSent(t) == AllSent(s);
  }

  lemma ReceivePaired(c: Config, s: State)
    requires Aligned(s) && Paired(s) && Enabled(c, s, Receive)
    ensures Paired(Next(c, s, Receive))
  {
    hide Emitted, LastDb;
    HeadsAgree(s);
  }

  lemma TakeStep(c: Config, s: State)
    requires Wired(s) && Enabled(c, s, Take)
    ensures Wired(Next(c, s, Take))
  {
    hide Emitted, LastDb;
    TakeAligned(c, s);
    TakeLedger(c, s);
  }

  lemma ReceiveStep(c: Config, s: State)
    requires Wired(s) && Enabled(c, s, Receive)
    ensures Wired(Next(c, s, Receive))
  {
    hide Emitted, LastDb;
    ReceiveAligned(c, s);
    ReceiveLedger(c, s);
    ReceivePaired(c, s);
  }

  lemma FlushStep(c: Config, s: State, a: Action)
    requires a.Tick? || a.Exit? || a.PushFlush?
    requires Wired(s) && Enabled(c, s, a)
    ensures Wired(Next(c, s, a))
  {
    hide Emitted, LastDb;
    FlushKeeps(s);
    assert InFlight(Next(c, s, a)) == InFlight(s) && AllSent(Next(c, s, a)) == AllSent(s);
  }

  predicate Quiet(a: Action) {
    a.Write? || a.Close? || a.CloseWait? || a.PassGate? || a.CountBytes? || a.CountEntry? || a.Pop?
    || a.UncountBytes? || a.UncountEntry? || a.Finish?
  }

  lemma QuietFrame(c: Config, s: State, a: Action)
    requires Quiet(a) && Enabled(c, s, a)
    ensures var t := Next(c, s, a);
            Expected(t) == Expected(s) && InFlight(t) == InFlight(s) && AllSent(t) == AllSent(s)
  {
  }

  /** Steps that move nothing on the connection. */
  lemma QuietStep(c: Config, s: State, a: Action)
    requires Quiet(a)
    requires Wired(s) && Enabled(c, s, a)
    ensures Wired(Next(c, s, a))
  {
    hide Emitted, LastDb, Expected, InFlight, AllSent, Causes, AnswerCauses;
    QuietFrame(c, s, a);
  }

  lemma WiredStep(c: Config, s: State, a: Action)
    requires Wired(s) && Enabled(c, s, a)
    ensures Wired(Next(c, s, a))
  {
    if Quiet(a) { QuietStep(c, s, a); return; }
    match a
    case Take => TakeStep(c, s);
    case SwitchQueued => PushStep(c, s, a);
    case PushNow => PushStep(c, s, a);
    case PushLate => PushStep(c, s, a);
    case Buffer => BufferStep(c, s, a);
    case Serve(reply) => ServeStep(c, s, a);
    case Receive => ReceiveStep(c, s);
    case Tick => FlushStep(c, s, a);
    case Exit => FlushStep(c, s, a);
    case PushFlush => FlushStep(c, s, a);
  }

  // ---- The two counters ------------------------------------------------------------------------

  /** Items whose bytes are still to be given back. */
  function Owed(s: State): seq<Item> {
    (if s.rpc.SubBytes? then [s.rpc.item] else []) + Expected(s)
  }

  /** Items whose entry is still to be given back. */
  function OwedEntries(s: State): seq<Item> {
    (if s.rpc.SubBytes? || s.rpc.SubEntries? then [s.rpc.item] else []) + Expected(s)
  }

  ghost predicate HoldsEntry(s: State) {
    s.rpc.SubBytes? || s.rpc.SubEntries? ==> s.rpc.item.Data? && !s.rpc.item.SkipsCounters()
  }

  ghost predicate BytesCounted(s: State) {
    s.unansweredBytes + (if s.wpc.AddBytes? then Data(s.wpc.e).Size() else 0)
    == TotalBytes(Owed(s)) + LostBytes(s.answers)
  }

  ghost predicate EntriesCounted(s: State) {
    s.unansweredEntries + (if s.wpc.AddBytes? || s.wpc.AddEntries? then 1 else 0)
    == DataCount(OwedEntries(s)) + LostCount(s.answers)
  }

  ghost predicate Counted(s: State) {
    HoldsEntry(s) && BytesCounted(s) && EntriesCounted(s)
  }

  lemma OneItem(item: Item)
    ensures TotalBytes([item]) == item.Size()
    ensures DataCount([item]) == (if item.Data? then 1 else 0)
  {
    var items := [item];
    assert items[1..] == [];
  }

  lemma AppendItem(items: seq<Item>, item: Item)
    ensures TotalBytes(items + [item]) == TotalBytes(items) + item.Size()
    ensures DataCount(items + [item]) == DataCount(items) + (if item.Data? then 1 else 0)
  {
    TotalsAppend(items, [item]);
    OneItem(item);
  }

  predicate Pushes(a: Action) { a.SwitchQueued? || a.PushNow? || a.PushLate? }

  function Pushed(s: State, a: Action): Item
    requires s.wpc.HasEntry()
  {
    if a.SwitchQueued? then Switch(s.wpc.e.db) else Data(s.wpc.e)
  }

  lemma OwedPush(c: Config, s: State, a: Action)
    requires Pushes(a) && Enabled(c, s, a)
    ensures Owed(Next(c, s, a)) == Owed(s) + [Pushed(s, a)]
    ensures OwedEntries(Next(c, s, a)) == OwedEntries(s) + [Pushed(s, a)]
  {
  }

  lemma OwedReceive(c: Config, s: State)
    requires Enabled(c, s, Receive) && Next(c, s, Receive).rpc != Panicked
    ensures Owed(s) == [s.rpc.item] + s.wait && OwedEntries(s) == [s.rpc.item] + s.wait
    ensures s.rpc.item.SkipsCounters() ==>
        Owed(Next(c, s, Receive)) == s.wait && OwedEntries(Next(c, s, Receive)) == s.wait
    ensures !s.rpc.item.SkipsCounters() ==>
        Owed(Next(c, s, Receive)) == Owed(s) && OwedEntries(Next(c, s, Receive)) == OwedEntries(s)
  {
  }

  lemma UncountBytesOwed(c: Config, s: State)
    requires Enabled(c, s, UncountBytes)
    ensures Owed(s) == [s.rpc.item] + s.wait && Owed(Next(c, s, UncountBytes)) == s.wait
    ensures OwedEntries(Next(c, s, UncountBytes)) == OwedEntries(s)
    ensures TotalBytes(Owed(s)) == s.rpc.item.Size() + TotalBytes(s.wait)
  {
    TotalsAppend([s.rpc.item], s.wait);
    OneItem(s.rpc.item);
  }

  lemma UncountEntryOwed(c: Config, s: State)
    requires Enabled(c, s, UncountEntry)
    ensures Owed(Next(c, s, UncountEntry)) == Owed(s)
    ensures OwedEntries(s) == [s.rpc.item] + s.wait && OwedEntries(Next(c, s, UncountEntry)) == s.wait
    ensures DataCount(OwedEntries(s)) == (if s.rpc.item.Data? then 1 else 0) + DataCount(s.wait)
  {
    TotalsAppend([s.rpc.item], s.wait);
    OneItem(s.rpc.item);
  }

  /** Steps that touch neither the queue of expected replies nor the reply loop. */
  predicate Outgoing(a: Action) {
    a.Write? || a.Close? || a.CloseWait? || a.Tick? || a.Take? || a.PassGate? || a.PushFlush?
    || a.CountBytes? || a.CountEntry? || a.Buffer? || a.Exit? || a.Serve?
  }

  lemma OutgoingFrame(c: Config, s: State, a: Action)
    requires Outgoing(a) && Enabled(c, s, a)
    ensures Next(c, s, a).wait == s.wait && Next(c, s, a).rpc == s.rpc && Next(c, s, a).answers == s.answers
  {
  }

  lemma OutgoingOwed(c: Config, s: State, a: Action)
    requires Outgoing(a) && Enabled(c, s, a)
    ensures Owed(Next(c, s, a)) == Owed(s) && OwedEntries(Next(c, s, a)) == OwedEntries(s)
    ensures Next(c, s, a).answers == s.answers
  {
    OutgoingFrame(c, s, a);
  }

  lemma PopOwed(c: Config, s: State, a: Action)
    requires (a.Pop? || a.Finish?) && Enabled(c, s, a)
    ensures Owed(Next(c, s, a)) == Owed(s) && OwedEntries(Next(c, s, a)) == OwedEntries(s)
  {
    if a.Pop? { assert s.wait == [s.wait[0]] + s.wait[1..]; }
  }

  lemma LostStep(answers: seq<Answer>, a: Answer)
    ensures LostBytes(answers + [a]) == LostBytes(answers) + Lost(a).Size()
    ensures LostCount(answers + [a]) == LostCount(answers) + (if Lost(a).Data? then 1 else 0)
  {
    assert (answers + [a])[..|answers|] == answers;
  }

  lemma CountedReceive(c: Config, s: State)
    requires Counted(s) && Enabled(c, s, Receive) && Next(c, s, Receive).rpc != Panicked
    ensures Counted(Next(c, s, Receive))
  {
    hide LostBytes, LostCount, TotalBytes, DataCount;
    var item := s.rpc.item;
    LostStep(s.answers, Answer(item, s.replies[0].0, s.replies[0].1));
    OwedReceive(c, s);
    TotalsAppend([item], s.wait);
    OneItem(item);
  }

  lemma CountedUncountBytes(c: Config, s: State)
    requires Counted(s) && Enabled(c, s, UncountBytes)
    ensures Counted(Next(c, s, UncountBytes))
  {
    hide LostBytes, LostCount, TotalBytes, DataCount;
    UncountBytesOwed(c, s);
  }

  lemma CountedUncountEntry(c: Config, s: State)
    requires Counted(s) && Enabled(c, s, UncountEntry)
    ensures Counted(Next(c, s, UncountEntry))
  {
    hide LostBytes, LostCount, TotalBytes, DataCount;
    UncountEntryOwed(c, s);
  }

  lemma CountersFrame(c: Config, s: State, a: Action)
    requires Outgoing(a) && !a.CountBytes? && !a.CountEntry? && Enabled(c, s, a)
    ensures Next(c, s, a).unansweredBytes == s.unansweredBytes
    ensures Next(c, s, a).unansweredEntries == s.unansweredEntries
    ensures !s.wpc.AddBytes? && !s.wpc.AddEntries? ==> !Next(c, s, a).wpc.AddBytes? && !Next(c, s, a).wpc.AddEntries?
    ensures s.wpc.AddBytes? || s.wpc.AddEntries? ==> Next(c, s, a).wpc == s.wpc
  {
  }

  lemma CountedOutgoing(c: Config, s: State, a: Action)
    requires Outgoing(a)
    requires Counted(s) && Enabled(c, s, a)
    ensures Counted(Next(c, s, a))
  {
    OutgoingFrame(c, s, a);
    OutgoingOwed(c, s, a);
    if !a.CountBytes? && !a.CountEntry? { CountersFrame(c, s, a); }
  }

  lemma CountedPop(c: Config, s: State, a: Action)
    requires a.Pop? || a.Finish?
    requires Counted(s) && Enabled(c, s, a)
    ensures Counted(Next(c, s, a))
  {
    PopOwed(c, s, a);
  }

  lemma CountedPush(c: Config, s: State, a: Action)
    requires Pushes(a)
    requires Counted(s) && Enabled(c, s, a)
    ensures Counted(Next(c, s, a))
  {
    hide LostBytes, LostCount, TotalBytes, DataCount;
    OwedPush(c, s, a);
    AppendItem(Owed(s), Pushed(s, a));
    AppendItem(OwedEntries(s), Pushed(s, a));
  }

  lemma CountedStep(c: Config, s: State, a: Action)
    requires Counted(s) && Enabled(c, s, a) && Next(c, s, a).rpc != Panicked
    ensures Counted(Next(c, s, a))
  {
    hide LostBytes, LostCount, TotalBytes, DataCount, Counted, Bounded;
    if Pushes(a) {
      CountedPush(c, s, a);
    } else if a.Receive? {
      CountedReceive(c, s);
    } else if a.UncountBytes? {
      CountedUncountBytes(c, s);
    } else if a.UncountEntry? {
      CountedUncountEntry(c, s);
    } else if Outgoing(a) {
      CountedOutgoing(c, s, a);
    } else {
      CountedPop(c, s, a);
    }
  }

  /** While its bytes are being counted, the entry is the newest item owed. */
  lemma CountingIsLast(s: State)
    requires Aligned(s) && s.wpc.AddBytes?
    ensures exists pre :: Owed(s) == pre + [Data(s.wpc.e)]
  {
    var pre := (if s.rpc.SubBytes? then [s.rpc.item] else []) + InFlight(s);
    assert Owed(s) == pre + [Data(s.wpc.e)];
  }

  lemma BytesNonNegative(s: State)
    requires Counted(s) && Aligned(s)
    ensures s.unansweredBytes >= 0
  {
    if s.wpc.AddBytes? {
      CountingIsLast(s);
      var pre :| Owed(s) == pre + [Data(s.wpc.e)];
      AppendItem(pre, Data(s.wpc.e));
    }
  }

  /** Once past the gate, the entry fits on top of what is unanswered, or nothing is. */
  ghost predicate Gated(c: Config, s: State) {
    s.wpc.Push? || s.wpc.PushBlocked? || s.wpc.AddBytes? ==>
      s.unansweredBytes == 0 || Data(s.wpc.e).Size() + s.unansweredBytes <= c.maxQuery
  }

  /** At most the query buffer limit is outstanding, or it is a single oversized entry. */
  ghost predicate Bounded(c: Config, s: State) {
    LostBytes(s.answers) == 0 ==> s.unansweredBytes <= c.maxQuery || DataCount(Owed(s)) == 1
  }

  lemma GatedStep(c: Config, s: State, a: Action)
    requires Gated(c, s) && Enabled(c, s, a)
    requires s.unansweredBytes >= 0 && Next(c, s, a).unansweredBytes >= 0
    ensures Gated(c, Next(c, s, a))
  {
  }

  lemma BoundedReceive(c: Config, s: State)
    requires Enabled(c, s, Receive) && Bounded(c, s) && Next(c, s, Receive).rpc != Panicked
    ensures Bounded(c, Next(c, s, Receive))
  {
    hide LostBytes, LostCount, TotalBytes, DataCount;
    LostStep(s.answers, Answer(s.rpc.item, s.replies[0].0, s.replies[0].1));
    OwedReceive(c, s);
    TotalsAppend([s.rpc.item], s.wait);
    OneItem(s.rpc.item);
  }

  lemma BoundedCount(c: Config, s: State)
    requires Enabled(c, s, CountBytes) && Counted(s) && Aligned(s) && Gated(c, s)
    ensures Bounded(c, Next(c, s, CountBytes))
  {
    hide LostBytes, LostCount, TotalBytes, DataCount;
    if s.unansweredBytes == 0 && LostBytes(s.answers) == 0 {
      CountingIsLast(s);
      var pre :| Owed(s) == pre + [Data(s.wpc.e)];
      AppendItem(pre, Data(s.wpc.e));
      NoBytesNoEntries(pre);
      OutgoingOwed(c, s, CountBytes);
    }
  }

  lemma BoundedUncount(c: Config, s: State)
    requires c.Valid() && Enabled(c, s, UncountBytes) && Counted(s) && Bounded(c, s)
    requires BytesCounted(Next(c, s, UncountBytes)) && Next(c, s, UncountBytes).unansweredBytes >= 0
    ensures Bounded(c, Next(c, s, UncountBytes))
  {
    hide LostBytes, LostCount, TotalBytes, DataCount;
    UncountBytesOwed(c, s);
    TotalsAppend([s.rpc.item], s.wait);
    OneItem(s.rpc.item);
    NoBytesNoEntries(s.wait);
  }

  lemma BoundedOutgoing(c: Config, s: State, a: Action)
    requires Outgoing(a) && !a.CountBytes? && Enabled(c, s, a) && Bounded(c, s)
    ensures Bounded(c, Next(c, s, a))
  {
    OutgoingOwed(c, s, a);
    if !a.CountEntry? { CountersFrame(c, s, a); }
  }

  lemma BoundedPush(c: Config, s: State, a: Action)
    requires Pushes(a) && Enabled(c, s, a)
    requires Gated(c, s) && Bounded(c, s) && s.unansweredBytes >= 0 && c.Valid()
    ensures Bounded(c, Next(c, s, a))
  {
    hide LostBytes, LostCount, TotalBytes, DataCount;
    OwedPush(c, s, a);
    AppendItem(Owed(s), Pushed(s, a));
  }

  lemma BoundedStep(c: Config, s: State, a: Action)
    requires c.Valid() && Enabled(c, s, a) && Next(c, s, a).rpc != Panicked
    requires Counted(s) && Aligned(s) && Gated(c, s) && Bounded(c, s)
    requires s.unansweredBytes >= 0
    requires Counted(Next(c, s, a)) && Next(c, s, a).unansweredBytes >= 0
    ensures Bounded(c, Next(c, s, a))
  {
    hide LostBytes, LostCount, TotalBytes, DataCount;
    if a.Receive? {
      BoundedReceive(c, s);
    } else if a.CountBytes? {
      BoundedCount(c, s);
    } else if a.UncountBytes? {
      BoundedUncount(c, s);
    } else if a.UncountEntry? {
      UncountEntryOwed(c, s);
    } else if Pushes(a) {
      BoundedPush(c, s, a);
    } else if Outgoing(a) {
      BoundedOutgoing(c, s, a);
    } else {
      PopOwed(c, s, a);
    }
  }

  // ---- The invariant over runs -------------------------------------------------------------------

  ghost predicate Inv(c: Config, s: State) {
    c.Valid() && Wired(s) && (s.rpc != Panicked ==> Counted(s) && Gated(c, s) && Bounded(c, s))
  }

  lemma InvInit(c: Config)
    requires c.Valid()
    ensures Inv(c, Init())
  {
  }

  lemma InvStep(c: Config, s: State, a: Action)
    requires Inv(c, s) && Enabled(c, s, a)
    ensures Inv(c, Next(c, s, a))
  {
    WiredStep(c, s, a);
    if Next(c, s, a).rpc != Panicked {
      CountedStep(c, s, a);
      BytesNonNegative(s);
      BytesNonNegative(Next(c, s, a));
      GatedStep(c, s, a);
      BoundedStep(c, s, a);
    }
  }

  lemma {:induction false} InvRuns(c: Config, s: State, acts: seq<Action>, t: State)
    requires Inv(c, s) && Runs(c, s, acts, t)
    ensures Inv(c, t)
    decreases acts
  {
    if acts != [] {
      InvStep(c, s, acts[0]);
      InvRuns(c, Next(c, s, acts[0]), acts[1..], t);
    }
  }

  lemma ReachableInv(c: Config, s: State)
    requires Reachable(c, s)
    ensures Inv(c, s)
  {
    var acts :| Runs(c, Init(), acts, s);
    InvInit(c);
    InvRuns(c, Init(), acts, s);
  }
}
