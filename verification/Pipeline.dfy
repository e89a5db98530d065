/**
 The pipelined target writer, redis_standalone_writer.go, with replies on.

 Four processes share the state: the callers of Write and Close, the write loop (processWrite and
 switchDbTo), the reply loop (processReply), and a Redis server that executes the commands it has
 received in order. Each Action below is one atomic step of one of them.
 */
module Pipeline {
  import opened Bytes
  import opened Decimal
  import opened CommandStream
  import RespWriter

  datatype Behavior = Skip | Panic | Rewrite

  /** Channel capacities, the query buffer limit, and rdb_restore_command_behavior. */
  datatype Config = Config(chCap: nat, waitCap: nat, maxQuery: int, behavior: Behavior) {
    predicate Valid() { chCap >= 1 && waitCap >= 1 && maxQuery >= 0 }
  }

  /** A command on the connection: an inserted SELECT or a caller's entry. */
  datatype Item = Switch(db: int64) | Data(entry: Entry) {
    function Argv(): Command {
      match this
      case Switch(db) => [Ascii("select"), Itoa(db)]
      case Data(entry) => entry.argv
    }
    /** processReply recognises SELECT by its name, whoever sent it. */
    predicate SkipsCounters() { Switch? || IsSelect(entry.argv) }
    function Size(): nat { if Data? then |RespWriter.EncodeArgs(entry.argv)| else 0 }
  }

  datatype Reply = OkReply | NilReply | BusyKey | ErrorReply

  /** Where the write loop stands; e is the entry taken from ch. */
  datatype WritePc =
    | Idle
    | SwitchPush(e: Entry)   // SELECT sent and flushed, its entry waits for room in chWaitReply
    | Gate(e: Entry)         // waiting on UnansweredBytes
    | Push(e: Entry)         // the non-blocking send to chWaitReply
    | PushBlocked(e: Entry)  // flushed, in the blocking send
    | AddBytes(e: Entry)
    | AddEntries(e: Entry)
    | Buffering(e: Entry)    // about to hand the bytes to the buffered socket
    | Exited
  {
    predicate HasEntry() { !Idle? && !Exited? }
  }

  datatype ReplyPc =
    | Waiting
    | Receiving(item: Item)
    | SubBytes(item: Item)
    | SubEntries(item: Item)
    | Finished
    | Panicked

  datatype Answer = Answer(waiting: Item, cause: Item, reply: Reply)

  datatype State = State(
    ch: seq<Entry>, closed: bool,
    db: int64, wpc: WritePc,
    wait: seq<Item>, waitClosed: bool,
    buffer: seq<Item>,                 // not yet on the wire, or not to the last byte
    buffered: nat,                     // bytes in the buffered writer
    wire: seq<Item>,                   // on the wire, not yet executed
    replies: seq<(Item, Reply)>,       // executed, reply not yet received
    rpc: ReplyPc,
    unansweredBytes: int, unansweredEntries: int,
    // history
    written: seq<Entry>, taken: seq<Entry>,
    executed: seq<Item>, answers: seq<Answer>)

  function Init(): State {
    State([], false, 0, Idle, [], false, [], 0, [], [], Waiting, 0, 0, [], [], [], [])
  }

  datatype Action =
    | Write(e: Entry) | Close | CloseWait
    | Tick | Take | SwitchQueued | PassGate | PushNow | PushFlush | PushLate
    | CountBytes | CountEntry | Buffer | Exit
    | Serve(reply: Reply)
    | Pop | Receive | UncountBytes | UncountEntry | Finish

  predicate GateOpen(c: Config, s: State, e: Entry) {
    !(s.unansweredBytes > 0 && Data(e).Size() + s.unansweredBytes > c.maxQuery)
  }

  predicate Enabled(c: Config, s: State, a: Action) {
    s.rpc != Panicked &&
    match a
    case Write(e) => !s.closed && |s.ch| < c.chCap
    case Close => !s.closed
    case CloseWait => s.wpc.Exited? && !s.waitClosed
    case Tick => s.wpc.Idle?
    case Take => s.wpc.Idle? && |s.ch| > 0
    case SwitchQueued => s.wpc.SwitchPush? && |s.wait| < c.waitCap
    case PassGate => s.wpc.Gate? && GateOpen(c, s, s.wpc.e)
    case PushNow => s.wpc.Push? && |s.wait| < c.waitCap
    case PushFlush => s.wpc.Push? && |s.wait| >= c.waitCap
    case PushLate => s.wpc.PushBlocked? && |s.wait| < c.waitCap
    case CountBytes => s.wpc.AddBytes?
    case CountEntry => s.wpc.AddEntries?
    case Buffer => s.wpc.Buffering?
    case Exit => s.wpc.Idle? && s.closed && s.ch == []
    case Serve(reply) => |s.wire| > 0
    case Pop => s.rpc.Waiting? && |s.wait| > 0
    case Receive => s.rpc.Receiving? && |s.replies| > 0
    case UncountBytes => s.rpc.SubBytes?
    case UncountEntry => s.rpc.SubEntries?
    case Finish => s.rpc.Waiting? && s.wait == [] && s.waitClosed
  }

  /** What the reply loop does with an answer: panic, skip the counters, or uncount the entry. */
  function AfterReply(c: Config, item: Item, reply: Reply): ReplyPc {
    if reply == ErrorReply || (reply == BusyKey && c.behavior == Panic) then Panicked
    else if item.SkipsCounters() then Waiting
    else SubBytes(item)
  }

  function Flushed(s: State): State {
    s.(wire := s.wire + s.buffer, buffer := [], buffered := 0)
  }

  /** The size of the client's buffered writer. */
  const WRITE_BUFFER := 32 * 1024

  /** bufio.Writer.Write of n bytes behind those buffered already: how many stay in the buffer. What does not
      fit goes out when the buffer is full, and straight to the connection when the buffer is empty. */
  function Kept(buffered: nat, n: nat): nat {
    if buffered + n <= WRITE_BUFFER then buffered + n
    else if buffered == 0 || buffered + n - WRITE_BUFFER > WRITE_BUFFER then 0
    else buffered + n - WRITE_BUFFER
  }

  /** And how many of the unsent commands and the new one have then gone out completely. */
  function Spill(buffered: nat, unsent: nat, n: nat): (spill: nat)
    ensures spill <= unsent + 1
  {
    if buffered + n <= WRITE_BUFFER then 0 else if Kept(buffered, n) == 0 then unsent + 1 else unsent
  }

  function Next(c: Config, s: State, a: Action): State
    requires Enabled(c, s, a)
  {
    match a
    case Write(e) => s.(ch := s.ch + [e], written := s.written + [e])
    case Close => s.(closed := true)
    case CloseWait => s.(waitClosed := true)
    case Tick => Flushed(s)
    case Take =>
      var e := s.ch[0];
      var t := s.(ch := s.ch[1..], taken := s.taken + [e]);
      if s.db != e.db then
        t.(wire := s.wire + s.buffer + [Switch(e.db)], buffer := [], buffered := 0, db := e.db, wpc := SwitchPush(e))
      else t.(wpc := Gate(e))
    case SwitchQueued => s.(wait := s.wait + [Switch(s.wpc.e.db)], wpc := Gate(s.wpc.e))
    case PassGate => s.(wpc := Push(s.wpc.e))
    case PushNow => s.(wait := s.wait + [Data(s.wpc.e)], wpc := AddBytes(s.wpc.e))
    case PushFlush => Flushed(s).(wpc := PushBlocked(s.wpc.e))
    case PushLate => s.(wait := s.wait + [Data(s.wpc.e)], wpc := AddBytes(s.wpc.e))
    case CountBytes =>
      s.(unansweredBytes := s.unansweredBytes + Data(s.wpc.e).Size(), wpc := AddEntries(s.wpc.e))
    case CountEntry => s.(unansweredEntries := s.unansweredEntries + 1, wpc := Buffering(s.wpc.e))
    case Buffer =>
      var all, size := s.buffer + [Data(s.wpc.e)], Data(s.wpc.e).Size();
      var spill := Spill(s.buffered, |s.buffer|, size);
      s.(wire := s.wire + all[..spill], buffer := all[spill..], buffered := Kept(s.buffered, size), wpc := Idle)
    case Exit => Flushed(s).(wpc := Exited)
    case Serve(reply) =>
      s.(wire := s.wire[1..], executed := s.executed + [s.wire[0]], replies := s.replies + [(s.wire[0], reply)])
    case Pop => s.(wait := s.wait[1..], rpc := Receiving(s.wait[0]))
    case Receive =>
      var (cause, reply) := s.replies[0];
      s.(replies := s.replies[1..], rpc := AfterReply(c, s.rpc.item, reply),
         answers := s.answers + [Answer(s.rpc.item, cause, reply)])
    case UncountBytes =>
      s.(unansweredBytes := s.unansweredBytes - s.rpc.item.Size(), rpc := SubEntries(s.rpc.item))
    case UncountEntry => s.(unansweredEntries := s.unansweredEntries - 1, rpc := Waiting)
    case Finish => s.(rpc := Finished)
  }

  /** A run: actions taken one after the other from a state. */
  ghost predicate Runs(c: Config, s: State, acts: seq<Action>, t: State)
    decreases acts
  {
    if acts == [] then s == t
    else Enabled(c, s, acts[0]) && Runs(c, Next(c, s, acts[0]), acts[1..], t)
  }

  ghost predicate Reachable(c: Config, s: State) {
    c.Valid() && exists acts :: Runs(c, Init(), acts, s)
  }

  // ---- What the write loop is meant to put on the connection -------------------------------

  function LastDb(es: seq<Entry>): int64 {
    if es == [] then 0 else es[|es| - 1].db
  }

  /** A SELECT before every entry whose database differs from the one before it. */
  function Emitted(es: seq<Entry>): seq<Item> {
    if es == [] then []
    else
      var init, last := es[..|es| - 1], es[|es| - 1];
      Emitted(init) + SwitchTo(LastDb(init), last.db) + [Data(last)]
  }

  function SwitchTo(from: int64, to: int64): seq<Item> {
    if from != to then [Switch(to)] else []
  }

  lemma EmittedSnoc(es: seq<Entry>, e: Entry)
    ensures Emitted(es + [e]) == Emitted(es) + SwitchTo(LastDb(es), e.db) + [Data(e)]
  {
    assert (es + [e])[..|es|] == es;
  }

  function Argvs(items: seq<Item>): seq<Command> {
    seq(|items|, i requires 0 <= i < |items| => items[i].Argv())
  }

  lemma ArgvsAppend(a: seq<Item>, b: seq<Item>)
    ensures Argvs(a + b) == Argvs(a) + Argvs(b)
  {
  }

  lemma SwitchMeaning(from: int64, to: int64)
    ensures Meaning(from, Argvs(SwitchTo(from, to))) == []
    ensures DbAfterAll(from, Argvs(SwitchTo(from, to))) == to
  {
    if from != to {
      var argv := Switch(to).Argv();
      ParseItoa(to);
      assert Lower(argv[0]) == Lower(Ascii("select"));
      assert Argvs([Switch(to)]) == [argv];
      var stream: seq<Command> := [argv];
      assert stream[1..] == [];
    }
  }

  lemma EntryMeaning(e: Entry)
    requires !IsSelect(e.argv)
    ensures Meaning(e.db, Argvs([Data(e)])) == [Executed(e.db, e.argv)]
    ensures DbAfterAll(e.db, Argvs([Data(e)])) == e.db
  {
    var stream := Argvs([Data(e)]);
    assert stream == [e.argv] && stream[1..] == [];
  }

  /** On a connection that starts in database 0, the emitted stream executes every entry in its own database. */
  lemma {:induction false} EmittedMeaning(es: seq<Entry>)
    requires NoSelects(es)
    ensures Meaning(0, Argvs(Emitted(es))) == Intended(es)
    ensures DbAfterAll(0, Argvs(Emitted(es))) == LastDb(es)
  {
    if es != [] {
      var init, last := es[..|es| - 1], es[|es| - 1];
      assert init + [last] == es;
      EmittedMeaning(init);
      EmittedSnoc(init, last);
      var before, switch := Emitted(init), SwitchTo(LastDb(init), last.db);
      ArgvsAppend(before + switch, [Data(last)]);
      ArgvsAppend(before, switch);
      MeaningAppend(0, Argvs(before) + Argvs(switch), Argvs([Data(last)]));
      MeaningAppend(0, Argvs(before), Argvs(switch));
      SwitchMeaning(LastDb(init), last.db);
      EntryMeaning(last);
      assert Intended(es) == Intended(init) + [Executed(last.db, last.argv)];
    }
  }

  // ---- Accounting ---------------------------------------------------------------------------

  function TotalBytes(items: seq<Item>): nat {
    if items == [] then 0 else items[0].Size() + TotalBytes(items[1..])
  }

  function DataCount(items: seq<Item>): nat {
    if items == [] then 0 else (if items[0].Data? then 1 else 0) + DataCount(items[1..])
  }

  lemma {:induction false} TotalsAppend(a: seq<Item>, b: seq<Item>)
    ensures TotalBytes(a + b) == TotalBytes(a) + TotalBytes(b)
    ensures DataCount(a + b) == DataCount(a) + DataCount(b)
  {
    if a == [] {
      assert a + b == b;
    } else {
      assert (a + b)[1..] == a[1..] + b;
      TotalsAppend(a[1..], b);
    }
  }

  /** Entries have at least four bytes, so only the absence of entries weighs nothing. */
  lemma {:induction false} NoBytesNoEntries(items: seq<Item>)
    ensures TotalBytes(items) == 0 <==> DataCount(items) == 0
    ensures TotalBytes(items) >= 4 * DataCount(items)
  {
    if items != [] { NoBytesNoEntries(items[1..]); }
  }

  /** Entries that are themselves SELECT: the reply loop never gives their bytes back. */
  function LostBytes(answers: seq<Answer>): nat {
    if answers == [] then 0
    else LostBytes(answers[..|answers| - 1]) + Lost(answers[|answers| - 1]).Size()
  }

  function LostCount(answers: seq<Answer>): nat {
    if answers == [] then 0
    else LostCount(answers[..|answers| - 1]) + (if Lost(answers[|answers| - 1]).Data? then 1 else 0)
  }

  function Lost(a: Answer): Item {
    if a.waiting.Data? && a.waiting.SkipsCounters() then a.waiting else Switch(0)
  }
}
