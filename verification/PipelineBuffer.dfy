/** What the client's buffered writer holds: bytes of the commands that have not gone out completely. */
module PipelineBuffer {
  import opened Bytes
  import opened CommandStream
  import opened Pipeline
  import RespWriter

  /**
   The buffer never holds more than its size; it is empty when every command has gone out; and all commands in
   it are there to the last byte but the oldest, of which it may have let go a buffer's worth less one byte.
   The first command ever sent is there as a whole or not at all.
   */
  ghost predicate BufferOk(s: State) {
    && s.buffered <= WRITE_BUFFER && (s.buffered == 0 <==> s.buffer == [])
    && s.buffered <= TotalBytes(s.buffer) && TotalBytes(s.buffer) <= s.buffered + WRITE_BUFFER - 1
    && (s.executed == s.wire == [] ==> TotalBytes(s.buffer) == s.buffered)
  }

  /** An entry has at least one byte on the wire. */
  lemma SizePositive(e: Entry)
    ensures Data(e).Size() > 0
  {
  }

  lemma BufferWritten(c: Config, s: State)
    requires BufferOk(s) && Enabled(c, s, Buffer)
    ensures BufferOk(Next(c, s, Buffer))
  {
    var item := Data(s.wpc.e);
    var one := [item];
    SizePositive(s.wpc.e);
    TotalsAppend(s.buffer, one);
    assert one[1..] == [] && TotalBytes(one) == item.Size();
    var spill := Spill(s.buffered, |s.buffer|, item.Size());
    var all := s.buffer + one;
    assert spill == 0 ==> all[spill..] == all;
    assert spill == |s.buffer| ==> all[spill..] == one;
    assert spill == |s.buffer| + 1 ==> all[spill..] == [];
  }

  predicate Flushes(s: State, a: Action)
  {
    a.Tick? || a.Exit? || a.PushFlush? || (a.Take? && |s.ch| > 0 && s.db != s.ch[0].db)
  }

  lemma BufferStep(c: Config, s: State, a: Action)
    requires BufferOk(s) && Enabled(c, s, a)
    ensures BufferOk(Next(c, s, a))
  {
    hide TotalBytes;
    if a.Buffer? {
      BufferWritten(c, s);
    } else if Flushes(s, a) {
      NothingBuffered();
    } else {
      BufferFrame(c, s, a);
    }
  }

  lemma NothingBuffered()
    ensures TotalBytes([]) == 0
  {
  }

  lemma BufferFrame(c: Config, s: State, a: Action)
    requires Enabled(c, s, a) && !a.Buffer? && !Flushes(s, a)
    ensures var t := Next(c, s, a);
            t.buffer == s.buffer && t.buffered == s.buffered && (t.executed == t.wire == [] ==> s.executed == s.wire == [])
  {
  }

  lemma {:induction false} BufferRun(c: Config, s: State, acts: seq<Action>, t: State)
    requires BufferOk(s) && Runs(c, s, acts, t)
    ensures BufferOk(t)
    decreases acts
  {
    hide BufferOk, Next, Enabled;
    if acts != [] {
      BufferStep(c, s, acts[0]);
      BufferRun(c, Next(c, s, acts[0]), acts[1..], t);
    }
  }

  lemma ReachableBuffer(c: Config, s: State)
    requires Reachable(c, s)
    ensures BufferOk(s)
  {
    var acts :| Runs(c, Init(), acts, s);
    BufferRun(c, Init(), acts, s);
  }
}
