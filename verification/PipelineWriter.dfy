/** redisStandaloneWriter of redis_standalone_writer.go: the fields that its goroutines share, and the code of
 the write and reply loops between two points where they can block. Each method is the step of Pipeline
 of the same kind, so what Pipeline proves of every interleaving holds of these methods. */
module PipelineWriter {
  import opened Bytes
  import opened Decimal
  import opened CommandStream
  import RespWriter
  import P = Pipeline

  class StandaloneWriter {
    const cfg: P.Config
    // channels and counters
    var ch: seq<Entry>
    var closed: bool
    var chWaitReply: seq<P.Item>
    var waitClosed: bool
    var unansweredBytes: int
    var unansweredEntries: int
    var dbId: int64
    // the client: its write buffer, and what is on the way to the server and back
    var buffer: seq<P.Item>
    var buffered: nat
    var wire: seq<P.Item>
    var replies: seq<(P.Item, P.Reply)>
    // where the two loops stand
    var writePc: P.WritePc
    var replyPc: P.ReplyPc
    ghost var written: seq<Entry>
    ghost var taken: seq<Entry>
    ghost var executed: seq<P.Item>
    ghost var answers: seq<P.Answer>

    constructor (cfg: P.Config)
      ensures this.cfg == cfg && View() == P.Init()
    {
      this.cfg := cfg;
      ch, closed, chWaitReply, waitClosed, unansweredBytes, unansweredEntries, dbId := [], false, [], false, 0, 0, 0;
      buffer, buffered, wire, replies, writePc, replyPc := [], 0, [], [], P.Idle, P.Waiting;
      written, taken, executed, answers := [], [], [], [];
    }

    ghost function View(): P.State
      reads this
    {
      P.State(ch, closed, dbId, writePc, chWaitReply, waitClosed, buffer, buffered, wire, replies, replyPc,
              unansweredBytes, unansweredEntries, written, taken, executed, answers)
    }

    method Write(e: Entry)
      requires P.Enabled(cfg, View(), P.Action.Write(e))
      modifies this
      ensures View() == P.Next(cfg, old(View()), P.Action.Write(e))
    {
      ch := ch + [e];
      written := written + [e];
    }

    method Flush()
      modifies this`wire, this`buffer, this`buffered
      ensures wire == old(wire) + old(buffer) && buffer == [] && buffered == 0
    {
      wire := wire + buffer;
      buffer, buffered := [], 0;
    }

    /** The ticker branch. */
    method Tick()
      requires P.Enabled(cfg, View(), P.Tick)
      modifies this
      ensures View() == P.Next(cfg, old(View()), P.Tick)
    {
      Flush();
    }

    /** switchDbTo up to its send to chWaitReply: the SELECT is flushed behind what was buffered. */
    method SwitchDbTo(newDbId: int64)
      modifies this`wire, this`buffer, this`buffered, this`dbId
      ensures wire == old(wire) + old(buffer) + [P.Switch(newDbId)] && buffer == [] && buffered == 0 && dbId == newDbId
    {
      buffer := buffer + [P.Switch(newDbId)];
      Flush();
      dbId := newDbId;
    }

    /** An entry is received; where the database differs, switchDbTo sends a SELECT, which flushes. */
    method Take()
      requires P.Enabled(cfg, View(), P.Take)
      modifies this
      ensures View() == P.Next(cfg, old(View()), P.Take)
    {
      hide P.Next;
      if dbId != ch[0].db { TakeAndSwitch(); } else { TakeSame(); }
    }

    method TakeAndSwitch()
      requires P.Enabled(cfg, View(), P.Take) && ch != [] && dbId != ch[0].db
      modifies this
      ensures View() == P.Next(cfg, old(View()), P.Take)
    {
      hide P.Next, P.Enabled;
      TakenSwitch(cfg, View());
      var e := ch[0];
      ch, taken := ch[1..], taken + [e];
      SwitchDbTo(e.db);
      writePc := P.SwitchPush(e);
    }

    method TakeSame()
      requires P.Enabled(cfg, View(), P.Take) && dbId == ch[0].db
      modifies this
      ensures View() == P.Next(cfg, old(View()), P.Take)
    {
      var e := ch[0];
      ch, taken := ch[1..], taken + [e];
      writePc := P.Gate(e);
    }

    /** The end of switchDbTo. */
    method QueueSwitch()
      requires P.Enabled(cfg, View(), P.SwitchQueued)
      modifies this
      ensures View() == P.Next(cfg, old(View()), P.SwitchQueued)
    {
      chWaitReply := chWaitReply + [P.Switch(writePc.e.db)];
      writePc := P.Gate(writePc.e);
    }

    /** One test of the loop that waits for room in the target's query buffer. */
    method TryGate() returns (open: bool)
      requires writePc.Gate? && replyPc != P.Panicked
      modifies this
      ensures open <==> P.Enabled(cfg, old(View()), P.PassGate)
      ensures View() == if open then P.Next(cfg, old(View()), P.PassGate) else old(View())
    {
      var e := writePc.e;
      var size := |RespWriter.EncodeArgs(e.argv)|;
      var unanswered := unansweredBytes;
      if unanswered > 0 && size + unanswered > cfg.maxQuery { return false; }
      writePc := P.Push(e);
      return true;
    }

    /** The select on chWaitReply: a send if there is room, else a flush before blocking. */
    method QueueOrFlush() returns (queued: bool)
      requires writePc.Push? && replyPc != P.Panicked
      modifies this
      ensures queued <==> |old(chWaitReply)| < cfg.waitCap
      ensures View() == P.Next(cfg, old(View()), if queued then P.PushNow else P.PushFlush)
    {
      hide P.Next;
      queued := |chWaitReply| < cfg.waitCap;
      if queued { QueueNow(); } else { FlushFull(); }
    }

    method QueueNow()
      requires P.Enabled(cfg, View(), P.PushNow)
      modifies this
      ensures View() == P.Next(cfg, old(View()), P.PushNow)
    {
      var e := writePc.e;
      chWaitReply := chWaitReply + [P.Data(e)];
      writePc := P.AddBytes(e);
    }

    method FlushFull()
      requires P.Enabled(cfg, View(), P.PushFlush)
      modifies this
      ensures View() == P.Next(cfg, old(View()), P.PushFlush)
    {
      Flush();
      writePc := P.PushBlocked(writePc.e);
    }

    /** The blocking send, once it goes through. */
    method QueueLate()
      requires P.Enabled(cfg, View(), P.PushLate)
      modifies this
      ensures View() == P.Next(cfg, old(View()), P.PushLate)
    {
      chWaitReply := chWaitReply + [P.Data(writePc.e)];
      writePc := P.AddBytes(writePc.e);
    }

    /** The two atomic additions, each on its own. */
    method AddBytes()
      requires P.Enabled(cfg, View(), P.CountBytes)
      modifies this
      ensures View() == P.Next(cfg, old(View()), P.CountBytes)
    {
      unansweredBytes := unansweredBytes + |RespWriter.EncodeArgs(writePc.e.argv)|;
      writePc := P.AddEntries(writePc.e);
    }

    method AddEntry()
      requires P.Enabled(cfg, View(), P.CountEntry)
      modifies this
      ensures View() == P.Next(cfg, old(View()), P.CountEntry)
    {
      unansweredEntries := unansweredEntries + 1;
      writePc := P.Buffering(writePc.e);
    }

    /** The buffered writer's Write: while the rest does not fit, an empty buffer is bypassed and a partly
        filled one is filled up and flushed, with the commands that were in it. */
    method BufferedWrite(item: P.Item)
      requires buffered <= P.WRITE_BUFFER && item.Size() > 0
      modifies this`wire, this`buffer, this`buffered
      ensures var all := old(buffer) + [item];
              var spill := P.Spill(old(buffered), |old(buffer)|, item.Size());
              wire == old(wire) + all[..spill] && buffer == all[spill..]
      ensures buffered == P.Kept(old(buffered), item.Size())
    {
      var size := item.Size();
      var rest := size;
      ghost var flushed := false;
      while rest > P.WRITE_BUFFER - buffered
        invariant 0 <= rest <= size && buffered <= P.WRITE_BUFFER
        invariant !flushed ==> rest == size && buffered == old(buffered) && buffer == old(buffer) && wire == old(wire)
        invariant flushed && rest > 0 ==>
          buffered == 0 < old(buffered) && rest == old(buffered) + size - P.WRITE_BUFFER
          && buffer == [] && wire == old(wire) + old(buffer)
        invariant rest == 0 ==>
          flushed && buffered == 0 == P.Kept(old(buffered), size) && old(buffered) + size > P.WRITE_BUFFER
          && buffer == [] && wire == old(wire) + (old(buffer) + [item])
        decreases rest, buffered
      {
        if buffered == 0 {
          wire, buffer, rest := wire + (buffer + [item]), [], 0;
        } else {
          rest := rest - (P.WRITE_BUFFER - buffered);
          Flush();
        }
        flushed := true;
      }
      buffered := buffered + rest;
      if rest > 0 { buffer := buffer + [item]; }
    }

    method SendBytesBuff()
      requires P.Enabled(cfg, View(), P.Buffer) && buffered <= P.WRITE_BUFFER
      modifies this
      ensures View() == P.Next(cfg, old(View()), P.Buffer)
    {
      BufferedWrite(P.Data(writePc.e));
      writePc := P.Idle;
    }

    /** The write loop's exit on a closed and drained channel. */
    method Exit()
      requires P.Enabled(cfg, View(), P.Exit)
      modifies this
      ensures View() == P.Next(cfg, old(View()), P.Exit)
    {
      Flush();
      writePc := P.Exited;
    }

    /** The reply loop's receive from chWaitReply. */
    method Pop()
      requires P.Enabled(cfg, View(), P.Pop)
      modifies this
      ensures View() == P.Next(cfg, old(View()), P.Pop)
    {
      replyPc := P.Receiving(chWaitReply[0]);
      chWaitReply := chWaitReply[1..];
    }

    /** client.Receive and the treatment of its errors; SELECT skips the counters. */
    method Receive()
      requires P.Enabled(cfg, View(), P.Receive)
      modifies this
      ensures View() == P.Next(cfg, old(View()), P.Receive)
    {
      var item, reply := replyPc.item, replies[0].1;
      answers := answers + [P.Answer(item, replies[0].0, reply)];
      replies := replies[1..];
      if reply == P.ErrorReply || (reply == P.BusyKey && cfg.behavior == P.Panic) {
        replyPc := P.Panicked;
      } else if item.SkipsCounters() {
        replyPc := P.Waiting;
      } else {
        replyPc := P.SubBytes(item);
      }
    }

    method SubBytes()
      requires P.Enabled(cfg, View(), P.UncountBytes)
      modifies this
      ensures View() == P.Next(cfg, old(View()), P.UncountBytes)
    {
      unansweredBytes := unansweredBytes - replyPc.item.Size();
      replyPc := P.SubEntries(replyPc.item);
    }

    method SubEntry()
      requires P.Enabled(cfg, View(), P.UncountEntry)
      modifies this
      ensures View() == P.Next(cfg, old(View()), P.UncountEntry)
    {
      unansweredEntries := unansweredEntries - 1;
      replyPc := P.Waiting;
    }
  }

  lemma TakenSwitch(c: P.Config, s: P.State)
    requires P.Enabled(c, s, P.Take) && s.db != s.ch[0].db
    ensures var e := s.ch[0];
            P.Next(c, s, P.Take) ==
            P.State(s.ch[1..], s.closed, e.db, P.SwitchPush(e), s.wait, s.waitClosed, [], 0,
                    s.wire + s.buffer + [P.Switch(e.db)], s.replies, s.rpc, s.unansweredBytes, s.unansweredEntries,
                    s.written, s.taken + [e], s.executed, s.answers)
  {
  }
}
