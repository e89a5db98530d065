/** The replication stream filter of the sync reader: sync_standalone_reader.go, sendAOF. */
module SendAof {
  import opened Bytes
  import opened Decimal
  import opened CommandStream

  /** One turn of the loop: the command is swallowed, becomes an entry, or the process panics. */
  datatype Turn = Skip(db: int64) | Send(argv: Command) | Crash

  function Unwrap(argv: Command): Command {
    if Named(argv, "ars") && |argv| >= 2 then argv[2..] else argv
  }

  predicate Housekeeping(argv: Command) {
    Named(argv, "ping") || Named(argv, "replconf") || Named(argv, "opinfo")
  }

  predicate SentinelHello(argv: Command) {
    Named(argv, "publish") && |argv| >= 2 && EqualFold(argv[1], Ascii("__sentinel__:hello"))
  }

  function LoopTurn(db: int64, argv: Command): Turn {
    if argv == [] then Crash
    else if IsSelect(argv) then
      if |argv| >= 2 && ParseInt(argv[1]).Some? then Skip(ParseInt(argv[1]).value) else Crash
    else if Housekeeping(argv) then Skip(db)
    else if Named(argv, "ars") && |argv| < 3 then Crash
    else
      var cmd := Unwrap(argv);
      if Named(cmd, "multi") || Named(cmd, "exec") then Skip(db)
      else if Named(cmd, "publish") && |cmd| < 2 then Crash
      else if SentinelHello(cmd) then Skip(db)
      else Send(cmd)
  }

  /** The whole loop; None when it panics. */
  function Filter(db: int64, cmds: seq<Command>): Option<seq<Entry>>
    decreases cmds
  {
    if cmds == [] then Some([])
    else match LoopTurn(db, cmds[0])
      case Crash => None
      case Skip(db') => Filter(db', cmds[1..])
      case Send(argv) =>
        match Filter(db, cmds[1..])
        case None => None
        case Some(es) => Some([Entry(db, argv)] + es)
  }

  // ---- What the filter is for, word by word --------------------------------------------------

  /** The command has this name, in upper or lower case. */
  predicate Word(argv: Command, name: string) { |argv| > 0 && SameLetters(argv[0], Ascii(name)) }

  /** The command behind an ARS wrapper of two words. */
  function Inner(argv: Command): Command {
    if Word(argv, "ars") && |argv| >= 2 then argv[2..] else argv
  }

  /** The commands sendAOF is documented to leave out, seen from the source's side. */
  predicate Dropped(argv: Command) {
    || Word(argv, "ping") || Word(argv, "replconf") || Word(argv, "opinfo")
    || Word(Inner(argv), "multi") || Word(Inner(argv), "exec")
    || (Word(Inner(argv), "publish") && |Inner(argv)| >= 2
        && SameLetters(Inner(argv)[1], Ascii("__sentinel__:hello")))
  }

  /** The commands that make the process panic: an empty one, a SELECT without a number, an ARS wrapper around
      nothing, and a PUBLISH without a channel. */
  predicate Panics(argv: Command) {
    || argv == []
    || (Word(argv, "select") && (|argv| < 2 || ParseInt(argv[1]).None?))
    || (Word(argv, "ars") && |argv| < 3)
    || (Word(Inner(argv), "publish") && |Inner(argv)| < 2)
  }

  /** What should reach the target: the executed commands minus the dropped ones, without ARS wrappers. */
  function Forwarded(executed: seq<Executed>): seq<Executed> {
    if executed == [] then []
    else
      var head := executed[0];
      var kept := if Dropped(head.argv) then [] else [Executed(head.db, Inner(head.argv))];
      kept + Forwarded(executed[1..])
  }

  lemma WordNamed(argv: Command, name: string)
    ensures Word(argv, name) <==> Named(argv, name)
  {
    if |argv| > 0 { FoldLetters(argv[0], Ascii(name)); }
  }

  lemma InnerIs(argv: Command)
    ensures Inner(argv) == Unwrap(argv)
  {
    WordNamed(argv, "ars");
  }

  /** The specification in the words of the loop. */
  lemma DroppedIs(argv: Command)
    ensures Dropped(argv) <==>
              Housekeeping(argv) || Named(Unwrap(argv), "multi") || Named(Unwrap(argv), "exec") || SentinelHello(Unwrap(argv))
  {
    hide EqualFold, SameLetters, Ascii;
    InnerIs(argv);
    WordNamed(argv, "ping");
    WordNamed(argv, "replconf");
    WordNamed(argv, "opinfo");
    WordNamed(Inner(argv), "multi");
    WordNamed(Inner(argv), "exec");
    WordNamed(Inner(argv), "publish");
    if |Inner(argv)| >= 2 { FoldLetters(Inner(argv)[1], Ascii("__sentinel__:hello")); }
  }

  lemma PanicsIs(argv: Command)
    ensures Panics(argv) <==>
              argv == [] || (IsSelect(argv) && (|argv| < 2 || ParseInt(argv[1]).None?))
              || (Named(argv, "ars") && |argv| < 3) || (Named(Unwrap(argv), "publish") && |Unwrap(argv)| < 2)
  {
    hide EqualFold, SameLetters, Ascii;
    InnerIs(argv);
    WordNamed(argv, "select");
    WordNamed(argv, "ars");
    WordNamed(Inner(argv), "publish");
  }

  /**
   One turn, for every command: it panics exactly on the four malformed kinds; SELECT, and no other command,
   moves the database; the named commands are swallowed and every other one is forwarded whole, without its
   ARS wrapper.
   */
  lemma TurnLaw(db: int64, argv: Command)
    ensures LoopTurn(db, argv).Crash? <==> Panics(argv)
    ensures !Panics(argv) && Word(argv, "select") ==> LoopTurn(db, argv) == Skip(ParseInt(argv[1]).value)
    ensures !Panics(argv) && !Word(argv, "select") ==>
              LoopTurn(db, argv) == if Dropped(argv) then Skip(db) else Send(Inner(argv))
  {
    hide EqualFold, SameLetters, Ascii, Housekeeping, SentinelHello;
    InnerIs(argv);
    DroppedIs(argv);
    PanicsIs(argv);
    WordNamed(argv, "select");
    NameClashes(argv);
    NameClashes(Unwrap(argv));
  }

  predicate WrapsSelect(argv: Command) {
    Named(argv, "ars") && |argv| >= 3 && IsSelect(argv[2..])
  }

  predicate NoWrappedSelect(cmds: seq<Command>) {
    forall i :: 0 <= i < |cmds| ==> !WrapsSelect(cmds[i])
  }

  lemma NameClashes(argv: Command)
    ensures Named(argv, "ars") ==> !IsSelect(argv) && !Housekeeping(argv)
    ensures IsSelect(argv) ==> !Housekeeping(argv) && !Named(argv, "multi") && !Named(argv, "exec") && !Named(argv, "publish")
    ensures Named(argv, "publish") ==>
              !Housekeeping(argv) && !Named(argv, "multi") && !Named(argv, "exec") && !Named(argv, "ars")
  {
    if |argv| > 0 {
      assert |Lower(argv[0])| == |argv[0]|;
      assert |Lower(Ascii("ars"))| == 3 && |Lower(Ascii("select"))| == 6 && |Lower(Ascii("ping"))| == 4;
      assert |Lower(Ascii("replconf"))| == 8 && |Lower(Ascii("multi"))| == 5 && |Lower(Ascii("exec"))| == 4;
      assert |Lower(Ascii("publish"))| == 7;
      assert Lower(Ascii("opinfo"))[0] == 111 && Lower(Ascii("select"))[0] == 115;
    }
  }

  lemma TurnDb(db: int64, argv: Command)
    ensures LoopTurn(db, argv).Skip? ==> DbAfter(db, argv) == LoopTurn(db, argv).db
    ensures LoopTurn(db, argv).Send? ==> DbAfter(db, argv) == db
  {
  }

  /** One turn against the source's view of the same command. */
  lemma TurnMeaning(db: int64, argv: Command)
    requires !LoopTurn(db, argv).Crash?
    ensures IsSelect(argv) ==> LoopTurn(db, argv).Skip?
    ensures !IsSelect(argv) ==> (LoopTurn(db, argv).Skip? <==> Dropped(argv))
    ensures LoopTurn(db, argv).Send? ==> LoopTurn(db, argv).argv == Inner(argv)
    ensures LoopTurn(db, argv).Send? && !WrapsSelect(argv) ==> !IsSelect(Inner(argv))
  {
    hide Housekeeping, SentinelHello, EqualFold, SameLetters, Ascii;
    InnerIs(argv);
    DroppedIs(argv);
    NameClashes(argv);
    NameClashes(Unwrap(argv));
  }

  lemma IntendedNil()
    ensures Intended([]) == []
  {
  }

  lemma IntendedCons(e: Entry, es: seq<Entry>)
    ensures Intended([e] + es) == [Executed(e.db, e.argv)] + Intended(es)
  {
  }

  lemma ForwardedCons(x: Executed, xs: seq<Executed>)
    ensures Forwarded([x] + xs) == (if Dropped(x.argv) then [] else [Executed(x.db, Inner(x.argv))]) + Forwarded(xs)
  {
    assert ([x] + xs)[1..] == xs;
  }

  /** The filter forwards exactly what the source executed minus the dropped commands, in the source's databases. */
  lemma {:induction false} FilterMeaning(db: int64, cmds: seq<Command>)
    requires Filter(db, cmds).Some?
    ensures Intended(Filter(db, cmds).value) == Forwarded(Meaning(db, cmds))
    ensures NoWrappedSelect(cmds) ==> NoSelects(Filter(db, cmds).value)
    decreases cmds
  {
    hide LoopTurn, Dropped, Inner, DbAfter, IsSelect, WrapsSelect, Intended;
    if cmds == [] {
      IntendedNil();
      return;
    }
    var argv, rest := cmds[0], cmds[1..];
    TurnMeaning(db, argv);
    TurnDb(db, argv);
    assert NoWrappedSelect(cmds) ==> NoWrappedSelect(rest) && !WrapsSelect(argv);
    var later := Meaning(DbAfter(db, argv), rest);
    if !IsSelect(argv) { ForwardedCons(Executed(db, argv), later); }
    match LoopTurn(db, argv)
    case Skip(db') =>
      FilterMeaning(db', rest);
      assert [] + later == later && [] + Forwarded(later) == Forwarded(later);
    case Send(cmd) =>
      FilterMeaning(db, rest);
      IntendedCons(Entry(db, cmd), Filter(db, rest).value);
  }

  /** The loop panics exactly when a command does. */
  lemma {:induction false} FilterPanics(db: int64, cmds: seq<Command>)
    ensures Filter(db, cmds).None? <==> exists k :: 0 <= k < |cmds| && Panics(cmds[k])
    decreases cmds
  {
    hide LoopTurn, Panics;
    if cmds != [] {
      TurnLaw(db, cmds[0]);
      match LoopTurn(db, cmds[0])
      case Crash =>
      case Skip(next) => FilterPanics(next, cmds[1..]);
      case Send(_) => FilterPanics(db, cmds[1..]);
      assert forall k :: 0 <= k < |cmds[1..]| ==> cmds[1..][k] == cmds[k + 1];
      if k :| 0 < k < |cmds| && Panics(cmds[k]) { assert Panics(cmds[1..][k - 1]); }
    }
  }

  class Reader {
    var dbId: int64
    var ch: seq<Entry>

    constructor (replStreamDb: int64)
      ensures dbId == replStreamDb && ch == []
    {
      dbId, ch := replStreamDb, [];
    }

    /** One command of the stream. False is a panic. */
    method Handle(command: Command) returns (ok: bool)
      modifies this
      ensures ok <==> !LoopTurn(old(dbId), command).Crash?
      ensures LoopTurn(old(dbId), command).Skip? ==>
          ch == old(ch) && dbId == LoopTurn(old(dbId), command).db
      ensures LoopTurn(old(dbId), command).Send? ==>
          dbId == old(dbId) && ch == old(ch) + [Entry(dbId, LoopTurn(old(dbId), command).argv)]
    {
      var argv := command;
      if argv == [] { return false; }
      if Named(argv, "select") {
        if |argv| < 2 { return false; }
        var parsed := ParseInt(argv[1]);
        if parsed.None? { return false; }
        dbId := parsed.value;
        return true;
      }
      if Named(argv, "ping") || Named(argv, "replconf") || Named(argv, "opinfo") { return true; }
      if Named(argv, "ars") {
        if |argv| < 3 { return false; }
        argv := argv[2..];
      }
      if Named(argv, "multi") || Named(argv, "exec") { return true; }
      if Named(argv, "publish") {
        if |argv| < 2 { return false; }
        if EqualFold(argv[1], Ascii("__sentinel__:hello")) { return true; }
      }
      ch := ch + [Entry(dbId, argv)];
      return true;
    }

    /** The loop of sendAOF over the commands parsed from the log. False is a panic. */
    method SendAof(cmds: seq<Command>) returns (ok: bool)
      modifies this
      ensures ok <==> Filter(old(dbId), cmds).Some?
      ensures ok ==> ch == old(ch) + Filter(old(dbId), cmds).value
      ensures ok ==> dbId == DbAfterAll(old(dbId), cmds)
    {
      hide LoopTurn, DbAfter;
      for i := 0 to |cmds|
        invariant Filter(old(dbId), cmds).Some? <==> Filter(dbId, cmds[i..]).Some?
        invariant Filter(dbId, cmds[i..]).Some? ==>
            old(ch) + Filter(old(dbId), cmds).value == ch + Filter(dbId, cmds[i..]).value
        invariant DbAfterAll(old(dbId), cmds) == DbAfterAll(dbId, cmds[i..])
      {
        assert cmds[i..][0] == cmds[i] && cmds[i..][1..] == cmds[i + 1..];
        TurnDb(dbId, cmds[i]);
        ok := Handle(cmds[i]);
        if !ok { return; }
      }
      assert cmds[|cmds|..] == [];
      ok := true;
    }
  }
}
