/** Commands, the connection state of a Redis server, and what a command stream means. */
module CommandStream {
  import opened Bytes
  import opened Decimal

  type Command = Argv

  /** entry.Entry: the database a command belongs to, and its arguments. */
  datatype Entry = Entry(db: int64, argv: Command)

  predicate Named(argv: Command, name: string) {
    |argv| > 0 && EqualFold(argv[0], Ascii(name))
  }

  predicate IsSelect(argv: Command) { Named(argv, "select") }

  predicate NoSelects(es: seq<Entry>) {
    forall i :: 0 <= i < |es| ==> !IsSelect(es[i].argv)
  }

  /** The database a connection is in after a command; SELECT alone moves it. */
  function DbAfter(db: int, argv: Command): int {
    if IsSelect(argv) && |argv| >= 2 && ParseInt(argv[1]).Some? then ParseInt(argv[1]).value else db
  }

  function DbAfterAll(db: int, cmds: seq<Command>): int
    decreases cmds
  {
    if cmds == [] then db else DbAfterAll(DbAfter(db, cmds[0]), cmds[1..])
  }

  datatype Executed = Executed(db: int, argv: Command)

  /** Meaning of a stream on a connection: every command but SELECT, with the database it runs in. */
  function Meaning(db: int, cmds: seq<Command>): seq<Executed>
    decreases cmds
  {
    if cmds == [] then []
    else (if IsSelect(cmds[0]) then [] else [Executed(db, cmds[0])]) + Meaning(DbAfter(db, cmds[0]), cmds[1..])
  }

  lemma {:induction false} MeaningAppend(db: int, a: seq<Command>, b: seq<Command>)
    ensures Meaning(db, a + b) == Meaning(db, a) + Meaning(DbAfterAll(db, a), b)
    ensures DbAfterAll(db, a + b) == DbAfterAll(DbAfterAll(db, a), b)
    decreases a
  {
    if a == [] {
      assert a + b == b;
    } else {
      assert (a + b)[1..] == a[1..] + b;
      MeaningAppend(DbAfter(db, a[0]), a[1..], b);
    }
  }

  /** What entries ask for: each command in its own database. */
  function Intended(es: seq<Entry>): seq<Executed> {
    seq(|es|, i requires 0 <= i < |es| => Executed(es[i].db, es[i].argv))
  }
}
