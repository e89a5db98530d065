/** LoadSingleAppendOnlyFile of aof/aof.go: replaying an append-only file up to a timestamp. */
module AofLoader {
  import opened Bytes
  import opened Decimal
  import RespWriter
  import RespFormat

  const HASH: byte := 35
  const STAR: byte := 42
  const DOLLAR: byte := 36

  datatype Code = OK | Failed | Truncated | Panic

  /** ReadCompleteLine: up to a newline, whose carriage return is dropped too, or up to the end of the
      file; None only when nothing is left. */
  function CompleteLine(s: bytes): (r: Option<(bytes, bytes)>)
    ensures r.Some? ==> |r.value.1| < |s|
  {
    var k := Find(LF, s);
    if s == [] then None
    else if k == |s| then Some((s, []))
    else Some((if k > 0 && s[k - 1] == CR then s[..k - 1] else s[..k], s[k + 1..]))
  }

  /** strconv.ParseInt with its error ignored: 0 for bad syntax, the nearest bound for a bad range. */
  function LossyInt(s: bytes): int64 {
    match SignedValue(s)
    case None => 0
    case Some(v) => if v < MIN_INT64 then MIN_INT64 else if v > MAX_INT64 then MAX_INT64 else v
  }

  datatype Arg = Arg(text: bytes, rest: bytes) | BadArg | ArgPanic

  /** One argument: its length line, its bytes, and two more. */
  function NextArg(s: bytes): (r: Arg)
    ensures r.Arg? ==> |r.rest| < |s|
  {
    match CompleteLine(s)
    case None => BadArg
    case Some((line, rest)) =>
      if line == [] || line[0] != DOLLAR then BadArg
      else
        var n := LossyInt(line[1..]);
        if n < -2 || n + 2 > MAX_INT64 then ArgPanic
        else if |rest| < n + 2 then BadArg
        else if n < 0 then ArgPanic
        else Arg(rest[..n], rest[n + 2..])
  }

  datatype Args = Args(argv: Argv, rest: bytes) | BadArgs | ArgsPanic

  function NextArgs(s: bytes, n: nat): (r: Args)
    ensures r.Args? ==> |r.rest| <= |s|
    decreases n
  {
    if n == 0 then Args([], s)
    else match NextArg(s)
      case BadArg => BadArgs
      case ArgPanic => ArgsPanic
      case Arg(text, rest) =>
        match NextArgs(rest, n - 1)
        case Args(more, rest) => Args([text] + more, rest)
        case other => other
  }

  const TS: bytes := Ascii("#TS:")

  /** Whether a line that starts with # ends the replay; None is a panic. */
  function Stops(line: bytes, timestamp: int64): Option<bool> {
    if timestamp != 0 && TS <= line then
      var ts :- ParseInt(line[|TS|..]);
      Some(ts > timestamp)
    else Some(false)
  }

  /** The commands sent, and the result. */
  function Load(s: bytes, timestamp: int64): (seq<Argv>, Code)
    decreases |s|
  {
    match CompleteLine(s)
    case None => ([], OK)
    case Some((line, rest)) =>
      if line == [] then ([], Panic)
      else if line[0] == HASH then
        match Stops(line, timestamp)
        case None => ([], Panic)
        case Some(stop) => if stop then ([], Truncated) else Load(rest, timestamp)
      else if line[0] != STAR then ([], Panic)
      else
        var argc := LossyInt(line[1..]);
        if argc < 1 then ([], Panic)
        else match NextArgs(rest, argc)
          case BadArgs => ([], Failed)
          case ArgsPanic => ([], Panic)
          case Args(argv, rest) => var (more, code) := Load(rest, timestamp); ([argv] + more, code)
  }

  // ---- The loader in its own form ------------------------------------------------------------

  class Loader {
    const rd: Reader
    var ch: seq<Argv>

    constructor (rd: Reader)
      ensures this.rd == rd && ch == []
    {
      this.rd, ch := rd, [];
    }

    method ReadCompleteLine() returns (r: Option<bytes>)
      modifies rd
      ensures Did(CompleteLine(old(rd.rest)), r, rd.rest)
    {
      var s := rd.rest;
      if s == [] { return None; }
      var k := Find(LF, s);
      if k == |s| {
        rd.rest := [];
        return Some(s);
      }
      rd.rest := s[k + 1..];
      if k > 0 && s[k - 1] == CR { return Some(s[..k - 1]); }
      return Some(s[..k]);
    }

    /** One turn of the inner loop. */
    method ReadArg() returns (r: Arg)
      modifies rd
      ensures match NextArg(old(rd.rest))
              case Arg(text, rest) => r == Arg(text, rest) && rd.rest == rest
              case other => r == other
    {
      hide CompleteLine, LossyInt;
      var line := ReadCompleteLine();
      if line.None? || line.value == [] || line.value[0] != DOLLAR { return BadArg; }
      var v64: int := LossyInt(line.value[1..]);
      if v64 + 2 < 0 || v64 + 2 > MAX_INT64 { return ArgPanic; }
      if |rd.rest| < v64 + 2 { return BadArg; }
      if v64 < 0 { return ArgPanic; }
      var text := rd.rest[..v64];
      rd.rest := rd.rest[v64 + 2..];
      return Arg(text, rd.rest);
    }

    /** The inner loop, which builds argv. */
    method ReadArgs(argc: nat) returns (r: Args)
      modifies rd
      ensures match NextArgs(old(rd.rest), argc)
              case Args(argv, rest) => r == Args(argv, rest) && rd.rest == rest
              case other => r == other
    {
      hide NextArg;
      var argv: Argv := [];
      Behinds([], NextArgs(rd.rest, argc));
      for j := 0 to argc
        invariant Behind(argv, NextArgs(rd.rest, argc - j)) == NextArgs(old(rd.rest), argc)
      {
        ghost var s := rd.rest;
        var arg := ReadArg();
        ArgsStep(argv, s, argc - j);
        match arg
        case BadArg => return BadArgs;
        case ArgPanic => return ArgsPanic;
        case Arg(text, rest) => argv := argv + [text];
      }
      Behinds(argv, Args([], rd.rest));
      return Args(argv, rd.rest);
    }

    /** The outer loop. */
    method LoadSingleAppendOnlyFile(timestamp: int64) returns (ret: Code)
      modifies this, rd
      ensures ch == old(ch) + Load(old(rd.rest), timestamp).0 && ret == Load(old(rd.rest), timestamp).1
    {
      hide CompleteLine, LossyInt, NextArgs, Stops;
      while true
        invariant ch + Load(rd.rest, timestamp).0 == old(ch) + Load(old(rd.rest), timestamp).0
        invariant Load(rd.rest, timestamp).1 == Load(old(rd.rest), timestamp).1
        decreases |rd.rest|
      {
        ghost var was, s := ch, rd.rest;
        assert ch + [] == ch;
        var got := ReadCompleteLine();
        if got.None? { return OK; }
        var line := got.value;
        if line == [] { return Panic; }
        if line[0] == HASH {
          var stop := Stops(line, timestamp);
          if stop.None? { return Panic; }
          if stop.value { return Truncated; }
        } else {
          if line[0] != STAR { return Panic; }
          var argc := LossyInt(line[1..]);
          if argc < 1 { return Panic; }
          var args := ReadArgs(argc);
          match args
          case BadArgs => return Failed;
          case ArgsPanic => return Panic;
          case Args(argv, rest) =>
            ch := ch + [argv];
            assert was + ([argv] + Load(rest, timestamp).0) == ch + Load(rest, timestamp).0;
        }
      }
    }
  }

  function Behind(argv: Argv, d: Args): Args {
    if d.Args? then Args(argv + d.argv, d.rest) else d
  }

  lemma Behinds(argv: Argv, d: Args)
    ensures Behind([], d) == d
    ensures d.Args? && d.argv == [] ==> Behind(argv, d) == Args(argv, d.rest)
  {
    if d.Args? { assert [] + d.argv == d.argv && argv + [] == argv; }
  }

  lemma ArgsStep(argv: Argv, s: bytes, n: nat)
    requires n > 0
    ensures match NextArg(s)
            case BadArg => NextArgs(s, n) == BadArgs
            case ArgPanic => NextArgs(s, n) == ArgsPanic
            case Arg(text, rest) => Behind(argv, NextArgs(s, n)) == Behind(argv + [text], NextArgs(rest, n - 1))
  {
    hide NextArg;
    var arg := NextArg(s);
    if arg.Arg? {
      var d := NextArgs(arg.rest, n - 1);
      if d.Args? { assert argv + [arg.text] + d.argv == argv + ([arg.text] + d.argv); }
    }
  }

  // ---- The format ----------------------------------------------------------------------------

  /** A line of the file: a command, a timestamp annotation, or another comment. */
  datatype Item = Cmd(argv: Argv) | Stamp(ts: int) | Note(text: bytes)

  predicate ValidItem(i: Item) {
    match i
    case Cmd(argv) => argv != [] && |argv| <= MAX_INT64 && forall k :: 0 <= k < |argv| ==> |argv[k]| + 2 <= MAX_INT64
    case Stamp(ts) => MIN_INT64 <= ts <= MAX_INT64
    case Note(text) => text != [] && text[0] == 35 && 10 !in text && text[|text| - 1] != 13 && !(Ascii("#TS:") <= text)
  }

  predicate ValidItems(items: seq<Item>) {
    forall k :: 0 <= k < |items| ==> ValidItem(items[k])
  }

  function ItemBytes(i: Item): bytes {
    match i
    case Cmd(argv) => RespWriter.EncodeArgs(argv)
    case Stamp(ts) => Ascii("#TS:") + Itoa(ts) + CRLF
    case Note(text) => text + CRLF
  }

  function FileBytes(items: seq<Item>): bytes {
    if items == [] then [] else ItemBytes(items[0]) + FileBytes(items[1..])
  }

  function Commands(items: seq<Item>): seq<Argv> {
    if items == [] then []
    else if items[0].Cmd? then [items[0].argv] + Commands(items[1..])
    else Commands(items[1..])
  }

  /** The first timestamp later than the cutoff; a cutoff of 0 means none. */
  function FirstLater(items: seq<Item>, timestamp: int64): (k: nat)
    ensures k <= |items|
  {
    if items == [] then 0
    else if timestamp != 0 && items[0].Stamp? && items[0].ts > timestamp then 0
    else 1 + FirstLater(items[1..], timestamp)
  }

  lemma LineBack(text: bytes, rest: bytes)
    requires LF !in text
    ensures CompleteLine(text + CRLF + rest) == Some((text, rest))
  {
    hide Find;
    var s := text + CRLF + rest;
    assert s == (text + [CR]) + [LF] + rest;
    RespFormat.FindAt(LF, text + [CR], rest);
    assert s[..|text|] == text && s[|text| + 2..] == rest;
  }

  lemma LossyDigits(n: nat)
    requires n <= MAX_INT64
    ensures LossyInt(Digits(n)) == n
  {
    SignedRoundTrip(n);
  }

  lemma NoBreak(n: nat)
    ensures LF !in Digits(n)
  {
  }

  lemma ArgBack(arg: bytes, rest: bytes)
    requires |arg| + 2 <= MAX_INT64
    ensures NextArg(RespWriter.EncodeArg(arg) + rest) == Arg(arg, rest)
  {
    hide CompleteLine, LossyInt, Digits;
    var line, more := [DOLLAR] + Digits(|arg|), arg + CRLF + rest;
    assert RespWriter.EncodeArg(arg) + rest == line + CRLF + more;
    NoBreak(|arg|);
    LineBack(line, more);
    LossyDigits(|arg|);
    assert line[1..] == Digits(|arg|);
    assert more[..|arg|] == arg && more[|arg| + 2..] == rest;
  }

  lemma {:induction false} ArgsBack(argv: Argv, rest: bytes)
    requires forall k :: 0 <= k < |argv| ==> |argv[k]| + 2 <= MAX_INT64
    ensures NextArgs(RespWriter.EncodeArgList(argv) + rest, |argv|) == Args(argv, rest)
    decreases argv
  {
    hide NextArg, RespWriter.EncodeArg;
    if argv == [] {
      assert [] + rest == rest;
    } else {
      var more := RespWriter.EncodeArgList(argv[1..]) + rest;
      assert RespWriter.EncodeArgList(argv) + rest == RespWriter.EncodeArg(argv[0]) + more;
      ArgBack(argv[0], more);
      ArgsBack(argv[1..], rest);
    }
  }

  /** The loader recovers exactly the arguments the command writer wrote, whatever bytes they hold. */
  lemma LoadsWhatWasWritten(argv: Argv, rest: bytes, timestamp: int64)
    requires ValidItem(Cmd(argv))
    ensures Load(RespWriter.EncodeArgs(argv) + rest, timestamp) ==
            ([argv] + Load(rest, timestamp).0, Load(rest, timestamp).1)
  {
    hide CompleteLine, LossyInt, NextArgs, Digits, RespWriter.EncodeArgList, Stops;
    var line, list := [STAR] + Digits(|argv|), RespWriter.EncodeArgList(argv);
    assert RespWriter.EncodeArgs(argv) + rest == line + CRLF + (list + rest);
    NoBreak(|argv|);
    LineBack(line, list + rest);
    LossyDigits(|argv|);
    assert line[1..] == Digits(|argv|);
    ArgsBack(argv, rest);
  }

  lemma StampLoads(ts: int, rest: bytes, timestamp: int64)
    requires MIN_INT64 <= ts <= MAX_INT64
    ensures Load(TS + Itoa(ts) + CRLF + rest, timestamp) ==
            if timestamp != 0 && ts > timestamp then ([], Truncated) else Load(rest, timestamp)
  {
    hide CompleteLine, ParseInt, Itoa, NextArgs, LossyInt;
    var line := TS + Itoa(ts);
    ItoaHasNoLineBreak(ts);
    assert TS == [35, 84, 83, 58];
    LineBack(line, rest);
    ParseItoa(ts);
    assert line[|TS|..] == Itoa(ts) && TS <= line && line[0] == HASH;
  }

  lemma NoteLoads(text: bytes, rest: bytes, timestamp: int64)
    requires ValidItem(Note(text))
    ensures Load(text + CRLF + rest, timestamp) == Load(rest, timestamp)
  {
    hide CompleteLine, ParseInt, NextArgs, LossyInt;
    LineBack(text, rest);
  }

  /** For every file: the commands before the first later timestamp are sent, all of them and no other,
      and the result says whether there was such a timestamp. */
  lemma {:induction false} LoadFile(items: seq<Item>, timestamp: int64)
    requires ValidItems(items)
    ensures var k := FirstLater(items, timestamp);
            Load(FileBytes(items), timestamp) == (Commands(items[..k]), if k < |items| then Truncated else OK)
    decreases items
  {
    hide ValidItem, CompleteLine, Load, RespWriter.EncodeArgs, Itoa;
    var k := FirstLater(items, timestamp);
    if items == [] {
      EmptyFile(timestamp);
    } else {
      var i, rest := items[0], FileBytes(items[1..]);
      assert ValidItem(i);
      LoadFile(items[1..], timestamp);
      if k > 0 { CommandsFirst(items, k); }
      match i
      case Cmd(argv) => LoadsWhatWasWritten(argv, rest, timestamp);
      case Stamp(ts) => StampValid(ts); StampLoads(ts, rest, timestamp);
      case Note(text) => NoteLoads(text, rest, timestamp);
    }
  }

  lemma CommandsFirst(items: seq<Item>, k: nat)
    requires 0 < k <= |items|
    ensures Commands(items[..k]) ==
            if items[0].Cmd? then [items[0].argv] + Commands(items[1..][..k - 1]) else Commands(items[1..][..k - 1])
  {
    assert items[..k][0] == items[0] && items[..k][1..] == items[1..][..k - 1];
  }

  lemma StampValid(ts: int)
    requires ValidItem(Stamp(ts))
    ensures MIN_INT64 <= ts <= MAX_INT64
  {
  }

  lemma EmptyFile(timestamp: int64)
    ensures Load([], timestamp) == ([], OK)
  {
  }

  // ---- What is refused -----------------------------------------------------------------------

  /** A line that is empty, or starts with neither # nor *, panics; so does a command without arguments. */
  lemma BadFile(line: bytes, n: int64, rest: bytes, timestamp: int64)
    requires 10 !in line && (line == [] || (line[0] != 35 && line[0] != 42)) && n < 1
    ensures Load(line + CRLF + rest, timestamp) == ([], Panic)
    ensures Load([42] + Itoa(n) + CRLF + rest, timestamp) == ([], Panic)
  {
    hide CompleteLine, NextArgs, Stops, Itoa;
    LineBack(line, rest);
    var count := [42] + Itoa(n);
    ItoaHasNoLineBreak(n);
    LineBack(count, rest);
    SignedRoundTrip(n);
    assert count[1..] == Itoa(n);
  }

  /** An argument that does not start with $, is cut off, or is not there fails. */
  lemma CutArgument(line: bytes, text: bytes, n: nat)
    requires 10 !in line && (line == [] || line[0] != 36) && |text| < n + 2 <= MAX_INT64
    ensures NextArg(line + CRLF + text) == BadArg
    ensures NextArg([36] + Digits(n) + CRLF + text) == BadArg
    ensures NextArg([]) == BadArg
  {
    hide CompleteLine, Digits;
    LineBack(line, text);
    var length := [36] + Digits(n);
    NoBreak(n);
    LineBack(length, text);
    LossyDigits(n);
    assert length[1..] == Digits(n);
    NothingLeft();
  }

  lemma NothingLeft()
    ensures CompleteLine([]) == None
  {
  }

  /** A file that ends inside a command: everything before it is sent, and the load fails. */
  lemma {:induction false} CutFile(items: seq<Item>, argv: Argv, n: nat, text: bytes, size: nat)
    requires ValidItems(items) && |argv| < n <= MAX_INT64 && |text| < size + 2 <= MAX_INT64
    requires forall k :: 0 <= k < |argv| ==> |argv[k]| + 2 <= MAX_INT64
    ensures var cut := RespWriter.EncodeArgList(argv) + ([36] + Digits(size) + CRLF + text);
            Load(FileBytes(items) + ([42] + Digits(n) + CRLF + cut), 0) == (Commands(items), Failed)
    decreases items
  {
    hide ValidItem, CompleteLine, Load, RespWriter.EncodeArgs, RespWriter.EncodeArgList, Itoa, Digits, NextArgs;
    var cut := RespWriter.EncodeArgList(argv) + ([36] + Digits(size) + CRLF + text);
    var tail := [42] + Digits(n) + CRLF + cut;
    if items == [] {
      assert [] + tail == tail;
      CutCommand(argv, n, text, size);
    } else {
      var i := items[0];
      var rest := FileBytes(items[1..]) + tail;
      assert ValidItem(i);
      assert FileBytes(items) + tail == ItemBytes(i) + rest;
      CutFile(items[1..], argv, n, text, size);
      match i
      case Cmd(argv) => LoadsWhatWasWritten(argv, rest, 0);
      case Stamp(ts) => StampValid(ts); StampLoads(ts, rest, 0);
      case Note(text) => NoteLoads(text, rest, 0);
    }
  }

  lemma CutCommand(argv: Argv, n: nat, text: bytes, size: nat)
    requires |argv| < n <= MAX_INT64 && |text| < size + 2 <= MAX_INT64
    requires forall k :: 0 <= k < |argv| ==> |argv[k]| + 2 <= MAX_INT64
    ensures var cut := RespWriter.EncodeArgList(argv) + ([36] + Digits(size) + CRLF + text);
            Load([42] + Digits(n) + CRLF + cut, 0) == ([], Failed)
  {
    hide CompleteLine, Digits, NextArgs, RespWriter.EncodeArgList, LossyInt, Stops;
    var cut := RespWriter.EncodeArgList(argv) + ([36] + Digits(size) + CRLF + text);
    var line := [42] + Digits(n);
    NoBreak(n);
    LineBack(line, cut);
    LossyDigits(n);
    assert line[1..] == Digits(n);
    CutArgs(argv, n, text, size);
  }

  lemma {:induction false} CutArgs(argv: Argv, n: nat, text: bytes, size: nat)
    requires |argv| < n && |text| < size + 2 <= MAX_INT64
    requires forall k :: 0 <= k < |argv| ==> |argv[k]| + 2 <= MAX_INT64
    ensures NextArgs(RespWriter.EncodeArgList(argv) + ([36] + Digits(size) + CRLF + text), n) == BadArgs
    decreases argv
  {
    hide NextArg, RespWriter.EncodeArg, Digits;
    var last := [36] + Digits(size) + CRLF + text;
    if argv == [] {
      assert [] + last == last;
      CutArgument([], text, size);
    } else {
      var more := RespWriter.EncodeArgList(argv[1..]) + last;
      assert RespWriter.EncodeArgList(argv) + last == RespWriter.EncodeArg(argv[0]) + more;
      ArgBack(argv[0], more);
      CutArgs(argv[1..], n - 1, text, size);
    }
  }
}
