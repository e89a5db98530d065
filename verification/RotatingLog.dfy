/**
 The rotating log between the receiver and the sender: utils/file_rotate.

 The writer and the reader share nothing but a directory of files named by offset. The first file is
 named 0 whatever the starting offset is; every later file is named by the offset of its first byte.
 */
module RotatingLog {
  import opened Bytes

  const MAX_FILE_SIZE := 1024 * 1024 * 1024

  /** AOFWriter, between the system calls of one Write. */
  datatype WriterPc = Ready | Appending(rest: bytes) | Rotating

  datatype State = State(
    dir: map<int, bytes>,
    // AOFWriter
    wname: int, woffset: int, wsize: nat, wpc: WriterPc,
    // AOFReader
    rname: int, roffset: int, rpos: nat,
    // history: the starting offset, the bytes written, the bytes returned
    start: int, written: bytes, returned: bytes)

  /** NewAOFWriter and then NewAOFReader in an empty directory. */
  function Init(start: int): State {
    State(map[0 := []], 0, start, 0, Ready, 0, start, 0, start, [], [])
  }

  datatype Action =
    | BeginWrite(buf: bytes)   // AOFWriter.Write is called
    | Append(n: nat)           // the next n bytes of the buffer reach the file
    | EndWrite                 // the size check after the write
    | Rotate                   // close, and open the file named by the current offset
    | Read(n: nat)             // AOFReader.Read returns n bytes
    | NextFile                 // AOFReader.readNextFile finds the next file, some time after io.EOF

  predicate Enabled(s: State, a: Action) {
    match a
    case BeginWrite(buf) => s.wpc.Ready?
    case Append(n) => s.wpc.Appending? && 0 < n <= |s.wpc.rest| && s.wname in s.dir
    case EndWrite => s.wpc.Appending? && s.wpc.rest == []
    case Rotate => s.wpc.Rotating?
    case Read(n) => s.rname in s.dir && 0 < n && s.rpos + n <= |s.dir[s.rname]|
    case NextFile => NextExists(s)
  }

  /** file.Read reports io.EOF. */
  predicate AtEof(s: State) { s.rname in s.dir && s.rpos >= |s.dir[s.rname]| }

  /** The two tests of readNextFile. It does not look at the end of file again, which may have moved since. */
  predicate NextExists(s: State) { s.rname != s.roffset && s.roffset in s.dir }

  function Next(s: State, a: Action): State
    requires Enabled(s, a)
  {
    match a
    case BeginWrite(buf) => s.(wpc := Appending(buf))
    case Append(n) =>
      var piece := s.wpc.rest[..n];
      s.(dir := s.dir[s.wname := s.dir[s.wname] + piece], woffset := s.woffset + n, wsize := s.wsize + n,
         wpc := Appending(s.wpc.rest[n..]), written := s.written + piece)
    case EndWrite => s.(wpc := if s.wsize > MAX_FILE_SIZE then Rotating else Ready)
    case Rotate =>
      var content := if s.woffset in s.dir then s.dir[s.woffset] else [];
      s.(dir := s.dir[s.woffset := content], wname := s.woffset, wsize := 0, wpc := Ready)
    case Read(n) =>
      var got := s.dir[s.rname][s.rpos..s.rpos + n];
      s.(roffset := s.roffset + n, rpos := s.rpos + n, returned := s.returned + got)
    case NextFile =>
      s.(dir := s.dir - {s.rname}, rname := s.roffset, rpos := 0)
  }

  ghost predicate Runs(s: State, acts: seq<Action>, t: State)
    decreases acts
  {
    if acts == [] then s == t
    else Enabled(s, acts[0]) && Runs(Next(s, acts[0]), acts[1..], t)
  }

  ghost predicate Reachable(s: State) {
    s.start >= 0 && exists acts :: Runs(Init(s.start), acts, s)
  }

  // ---- Invariant -----------------------------------------------------------------------------

  /** The offset of the first byte of a file. */
  function Lo(s: State, name: int): int { if name == 0 then s.start else name }

  function End(s: State, name: int): int
    requires name in s.dir
  {
    Lo(s, name) + |s.dir[name]|
  }

  /** A file holds the stretch of the stream its name stands for. */
  ghost predicate Holds(s: State, name: int)
    requires name in s.dir
  {
    && s.woffset == s.start + |s.written| && (name == 0 || name > s.start)
    && s.start <= Lo(s, name) && End(s, name) <= s.woffset
    && s.dir[name] == s.written[Lo(s, name) - s.start..End(s, name) - s.start]
  }

  /** A file the writer has left is followed by the file named by its end. */
  ghost predicate Linked(s: State, name: int)
    requires name in s.dir
  {
    name == s.wname || (|s.dir[name]| > 0 && End(s, name) in s.dir && End(s, name) <= Lo(s, s.wname))
  }

  ghost predicate Apart(s: State, m: int, n: int)
    requires m in s.dir && n in s.dir
  {
    Lo(s, m) < Lo(s, n) ==> End(s, m) <= Lo(s, n)
  }

  ghost predicate Files(s: State) {
    && s.start >= 0 && s.woffset == s.start + |s.written|
    && (forall n {:trigger Holds(s, n)} :: n in s.dir ==> Holds(s, n))
    && (forall n {:trigger Linked(s, n)} :: n in s.dir ==> Linked(s, n))
    && (forall m, n {:trigger Apart(s, m, n)} :: m in s.dir && n in s.dir ==> Apart(s, m, n))
  }

  ghost predicate WriterSide(s: State) {
    && s.wname in s.dir && End(s, s.wname) == s.woffset && s.wsize == |s.dir[s.wname]|
    && (s.wpc.Rotating? ==> s.wsize > 0)
  }

  ghost predicate ReaderSide(s: State) {
    && s.rname in s.dir
    && s.roffset == Lo(s, s.rname) + s.rpos && s.rpos <= |s.dir[s.rname]|
    && (forall n {:trigger n in s.dir} :: n in s.dir ==> Lo(s, s.rname) <= Lo(s, n))
    && s.start <= s.roffset <= s.woffset == s.start + |s.written|
    && s.returned == s.written[..s.roffset - s.start]
  }

  ghost predicate Inv(s: State) { Files(s) && WriterSide(s) && ReaderSide(s) }

  lemma FilesFrame(s: State, t: State)
    requires Files(s)
    requires t.dir == s.dir && t.start == s.start && t.written == s.written
    requires t.woffset == s.woffset && t.wname == s.wname
    ensures Files(t)
  {
    forall m | m in t.dir ensures Holds(t, m) { assert Holds(s, m); }
    forall m | m in t.dir ensures Linked(t, m) { assert Linked(s, m); }
    forall m, k | m in t.dir && k in t.dir ensures Apart(t, m, k) { assert Apart(s, m, k); }
  }

  ghost predicate Grown(s: State, t: State, piece: bytes) {
    && Files(s) && WriterSide(s)
    && t.dir == s.dir[s.wname := s.dir[s.wname] + piece] && t.start == s.start && t.written == s.written + piece
    && t.woffset == s.woffset + |piece| && t.wname == s.wname
  }

  lemma SliceOfPrefix(w: bytes, piece: bytes, lo: nat, hi: nat)
    requires lo <= hi <= |w|
    ensures (w + piece)[lo..hi] == w[lo..hi]
    ensures (w + piece)[lo..|w| + |piece|] == w[lo..|w|] + piece
  {
  }

  lemma GrownHolds(s: State, t: State, piece: bytes, m: int)
    requires Grown(s, t, piece) && m in t.dir
    ensures Holds(t, m)
  {
    hide Linked, Apart;
    assert Holds(s, m);
    var lo, hi := Lo(s, m) - s.start, End(s, m) - s.start;
    SliceOfPrefix(s.written, piece, lo, hi);
    if m == s.wname {
      assert hi == |s.written| && t.dir[m] == s.dir[m] + piece;
    } else {
      assert t.dir[m] == s.dir[m];
    }
  }

  lemma GrownLinked(s: State, t: State, piece: bytes, m: int)
    requires Grown(s, t, piece) && m in t.dir
    ensures Linked(t, m)
  {
    assert Linked(s, m);
  }

  lemma GrownApart(s: State, t: State, piece: bytes, m: int, k: int)
    requires Grown(s, t, piece) && m in t.dir && k in t.dir
    ensures Apart(t, m, k)
  {
    assert Apart(s, m, k) && Linked(s, k);
  }

  /** The writer's file is the last one: growing it disturbs no other. */
  lemma GrowFiles(s: State, t: State, piece: bytes)
    requires Grown(s, t, piece)
    ensures Files(t)
  {
    hide Holds, Linked, Apart;
    forall m | m in t.dir ensures Holds(t, m) && Linked(t, m) {
      GrownHolds(s, t, piece, m);
      GrownLinked(s, t, piece, m);
    }
    forall m, k | m in t.dir && k in t.dir ensures Apart(t, m, k) { GrownApart(s, t, piece, m, k); }
  }

  ghost predicate Fresh(s: State, t: State) {
    && Files(s) && WriterSide(s) && s.woffset !in s.dir && s.woffset > s.start && s.wsize > 0
    && t.dir == s.dir[s.woffset := []] && t.start == s.start && t.written == s.written
    && t.woffset == s.woffset == t.wname
  }

  lemma FreshHolds(s: State, t: State, m: int)
    requires Fresh(s, t) && m in t.dir
    ensures Holds(t, m) && Linked(t, m)
    ensures m != s.woffset ==> End(t, m) <= s.woffset
  {
    if m != s.woffset { assert Holds(s, m) && Linked(s, m); }
  }

  lemma FreshApart(s: State, t: State, m: int, k: int)
    requires Fresh(s, t) && m in t.dir && k in t.dir
    ensures Apart(t, m, k)
  {
    hide Holds, Linked;
    FreshHolds(s, t, m);
    FreshHolds(s, t, k);
    if m != s.woffset && k != s.woffset {
      assert Apart(s, m, k);
      assert t.dir[m] == s.dir[m] && t.dir[k] == s.dir[k];
    }
  }

  lemma FreshFiles(s: State, t: State)
    requires Fresh(s, t)
    ensures Files(t)
  {
    hide Holds, Linked, Apart;
    forall m | m in t.dir ensures Holds(t, m) && Linked(t, m) { FreshHolds(s, t, m); }
    forall m, k | m in t.dir && k in t.dir ensures Apart(t, m, k) { FreshApart(s, t, m, k); }
  }

  ghost predicate Dropped(s: State, t: State, name: int) {
    && Files(s) && name in s.dir && name != s.wname
    && (forall n {:trigger n in s.dir} :: n in s.dir ==> Lo(s, name) <= Lo(s, n))
    && t.dir == s.dir - {name} && t.start == s.start && t.written == s.written
    && t.woffset == s.woffset && t.wname == s.wname
  }

  lemma DroppedFile(s: State, t: State, name: int, m: int)
    requires Dropped(s, t, name) && m in t.dir
    ensures Holds(t, m) && Linked(t, m) && End(s, name) <= Lo(t, m)
  {
    assert Holds(s, name) && Holds(s, m) && Linked(s, m) && Apart(s, name, m);
  }

  lemma DroppedApart(s: State, t: State, name: int, m: int, k: int)
    requires Dropped(s, t, name) && m in t.dir && k in t.dir
    ensures Apart(t, m, k)
  {
    assert Apart(s, m, k);
  }

  lemma DropFiles(s: State, t: State, name: int)
    requires Dropped(s, t, name)
    ensures Files(t)
    ensures forall n {:trigger n in t.dir} :: n in t.dir ==> End(s, name) <= Lo(t, n)
  {
    hide Holds, Linked, Apart;
    forall m | m in t.dir ensures Holds(t, m) && Linked(t, m) && End(s, name) <= Lo(t, m) {
      DroppedFile(s, t, name, m);
    }
    forall m, k | m in t.dir && k in t.dir ensures Apart(t, m, k) { DroppedApart(s, t, name, m, k); }
  }

  lemma AppendInv(s: State, n: nat)
    requires Inv(s) && Enabled(s, Append(n))
    ensures Inv(Next(s, Append(n)))
  {
    GrowFiles(s, Next(s, Append(n)), s.wpc.rest[..n]);
  }

  /** The file named by the writer's offset is not there yet when the writer rotates. */
  lemma RotateIsFresh(s: State)
    requires Files(s) && WriterSide(s) && s.wpc.Rotating?
    ensures s.woffset !in s.dir && s.woffset > s.start
  {
    assert Holds(s, s.wname);
    assert s.woffset in s.dir ==> Linked(s, s.woffset);
  }

  lemma RotateInv(s: State)
    requires Inv(s) && Enabled(s, Rotate)
    ensures Inv(Next(s, Rotate))
  {
    RotateIsFresh(s);
    FreshFiles(s, Next(s, Rotate));
    assert Holds(s, s.rname);
  }

  lemma ReadBytes(s: State, n: nat)
    requires Inv(s) && Enabled(s, Read(n))
    ensures s.roffset + n <= s.woffset
    ensures s.returned + s.dir[s.rname][s.rpos..s.rpos + n] == s.written[..s.roffset + n - s.start]
  {
    assert Holds(s, s.rname);
    var at := s.roffset - s.start;
    var lo, hi := Lo(s, s.rname) - s.start, End(s, s.rname) - s.start;
    assert s.dir[s.rname] == s.written[lo..hi] && at == lo + s.rpos && hi == lo + |s.dir[s.rname]|;
    assert s.dir[s.rname][s.rpos..s.rpos + n] == s.written[lo..hi][s.rpos..s.rpos + n] == s.written[at..at + n];
  }

  lemma ReadInv(s: State, n: nat)
    requires Inv(s) && Enabled(s, Read(n))
    ensures Inv(Next(s, Read(n)))
  {
    ReadBytes(s, n);
    FilesFrame(s, Next(s, Read(n)));
  }

  /** The file named by the reader's offset exists only when the reader has come to the end of its own. */
  lemma NextMeansEof(s: State)
    requires Inv(s) && NextExists(s)
    ensures AtEof(s)
  {
    assert Holds(s, s.rname) && Holds(s, s.roffset) && Apart(s, s.rname, s.roffset);
  }

  lemma NextFileInv(s: State)
    requires Inv(s) && Enabled(s, NextFile)
    ensures Inv(Next(s, NextFile))
  {
    NextMeansEof(s);
    assert Holds(s, s.roffset) && Linked(s, s.roffset) && Holds(s, s.rname);
    DropFiles(s, Next(s, NextFile), s.rname);
  }

  lemma StepInv(s: State, a: Action)
    requires Inv(s) && Enabled(s, a)
    ensures Inv(Next(s, a))
  {
    match a
    case BeginWrite(_) => FilesFrame(s, Next(s, a));
    case Append(n) => AppendInv(s, n);
    case EndWrite => FilesFrame(s, Next(s, a));
    case Rotate => RotateInv(s);
    case Read(n) => ReadInv(s, n);
    case NextFile => NextFileInv(s);
  }

  lemma {:induction false} RunsInv(s: State, acts: seq<Action>, t: State)
    requires Inv(s) && Runs(s, acts, t)
    ensures Inv(t)
    decreases acts
  {
    if acts != [] {
      StepInv(s, acts[0]);
      RunsInv(Next(s, acts[0]), acts[1..], t);
    }
  }

  lemma ReachableInv(s: State)
    requires Reachable(s)
    ensures Inv(s)
  {
    var acts :| Runs(Init(s.start), acts, s);
    RunsInv(Init(s.start), acts, s);
  }

  // ---- Theorems ------------------------------------------------------------------------------

  /** Every interleaving: the reader returns a prefix of what was written, and its offset counts it. */
  lemma ReturnsPrefix(s: State)
    requires Reachable(s)
    ensures s.returned <= s.written
    ensures s.roffset == s.start + |s.returned| && s.woffset == s.start + |s.written|
  {
    ReachableInv(s);
  }

  /** A file is left exactly when it has grown beyond 1 GiB. */
  ghost predicate Rotated(s: State) {
    && (s.wpc.Ready? ==> s.wsize <= 1073741824)
    && (s.wpc.Rotating? ==> s.wsize > 1073741824)
    && (forall n {:trigger s.dir[n]} :: n in s.dir && n != s.wname ==> |s.dir[n]| > 1073741824)
  }

  lemma RotatedStep(s: State, a: Action)
    requires Files(s) && WriterSide(s) && Rotated(s) && Enabled(s, a)
    ensures Rotated(Next(s, a))
  {
    hide Files, Holds, Linked, Apart;
    if a.Rotate? { RotateIsFresh(s); }
  }

  lemma {:induction false} RotatedRuns(s: State, acts: seq<Action>, t: State)
    requires Inv(s) && Rotated(s) && Runs(s, acts, t)
    ensures Rotated(t)
    decreases acts
  {
    hide Files, WriterSide, ReaderSide, Rotated, Next, Enabled;
    if acts != [] {
      StepInv(s, acts[0]);
      RotatedStep(s, acts[0]);
      RotatedRuns(Next(s, acts[0]), acts[1..], t);
    }
  }

  /** In every interleaving: between two writes the writer's file holds at most 1 GiB, and every file the writer
      has left holds more. */
  lemma RotationRule(s: State)
    requires Reachable(s)
    ensures s.wname in s.dir && (s.wpc.Ready? ==> |s.dir[s.wname]| <= 1073741824)
    ensures forall n {:trigger s.dir[n]} :: n in s.dir && n != s.wname ==> |s.dir[n]| > 1073741824
  {
    ReachableInv(s);
    var acts :| Runs(Init(s.start), acts, s);
    RotatedRuns(Init(s.start), acts, s);
  }

  /** However much was appended or rotated since the reader last saw io.EOF: readNextFile deletes a file only
      when its last byte was returned, and never the writer's file. */
  lemma DeletesOnlyConsumed(s: State)
    requires Reachable(s) && Enabled(s, NextFile)
    ensures AtEof(s) && s.rname != s.wname
    ensures |s.dir[s.rname]| <= |s.returned| && s.dir[s.rname] == s.returned[|s.returned| - |s.dir[s.rname]|..]
  {
    ReachableInv(s);
    NextMeansEof(s);
    assert Holds(s, s.rname) && Linked(s, s.roffset) && Holds(s, s.roffset);
    var n := |s.dir[s.rname]|;
    var end := s.roffset - s.start;
    assert s.dir[s.rname] == s.written[end - n..end];
    assert s.returned == s.written[..end];
  }

  /** A reader at the end of its file and behind the writer always finds the file named by its offset. */
  lemma BehindFindsNext(s: State)
    requires Reachable(s) && AtEof(s) && |s.returned| < |s.written|
    ensures Enabled(s, NextFile)
  {
    ReachableInv(s);
    assert Linked(s, s.rname) && Holds(s, s.rname);
  }

  /** Reader steps alone bring the reader to the end of what was written, from any reachable state. */
  lemma CatchesUp(s: State) returns (acts: seq<Action>, t: State)
    requires Reachable(s)
    ensures Runs(s, acts, t) && t.written == s.written && t.returned == s.written
    ensures forall i :: 0 <= i < |acts| ==> acts[i].Read? || acts[i].NextFile?
  {
    ReachableInv(s);
    acts, t := CatchesUpFrom(s);
  }

  lemma {:induction false} CatchesUpFrom(s: State) returns (acts: seq<Action>, t: State)
    requires Inv(s)
    ensures Runs(s, acts, t) && t.written == s.written && t.returned == s.written
    ensures forall i :: 0 <= i < |acts| ==> acts[i].Read? || acts[i].NextFile?
    decreases |s.written| - |s.returned|, |s.dir|
  {
    assert |s.returned| == s.roffset - s.start;
    if |s.returned| == |s.written| {
      acts, t := [], s;
      assert s.written[..|s.written|] == s.written;
      return;
    }
    assert Linked(s, s.rname) && Holds(s, s.rname);
    var a := if s.rpos < |s.dir[s.rname]| then Read(1) else NextFile;
    assert Enabled(s, a);
    StepInv(s, a);
    if a == NextFile { assert |s.dir - {s.rname}| < |s.dir| by { Smaller(s.dir, s.rname); } }
    var more;
    more, t := CatchesUpFrom(Next(s, a));
    acts := [a] + more;
    assert acts[1..] == more;
  }

  lemma Smaller<K, V>(m: map<K, V>, k: K)
    requires k in m
    ensures |m - {k}| < |m|
  {
    assert (m - {k}).Keys == m.Keys - {k};
    assert |m.Keys - {k}| == |m.Keys| - 1;
  }
}
