/** AOFWriter and AOFReader as the objects they are; every call is a run of the steps of RotatingLog. */
module RotatingLogFiles {
  import opened Bytes
  import opened RotatingLog

  class Directory {
    var files: map<int, bytes>

    constructor ()
      ensures files == map[]
    {
      files := map[];
    }
  }

  class AofWriter {
    const dir: Directory
    var name: int
    var offset: int
    var filesize: nat

    ghost predicate Is(s: State)
      reads this, dir
    {
      s.dir == dir.files && s.wname == name && s.woffset == offset && s.wsize == filesize && s.wpc.Ready?
      && name in dir.files
    }

    constructor (dir: Directory, start: int)
      requires dir.files == map[]
      modifies dir
      ensures this.dir == dir && Is(Init(start)) && offset == start
    {
      this.dir := dir;
      name, offset, filesize := 0, 0, 0;
      new;
      OpenFile(start);
    }

    /** The file is named by the offset field as it stands, which the first time is still 0. */
    method OpenFile(at: int)
      modifies this, dir
      ensures name == old(offset) && offset == at && filesize == 0
      ensures dir.files == old(dir.files)[name := if name in old(dir.files) then old(dir.files)[name] else []]
    {
      name := offset;
      if name !in dir.files {
        dir.files := dir.files[name := []];
      }
      offset, filesize := at, 0;
    }

    method Write(buf: bytes, ghost s: State) returns (ghost acts: seq<Action>, ghost t: State)
      requires Is(s)
      modifies this, dir
      ensures Runs(s, acts, t) && Is(t)
      ensures t.written == s.written + buf && t.returned == s.returned && t.rname == s.rname && t.roffset == s.roffset
    {
      dir.files := dir.files[name := dir.files[name] + buf];
      offset := offset + |buf|;
      filesize := filesize + |buf|;
      ghost var rotated := filesize > MAX_FILE_SIZE;
      if filesize > MAX_FILE_SIZE {
        OpenFile(offset);
      }
      acts, t := WriteIsRun(s, buf, rotated);
    }
  }

  lemma WriteIsRun(s: State, buf: bytes, rotated: bool) returns (acts: seq<Action>, t: State)
    requires s.wpc.Ready? && s.wname in s.dir && rotated == (s.wsize + |buf| > MAX_FILE_SIZE)
    ensures Runs(s, acts, t) && t.wpc.Ready?
    ensures t.written == s.written + buf && t.returned == s.returned
    ensures t.rname == s.rname && t.roffset == s.roffset && t.rpos == s.rpos && t.woffset == s.woffset + |buf|
    ensures var grown := s.dir[s.wname := s.dir[s.wname] + buf];
        if rotated then
          t.dir == grown[t.woffset := if t.woffset in grown then grown[t.woffset] else []]
          && t.wname == t.woffset && t.wsize == 0
        else t.dir == grown && t.wname == s.wname && t.wsize == s.wsize + |buf|
  {
    var rotate: seq<Action> := if rotated then [Rotate] else [];
    var began := Next(s, BeginWrite(buf));
    var append: seq<Action> := if buf == [] then [] else [Append(|buf|)];
    var appended := if buf == [] then began else Next(began, Append(|buf|));
    assert buf[..|buf|] == buf;
    if buf == [] {
      assert s.dir[s.wname] + buf == s.dir[s.wname] && s.written + buf == s.written;
      assert s.dir[s.wname := s.dir[s.wname]] == s.dir;
    }
    assert appended.dir == s.dir[s.wname := s.dir[s.wname] + buf];
    assert appended.written == s.written + buf;
    var checked := Next(appended, EndWrite);
    t := if rotated then Next(checked, Rotate) else checked;
    acts := [BeginWrite(buf)] + (append + ([EndWrite] + rotate));
    assert rotate == [] || rotate[1..] == [];
    assert Runs(checked, rotate, t);
    RunsCons(appended, EndWrite, rotate, t);
    if buf != [] { RunsCons(began, Append(|buf|), [EndWrite] + rotate, t); }
    assert append + ([EndWrite] + rotate) == if buf == [] then [EndWrite] + rotate else [Append(|buf|)] + ([EndWrite] + rotate);
    RunsCons(s, BeginWrite(buf), append + ([EndWrite] + rotate), t);
  }

  lemma RunsCons(s: State, a: Action, acts: seq<Action>, t: State)
    requires Enabled(s, a) && Runs(Next(s, a), acts, t)
    ensures Runs(s, [a] + acts, t)
  {
    assert ([a] + acts)[1..] == acts;
  }

  class AofReader {
    const dir: Directory
    var name: int
    var offset: int
    var pos: nat

    ghost predicate Is(s: State)
      reads this, dir
    {
      s.dir == dir.files && s.rname == name && s.roffset == offset && s.rpos == pos
      && name in dir.files && pos <= |dir.files[name]|
    }

    constructor (dir: Directory, start: int)
      requires 0 in dir.files
      ensures this.dir == dir && name == 0 && offset == start && pos == 0
    {
      this.dir := dir;
      name, offset, pos := 0, start, 0;
    }

    /** Moves on to the file named by the current offset, deleting the one just finished. */
    method ReadNextFile() returns (moved: bool)
      requires name in dir.files
      modifies this, dir
      ensures moved <==> old(name) != old(offset) && old(offset) in old(dir.files)
      ensures moved ==> name == offset == old(offset) && pos == 0 && dir.files == old(dir.files) - {old(name)}
      ensures !moved ==> name == old(name) && offset == old(offset) && pos == old(pos) && dir.files == old(dir.files)
    {
      if name == offset { return false; }
      if offset !in dir.files { return false; }
      dir.files := dir.files - {name};
      name, pos := offset, 0;
      return true;
    }

    /** file.Read: what is there, up to the size of the buffer; nothing is io.EOF. */
    method ReadFile(bufLen: nat, ghost s: State) returns (data: bytes, ghost acts: seq<Action>, ghost t: State)
      requires Is(s) && bufLen > 0
      modifies this
      ensures Runs(s, acts, t) && Is(t)
      ensures t.returned == s.returned + data && |data| <= bufLen && t.written == s.written && t.rname == s.rname
      ensures if data == [] then AtEof(s) && acts == [] && t == s else !AtEof(s) && acts == [Read(|data|)]
    {
      acts, t := [], s;
      var available := |dir.files[name]| - pos;
      var n := if available < bufLen then available else bufLen;
      data := dir.files[name][pos..pos + n];
      offset := offset + n;
      pos := pos + n;
      if n > 0 {
        acts, t := [Read(n)], Next(s, Read(n));
        assert acts[1..] == [];
      }
    }

    /** One pass of the retry loop of Read, after the sleep: s is whatever the log has become by then, at the
        end of the reader's file or not. No data means io.EOF again, and Read sleeps and tries once more. */
    method Retry(bufLen: nat, ghost s: State) returns (data: bytes, ghost acts: seq<Action>, ghost t: State)
      requires Is(s) && bufLen > 0
      modifies this, dir
      ensures Runs(s, acts, t) && Is(t)
      ensures t.returned == s.returned + data && |data| <= bufLen && t.written == s.written
      ensures data == [] ==> AtEof(t)
      ensures t.rname == if NextExists(s) then s.roffset else s.rname
      ensures acts == (if NextExists(s) then [NextFile] else []) + (if data == [] then [] else [Read(|data|)])
    {
      ghost var first: seq<Action>, u := [], s;
      var moved := ReadNextFile();
      if moved {
        first, u := [NextFile], Next(s, NextFile);
        assert first[1..] == [];
      }
      ghost var second;
      data, second, t := ReadFile(bufLen, u);
      RunsJoin(s, first, u, second, t);
      acts := first + second;
    }
  }

  lemma {:induction false} RunsJoin(s: State, first: seq<Action>, u: State, second: seq<Action>, t: State)
    requires Runs(s, first, u) && Runs(u, second, t)
    ensures Runs(s, first + second, t)
    decreases first
  {
    if first == [] {
      assert first + second == second;
    } else {
      assert (first + second)[1..] == first[1..] + second;
      RunsJoin(Next(s, first[0]), first[1..], u, second, t);
    }
  }
}
