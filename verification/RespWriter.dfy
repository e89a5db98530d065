/** Serialisation of commands: client/proto/writer.go. */
module RespWriter {
  import opened Bytes
  import opened Decimal

  const STAR: byte := 42
  const DOLLAR: byte := 36

  function EncodeLen(n: nat): bytes { Digits(n) + CRLF }

  function EncodeArg(arg: bytes): bytes { [DOLLAR] + EncodeLen(|arg|) + arg + CRLF }

  function EncodeArgList(args: seq<bytes>): bytes {
    if args == [] then [] else EncodeArg(args[0]) + EncodeArgList(args[1..])
  }

  /** A command on the wire: RESP array of bulk strings. */
  function EncodeArgs(args: seq<bytes>): (s: bytes)
    ensures |s| >= 4 && s[0] == STAR
  {
    [STAR] + EncodeLen(|args|) + EncodeArgList(args)
  }

  lemma {:induction false} EncodeArgListSnoc(args: seq<bytes>, arg: bytes)
    ensures EncodeArgList(args + [arg]) == EncodeArgList(args) + EncodeArg(arg)
  {
    if args == [] {
      assert args + [arg] == [arg];
    } else {
      assert (args + [arg])[1..] == args[1..] + [arg];
      EncodeArgListSnoc(args[1..], arg);
    }
  }

  /** The command writer: everything goes to the sink, through one reused length buffer. */
  class Writer {
    var sink: bytes
    var lenBuf: bytes

    constructor ()
      ensures sink == []
    {
      sink, lenBuf := [], [];
    }

    method WriteLen(n: nat)
      modifies this
      ensures sink == old(sink) + EncodeLen(n)
    {
      lenBuf := Digits(n);
      lenBuf := lenBuf + [CR, LF];
      sink := sink + lenBuf;
    }

    method WriteBytes(b: bytes)
      modifies this
      ensures sink == old(sink) + EncodeArg(b)
    {
      sink := sink + [DOLLAR];
      WriteLen(|b|);
      sink := sink + b;
      sink := sink + [CR];
      sink := sink + [LF];
    }

    method WriteArgs(args: seq<bytes>)
      modifies this
      ensures sink == old(sink) + EncodeArgs(args)
    {
      hide EncodeArg;
      sink := sink + [STAR];
      WriteLen(|args|);
      ghost var head := sink;
      for i := 0 to |args|
        invariant sink == head + EncodeArgList(args[..i])
      {
        EncodeArgListSnoc(args[..i], args[i]);
        assert args[..i + 1] == args[..i] + [args[i]];
        WriteBytes(args[i]);
      }
      assert args[..|args|] == args;
    }
  }
}
