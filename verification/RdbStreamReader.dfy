/** readStream of rdb/types/stream.go in its own form: nested loops over one reader and one channel. */
module RdbStreamReader {
  import opened Bytes
  import opened Decimal
  import opened RdbPrimitives
  import opened RdbString
  import opened Listpack
  import opened RdbStream

  /** The commands of d behind those already sent. */
  function After(sent: seq<Argv>, d: Decoded<seq<Argv>>): Decoded<seq<Argv>> {
    match d
    case None => None
    case Some((argvs, rest)) => Some((sent + argvs, rest))
  }

  /** Without a panic, exactly the commands of the decoder were sent and its bytes consumed. */
  ghost predicate Sends(spec: Decoded<seq<Argv>>, ok: bool, sent: seq<Argv>, rest: bytes) {
    match spec
    case None => !ok
    case Some(d) => ok && sent == d.0 && rest == d.1
  }

  /** Sending the first part now and the rest later is sending all. */
  lemma AfterAppend(sent: seq<Argv>, first: seq<Argv>, d: Decoded<seq<Argv>>)
    ensures After(sent + first, d) ==
            match d case None => None case Some(x) => Some((sent + (first + x.0), x.1))
  {
    if d.Some? { assert sent + first + d.value.0 == sent + (first + d.value.0); }
  }

  lemma AfterNothing(sent: seq<Argv>, rest: bytes)
    ensures After(sent, Some(([], rest))) == Some((sent, rest))
  {
    assert sent + [] == sent;
  }

  /** nextInteger at index inx. */
  method IntegerAt(elements: seq<bytes>, inx: nat) returns (r: Option<int64>)
    requires inx <= |elements|
    ensures match NextInteger(elements[inx..])
            case None => r.None?
            case Some(d) => inx < |elements| && r == Some(d.0) && d.1 == elements[inx + 1..]
  {
    if inx == |elements| { return None; }
    assert elements[inx..][1..] == elements[inx + 1..];
    return ParseInt(elements[inx]);
  }

  /** nextString at index inx. */
  method StringAt(elements: seq<bytes>, inx: nat) returns (r: Option<bytes>)
    requires inx <= |elements|
    ensures match NextString(elements[inx..])
            case None => r.None?
            case Some(d) => inx < |elements| && r == Some(d.0) && d.1 == elements[inx + 1..]
  {
    if inx == |elements| { return None; }
    assert elements[inx..][1..] == elements[inx + 1..];
    return Some(elements[inx]);
  }

  /** The loop over the master fields. */
  method SameFieldArgs(elements: seq<bytes>, from: nat, fields: seq<bytes>) returns (r: Option<(Argv, nat)>)
    requires from <= |elements|
    ensures match SameFields(fields, elements[from..])
            case None => r.None?
            case Some(d) => r.Some? && r.value.0 == d.0 && r.value.1 <= |elements| && elements[r.value.1..] == d.1
  {
    hide NextString;
    var args: Argv, inx: nat := [], from;
    assert fields[0..] == fields;
    for j := 0 to |fields|
      invariant inx <= |elements|
      invariant Pairs(args, SameFields(fields[j..], elements[inx..])) == Pairs([], SameFields(fields, elements[from..]))
    {
      var value := StringAt(elements, inx);
      SameFieldsStep(args, fields, j, elements[inx..]);
      if value.None? { return None; }
      args, inx := args + [fields[j], value.value], inx + 1;
    }
    assert args + [] == args;
    SameFieldsEnd(fields, elements[from..], elements[inx..]);
    return Some((args, inx));
  }

  function Pairs(args: Argv, d: Option<(Argv, seq<bytes>)>): Option<(Argv, seq<bytes>)> {
    match d
    case None => None
    case Some((more, es)) => Some((args + more, es))
  }

  lemma SameFieldsStep(args: Argv, fields: seq<bytes>, j: nat, es: seq<bytes>)
    requires j < |fields|
    ensures NextString(es).None? ==> SameFields(fields[j..], es) == None
    ensures NextString(es).Some? ==>
              Pairs(args, SameFields(fields[j..], es)) ==
              Pairs(args + [fields[j], NextString(es).value.0], SameFields(fields[j + 1..], NextString(es).value.1))
  {
    hide NextString;
    assert fields[j..][1..] == fields[j + 1..];
    if NextString(es).Some? {
      var (value, es) := NextString(es).value;
      var d := SameFields(fields[j + 1..], es);
      if d.Some? { assert args + [fields[j], value] + d.value.0 == args + ([fields[j], value] + d.value.0); }
    }
  }

  lemma SameFieldsEnd(fields: seq<bytes>, from: seq<bytes>, es: seq<bytes>)
    ensures SameFields(fields[|fields|..], es) == Some(([], es))
    ensures SameFields(fields, from).Some? ==> Pairs([], SameFields(fields, from)) == SameFields(fields, from)
  {
    var d := SameFields(fields, from);
    if d.Some? { assert [] + d.value.0 == d.value.0; }
  }

  class StreamObject {
    const key: bytes
    const typeByte: int
    const rd: Reader
    var cmdC: seq<Argv>

    constructor (rd: Reader, key: bytes, typeByte: int)
      ensures this.rd == rd && this.key == key && this.typeByte == typeByte && cmdC == []
    {
      this.rd, this.key, this.typeByte, cmdC := rd, key, typeByte, [];
    }

    /** One turn of the entry loop: the arguments built, and the index behind the entry. */
    method BuildArgs(elements: seq<bytes>, from: nat, ms: int64, seqno: int64, fields: seq<bytes>)
      returns (r: Option<(Turn, nat)>)
      requires from <= |elements|
      ensures match EntryTurn(elements[from..], key, ms, seqno, fields)
              case None => r.None?
              case Some(d) => r.Some? && r.value.0 == d.0 && from < r.value.1 <= |elements| && elements[r.value.1..] == d.1
    {
      hide NextInteger, NextString, SameFields, IdText, Wrap;
      var flags :- IntegerAt(elements, from);
      var entryMs :- IntegerAt(elements, from + 1);
      var entrySeq :- IntegerAt(elements, from + 2);
      var inx := from + 3;
      var args := [Ascii("xadd"), key, IdText(Wrap(entryMs + ms), Wrap(entrySeq + seqno))];
      if flags % 4 / 2 == 1 {
        var same :- SameFieldArgs(elements, inx, fields);
        args, inx := args + same.0, same.1;
      } else {
        var num :- IntegerAt(elements, inx);
        inx := inx + 1;
        var pairs: int := num;
        var n := Wrap(pairs * 2);
        if n < 0 || |elements| - inx < n { return None; }
        assert elements[inx..][..n] == elements[inx..inx + n] && elements[inx..][n..] == elements[inx + n..];
        args, inx := args + elements[inx..inx + n], inx + n;
      }
      var _ :- StringAt(elements, inx);
      return Some((Turn(flags % 2 == 1, args), inx + 1));
    }

    /** The entry loop: it ends when both counts have come down to zero. */
    method SendEntries(elements: seq<bytes>, from: nat, counts: (int64, int64), ms: int64, seqno: int64,
                       fields: seq<bytes>)
      returns (ok: bool)
      requires from <= |elements|
      modifies this
      ensures match Entries(elements[from..], counts.0, counts.1, key, ms, seqno, fields)
              case None => !ok
              case Some(argvs) => ok && cmdC == old(cmdC) + argvs
    {
      hide EntryTurn;
      var count: int, deleted: int := counts.0, counts.1;
      var inx := from;
      while count != 0 || deleted != 0
        invariant inx <= |elements|
        invariant Onward(cmdC, Entries(elements[inx..], count, deleted, key, ms, seqno, fields)) ==
                  Onward(old(cmdC), Entries(elements[from..], counts.0, counts.1, key, ms, seqno, fields))
        decreases |elements| - inx
      {
        var turn := BuildArgs(elements, inx, ms, seqno, fields);
        EntriesStep(cmdC, elements[inx..], count, deleted, key, ms, seqno, fields);
        if turn.None? { return false; }
        inx := turn.value.1;
        if turn.value.0.deleted {
          deleted := deleted - 1;
        } else {
          count := count - 1;
          cmdC := cmdC + [turn.value.0.argv];
        }
      }
      assert cmdC + [] == cmdC;
      return true;
    }

    /** One listpack: its master entry, then its entries. */
    method SendNode() returns (ok: bool)
      modifies this, rd
      ensures Sends(After(old(cmdC), DecodeNode(old(rd.rest), key)), ok, cmdC, rd.rest)
    {
      hide DecodeString, DecodeListpack, NextInteger, NextString, BigValue, Wrap, Entries;
      var id := ReadString(rd);
      if id.None? { return false; }
      var elements := ReadListpack(rd);
      if elements.None? { return false; }
      ok := SendElements(id.value, elements.value);
    }

    method SendElements(id: bytes, elements: seq<bytes>) returns (ok: bool)
      modifies this
      ensures match NodeCommands(id, elements, key)
              case None => !ok
              case Some(argvs) => ok && cmdC == old(cmdC) + argvs
    {
      hide NextInteger, NextString, BigValue, Wrap, Entries;
      if |id| < 16 { return false; }
      var masterMs, masterSeq := Wrap(BigValue(id[..8])), Wrap(BigValue(id[8..16]));
      assert elements[0..] == elements;
      var count := IntegerAt(elements, 0);
      if count.None? { return false; }
      var deleted := IntegerAt(elements, 1);
      if deleted.None? { return false; }
      var numFields := IntegerAt(elements, 2);
      if numFields.None? { return false; }
      var n: int := numFields.value;
      if n < 0 || |elements| < 3 + n { return false; }
      var fields := elements[3..3 + n];
      assert elements[3..][..n] == fields && elements[3..][n..] == elements[3 + n..];
      var lastEntry := StringAt(elements, 3 + n);
      if lastEntry.None? || lastEntry.value != [48] { return false; }
      ok := SendEntries(elements, 4 + n, (count.value, deleted.value), masterMs, masterSeq, fields);
    }

    method SendNodes(n: nat) returns (ok: bool)
      modifies this, rd
      ensures Sends(After(old(cmdC), DecodeNodes(old(rd.rest), n, key)), ok, cmdC, rd.rest)
    {
      hide DecodeNode;
      for i := 0 to n
        invariant After(cmdC, DecodeNodes(rd.rest, n - i, key)) == After(old(cmdC), DecodeNodes(old(rd.rest), n, key))
      {
        ghost var was, s := cmdC, rd.rest;
        ok := SendNode();
        if !ok { return; }
        var first := DecodeNode(s, key).value;
        AfterAppend(was, first.0, DecodeNodes(rd.rest, n - i - 1, key));
      }
      AfterNothing(cmdC, rd.rest);
      return true;
    }

    /** The loop over the global pending entries, filling the two maps. */
    method ReadPel(n: nat) returns (r: Option<Pending>)
      modifies rd
      ensures Did(DecodePel(old(rd.rest), n, Pending(map[], map[])), r, rd.rest)
    {
      hide DecodeId, DecodeUint, DecodeLength;
      var mapId2Time: map<bytes, nat>, mapId2Count: map<bytes, nat> := map[], map[];
      for j := 0 to n
        invariant DecodePel(rd.rest, n - j, Pending(mapId2Time, mapId2Count)) ==
                  DecodePel(old(rd.rest), n, Pending(map[], map[]))
      {
        var streamId :- ReadId();
        var deliveryTime :- ReadUint(rd, 8);
        var deliveryCount :- ReadLength(rd);
        mapId2Time, mapId2Count := mapId2Time[streamId := deliveryTime], mapId2Count[streamId := deliveryCount];
      }
      return Some(Pending(mapId2Time, mapId2Count));
    }

    method ReadId() returns (r: Option<bytes>)
      modifies rd
      ensures Did(DecodeId(old(rd.rest)), r, rd.rest)
    {
      var tmpBytes :- ReadBytes(rd, 16);
      return Some(IdText(BigValue(tmpBytes[..8]), BigValue(tmpBytes[8..])));
    }

    /** The loop over one consumer's pending entries. */
    method SendClaims(n: nat, group: bytes, consumer: bytes, p: Pending) returns (ok: bool)
      modifies this, rd
      ensures Sends(After(old(cmdC), DecodeClaims(old(rd.rest), n, key, group, consumer, p)), ok, cmdC, rd.rest)
    {
      hide DecodeId, Claim, Get;
      for i := 0 to n
        invariant After(cmdC, DecodeClaims(rd.rest, n - i, key, group, consumer, p)) ==
                  After(old(cmdC), DecodeClaims(old(rd.rest), n, key, group, consumer, p))
      {
        var streamId := ReadId();
        if streamId.None? { return false; }
        var id := streamId.value;
        var args := Claim(key, group, consumer, id, Get(p.times, id), Get(p.counts, id));
        AfterAppend(cmdC, [args], DecodeClaims(rd.rest, n - i - 1, key, group, consumer, p));
        cmdC := cmdC + [args];
      }
      AfterNothing(cmdC, rd.rest);
      return true;
    }

    method SendConsumer(group: bytes, p: Pending) returns (ok: bool)
      modifies this, rd
      ensures Sends(After(old(cmdC), DecodeConsumer(old(rd.rest), key, typeByte, group, p)), ok, cmdC, rd.rest)
    {
      hide DecodeString, DecodeUint, DecodeLength, DecodeClaims, Turns;
      var consumerName := ReadString(rd);
      if consumerName.None? { return false; }
      var seenTime := ReadUint(rd, 8);
      if seenTime.None? { return false; }
      if typeByte >= TYPE_STREAM_3 {
        var activeTime := ReadUint(rd, 8);
        if activeTime.None? { return false; }
      }
      var nPEL := ReadLength(rd);
      if nPEL.None? { return false; }
      ok := SendClaims(Turns(nPEL.value), group, consumerName.value, p);
    }

    method SendConsumers(n: nat, group: bytes, p: Pending) returns (ok: bool)
      modifies this, rd
      ensures Sends(After(old(cmdC), DecodeConsumers(old(rd.rest), n, key, typeByte, group, p)), ok, cmdC, rd.rest)
    {
      hide DecodeConsumer;
      for j := 0 to n
        invariant After(cmdC, DecodeConsumers(rd.rest, n - j, key, typeByte, group, p)) ==
                  After(old(cmdC), DecodeConsumers(old(rd.rest), n, key, typeByte, group, p))
      {
        ghost var was, s := cmdC, rd.rest;
        ok := SendConsumer(group, p);
        if !ok { return; }
        var first := DecodeConsumer(s, key, typeByte, group, p).value;
        AfterAppend(was, first.0, DecodeConsumers(rd.rest, n - j - 1, key, typeByte, group, p));
      }
      AfterNothing(cmdC, rd.rest);
      return true;
    }

    method SendGroup() returns (ok: bool)
      modifies this, rd
      ensures Sends(After(old(cmdC), DecodeGroup(old(rd.rest), key, typeByte)), ok, cmdC, rd.rest)
    {
      hide DecodeString, DecodeLength, SkipLengths, DecodePel, DecodeConsumers, Turns, IdText, CreateGroup;
      var groupName := ReadString(rd);
      if groupName.None? { return false; }
      var lastMs := ReadLength(rd);
      if lastMs.None? { return false; }
      var lastSeq := ReadLength(rd);
      if lastSeq.None? { return false; }
      var create := CreateGroup(key, groupName.value, IdText(lastMs.value, lastSeq.value));
      ghost var was := cmdC;
      cmdC := cmdC + [create];
      SkipStep(rd.rest, 1);
      SkipEnd(rd.rest);
      if typeByte >= TYPE_STREAM_2 {
        var offset := ReadLength(rd);
        if offset.None? { return false; }
        SkipEnd(rd.rest);
      }
      var nPel := ReadLength(rd);
      if nPel.None? { return false; }
      var p := ReadPel(Turns(nPel.value));
      if p.None? { return false; }
      var nConsumer := ReadLength(rd);
      if nConsumer.None? { return false; }
      AfterAppend(was, [create], DecodeConsumers(rd.rest, Turns(nConsumer.value), key, typeByte, groupName.value, p.value));
      ok := SendConsumers(Turns(nConsumer.value), groupName.value, p.value);
    }

    method SendGroups(n: nat) returns (ok: bool)
      modifies this, rd
      ensures Sends(After(old(cmdC), DecodeGroups(old(rd.rest), n, key, typeByte)), ok, cmdC, rd.rest)
    {
      hide DecodeGroup;
      for i := 0 to n
        invariant After(cmdC, DecodeGroups(rd.rest, n - i, key, typeByte)) ==
                  After(old(cmdC), DecodeGroups(old(rd.rest), n, key, typeByte))
      {
        ghost var was, s := cmdC, rd.rest;
        ok := SendGroup();
        if !ok { return; }
        var first := DecodeGroup(s, key, typeByte).value;
        AfterAppend(was, first.0, DecodeGroups(rd.rest, n - i - 1, key, typeByte));
      }
      AfterNothing(cmdC, rd.rest);
      return true;
    }

    method SendTrailer(empty: bool) returns (ok: bool)
      modifies this, rd
      ensures Sends(After(old(cmdC), DecodeTrailer(old(rd.rest), key, typeByte, empty)), ok, cmdC, rd.rest)
    {
      hide DecodeLength, SkipLengths, DecodeGroups, Turns, IdText, SetId, EmptyStream;
      var number := ReadLength(rd);
      if number.None? { return false; }
      var lastMs := ReadLength(rd);
      if lastMs.None? { return false; }
      var lastSeq := ReadLength(rd);
      if lastSeq.None? { return false; }
      ghost var was := cmdC;
      if empty {
        cmdC := cmdC + [EmptyStream(key)];
      }
      var setId := SetId(key, IdText(lastMs.value, lastSeq.value));
      cmdC := cmdC + [setId];
      ghost var head := (if empty then [EmptyStream(key)] else []) + [setId];
      assert cmdC == was + head;
      SkipEnd(rd.rest);
      if typeByte >= TYPE_STREAM_2 {
        var skipped := SkipExtra();
        if !skipped { return false; }
      }
      var nConsumerGroup := ReadLength(rd);
      if nConsumerGroup.None? { return false; }
      AfterAppend(was, head, DecodeGroups(rd.rest, Turns(nConsumerGroup.value), key, typeByte));
      ok := SendGroups(Turns(nConsumerGroup.value));
    }

    /** First id, largest deleted id, number of entries ever added: five lengths, all ignored. */
    method SkipExtra() returns (ok: bool)
      modifies rd
      ensures match SkipLengths(old(rd.rest), 5) case None => !ok case Some(d) => ok && rd.rest == d.1
    {
      hide DecodeLength, SkipLengths;
      SkipStep(rd.rest, 5);
      var firstMs := ReadLength(rd);
      if firstMs.None? { return false; }
      SkipStep(rd.rest, 4);
      var firstSeq := ReadLength(rd);
      if firstSeq.None? { return false; }
      SkipStep(rd.rest, 3);
      var deletedMs := ReadLength(rd);
      if deletedMs.None? { return false; }
      SkipStep(rd.rest, 2);
      var deletedSeq := ReadLength(rd);
      if deletedSeq.None? { return false; }
      SkipStep(rd.rest, 1);
      var offset := ReadLength(rd);
      if offset.None? { return false; }
      SkipEnd(rd.rest);
      return true;
    }

    /** readStream: without a panic it sends exactly the commands of the decoder and stops behind the value. */
    method ReadStream() returns (ok: bool)
      modifies this, rd
      ensures Sends(After(old(cmdC), DecodeStream(old(rd.rest), key, typeByte)), ok, cmdC, rd.rest)
    {
      hide DecodeLength, DecodeNodes, DecodeTrailer, Turns, Signed;
      var nListpack := ReadLength(rd);
      if nListpack.None? { return false; }
      var n := nListpack.value;
      ghost var was, s := cmdC, rd.rest;
      ok := SendNodes(Turns(n));
      if !ok { return; }
      ghost var adds := DecodeNodes(s, Turns(n), key).value.0;
      AfterAppend(was, adds, DecodeTrailer(rd.rest, key, typeByte, Signed(n, 8) == 0));
      ok := SendTrailer(Signed(n, 8) == 0);
    }
  }

  function Onward(sent: seq<Argv>, d: Option<seq<Argv>>): Option<seq<Argv>> {
    match d
    case None => None
    case Some(argvs) => Some(sent + argvs)
  }

  lemma EntriesStep(sent: seq<Argv>, es: seq<bytes>, count: int, deleted: int, key: bytes, ms: int64, seqno: int64,
                    fields: seq<bytes>)
    requires count != 0 || deleted != 0
    ensures match EntryTurn(es, key, ms, seqno, fields)
            case None => Entries(es, count, deleted, key, ms, seqno, fields) == None
            case Some(d) =>
              Onward(sent, Entries(es, count, deleted, key, ms, seqno, fields)) ==
              if d.0.deleted then Onward(sent, Entries(d.1, count, deleted - 1, key, ms, seqno, fields))
              else Onward(sent + [d.0.argv], Entries(d.1, count - 1, deleted, key, ms, seqno, fields))
  {
    hide EntryTurn;
    var turn := EntryTurn(es, key, ms, seqno, fields);
    if turn.Some? && !turn.value.0.deleted {
      var d := Entries(turn.value.1, count - 1, deleted, key, ms, seqno, fields);
      if d.Some? { assert sent + [turn.value.0.argv] + d.value == sent + ([turn.value.0.argv] + d.value); }
    }
  }

  lemma SkipStep(s: bytes, n: nat)
    requires n > 0
    ensures SkipLengths(s, n) == match DecodeLength(s) case None => None case Some(d) => SkipLengths(d.1, n - 1)
  {
    hide DecodeLength;
  }

  lemma SkipEnd(s: bytes)
    ensures SkipLengths(s, 0) == Some((0, s))
  {
  }
}
