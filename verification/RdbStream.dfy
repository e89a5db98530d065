/** readStream of rdb/types/stream.go as a decoder: from value bytes to the commands sent. */
module RdbStream {
  import opened Bytes
  import opened Decimal
  import opened RdbPrimitives
  import opened RdbString
  import opened Listpack

  const TYPE_STREAM := 15
  const TYPE_STREAM_2 := 19
  const TYPE_STREAM_3 := 21

  const DASH: byte := 45

  // ---- Entry ids -----------------------------------------------------------------------------

  /** fmt.Sprintf("%v-%v"). */
  function IdText(ms: int, seqno: int): bytes { Itoa(ms) + [DASH] + Itoa(seqno) }

  // ---- The elements of one listpack ----------------------------------------------------------

  function NextInteger(es: seq<bytes>): (r: Option<(int64, seq<bytes>)>)
    ensures r.Some? ==> |r.value.1| < |es|
  {
    if es == [] then None
    else
      var n :- ParseInt(es[0]);
      Some((n, es[1..]))
  }

  function NextString(es: seq<bytes>): (r: Option<(bytes, seq<bytes>)>)
    ensures r.Some? ==> |r.value.1| < |es|
  {
    if es == [] then None else Some((es[0], es[1..]))
  }

  /** The master fields, each with the next value. */
  function SameFields(fields: seq<bytes>, es: seq<bytes>): (r: Option<(Argv, seq<bytes>)>)
    ensures r.Some? ==> |r.value.1| <= |es|
    decreases fields
  {
    if fields == [] then Some(([], es))
    else
      var (value, es) :- NextString(es);
      var (more, es) :- SameFields(fields[1..], es);
      Some(([fields[0], value] + more, es))
  }

  /** A count of pairs, then as many names and values. A count past the last element is None here; Go's slice
      may still reach into spare capacity, but then the index of the next element read is out of range, and
      nothing has been sent in between. The same holds for the number of master fields. */
  function OwnFields(es: seq<bytes>): (r: Option<(Argv, seq<bytes>)>)
    ensures r.Some? ==> |r.value.1| <= |es|
  {
    var (num, es) :- NextInteger(es);
    var n := Wrap(num * 2);
    if 0 <= n <= |es| then Some((es[..n], es[n..])) else None
  }

  datatype Turn = Turn(deleted: bool, argv: Argv)

  /** One turn of the entry loop. */
  function EntryTurn(es: seq<bytes>, key: bytes, ms: int64, seqno: int64, fields: seq<bytes>)
    : (r: Option<(Turn, seq<bytes>)>)
    ensures r.Some? ==> |r.value.1| < |es|
  {
    var (flags, es) :- NextInteger(es);
    var (entryMs, es) :- NextInteger(es);
    var (entrySeq, es) :- NextInteger(es);
    var id := IdText(Wrap(entryMs + ms), Wrap(entrySeq + seqno));
    var (pairs, es) :- if flags % 4 / 2 == 1 then SameFields(fields, es) else OwnFields(es);
    var (_, es) :- NextString(es);
    Some((Turn(flags % 2 == 1, [Ascii("xadd"), key, id] + pairs), es))
  }

  function Entries(es: seq<bytes>, count: int, deleted: int, key: bytes, ms: int64, seqno: int64, fields: seq<bytes>)
    : Option<seq<Argv>>
    decreases |es|
  {
    if count == 0 && deleted == 0 then Some([])
    else
      var (raw, es) :- EntryTurn(es, key, ms, seqno, fields);
      if raw.deleted then Entries(es, count, deleted - 1, key, ms, seqno, fields)
      else
        var more :- Entries(es, count - 1, deleted, key, ms, seqno, fields);
        Some([raw.argv] + more)
  }

  datatype Master = Master(count: int64, deleted: int64, fields: seq<bytes>, rest: seq<bytes>)

  /** The master entry at the front of a listpack. */
  function MasterEntry(es: seq<bytes>): Option<Master> {
    var (count, es) :- NextInteger(es);
    var (deleted, es) :- NextInteger(es);
    var (numFields, es) :- NextInteger(es);
    if 0 <= numFields <= |es| then
      var (lastEntry, rest) :- NextString(es[numFields..]);
      if lastEntry == [48] then Some(Master(count, deleted, es[..numFields], rest)) else None
    else None
  }

  function NodeCommands(id: bytes, es: seq<bytes>, key: bytes): Option<seq<Argv>> {
    if |id| < 16 then None
    else
      var ms, seqno := Wrap(BigValue(id[..8])), Wrap(BigValue(id[8..16]));
      var m :- MasterEntry(es);
      Entries(m.rest, m.count, m.deleted, key, ms, seqno, m.fields)
  }

  // ---- The bytes of the value ----------------------------------------------------------------

  function DecodeNode(s: bytes, key: bytes): Decoded<seq<Argv>> {
    var (id, rest) :- DecodeString(s);
    var (es, rest) :- DecodeListpack(rest);
    var argvs :- NodeCommands(id, es, key);
    Some((argvs, rest))
  }

  function DecodeNodes(s: bytes, n: nat, key: bytes): Decoded<seq<Argv>>
    decreases n
  {
    if n == 0 then Some(([], s))
    else
      var (first, rest) :- DecodeNode(s, key);
      var (more, rest) :- DecodeNodes(rest, n - 1, key);
      Some((first + more, rest))
  }

  function DecodeId(s: bytes): Decoded<bytes> {
    var (b, rest) :- DecodeBytes(s, 16);
    Some((IdText(BigValue(b[..8]), BigValue(b[8..])), rest))
  }

  /** Delivery time and delivery count by id text. */
  datatype Pending = Pending(times: map<bytes, nat>, counts: map<bytes, nat>)

  function Get(m: map<bytes, nat>, id: bytes): nat { if id in m then m[id] else 0 }

  function DecodePel(s: bytes, n: nat, p: Pending): Decoded<Pending>
    decreases n
  {
    if n == 0 then Some((p, s))
    else
      var (id, rest) :- DecodeId(s);
      var (time, rest) :- DecodeUint(rest, 8);
      var (count, rest) :- DecodeLength(rest);
      DecodePel(rest, n - 1, Pending(p.times[id := time], p.counts[id := count]))
  }

  function Claim(key: bytes, group: bytes, consumer: bytes, id: bytes, time: nat, count: nat): Argv {
    [Ascii("xclaim"), key, group, consumer, Ascii("0"), id,
     Ascii("TIME"), Itoa(time), Ascii("RETRYCOUNT"), Itoa(count), Ascii("JUSTID"), Ascii("FORCE")]
  }

  function DecodeClaims(s: bytes, n: nat, key: bytes, group: bytes, consumer: bytes, p: Pending): Decoded<seq<Argv>>
    decreases n
  {
    if n == 0 then Some(([], s))
    else
      var (id, rest) :- DecodeId(s);
      var (more, rest) :- DecodeClaims(rest, n - 1, key, group, consumer, p);
      Some(([Claim(key, group, consumer, id, Get(p.times, id), Get(p.counts, id))] + more, rest))
  }

  function DecodeConsumer(s: bytes, key: bytes, typeByte: int, group: bytes, p: Pending): Decoded<seq<Argv>> {
    var (name, rest) :- DecodeString(s);
    var (_, rest) :- DecodeUint(rest, 8);
    var (_, rest) :- if typeByte >= TYPE_STREAM_3 then DecodeUint(rest, 8) else Some((0, rest));
    var (n, rest) :- DecodeLength(rest);
    DecodeClaims(rest, Turns(n), key, group, name, p)
  }

  function DecodeConsumers(s: bytes, n: nat, key: bytes, typeByte: int, group: bytes, p: Pending): Decoded<seq<Argv>>
    decreases n
  {
    if n == 0 then Some(([], s))
    else
      var (first, rest) :- DecodeConsumer(s, key, typeByte, group, p);
      var (more, rest) :- DecodeConsumers(rest, n - 1, key, typeByte, group, p);
      Some((first + more, rest))
  }

  function CreateGroup(key: bytes, group: bytes, id: bytes): Argv {
    [Ascii("XGROUP"), Ascii("CREATE"), key, group, id]
  }

  function DecodeGroup(s: bytes, key: bytes, typeByte: int): Decoded<seq<Argv>> {
    var (name, rest) :- DecodeString(s);
    var (ms, rest) :- DecodeLength(rest);
    var (seqno, rest) :- DecodeLength(rest);
    var (_, rest) :- SkipLengths(rest, if typeByte >= TYPE_STREAM_2 then 1 else 0);
    var (nPel, rest) :- DecodeLength(rest);
    var (p, rest) :- DecodePel(rest, Turns(nPel), Pending(map[], map[]));
    var (nConsumer, rest) :- DecodeLength(rest);
    var (claims, rest) :- DecodeConsumers(rest, Turns(nConsumer), key, typeByte, name, p);
    Some(([CreateGroup(key, name, IdText(ms, seqno))] + claims, rest))
  }

  function DecodeGroups(s: bytes, n: nat, key: bytes, typeByte: int): Decoded<seq<Argv>>
    decreases n
  {
    if n == 0 then Some(([], s))
    else
      var (first, rest) :- DecodeGroup(s, key, typeByte);
      var (more, rest) :- DecodeGroups(rest, n - 1, key, typeByte);
      Some((first + more, rest))
  }

  /** The command that makes an empty stream exist. */
  function EmptyStream(key: bytes): Argv {
    [Ascii("xadd"), key, Ascii("MAXLEN"), Ascii("0"), Ascii("0-1"), Ascii("x"), Ascii("y")]
  }

  function SetId(key: bytes, id: bytes): Argv { [Ascii("xsetid"), key, id] }

  /** Everything behind the listpacks. */
  function DecodeTrailer(s: bytes, key: bytes, typeByte: int, empty: bool): Decoded<seq<Argv>> {
    var (_, rest) :- DecodeLength(s);
    var (ms, rest) :- DecodeLength(rest);
    var (seqno, rest) :- DecodeLength(rest);
    var (_, rest) :- SkipLengths(rest, if typeByte >= TYPE_STREAM_2 then 5 else 0);
    var (n, rest) :- DecodeLength(rest);
    var (groups, rest) :- DecodeGroups(rest, Turns(n), key, typeByte);
    Some(((if empty then [EmptyStream(key)] else []) + [SetId(key, IdText(ms, seqno))] + groups, rest))
  }

  /** readStream. */
  function DecodeStream(s: bytes, key: bytes, typeByte: int): Decoded<seq<Argv>> {
    var (n, rest) :- DecodeLength(s);
    var (adds, rest) :- DecodeNodes(rest, Turns(n), key);
    var (trailer, rest) :- DecodeTrailer(rest, key, typeByte, Signed(n, 8) == 0);
    Some((adds + trailer, rest))
  }
}
