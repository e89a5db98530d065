/** rdb/types/list.go: list values as RPUSH commands. */
module RdbList {
  import opened Bytes
  import opened RdbPrimitives
  import opened RdbString
  import Listpack
  import Ziplist

  const TYPE_LIST := 1
  const TYPE_ZIPLIST := 10
  const TYPE_QUICKLIST := 14
  const TYPE_QUICKLIST_2 := 18

  const PLAIN := 1
  const PACKED := 2

  // ---- The decoder: the elements of the list, in order ---------------------------------------

  function DecodeContainer(s: bytes): Decoded<seq<bytes>> {
    var (container, rest) :- DecodeLength(s);
    if container == PLAIN then
      var (element, rest) :- DecodeString(rest);
      Some(([element], rest))
    else if container == PACKED then Listpack.DecodeListpack(rest)
    else None
  }

  function DecodeOne(s: bytes): Decoded<seq<bytes>> {
    var (element, rest) :- DecodeString(s);
    Some(([element], rest))
  }

  /** One piece of a value: an element, a ziplist, or a quicklist container. */
  function DecodePiece(s: bytes, typeByte: int): Decoded<seq<bytes>> {
    if typeByte == TYPE_LIST then DecodeOne(s)
    else if typeByte == TYPE_QUICKLIST then Ziplist.DecodeZiplist(s)
    else DecodeContainer(s)
  }

  function DecodePieces(s: bytes, n: nat, typeByte: int): Decoded<seq<bytes>>
    decreases n
  {
    if n == 0 then Some(([], s))
    else
      var (first, rest) :- DecodePiece(s, typeByte);
      var (more, rest) :- DecodePieces(rest, n - 1, typeByte);
      Some((first + more, rest))
  }

  function DecodeList(s: bytes, typeByte: int): Decoded<seq<bytes>> {
    if typeByte == TYPE_ZIPLIST then Ziplist.DecodeZiplist(s)
    else if typeByte in {TYPE_LIST, TYPE_QUICKLIST, TYPE_QUICKLIST_2} then
      var (n, rest) :- DecodeLength(s);
      DecodePieces(rest, Turns(n), typeByte)
    else None
  }

  function Push(key: bytes, element: bytes): Argv { [Ascii("rpush"), key, element] }

  function Pushes(key: bytes, elements: seq<bytes>): (r: seq<Argv>)
    ensures |r| == |elements|
  {
    seq(|elements|, k requires 0 <= k < |elements| => Push(key, elements[k]))
  }

  /** Without a panic, the channel got one RPUSH for each element and the reader stands behind the value. */
  ghost predicate Pushed(spec: Decoded<seq<bytes>>, key: bytes, ok: bool, was: seq<Argv>, now: seq<Argv>, rest: bytes) {
    match spec
    case None => !ok
    case Some(d) => ok && now == was + Pushes(key, d.0) && rest == d.1
  }

  class ListObject {
    const key: bytes
    const typeByte: int
    const rd: Reader
    var cmdC: seq<Argv>

    constructor (rd: Reader, key: bytes, typeByte: int)
      ensures this.rd == rd && this.key == key && this.typeByte == typeByte && cmdC == []
    {
      this.rd, this.key, this.typeByte, cmdC := rd, key, typeByte, [];
    }

    method Send(elements: seq<bytes>)
      modifies this
      ensures cmdC == old(cmdC) + Pushes(key, elements)
    {
      for i := 0 to |elements|
        invariant cmdC == old(cmdC) + Pushes(key, elements)[..i]
      {
        cmdC := cmdC + [Push(key, elements[i])];
      }
    }

    method ReadPiece() returns (ok: bool)
      requires typeByte in {TYPE_LIST, TYPE_QUICKLIST, TYPE_QUICKLIST_2}
      modifies this, rd
      ensures Pushed(DecodePiece(old(rd.rest), typeByte), key, ok, old(cmdC), cmdC, rd.rest)
    {
      hide DecodeLength, DecodeString, Listpack.DecodeListpack, Ziplist.DecodeZiplist, Push;
      var elements;
      if typeByte == TYPE_LIST {
        var ele := ReadString(rd);
        if ele.None? { return false; }
        elements := Some([ele.value]);
      } else if typeByte == TYPE_QUICKLIST {
        elements := Ziplist.ReadZipList(rd);
      } else {
        var container := ReadLength(rd);
        if container.None? { return false; }
        if container.value == PLAIN {
          var ele := ReadString(rd);
          if ele.None? { return false; }
          elements := Some([ele.value]);
        } else if container.value == PACKED {
          elements := Listpack.ReadListpack(rd);
        } else {
          elements := None;
        }
      }
      if elements.None? { return false; }
      Send(elements.value);
      return true;
    }

    /** readList, readQuickList and readQuickList2 are one loop over pieces. */
    method ReadPieces() returns (ok: bool)
      requires typeByte in {TYPE_LIST, TYPE_QUICKLIST, TYPE_QUICKLIST_2}
      modifies this, rd
      ensures Pushed(DecodeList(old(rd.rest), typeByte), key, ok, old(cmdC), cmdC, rd.rest)
    {
      hide DecodeLength, DecodePiece, Turns, Push;
      var size := ReadLength(rd);
      if size.None? { return false; }
      var n := Turns(size.value);
      ghost var start := rd.rest;
      ghost var done: seq<bytes> := [];
      MoreNothing([], DecodePieces(start, n, typeByte));
      for i := 0 to n
        invariant More(done, DecodePieces(rd.rest, n - i, typeByte)) == DecodePieces(start, n, typeByte)
        invariant cmdC == old(cmdC) + Pushes(key, done)
      {
        ghost var s := rd.rest;
        ok := ReadPiece();
        if !ok { return; }
        ghost var first := DecodePiece(s, typeByte).value.0;
        MoreAppend(done, first, DecodePieces(rd.rest, n - i - 1, typeByte));
        PushesAppend(key, done, first);
        done := done + first;
      }
      MoreNothing(done, Some(([], rd.rest)));
      return true;
    }

    /** Rewrite: the old value goes first, then every element in order. */
    method Rewrite() returns (ok: bool)
      requires cmdC == []
      modifies this, rd
      ensures Pushed(DecodeList(old(rd.rest), typeByte), key, ok, [Delete(key)], cmdC, rd.rest)
    {
      hide DecodeLength, DecodePieces, Ziplist.DecodeZiplist, Push;
      cmdC := cmdC + [Delete(key)];
      if typeByte in {TYPE_LIST, TYPE_QUICKLIST, TYPE_QUICKLIST_2} {
        ok := ReadPieces();
      } else if typeByte == TYPE_ZIPLIST {
        var elements := Ziplist.ReadZipList(rd);
        if elements.None? { return false; }
        Send(elements.value);
        ok := true;
      } else {
        ok := false;
      }
    }
  }

  function More(done: seq<bytes>, d: Decoded<seq<bytes>>): Decoded<seq<bytes>> {
    match d
    case None => None
    case Some((elements, rest)) => Some((done + elements, rest))
  }

  lemma MoreNothing(done: seq<bytes>, d: Decoded<seq<bytes>>)
    ensures More([], d) == d
    ensures d.Some? && d.value.0 == [] ==> More(done, d) == Some((done, d.value.1))
  {
    if d.Some? { assert [] + d.value.0 == d.value.0 && done + [] == done; }
  }

  lemma MoreAppend(done: seq<bytes>, first: seq<bytes>, d: Decoded<seq<bytes>>)
    ensures More(done + first, d) == match d case None => None case Some(x) => Some((done + (first + x.0), x.1))
  {
    if d.Some? { assert done + first + d.value.0 == done + (first + d.value.0); }
  }

  lemma PushesAppend(key: bytes, a: seq<bytes>, b: seq<bytes>)
    ensures Pushes(key, a + b) == Pushes(key, a) + Pushes(key, b)
  {
  }

  // ---- The format ----------------------------------------------------------------------------

  datatype Piece =
    | Element(s: StringForm)
    | Zip(total: nat, tail: nat, zips: seq<Ziplist.Item>, form: StringForm)
    | Plain(s: StringForm)
    | Packed(size: nat, items: seq<Listpack.Item>, form: StringForm)

  predicate ValidPiece(p: Piece) {
    match p
    case Element(s) => ValidString(s)
    case Plain(s) => ValidString(s)
    case Zip(total, tail, zips, form) =>
      && total < Pow256(4) && tail < Pow256(4) && Ziplist.ValidItems(zips) && |zips| < 65535
      && ValidString(form) && StringText(form) == Ziplist.ZiplistText(total, tail, zips)
    case Packed(size, items, form) =>
      && size < Pow256(4) && Listpack.ValidItems(items) && |items| <= 65535
      && ValidString(form) && StringText(form) == Listpack.ListpackText(size, items)
  }

  /** A list value: its type byte, and the pieces it is cut into. */
  datatype ListValue = ListValue(typeByte: int, form: LengthForm, pieces: seq<Piece>)

  predicate PieceFits(p: Piece, typeByte: int) {
    match p
    case Element(_) => typeByte == 1
    case Zip(_, _, _, _) => typeByte == 10 || typeByte == 14
    case Plain(_) => typeByte == 18
    case Packed(_, _, _) => typeByte == 18
  }

  predicate ValidList(v: ListValue) {
    && (forall k :: 0 <= k < |v.pieces| ==> ValidPiece(v.pieces[k]) && PieceFits(v.pieces[k], v.typeByte))
    && v.typeByte in {1, 10, 14, 18}
    && (if v.typeByte == 10 then |v.pieces| == 1
        else FitsForm(|v.pieces|, v.form) && |v.pieces| <= 0x7FFF_FFFF_FFFF_FFFF)
  }

  function PieceElements(p: Piece): seq<bytes>
    requires ValidPiece(p)
  {
    match p
    case Element(s) => [StringText(s)]
    case Plain(s) => [StringText(s)]
    case Zip(_, _, zips, _) => Ziplist.Texts(zips)
    case Packed(_, items, _) => Listpack.Texts(items)
  }

  /** The elements of the list. */
  function ElementsOf(pieces: seq<Piece>): seq<bytes>
    requires forall k :: 0 <= k < |pieces| ==> ValidPiece(pieces[k])
  {
    if pieces == [] then [] else PieceElements(pieces[0]) + ElementsOf(pieces[1..])
  }

  function PutPiece(p: Piece, rest: bytes): bytes
    requires ValidPiece(p)
  {
    match p
    case Element(s) => StringBytes(s) + rest
    case Zip(_, _, _, form) => StringBytes(form) + rest
    case Plain(s) => [1] + (StringBytes(s) + rest)
    case Packed(_, _, form) => [2] + (StringBytes(form) + rest)
  }

  function PutPieces(pieces: seq<Piece>, rest: bytes): bytes
    requires forall k :: 0 <= k < |pieces| ==> ValidPiece(pieces[k])
  {
    if pieces == [] then rest else PutPiece(pieces[0], PutPieces(pieces[1..], rest))
  }

  /** The bytes of a list value, followed by rest. */
  function PutList(v: ListValue, rest: bytes): bytes
    requires ValidList(v)
  {
    if v.typeByte == 10 then PutPieces(v.pieces, rest)
    else LengthBytes(|v.pieces|, v.form) + PutPieces(v.pieces, rest)
  }

  lemma ContainerBack(container: nat, rest: bytes)
    requires container < 0x40
    ensures DecodeLength([container] + rest) == Some((container, rest))
  {
    LengthRoundTrip(container, Len6, rest);
  }

  lemma PieceBack(p: Piece, typeByte: int, rest: bytes)
    requires ValidPiece(p) && PieceFits(p, typeByte) && typeByte != TYPE_ZIPLIST
    ensures DecodePiece(PutPiece(p, rest), typeByte) == Some((PieceElements(p), rest))
  {
    hide DecodeLength, DecodeString, Listpack.DecodeListpack, Ziplist.DecodeZiplist, StringBytes, StringText,
      ValidString, Ziplist.Texts, Listpack.Texts, Ziplist.ZiplistText, Listpack.ListpackText, Pow256;
    match p
    case Element(s) => StringRoundTrip(s, rest);
    case Zip(total, tail, zips, form) => Ziplist.StoredZiplist(form, total, tail, zips, rest);
    case Plain(s) =>
      ContainerBack(PLAIN, StringBytes(s) + rest);
      StringRoundTrip(s, rest);
    case Packed(size, items, form) =>
      ContainerBack(PACKED, StringBytes(form) + rest);
      Listpack.StoredListpack(form, size, items, rest);
  }

  lemma {:induction false} PiecesBack(pieces: seq<Piece>, typeByte: int, rest: bytes)
    requires forall k :: 0 <= k < |pieces| ==> ValidPiece(pieces[k]) && PieceFits(pieces[k], typeByte)
    requires typeByte != TYPE_ZIPLIST
    ensures DecodePieces(PutPieces(pieces, rest), |pieces|, typeByte) == Some((ElementsOf(pieces), rest))
    decreases pieces
  {
    hide DecodePiece, PutPiece, ValidPiece, PieceElements;
    if pieces != [] {
      PieceBack(pieces[0], typeByte, PutPieces(pieces[1..], rest));
      PiecesBack(pieces[1..], typeByte, rest);
    }
  }

  /** Every way of writing a list decodes to its elements and is consumed exactly. */
  lemma ListRoundTrip(v: ListValue, rest: bytes)
    requires ValidList(v)
    ensures DecodeList(PutList(v, rest), v.typeByte) == Some((ElementsOf(v.pieces), rest))
  {
    hide DecodeLength, DecodePieces, LengthBytes, FitsForm, Turns, ValidPiece, PieceElements, PutPiece,
      Ziplist.DecodeZiplist;
    if v.typeByte == TYPE_ZIPLIST {
      var p := v.pieces[0];
      ZipBack(p, rest);
      assert v.pieces[1..] == [];
      assert PutPieces(v.pieces, rest) == PutPiece(p, PutPieces([], rest)) == PutPiece(p, rest);
      assert ElementsOf(v.pieces) == PieceElements(p) + [] == PieceElements(p);
    } else {
      LengthRoundTrip(|v.pieces|, v.form, PutPieces(v.pieces, rest));
      TurnsSmall(|v.pieces|);
      PiecesBack(v.pieces, v.typeByte, rest);
    }
  }

  lemma ZipBack(p: Piece, rest: bytes)
    requires ValidPiece(p) && PieceFits(p, TYPE_ZIPLIST)
    ensures Ziplist.DecodeZiplist(PutPiece(p, rest)) == Some((PieceElements(p), rest))
  {
    Ziplist.StoredZiplist(p.form, p.total, p.tail, p.zips, rest);
  }

  // ---- What the commands do ------------------------------------------------------------------

  /** A key that is missing or holds a list, under DEL and RPUSH. */
  function Execute(state: Option<seq<bytes>>, argv: Argv, key: bytes): Option<seq<bytes>> {
    if |argv| == 2 && argv[0] == Ascii("del") && argv[1] == key then None
    else if |argv| == 3 && argv[..2] == [Ascii("rpush"), key] then
      Some((if state.None? then [] else state.value) + [argv[2]])
    else state
  }

  function ExecuteAll(state: Option<seq<bytes>>, argvs: seq<Argv>, key: bytes): Option<seq<bytes>>
    decreases argvs
  {
    if argvs == [] then state else ExecuteAll(Execute(state, argvs[0], key), argvs[1..], key)
  }

  lemma {:induction false} PushesBuild(state: seq<bytes>, key: bytes, elements: seq<bytes>)
    requires state != [] || elements != []
    ensures ExecuteAll(if state == [] then None else Some(state), Pushes(key, elements), key) == Some(state + elements)
    decreases elements
  {
    if elements == [] {
      assert state + [] == state;
    } else {
      var argvs := Pushes(key, elements);
      var next := state + [elements[0]];
      assert argvs[0][..2] == [Ascii("rpush"), key] && |Delete(key)| == 2;
      assert argvs[1..] == Pushes(key, elements[1..]);
      PushesBuild(next, key, elements[1..]);
      assert next + elements[1..] == state + elements;
      assert [] + [elements[0]] == [elements[0]];
    }
  }

  /** Whatever the key held before, running what Rewrite sends leaves exactly the stored list, and
      decoding has consumed exactly the value. */
  lemma ListRebuilt(v: ListValue, key: bytes, rest: bytes, before: Option<seq<bytes>>)
    requires ValidList(v)
    ensures var d := DecodeList(PutList(v, rest), v.typeByte);
            && d.Some? && d.value.1 == rest
            && var elements := ElementsOf(v.pieces);
               ExecuteAll(before, [Delete(key)] + Pushes(key, d.value.0), key) ==
               if elements == [] then None else Some(elements)
  {
    hide DecodeList, PutList, ElementsOf, ValidPiece;
    ListRoundTrip(v, rest);
    var elements := ElementsOf(v.pieces);
    var argvs := Pushes(key, elements);
    assert ([Delete(key)] + argvs)[1..] == argvs;
    assert Execute(before, Delete(key), key) == None;
    if elements != [] {
      PushesBuild([], key, elements);
      assert [] + elements == elements;
    }
  }

  /** A quicklist node that is neither plain nor packed panics. */
  lemma UnknownContainer(container: nat, rest: bytes)
    requires container < 0x40 && container != 1 && container != 2
    ensures DecodePiece([container] + rest, 18) == None
  {
    hide DecodeLength;
    ContainerBack(container, rest);
  }
}
