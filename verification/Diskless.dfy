/** receiveRDBWithDiskless of sync_standalone_reader.go: finding a 40-byte end marker in a stream that
 arrives in pieces, with one buffer that is read into, written from and carried over in place. */
module Diskless {
  import opened Bytes

  const MARKER_LEN := 40

  predicate EndsWith(s: bytes, marker: bytes) {
    |marker| <= |s| && s[|s| - |marker|..] == marker
  }

  /** What is written when the stream seen so far continues in these pieces; None when the connection
      ends before a piece that completes the marker. */
  function Receive(seen: bytes, chunks: seq<bytes>, marker: bytes): Option<bytes>
    decreases chunks
  {
    if chunks == [] then None
    else
      var now := seen + chunks[0];
      if EndsWith(now, marker) then Some(now[..|now| - |marker|]) else Receive(now, chunks[1..], marker)
  }

  function Carry(seen: bytes): nat { if |seen| < MARKER_LEN then |seen| else MARKER_LEN }

  /** Read never returns more than the room it was given. */
  predicate Fits(seen: bytes, chunks: seq<bytes>, size: nat)
    decreases chunks
  {
    chunks == [] || (Carry(seen) + |chunks[0]| <= size && Fits(seen + chunks[0], chunks[1..], size))
  }

  /** copy(buf, lastBytes), where lastBytes is a slice of buf itself. */
  method CopyDown(buf: array<byte>, from: nat, n: nat)
    requires from + n <= buf.Length
    modifies buf
    ensures buf[..n] == old(buf[from..from + n])
  {
    for k := 0 to n
      invariant buf[..k] == old(buf[from..from + k])
      invariant forall m :: k <= m < buf.Length ==> buf[m] == old(buf[m])
    {
      buf[k] := buf[from + k];
    }
  }

  /** client.Read into the buffer behind what was carried over. */
  method Read(buf: array<byte>, at: nat, chunk: bytes)
    requires at + |chunk| <= buf.Length
    modifies buf
    ensures buf[..at + |chunk|] == old(buf[..at]) + chunk
  {
    for k := 0 to |chunk|
      invariant buf[..at + k] == old(buf[..at]) + chunk[..k]
    {
      buf[at + k] := chunk[k];
    }
  }

  /** One read into the buffer: what is written now, and the slice carried over. */
  method Turn(buf: array<byte>, lastFrom: nat, lastLen: nat, chunk: bytes, marker: bytes)
    returns (out: bytes, from: nat, len: nat, done: bool)
    requires |marker| == MARKER_LEN && lastFrom + lastLen <= buf.Length && lastLen + |chunk| <= buf.Length
    modifies buf
    ensures from + len <= buf.Length && len == if lastLen + |chunk| < MARKER_LEN then lastLen + |chunk| else MARKER_LEN
    ensures out + buf[from..from + len] == old(buf[lastFrom..lastFrom + lastLen]) + chunk
    ensures done <==> buf[from..from + len] == marker
  {
    Fill(buf, lastFrom, lastLen, chunk);
    var bufLen := lastLen + |chunk|;
    if bufLen < MARKER_LEN { return [], 0, bufLen, false; }
    out, from, len := buf[..bufLen - MARKER_LEN], bufLen - MARKER_LEN, MARKER_LEN;
    TwoSlices(buf, from, bufLen);
    done := buf[from..from + len] == marker;
  }

  /** The carried slice moves to the front, and the next piece is read behind it. */
  method Fill(buf: array<byte>, lastFrom: nat, lastLen: nat, chunk: bytes)
    requires lastFrom + lastLen <= buf.Length && lastLen + |chunk| <= buf.Length
    modifies buf
    ensures buf[..lastLen + |chunk|] == old(buf[lastFrom..lastFrom + lastLen]) + chunk
  {
    CopyDown(buf, lastFrom, lastLen);
    Read(buf, lastLen, chunk);
  }

  lemma TwoSlices(buf: array<byte>, k: nat, n: nat)
    requires k <= n <= buf.Length
    ensures buf[..k] + buf[k..n] == buf[..n]
  {
  }

  /** The receive loop: lastBytes is kept as the bounds of a slice of buf. */
  method ReceiveRdb(chunks: seq<bytes>, marker: bytes, size: nat) returns (written: Option<bytes>)
    requires Fits([], chunks, size)
    ensures written == if |marker| == MARKER_LEN then Receive([], chunks, marker) else None
  {
    if |marker| != MARKER_LEN { return None; }
    hide Receive, Fits, EndsWith;
    var buf := new byte[size];
    var lastFrom: nat, lastLen: nat := 0, 0;
    var wt: bytes := [];
    ghost var seen: bytes := [];
    assert chunks[0..] == chunks;
    for i := 0 to |chunks|
      invariant lastFrom + lastLen <= buf.Length == size && lastLen == Carry(seen)
      invariant wt + buf[lastFrom..lastFrom + lastLen] == seen
      invariant Receive([], chunks, marker) == Receive(seen, chunks[i..], marker)
      invariant Fits(seen, chunks[i..], size)
    {
      ReceiveStep(seen, chunks, i, marker, size);
      ghost var carry, now := buf[lastFrom..lastFrom + lastLen], seen + chunks[i];
      var out, done;
      out, lastFrom, lastLen, done := Turn(buf, lastFrom, lastLen, chunks[i], marker);
      MarkerTest(wt, carry, chunks[i], out, buf[lastFrom..lastFrom + lastLen], marker);
      wt := wt + out;
      if done { return Some(wt); }
      seen := now;
    }
    NoMore(seen, marker);
    assert chunks[|chunks|..] == [];
    return None;
  }

  lemma Together(wt: bytes, carry: bytes, chunk: bytes)
    ensures wt + (carry + chunk) == wt + carry + chunk
  {
  }

  lemma ReceiveStep(seen: bytes, chunks: seq<bytes>, i: nat, marker: bytes, size: nat)
    requires i < |chunks| && Fits(seen, chunks[i..], size)
    ensures Carry(seen) + |chunks[i]| <= size && Fits(seen + chunks[i], chunks[i + 1..], size)
    ensures var now := seen + chunks[i];
            Receive(seen, chunks[i..], marker) ==
            if EndsWith(now, marker) then Some(now[..|now| - |marker|]) else Receive(now, chunks[i + 1..], marker)
  {
    assert chunks[i..][0] == chunks[i] && chunks[i..][1..] == chunks[i + 1..];
  }

  lemma NoMore(seen: bytes, marker: bytes)
    ensures Receive(seen, [], marker) == None
  {
  }

  /** Looking at the slice carried over is looking at the whole stream: one shorter than 40 bytes is
      all there is. */
  lemma MarkerTest(wt: bytes, carry: bytes, chunk: bytes, out: bytes, back: bytes, marker: bytes)
    requires |marker| == MARKER_LEN && out + back == carry + chunk && |back| == Carry(wt + carry + chunk)
    ensures wt + out + back == wt + carry + chunk
    ensures EndsWith(wt + carry + chunk, marker) <==> back == marker
    ensures back == marker ==> (wt + carry + chunk)[..|wt + carry + chunk| - |marker|] == wt + out
  {
    Together(wt, carry, chunk);
    Together(wt, out, back);
    var all := wt + out + back;
    assert all[|all| - |back|..] == back && all[..|all| - |back|] == wt + out;
  }

  // ---- Correctness ---------------------------------------------------------------------------

  /** No boundary between pieces, before the end of the stream, falls behind an occurrence of the marker. */
  predicate NoEarlyEnd(seen: bytes, chunks: seq<bytes>, marker: bytes)
    decreases chunks
  {
    Flatten(chunks) == [] || chunks == [] ||
    ((EndsWith(seen + chunks[0], marker) ==> Flatten(chunks[1..]) == [])
     && NoEarlyEnd(seen + chunks[0], chunks[1..], marker))
  }

  lemma FlattenOne(seen: bytes, chunks: seq<bytes>)
    requires chunks != []
    ensures seen + chunks[0] + Flatten(chunks[1..]) == seen + Flatten(chunks)
  {
  }

  lemma {:induction false} ReceiveFrom(seen: bytes, chunks: seq<bytes>, payload: bytes, marker: bytes)
    requires |marker| > 0 && seen + Flatten(chunks) == payload + marker && |seen| < |payload| + |marker|
    ensures Receive(seen, chunks, marker).Some?
    ensures Receive(seen, chunks, marker) == Some(payload) <==> NoEarlyEnd(seen, chunks, marker)
    ensures Receive(seen, chunks, marker).value <= payload
    decreases chunks
  {
    assert chunks != [];
    var now, later := seen + chunks[0], Flatten(chunks[1..]);
    FlattenOne(seen, chunks);
    assert now + later == payload + marker;
    WholeEnds(payload, marker);
    assert later == [] ==> now == payload + marker;
    if EndsWith(now, marker) {
      var out := now[..|now| - |marker|];
      assert out <= payload by {
        assert now == (payload + marker)[..|now|];
        assert out == payload[..|out|];
      }
      if later == [] {
        assert out == payload;
        Quiet(now, chunks[1..], marker);
      }
    } else {
      ReceiveFrom(now, chunks[1..], payload, marker);
    }
  }

  lemma WholeEnds(payload: bytes, marker: bytes)
    ensures EndsWith(payload + marker, marker)
  {
  }

  lemma Quiet(seen: bytes, chunks: seq<bytes>, marker: bytes)
    requires Flatten(chunks) == []
    ensures NoEarlyEnd(seen, chunks, marker)
  {
  }

  /** However payload and marker are cut into reads, a prefix of the payload is written, and it is the
      whole payload exactly when no earlier read boundary falls behind an occurrence of the marker. */
  lemma PayloadRecovered(chunks: seq<bytes>, payload: bytes, marker: bytes)
    requires |marker| == 40 && Flatten(chunks) == payload + marker
    ensures Receive([], chunks, marker).Some? && Receive([], chunks, marker).value <= payload
    ensures Receive([], chunks, marker) == Some(payload) <==> NoEarlyEnd([], chunks, marker)
  {
    assert [] + Flatten(chunks) == Flatten(chunks);
    ReceiveFrom([], chunks, payload, marker);
  }

  /** The marker occurs in the stream only where it ends. */
  ghost predicate OnlyAtEnd(stream: bytes, marker: bytes) {
    forall n :: 0 <= n < |stream| ==> !EndsWith(stream[..n], marker)
  }

  /** Then no read boundary before the end falls behind it. */
  lemma {:induction false} NoneEarly(seen: bytes, chunks: seq<bytes>, stream: bytes, marker: bytes)
    requires seen + Flatten(chunks) == stream && OnlyAtEnd(stream, marker)
    ensures NoEarlyEnd(seen, chunks, marker)
    decreases chunks
  {
    if chunks != [] {
      var now := seen + chunks[0];
      FlattenOne(seen, chunks);
      assert now + Flatten(chunks[1..]) == stream;
      NoneEarly(now, chunks[1..], stream, marker);
      assert now == stream[..|now|];
    }
  }

  lemma TwoPieces(a: bytes, b: bytes)
    ensures Flatten([a, b]) == a + b
  {
    var chunks: seq<bytes> := [a, b];
    var last: seq<bytes> := chunks[1..];
    assert last == [b] && last[1..] == [];
    assert Flatten(last) == b + [] == b;
  }

  /** A read that ends in the marker ends the payload there, whatever follows. */
  lemma StopsAt(a: bytes, b: bytes, marker: bytes)
    requires EndsWith(a, marker)
    ensures Flatten([a, b]) == a + b
    ensures Receive([], [a, b], marker) == Some(a[..|a| - |marker|])
  {
    hide Flatten, EndsWith;
    TwoPieces(a, b);
    var chunks: seq<bytes> := [a, b];
    assert [] + chunks[0] == a;
  }

  /** Every cutting of payload and marker yields the payload if and only if the marker occurs in the two of
      them only where they end. */
  lemma EveryCutting(payload: bytes, marker: bytes)
    requires |marker| == MARKER_LEN
    ensures (forall chunks {:trigger Receive([], chunks, marker)} ::
              Flatten(chunks) == payload + marker ==> Receive([], chunks, marker) == Some(payload))
            <==> OnlyAtEnd(payload + marker, marker)
  {
    var stream := payload + marker;
    if OnlyAtEnd(stream, marker) {
      forall chunks | Flatten(chunks) == stream ensures Receive([], chunks, marker) == Some(payload) {
        assert [] + Flatten(chunks) == stream;
        NoneEarly([], chunks, stream, marker);
        PayloadRecovered(chunks, payload, marker);
      }
    } else {
      var n :| 0 <= n < |stream| && EndsWith(stream[..n], marker);
      var chunks := [stream[..n], stream[n..]];
      StopsAt(stream[..n], stream[n..], marker);
      assert stream[..n] + stream[n..] == stream;
      assert Receive([], chunks, marker) != Some(payload);
    }
  }

  /** A payload that holds the marker is cut off if a read ends there. */
  lemma StopsEarly(before: bytes, after: bytes, marker: bytes)
    requires |marker| == MARKER_LEN
    ensures var payload := before + marker + after;
            Receive([], [before + marker, after + marker], marker) == Some(before) && before != payload
            && Flatten([before + marker, after + marker]) == payload + marker
  {
    hide Receive, Flatten;
    WholeEnds(before, marker);
    StopsAt(before + marker, after + marker, marker);
    assert before + marker + after + marker == before + marker + (after + marker);
    assert (before + marker)[..|before|] == before;
  }

  /** Without holding the marker, too: one byte in front of a marker of forty such bytes, read in two pieces. */
  lemma StopsEarlyOverlapping(x: byte)
    ensures var marker := seq(MARKER_LEN, _ => x);
            Receive([], [marker, [x]], marker) == Some([]) && Flatten([marker, [x]]) == [x] + marker
  {
    var marker := seq(MARKER_LEN, _ => x);
    StopsAt(marker, [x], marker);
    assert [x] + marker == marker + [x];
  }
}
