/** Slot assignment and routing: utils/cluster_nodes.go and writer/redis_cluster_writer.go. */
module Cluster {
  import opened Bytes
  import opened Decimal
  import opened Slots

  const DASH: byte := 45
  const BRACKET: byte := 91

  // ---- Slot words of one line of CLUSTER NODES -----------------------------------------------

  /** One word as the pair (start, end): the first two parts around dashes, or one number twice. */
  function WordRange(word: bytes): Option<(int, int)> {
    var k := Find(DASH, word);
    var first := word[..k];
    var rest := if k < |word| then word[k + 1..] else first;
    var second := if k < |word| then rest[..Find(DASH, rest)] else first;
    match (ParseInt(first), ParseInt(second))
    case (Some(a), Some(b)) => Some((a, b))
    case _ => None
  }

  function Range(a: int, b: int): (r: seq<int>)
    ensures |r| == if a <= b then b - a + 1 else 0
    ensures forall k :: 0 <= k < |r| ==> r[k] == a + k
    decreases b - a + 1
  {
    if b < a then [] else Range(a, b - 1) + [b]
  }

  /** The slots a list of words names; the words from the first bracketed one on are ignored. */
  function WordSlots(words: seq<bytes>): Option<seq<int>> {
    if words == [] || (words[0] != [] && words[0][0] == BRACKET) then Some([])
    else match WordRange(words[0])
      case None => None
      case Some(r) =>
        match WordSlots(words[1..])
        case None => None
        case Some(more) => Some(Range(r.0, r.1) + more)
  }

  /** The inner loops of GetRedisClusterNodes; None is the panic on a malformed number. */
  method ParseSlots(words: seq<bytes>, count: int) returns (slots: Option<seq<int>>, slotsCount: int)
    ensures slots == WordSlots(words)
    ensures slots.Some? ==> slotsCount == count + |slots.value|
  {
    hide WordRange, WordSlots;
    var slot: seq<int> := [];
    assert words[0..] == words;
    PrependNothing(WordSlots(words));
    slotsCount := count;
    var i := 0;
    while i < |words| && !(words[i] != [] && words[i][0] == BRACKET)
      invariant 0 <= i <= |words| && slotsCount == count + |slot|
      invariant WordSlots(words) == Prepend(slot, WordSlots(words[i..]))
    {
      var range := WordRange(words[i]);
      OneWord(words, i);
      if range.None? { return None, 0; }
      var (start, end) := range.value;
      ghost var before := slot;
      var j := start;
      while j <= end
        invariant start <= j && (j <= end + 1 || j == start)
        invariant slot == before + Range(start, j - 1)
        invariant slotsCount == count + |slot|
        decreases end - j + 1
      {
        slot, slotsCount := slot + [j], slotsCount + 1;
        j := j + 1;
      }
      assert Range(start, j - 1) == Range(start, end);
      PrependTwice(before, Range(start, end), WordSlots(words[i + 1..]));
      i := i + 1;
    }
    slots := Some(slot);
    NoMoreWords(words, i);
    assert slot + [] == slot;
  }

  lemma NoMoreWords(words: seq<bytes>, i: nat)
    requires i <= |words| && (i < |words| ==> words[i] != [] && words[i][0] == BRACKET)
    ensures WordSlots(words[i..]) == Some([])
  {
  }

  lemma OneWord(words: seq<bytes>, i: nat)
    requires i < |words| && !(words[i] != [] && words[i][0] == BRACKET)
    ensures WordRange(words[i]).None? ==> WordSlots(words[i..]) == None
    ensures WordRange(words[i]).Some? ==>
              WordSlots(words[i..]) ==
              Prepend(Range(WordRange(words[i]).value.0, WordRange(words[i]).value.1), WordSlots(words[i + 1..]))
  {
    hide WordRange;
    assert words[i..][0] == words[i] && words[i..][1..] == words[i + 1..];
  }

  lemma PrependNothing(rest: Option<seq<int>>)
    ensures Prepend([], rest) == rest
  {
    if rest.Some? { assert [] + rest.value == rest.value; }
  }

  function Prepend(front: seq<int>, rest: Option<seq<int>>): Option<seq<int>> {
    if rest.None? then None else Some(front + rest.value)
  }

  lemma PrependTwice(a: seq<int>, b: seq<int>, rest: Option<seq<int>>)
    ensures Prepend(a + b, rest) == Prepend(a, Prepend(b, rest))
  {
    if rest.Some? { assert a + b + rest.value == a + (b + rest.value); }
  }

  /** A range word a-b names the slots a, .., b, and a plain number names itself. */
  lemma {:induction false} RangeWord(a: int64, b: int64)
    requires 0 <= a <= b
    ensures WordRange(Itoa(a) + [45] + Itoa(b)) == Some((a, b))
    ensures WordRange(Itoa(a)) == Some((a, a))
  {
    hide ParseInt, Itoa;
    var word := Itoa(a) + [DASH] + Itoa(b);
    NoDash(a);
    NoDash(b);
    ParseItoa(a);
    ParseItoa(b);
    var k := Find(DASH, word);
    forall m | 0 <= m < |Itoa(a)| ensures word[m] != DASH { assert word[m] == Itoa(a)[m]; }
    assert word[|Itoa(a)|] == DASH;
    assert k == |Itoa(a)| && word[..k] == Itoa(a) && word[k + 1..] == Itoa(b);
    assert Find(DASH, Itoa(b)) == |Itoa(b)| && Find(DASH, Itoa(a)) == |Itoa(a)|;
    assert Itoa(a)[..|Itoa(a)|] == Itoa(a) && Itoa(b)[..|Itoa(b)|] == Itoa(b);
  }

  /** How a node's slots are written: single slots and ranges. */
  function RangeText(r: (int, int)): bytes { if r.0 == r.1 then Itoa(r.0) else Itoa(r.0) + [45] + Itoa(r.1) }

  function RangeTexts(ranges: seq<(int, int)>): seq<bytes> {
    if ranges == [] then [] else [RangeText(ranges[0])] + RangeTexts(ranges[1..])
  }

  predicate Ranges(ranges: seq<(int, int)>) {
    forall k :: 0 <= k < |ranges| ==> 0 <= ranges[k].0 <= ranges[k].1 <= MAX_INT64
  }

  /** The words of a line name exactly the slots of its ranges, in order, and nothing of a slot on its way from
      or to another node, which is written in brackets behind them. */
  lemma {:induction false} LineNames(ranges: seq<(int, int)>, moving: seq<bytes>)
    requires Ranges(ranges) && (moving != [] ==> moving[0] != [] && moving[0][0] == 91)
    ensures WordSlots(RangeTexts(ranges) + moving).Some?
    ensures forall slot :: slot in WordSlots(RangeTexts(ranges) + moving).value <==>
              exists k :: 0 <= k < |ranges| && ranges[k].0 <= slot <= ranges[k].1
    decreases ranges
  {
    hide WordRange, Itoa, Range;
    var words := RangeTexts(ranges) + moving;
    if ranges == [] {
      assert words == moving;
    } else {
      var r := ranges[0];
      RangeWord(r.0, r.1);
      LineNames(ranges[1..], moving);
      assert words[0] == RangeText(r) && words[1..] == RangeTexts(ranges[1..]) + moving;
      NotBracketed(r);
      RangeHolds(r.0, r.1);
      var more := WordSlots(words[1..]).value;
      assert WordSlots(words) == Some(Range(r.0, r.1) + more);
      forall slot
        ensures slot in Range(r.0, r.1) + more <==> exists k :: 0 <= k < |ranges| && ranges[k].0 <= slot <= ranges[k].1
      {
        if slot in more {
          var k :| 0 <= k < |ranges[1..]| && ranges[1..][k].0 <= slot <= ranges[1..][k].1;
          assert ranges[k + 1] == ranges[1..][k];
        }
        if k :| 0 < k < |ranges| && ranges[k].0 <= slot <= ranges[k].1 {
          assert ranges[1..][k - 1] == ranges[k];
        }
      }
    }
  }

  lemma NotBracketed(r: (int, int))
    ensures RangeText(r) != [] && RangeText(r)[0] != 91
  {
    hide Digits;
    assert RangeText(r)[0] == Itoa(r.0)[0];
  }

  lemma RangeHolds(a: int, b: int)
    ensures forall slot :: slot in Range(a, b) <==> a <= slot <= b
  {
    var r := Range(a, b);
    forall slot | a <= slot <= b ensures slot in r { assert r[slot - a] == slot; }
  }

  lemma NoDash(n: nat)
    ensures DASH !in Itoa(n)
  {
  }

  // ---- The router ----------------------------------------------------------------------------

  datatype Load = Loaded | OutOfRange(slot: int) | Occupied(slot: int) | NotOccupied(slot: int)

  /** All slots of all nodes, one after another. */
  function All(slots: seq<seq<int>>): seq<int> {
    if slots == [] then [] else slots[0] + All(slots[1..])
  }

  predicate InRange(s: seq<int>) {
    forall k :: 0 <= k < |s| ==> 0 <= s[k] < KEY_SLOTS
  }

  predicate Distinct(s: seq<int>) {
    forall a, b :: 0 <= a < b < |s| ==> s[a] != s[b]
  }

  /** Exactly the slots in done are routed, each to a node that has it. */
  ghost predicate Routes(router: seq<int>, slots: seq<seq<int>>, done: seq<int>) {
    && |router| == KEY_SLOTS
    && forall s {:trigger router[s]} :: 0 <= s < KEY_SLOTS ==>
         if s in done then 0 <= router[s] < |slots| && s in slots[router[s]] else router[s] == -1
  }

  lemma NothingDone(router: seq<int>, slots: seq<seq<int>>)
    requires |router| == KEY_SLOTS && forall s :: 0 <= s < KEY_SLOTS ==> router[s] == -1
    ensures Routes(router, slots, []) && InRange([]) && Distinct([]) && All([]) == []
  {
  }

  lemma AllFrom(slots: seq<seq<int>>, i: nat)
    requires i < |slots|
    ensures All(slots[i..]) == slots[i] + All(slots[i + 1..])
  {
    assert slots[i..][1..] == slots[i + 1..];
  }

  lemma RoutesGrow(router: seq<int>, slots: seq<seq<int>>, done: seq<int>, s: int, node: nat)
    requires Routes(router, slots, done) && 0 <= s < KEY_SLOTS && node < |slots| && s in slots[node]
    ensures Routes(router[s := node], slots, done + [s])
  {
  }

  lemma Routed(router: seq<int>, slots: seq<seq<int>>, done: seq<int>, s: int)
    requires Routes(router, slots, done) && 0 <= s < |router|
    ensures |router| == KEY_SLOTS && (router[s] != -1 <==> s in done)
  {
  }

  lemma DistinctGrow(done: seq<int>, s: int)
    requires InRange(done) && Distinct(done) && s !in done && 0 <= s < KEY_SLOTS
    ensures InRange(done + [s]) && Distinct(done + [s])
  {
  }

  lemma NotDistinct(done: seq<int>, s: int, rest: seq<int>)
    requires s in done
    ensures !Distinct(done + ([s] + rest))
  {
    var k :| 0 <= k < |done| && done[k] == s;
    var all := done + ([s] + rest);
    assert all[k] == all[|done|];
  }

  lemma NotInRange(done: seq<int>, s: int, rest: seq<int>)
    requires s < 0 || KEY_SLOTS <= s
    ensures !InRange(done + ([s] + rest))
  {
    assert (done + ([s] + rest))[|done|] == s;
  }

  class ClusterWriter {
    /** The node each slot is sent to, -1 for none. */
    const router: array<int>
    var writers: nat

    constructor ()
      ensures fresh(router) && router.Length == KEY_SLOTS && writers == 0
      ensures forall s :: 0 <= s < KEY_SLOTS ==> router[s] == -1
    {
      router := new int[KEY_SLOTS](s => -1);
      writers := 0;
    }

    /** loadClusterNodes: fill the router, refuse a slot given twice, then look for a hole. */
    method LoadClusterNodes(slots: seq<seq<int>>) returns (r: Load)
      requires writers == 0 && router.Length == KEY_SLOTS
      requires forall s :: 0 <= s < KEY_SLOTS ==> router[s] == -1
      modifies this`writers, router
      ensures r.Loaded? || r.NotOccupied? <==> InRange(All(slots)) && Distinct(All(slots))
      ensures r.Loaded? ==> writers == |slots| && Routes(router[..], slots, All(slots)) && -1 !in router[..]
      ensures r.NotOccupied? ==> 0 <= r.slot < KEY_SLOTS && r.slot !in All(slots)
      ensures r.OutOfRange? ==> r.slot in All(slots) && !(0 <= r.slot < KEY_SLOTS)
      ensures r.Occupied? ==> !Distinct(All(slots))
    {
      hide Routes, InRange, Distinct, All;
      ghost var done: seq<int> := [];
      NothingDone(router[..], slots);
      for i := 0 to |slots|
        invariant writers == i
        invariant router.Length == KEY_SLOTS
        invariant All(slots) == done + All(slots[i..])
        invariant Routes(router[..], slots, done) && InRange(done) && Distinct(done)
      {
        writers := writers + 1;
        ghost var later := All(slots[i + 1..]);
        AllFrom(slots, i);
        assert slots[i][0..] == slots[i];
        for j := 0 to |slots[i]|
          invariant writers == i + 1
          invariant All(slots) == done + (slots[i][j..] + later)
          invariant Routes(router[..], slots, done) && InRange(done) && Distinct(done)
        {
          var s := slots[i][j];
          ghost var rest := slots[i][j + 1..] + later;
          assert slots[i][j..] + later == [s] + rest;
          assert s in slots[i];
          if s < 0 || KEY_SLOTS <= s {
            NotInRange(done, s, rest);
            assert All(slots)[|done|] == s;
            return OutOfRange(s);
          }
          Routed(router[..], slots, done, s);
          if router[s] != -1 {
            NotDistinct(done, s, rest);
            return Occupied(s);
          }
          RoutesGrow(router[..], slots, done, s, i);
          DistinctGrow(done, s);
          ghost var before := router[..];
          router[s] := i;
          assert router[..] == before[s := i];
          assert done + ([s] + rest) == (done + [s]) + rest;
          done := done + [s];
        }
        assert slots[i][|slots[i]|..] + later == later;
      }
      assert slots[|slots|..] == [] && slots[0..] == slots;
      assert done + [] == done;
      for i := 0 to KEY_SLOTS
        invariant Routes(router[..], slots, done) && writers == |slots|
        invariant forall s :: 0 <= s < i ==> router[..][s] != -1
      {
        Routed(router[..], slots, done, i);
        if router[i] == -1 { return NotOccupied(i); }
      }
      return Loaded;
    }

    /** Write: every node for an entry without keys, else the node of the one slot, else a panic. */
    method Write(entrySlots: seq<int>) returns (sent: Option<seq<int>>)
      requires InRange(entrySlots) && router.Length == KEY_SLOTS
      ensures entrySlots == [] ==> sent == Some(Range(0, writers - 1))
      ensures entrySlots != [] ==>
                sent == if OneSlot(entrySlots) then Some([router[entrySlots[0]]]) else None
    {
      if |entrySlots| == 0 {
        var nodes: seq<int> := [];
        for n := 0 to writers
          invariant nodes == Range(0, n - 1)
        {
          nodes := nodes + [n];
        }
        return Some(nodes);
      }
      var lastSlot := -1;
      for k := 0 to |entrySlots|
        invariant lastSlot == if k == 0 then -1 else entrySlots[0]
        invariant forall m :: 0 <= m < k ==> entrySlots[m] == entrySlots[0]
      {
        if lastSlot == -1 { lastSlot := entrySlots[k]; }
        if entrySlots[k] != lastSlot { return None; }
      }
      return Some([router[lastSlot]]);
    }
  }

  predicate OneSlot(entrySlots: seq<int>)
    requires entrySlots != []
  {
    forall k :: 0 <= k < |entrySlots| ==> entrySlots[k] == entrySlots[0]
  }

  // ---- Counting ------------------------------------------------------------------------------

  function Below(n: nat): (r: set<int>)
    ensures |r| == n && forall s :: s in r <==> 0 <= s < n
  {
    if n == 0 then {} else Below(n - 1) + {n - 1}
  }

  function Elements(s: seq<int>): (r: set<int>)
    ensures forall x :: x in r <==> x in s
  {
    set x | x in s
  }

  lemma {:induction false} DistinctCount(s: seq<int>)
    requires Distinct(s)
    ensures |Elements(s)| == |s|
  {
    if s != [] {
      var front := s[..|s| - 1];
      DistinctCount(front);
      assert s[|s| - 1] !in front;
      assert s == front + [s[|s| - 1]];
      assert Elements(s) == Elements(front) + {s[|s| - 1]};
    } else {
      assert Elements(s) == {};
    }
  }

  lemma SubsetSameSize(a: set<int>, b: set<int>)
    requires a <= b && |a| == |b|
    ensures a == b
  {
    assert b * a == a;
    assert |b - a| == 0;
    assert b - a == {};
  }

  /** 16384 slots, all in range and none given twice, leave no slot unassigned. */
  lemma {:induction false} NoHole(all: seq<int>, s: int)
    requires |all| == KEY_SLOTS && InRange(all) && Distinct(all) && 0 <= s < KEY_SLOTS
    ensures s in all
  {
    DistinctCount(all);
    SubsetSameSize(Elements(all), Below(KEY_SLOTS));
    assert s in Elements(all);
  }

  /** A slot that two nodes name is a repetition in the flat list. */
  lemma {:induction false} TwoOwners(slots: seq<seq<int>>, a: nat, b: nat, s: int)
    requires a < b < |slots| && s in slots[a] && s in slots[b]
    ensures !Distinct(All(slots))
  {
    if a > 0 {
      TwoOwners(slots[1..], a - 1, b - 1, s);
      RepetitionStays(slots[0], All(slots[1..]));
    } else {
      InAll(slots[1..], b - 1, s);
      Repetition(slots[0], All(slots[1..]), s);
    }
  }

  lemma Repetition(a: seq<int>, b: seq<int>, s: int)
    requires s in a && s in b
    ensures !Distinct(a + b)
  {
    var k :| 0 <= k < |a| && a[k] == s;
    var m :| 0 <= m < |b| && b[m] == s;
    var all := a + b;
    assert all[k] == all[|a| + m];
  }

  lemma RepetitionStays(a: seq<int>, b: seq<int>)
    requires !Distinct(b)
    ensures !Distinct(a + b)
  {
    var i, j :| 0 <= i < j < |b| && b[i] == b[j];
    var all := a + b;
    assert all[|a| + i] == all[|a| + j];
  }

  lemma {:induction false} InAll(slots: seq<seq<int>>, n: nat, s: int)
    requires n < |slots| && s in slots[n]
    ensures s in All(slots)
  {
    if n > 0 { InAll(slots[1..], n - 1, s); }
  }

  // ---- From the reply of CLUSTER NODES to the node of a key ----------------------------------

  predicate Named(words: seq<bytes>, slots: seq<int>) { WordSlots(words) == Some(slots) }

  /** The nodes parse and name exactly 16384 slots, as GetRedisClusterNodes demands. */
  ghost predicate Parsed(nodes: seq<seq<bytes>>, slots: seq<seq<int>>) {
    && |slots| == |nodes|
    && (forall n :: 0 <= n < |nodes| ==> Named(nodes[n], slots[n]))
    && |All(slots)| == KEY_SLOTS
  }

  /** GetRedisClusterNodes: the outer loop and the check of the total; None is a panic. */
  method GetRedisClusterNodes(nodes: seq<seq<bytes>>) returns (slots: Option<seq<seq<int>>>)
    ensures slots.Some? ==> Parsed(nodes, slots.value)
    ensures slots.None? ==> !exists s :: Parsed(nodes, s)
  {
    hide WordSlots, All;
    var slotsCount := 0;
    var found: seq<seq<int>> := [];
    AllNothing();
    for n := 0 to |nodes|
      invariant |found| == n && slotsCount == |All(found)|
      invariant forall m :: 0 <= m < n ==> Named(nodes[m], found[m])
    {
      var slot, count := ParseSlots(nodes[n], slotsCount);
      if slot.None? {
        assert forall s :: !Named(nodes[n], s);
        return None;
      }
      AllSnoc(found, slot.value);
      slotsCount, found := count, found + [slot.value];
    }
    if slotsCount != KEY_SLOTS {
      forall s | Parsed(nodes, s) ensures s == found {
        forall n | 0 <= n < |nodes| ensures s[n] == found[n] { assert Named(nodes[n], s[n]); }
      }
      return None;
    }
    return Some(found);
  }

  lemma AllNothing()
    ensures All([]) == []
  {
  }

  lemma {:induction false} AllSnoc(slots: seq<seq<int>>, last: seq<int>)
    ensures All(slots + [last]) == All(slots) + last
  {
    if slots == [] {
      assert [last][1..] == [];
      assert All([last]) == last + [];
    } else {
      AllSnoc(slots[1..], last);
      assert (slots + [last])[1..] == slots[1..] + [last];
      assert slots[0] + (All(slots[1..]) + last) == slots[0] + All(slots[1..]) + last;
    }
  }

  /** Start-up and one keyed write. Once the reply has passed the count of 16384, loading either
      succeeds or names a slot out of range or given twice; the search for a hole never fails. An
      accepted key goes to the one node whose line names its slot. */
  method RouteKey(nodes: seq<seq<bytes>>, key: bytes) returns (node: Option<int>, load: Option<Load>)
    ensures load.None? <==> !exists s :: Parsed(nodes, s)
    ensures load.Some? ==> !load.value.NotOccupied?
    ensures node.Some? <==> load == Some(Loaded)
    ensures node.Some? ==> 0 <= node.value < |nodes|
    ensures node.Some? ==> forall n :: 0 <= n < |nodes| ==>
              WordSlots(nodes[n]).Some? &&
              (SlotOf(Hashed(key)) in WordSlots(nodes[n]).value <==> n == node.value)
  {
    hide Hashed, SlotOf, WordSlots;
    var slots := GetRedisClusterNodes(nodes);
    if slots.None? { return None, None; }
    var cluster := new ClusterWriter();
    var loaded := cluster.LoadClusterNodes(slots.value);
    if loaded.NotOccupied? { NoHole(All(slots.value), loaded.slot); }
    if !loaded.Loaded? { return None, Some(loaded); }
    var keySlots := CalcSlots([key]);
    assert keySlots == [SlotOf(Hashed(key))];
    var sent := cluster.Write(keySlots);
    ghost var slot := keySlots[0];
    assert cluster.router[..][slot] == cluster.router[slot];
    NoHole(All(slots.value), slot);
    ghost var owner := cluster.router[slot];
    forall n | 0 <= n < |nodes| && slot in slots.value[n]
      ensures n == owner
    {
      if n < owner { TwoOwners(slots.value, n, owner, slot); }
      if owner < n { TwoOwners(slots.value, owner, n, slot); }
    }
    return Some(sent.value[0]), Some(loaded);
  }
}
