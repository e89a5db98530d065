/** keyHash of commands/keys.go: which part of a key is hashed, and to which of the 16384 slots. */
module Slots {
  import opened Bytes
  import Crc16

  const KEY_SLOTS := 16384
  const OPEN: byte := 123
  const CLOSE: byte := 125

  /** crc & 0x3FFF, as a number. */
  function LowFourteen(crc: bv16): (slot: int)
    ensures 0 <= slot < KEY_SLOTS
  {
    assert crc & 0x3FFF <= 0x3FFF;
    (crc & 0x3FFF) as int
  }

  /** CRC16 of a text, modulo the number of slots. */
  function SlotOf(text: bytes): (slot: int)
    ensures 0 <= slot < KEY_SLOTS
  {
    var crc := Crc16.Crc(0, AsBits(text));
    assert crc & 0x3FFF <= 0x3FFF;
    (crc & 0x3FFF) as int
  }

  predicate Absent(c: byte, s: bytes, from: int, to: int)
    requires 0 <= from && to <= |s|
  {
    forall a :: from <= a < to ==> s[a] != c
  }

  /** Section "Hash tags" of the Redis Cluster specification: key[i + 1..k] is the hash tag. */
  predicate TagAt(key: bytes, i: nat, k: nat) {
    && i + 1 < k < |key|
    && key[i] == 123 && Absent(123, key, 0, i)
    && key[k] == 125 && Absent(125, key, i + 1, k)
  }

  ghost predicate HasTag(key: bytes) {
    exists i: nat, k: nat :: TagAt(key, i, k)
  }

  lemma TagIsUnique(key: bytes, i: nat, k: nat, i': nat, k': nat)
    requires TagAt(key, i, k) && TagAt(key, i', k')
    ensures i == i' && k == k'
  {
  }

  /** The part of the key the specification says is hashed. */
  ghost function Hashed(key: bytes): bytes {
    if HasTag(key) then (var i: nat, k: nat :| TagAt(key, i, k); key[i + 1..k]) else key
  }

  /** keyHash: two nested index loops with a jump out of both. */
  method KeyHash(key: bytes) returns (slot: int)
    ensures slot == SlotOf(Hashed(key))
  {
    hide LowFourteen, SlotOf, Crc16.Crc;
    var hashtag: bytes := [];
    var i := 0;
    label findHashTag:
    while i < |key|
      invariant 0 <= i <= |key| && hashtag == []
      invariant forall a, b :: 0 <= a < i && a < b < |key| && key[a] == OPEN ==> key[b] != CLOSE
    {
      if key[i] == OPEN {
        var k := i;
        while k < |key|
          invariant i <= k <= |key|
          invariant forall b :: i <= b < k ==> key[b] != CLOSE
        {
          if key[k] == CLOSE {
            hashtag := key[i + 1..k];
            if hashtag != [] {
              assert TagAt(key, i, k);
            } else {
              EmptyTag(key, i);
            }
            break findHashTag;
          }
          k := k + 1;
        }
      }
      i := i + 1;
    }
    if |hashtag| > 0 {
      forall i: nat, k: nat, i': nat, k': nat | TagAt(key, i, k) && TagAt(key, i', k')
        ensures i == i' && k == k'
      {
        TagIsUnique(key, i, k, i', k');
      }
    }
    var text := if |hashtag| > 0 then hashtag else key;
    var crc := Crc16.Crc16(AsBits(text));
    SlotIs(text);
    slot := LowFourteen(crc);
  }

  lemma SlotIs(text: bytes)
    ensures LowFourteen(Crc16.Crc(0, AsBits(text))) == SlotOf(text)
  {
    hide Crc16.Crc;
  }

  /** An empty pair of braces at the first brace hides every later pair. */
  lemma EmptyTag(key: bytes, i: nat)
    requires i + 1 < |key| && key[i] == OPEN && Absent(OPEN, key, 0, i) && key[i + 1] == CLOSE
    ensures !HasTag(key)
  {
    if i': nat, k': nat :| TagAt(key, i', k') {
      assert false;
    }
  }

  /** Keys that share a hash tag share a slot, whatever surrounds the tag. */
  lemma SameTagSameSlot(prefix: bytes, tag: bytes, rest: bytes)
    requires OPEN !in prefix && CLOSE !in tag && tag != []
    ensures SlotOf(Hashed(prefix + [OPEN] + tag + [CLOSE] + rest)) == SlotOf(tag)
  {
    hide SlotOf;
    var key := prefix + [OPEN] + tag + [CLOSE] + rest;
    var i, k := |prefix|, |prefix| + 1 + |tag|;
    assert key[..i] == prefix && key[i + 1..k] == tag;
    forall a | 0 <= a < i ensures key[a] != OPEN { assert key[a] == prefix[a]; }
    forall a | i + 1 <= a < k ensures key[a] != CLOSE { assert key[a] == tag[a - i - 1]; }
    assert TagAt(key, i, k);
    forall i': nat, k': nat | TagAt(key, i', k')
      ensures i == i' && k == k'
    {
      TagIsUnique(key, i, k, i', k');
    }
  }

  /** CalcSlots: one slot for each key, in order. */
  method CalcSlots(keys: seq<bytes>) returns (slots: seq<int>)
    ensures |slots| == |keys|
    ensures forall n :: 0 <= n < |keys| ==> slots[n] == SlotOf(Hashed(keys[n])) && 0 <= slots[n] < KEY_SLOTS
  {
    hide Hashed, SlotOf;
    slots := [];
    for n := 0 to |keys|
      invariant |slots| == n
      invariant forall m :: 0 <= m < n ==> slots[m] == SlotOf(Hashed(keys[m])) && 0 <= slots[m] < KEY_SLOTS
    {
      var slot := KeyHash(keys[n]);
      slots := slots + [slot];
    }
  }
}
