/**
 utils/UniqueQueue.go: a channel that holds no key twice, fed by any number of goroutines.

 Put is two atomic steps, the critical section and the send to the inner channel; the goroutine of
 NewUniqueQueue is three, the receive, the critical section and the send to Ch.
 */
module UniqueQueue {
  import opened Bytes

  /** dbKey of scan_standalone_reader.go. */
  datatype Key = Key(db: int, key: bytes)

  datatype Drain = Idle | Popped(k: Key) | Deleted(k: Key)

  datatype Event = Put(k: Key) | Deliver(k: Key)

  datatype State = State(
    known: set<Key>,          // mc.set
    pending: multiset<Key>,   // callers between their critical section and their send
    inner: seq<Key>,          // mc.innerChannel
    drain: Drain,
    trace: seq<Event>)        // critical sections of Put and receives from Ch, in order

  datatype Action = Enter(k: Key) | Send(k: Key) | Pop | Delete | Hand

  function Init(): State { State({}, multiset{}, [], Idle, []) }

  predicate Enabled(size: nat, s: State, a: Action) {
    match a
    case Enter(_) => true
    case Send(k) => k in s.pending && |s.inner| < size
    case Pop => s.drain.Idle? && s.inner != []
    case Delete => s.drain.Popped?
    case Hand => s.drain.Deleted?
  }

  function Next(size: nat, s: State, a: Action): State
    requires Enabled(size, s, a)
  {
    match a
    case Enter(k) =>
      if k in s.known then s.(trace := s.trace + [Put(k)])
      else s.(known := s.known + {k}, pending := s.pending + multiset{k}, trace := s.trace + [Put(k)])
    case Send(k) => s.(pending := s.pending - multiset{k}, inner := s.inner + [k])
    case Pop => s.(drain := Popped(s.inner[0]), inner := s.inner[1..])
    case Delete => s.(drain := Deleted(s.drain.k), known := s.known - {s.drain.k})
    case Hand => s.(drain := Idle, trace := s.trace + [Deliver(s.drain.k)])
  }

  /** The states after a sequence of steps. */
  ghost predicate Runs(size: nat, s: State, actions: seq<Action>, t: State)
    decreases actions
  {
    if actions == [] then s == t
    else Enabled(size, s, actions[0]) && Runs(size, Next(size, s, actions[0]), actions[1..], t)
  }

  ghost predicate Reachable(size: nat, s: State) {
    exists actions :: Runs(size, Init(), actions, s)
  }

  // ---- What every step keeps -----------------------------------------------------------------

  function InHand(d: Drain): multiset<Key> {
    if d.Popped? then multiset{d.k} else multiset{}
  }

  /** The set holds each key that is about to be queued, queued, or popped and not yet deleted, once. */
  ghost predicate Accounted(s: State) {
    multiset(s.known) == s.pending + multiset(s.inner) + InHand(s.drain)
  }

  /** Still on its way to Ch. */
  predicate Coming(s: State, k: Key) {
    k in s.known || s.drain == Deleted(k)
  }

  ghost predicate FollowedBy(trace: seq<Event>, i: nat, k: Key) {
    exists j :: i < j < |trace| && trace[j] == Deliver(k)
  }

  /** Each Put is followed by a delivery of its key, or that delivery is still coming. */
  ghost predicate Owed(s: State) {
    forall i {:trigger s.trace[i]} :: 0 <= i < |s.trace| && s.trace[i].Put? ==>
      FollowedBy(s.trace, i, s.trace[i].k) || Coming(s, s.trace[i].k)
  }

  function Count(trace: seq<Event>, e: Event): nat { multiset(trace)[e] }

  /** No key is delivered more often than it was put, counting what is coming. */
  ghost predicate Earned(s: State) {
    forall k: Key :: EarnedOf(s, k)
  }

  ghost predicate Inv(s: State) { Accounted(s) && Owed(s) && Earned(s) }

  lemma OneMore(known: set<Key>, k: Key)
    requires k !in known
    ensures multiset(known + {k}) == multiset(known) + multiset{k}
  {
  }

  lemma OneLess(known: set<Key>, k: Key)
    requires k in known
    ensures multiset(known - {k}) == multiset(known) - multiset{k}
  {
  }

  lemma Sends(pending: multiset<Key>, inner: seq<Key>, k: Key)
    requires k in pending
    ensures (pending - multiset{k}) + multiset(inner + [k]) == pending + multiset(inner)
  {
  }

  lemma Pops(inner: seq<Key>)
    requires inner != []
    ensures multiset(inner) == multiset(inner[1..]) + multiset{inner[0]}
  {
    assert inner == [inner[0]] + inner[1..];
  }

  lemma Takes(all: multiset<Key>, k: Key)
    ensures all + multiset{k} - multiset{k} == all
  {
  }

  lemma AccountedStep(size: nat, s: State, a: Action)
    requires Accounted(s) && Enabled(size, s, a)
    ensures Accounted(Next(size, s, a))
  {
    match a
    case Enter(k) =>
      if k !in s.known { OneMore(s.known, k); }
    case Send(k) =>
      Sends(s.pending, s.inner, k);
    case Pop =>
      Pops(s.inner);
    case Delete =>
      var k := s.drain.k;
      assert k in multiset(s.known);
      OneLess(s.known, k);
      Takes(s.pending + multiset(s.inner), k);
    case Hand =>
  }

  lemma FollowedLater(trace: seq<Event>, i: nat, k: Key, e: Event)
    requires FollowedBy(trace, i, k)
    ensures FollowedBy(trace + [e], i, k)
  {
    var j :| i < j < |trace| && trace[j] == Deliver(k);
    assert (trace + [e])[j] == Deliver(k);
  }

  lemma OwedStep(size: nat, s: State, a: Action)
    requires Accounted(s) && Owed(s) && Enabled(size, s, a)
    ensures Owed(Next(size, s, a))
  {
    var t := Next(size, s, a);
    forall i | 0 <= i < |t.trace| && t.trace[i].Put?
      ensures FollowedBy(t.trace, i, t.trace[i].k) || Coming(t, t.trace[i].k)
    {
      if i < |s.trace| {
        assert t.trace[i] == s.trace[i];
        var k := s.trace[i].k;
        if FollowedBy(s.trace, i, k) {
          if |t.trace| > |s.trace| { FollowedLater(s.trace, i, k, t.trace[|s.trace|]); }
        } else if a.Hand? && s.drain.k == k {
          assert t.trace[|s.trace|] == Deliver(k);
        }
      }
    }
  }

  lemma CountSnoc(trace: seq<Event>, e: Event, f: Event)
    ensures Count(trace + [e], f) == Count(trace, f) + if e == f then 1 else 0
  {
  }

  /** What Earned says of one key. */
  predicate EarnedOf(s: State, k: Key) {
    Count(s.trace, Deliver(k)) + (if k in s.known then 1 else 0) + (if s.drain == Deleted(k) then 1 else 0)
      <= Count(s.trace, Put(k))
  }

  lemma EarnedKeyStep(size: nat, s: State, a: Action, k: Key)
    requires Accounted(s) && Enabled(size, s, a) && EarnedOf(s, k)
    ensures EarnedOf(Next(size, s, a), k)
  {
    hide Count, Accounted;
    match a
    case Enter(e) =>
      CountSnoc(s.trace, Put(e), Deliver(k));
      CountSnoc(s.trace, Put(e), Put(k));
    case Hand =>
      CountSnoc(s.trace, Deliver(s.drain.k), Deliver(k));
      CountSnoc(s.trace, Deliver(s.drain.k), Put(k));
    case Delete =>
      PoppedKnown(s);
    case _ =>
  }

  lemma PoppedKnown(s: State)
    requires Accounted(s) && s.drain.Popped?
    ensures s.drain.k in s.known
  {
    assert s.drain.k in multiset(s.known);
  }

  lemma EarnedStep(size: nat, s: State, a: Action)
    requires Accounted(s) && Earned(s) && Enabled(size, s, a)
    ensures Earned(Next(size, s, a))
  {
    hide EarnedOf, Accounted;
    forall k: Key ensures EarnedOf(Next(size, s, a), k) {
      EarnedKeyStep(size, s, a, k);
    }
  }

  lemma {:induction false} InvRun(size: nat, s: State, actions: seq<Action>, t: State)
    requires Inv(s) && Runs(size, s, actions, t)
    ensures Inv(t)
    decreases actions
  {
    hide Accounted, Owed, Earned;
    if actions != [] {
      AccountedStep(size, s, actions[0]);
      OwedStep(size, s, actions[0]);
      EarnedStep(size, s, actions[0]);
      InvRun(size, Next(size, s, actions[0]), actions[1..], t);
    }
  }

  lemma InvReachable(size: nat, s: State)
    requires Reachable(size, s)
    ensures Inv(s)
  {
    var actions :| Runs(size, Init(), actions, s);
    InvRun(size, Init(), actions, s);
  }

  /** In every reachable state the set is exactly the pending, queued and popped keys, none of which is
      in two places, and the inner channel holds no key twice. */
  lemma NoDuplicates(size: nat, s: State)
    requires Reachable(size, s)
    ensures forall k :: k in s.known <==> k in s.pending || k in s.inner || s.drain == Popped(k)
    ensures forall i, j :: 0 <= i < j < |s.inner| ==> s.inner[i] != s.inner[j]
    ensures forall k :: k in s.inner ==> k !in s.pending && s.drain != Popped(k)
  {
    InvReachable(size, s);
    var all := s.pending + multiset(s.inner) + InHand(s.drain);
    assert forall k :: multiset(s.known)[k] <= 1;
    forall k ensures k in s.known <==> k in s.pending || k in s.inner || s.drain == Popped(k) {
      assert k in s.known <==> k in all;
      assert k in s.inner <==> k in multiset(s.inner);
    }
    forall k | k in s.inner ensures k !in s.pending && s.drain != Popped(k) {
      assert multiset(s.inner)[k] >= 1 && all[k] <= 1;
      assert all[k] == s.pending[k] + multiset(s.inner)[k] + InHand(s.drain)[k];
    }
    forall i, j | 0 <= i < j < |s.inner| ensures s.inner[i] != s.inner[j] {
      Twice(s.inner, i, j);
      assert all[s.inner[i]] <= 1;
    }
  }

  lemma Twice(q: seq<Key>, i: nat, j: nat)
    requires i < j < |q|
    ensures q[i] == q[j] ==> multiset(q)[q[i]] >= 2
  {
    assert q == q[..i] + [q[i]] + q[i + 1..j] + [q[j]] + q[j + 1..];
  }

  // ---- Nothing is lost -----------------------------------------------------------------------

  /** Nobody is between two steps and nothing is queued. */
  predicate Quiet(s: State) {
    s.pending == multiset{} && s.inner == [] && s.drain.Idle?
  }

  /** When the queue has come to rest, every Put has been followed by a delivery of its key. */
  lemma NoLostUpdate(size: nat, s: State, i: nat)
    requires Reachable(size, s) && Quiet(s) && i < |s.trace| && s.trace[i].Put?
    ensures FollowedBy(s.trace, i, s.trace[i].k)
  {
    InvReachable(size, s);
    var k := s.trace[i].k;
    assert multiset(s.known)[k] == 0;
    assert k !in s.known;
  }

  /** No key is ever delivered more often than it was put. */
  lemma NothingSpurious(size: nat, s: State, k: Key)
    requires Reachable(size, s)
    ensures Count(s.trace, Deliver(k)) <= Count(s.trace, Put(k))
  {
    hide Count;
    InvReachable(size, s);
    assert EarnedOf(s, k);
  }

  /** How many steps are left without a new Put. */
  function Work(s: State): nat {
    4 * |s.pending| + 3 * |s.inner| + (if s.drain.Popped? then 2 else if s.drain.Deleted? then 1 else 0)
  }

  /** It always comes to rest: unless it has, some step other than a new Put can be taken, and every
      such step leaves less work. */
  lemma Progress(size: nat, s: State)
    requires size >= 1
    ensures !Quiet(s) ==> exists a: Action :: !a.Enter? && Enabled(size, s, a)
    ensures forall a: Action :: !a.Enter? && Enabled(size, s, a) ==> Work(Next(size, s, a)) < Work(s)
  {
    if s.drain.Popped? {
      assert Enabled(size, s, Delete);
    } else if s.drain.Deleted? {
      assert Enabled(size, s, Hand);
    } else if s.inner != [] {
      assert Enabled(size, s, Pop);
    } else if s.pending != multiset{} {
      var k :| k in s.pending;
      assert Enabled(size, s, Send(k));
    }
    forall a: Action | !a.Enter? && Enabled(size, s, a) ensures Work(Next(size, s, a)) < Work(s) {
      if a.Send? { assert |s.pending - multiset{a.k}| == |s.pending| - 1; }
    }
  }

  // ---- The structure itself ------------------------------------------------------------------

  class Queue {
    const size: nat
    var known: set<Key>
    var innerChannel: seq<Key>
    var drain: Drain
    ghost var pending: multiset<Key>
    ghost var trace: seq<Event>

    constructor (size: nat)
      ensures this.size == size && View() == Init()
    {
      this.size := size;
      known, innerChannel, drain, pending, trace := {}, [], Idle, multiset{}, [];
    }

    ghost function View(): State
      reads this
    {
      State(known, pending, innerChannel, drain, trace)
    }

    /** The critical section of Put; send says whether the caller goes on to send. */
    method Enter(item: Key) returns (send: bool)
      modifies this
      ensures View() == Next(size, old(View()), Action.Enter(item))
      ensures send <==> item !in old(known)
    {
      trace := trace + [Put(item)];
      if item in known { return false; }
      known, pending := known + {item}, pending + multiset{item};
      return true;
    }

    /** The send to the inner channel, once it has room. */
    method Send(item: Key)
      requires item in pending && |innerChannel| < size
      modifies this
      ensures View() == Next(size, old(View()), Action.Send(item))
    {
      innerChannel, pending := innerChannel + [item], pending - multiset{item};
    }

    /** One turn of the draining goroutine up to the send to Ch. */
    method Receive() returns (item: Key)
      requires drain.Idle? && innerChannel != []
      modifies this
      ensures Runs(size, old(View()), [Pop, Delete], View()) && drain == Deleted(item)
    {
      item := innerChannel[0];
      innerChannel := innerChannel[1..];
      drain := Popped(item);
      ghost var popped := View();
      known := known - {item};
      drain := Deleted(item);
      assert [Pop, Delete][1..] == [Delete] && [Delete][1..] == [];
      assert Runs(size, popped, [Delete], View());
    }

    method Hand() returns (item: Key)
      requires drain.Deleted?
      modifies this
      ensures View() == Next(size, old(View()), Action.Hand) && item == old(drain).k
    {
      item := drain.k;
      drain := Idle;
      trace := trace + [Deliver(item)];
    }
  }
}
