/**
  The slab allocator: an intrusive free list threaded through the slots. A pointer to a slot is its
  index in the slab, `NULL` is the null pointer; the slot's payload is kept by the pool's user.
 */
module ObjectPools {

  const NULL: int := -1

  predicate Distinct(s: seq<int>) {
    forall i, j :: 0 <= i < j < |s| ==> s[i] != s[j]
  }

  function HeadOf(s: seq<int>): int {
    if s == [] then NULL else s[0]
  }

  predicate InSlab(s: seq<int>, n: int) {
    forall i :: 0 <= i < |s| ==> 0 <= s[i] < n
  }

  /** What follows position `i` of a list. */
  function Succ(s: seq<int>, i: int): int
    requires 0 <= i < |s|
  {
    if i + 1 < |s| then s[i + 1] else NULL
  }

  /** The links `next` lead through `s` in order and then to `NULL`. */
  predicate Threaded(next: seq<int>, s: seq<int>) {
    && InSlab(s, |next|)
    && forall i :: 0 <= i < |s| ==> next[s[i]] == Succ(s, i)
  }

  lemma ThreadTail(next: seq<int>, s: seq<int>)
    requires Threaded(next, s) && s != []
    ensures Threaded(next, s[1..]) && next[s[0]] == HeadOf(s[1..])
  {
    var t := s[1..];
    assert next[s[0]] == Succ(s, 0);
    forall i | 0 <= i < |t|
      ensures 0 <= t[i] < |next| && next[t[i]] == Succ(t, i)
    {
      assert t[i] == s[i + 1] && next[s[i + 1]] == Succ(s, i + 1);
    }
  }

  /** The list determines the links of its slots. */
  lemma LinksDetermined(next: seq<int>, next': seq<int>, s: seq<int>)
    requires Threaded(next, s) && Threaded(next', s)
    ensures forall i :: 0 <= i < |s| ==> next'[s[i]] == next[s[i]]
  {
  }

  lemma {:induction false} DistinctCardinality(s: seq<int>)
    requires Distinct(s)
    ensures |set x | x in s| == |s|
  {
    if s == [] {
      assert (set x | x in s) == {};
    } else {
      var t := s[1..];
      DistinctCardinality(t);
      assert (set x | x in s) == (set x | x in t) + {s[0]};
      assert s[0] !in t;
    }
  }

  function Upto(n: nat): (r: set<int>)
    ensures |r| == n
    ensures forall x :: x in r <==> 0 <= x < n
  {
    if n == 0 then {} else Upto(n - 1) + {n - 1}
  }

  lemma SubsetCardinality(a: set<int>, b: set<int>)
    requires a <= b
    ensures |a| <= |b|
  {
    assert b == a + (b - a);
  }

  /** Distinct slots that miss one slot of the slab are fewer than the slab's slots. */
  lemma Pigeonhole(s: seq<int>, n: nat, x: int)
    requires Distinct(s) && InSlab(s, n) && 0 <= x < n && x !in s
    ensures |s| < n
  {
    DistinctCardinality(s);
    SubsetCardinality((set y | y in s) + {x}, Upto(n));
  }

  class ObjectPool {
    const capacity: nat
    const next: array<int>
    var freeHead: int
    var inUse: nat

    /** The free slots in the order `Acquire` will hand them out. */
    ghost var free: seq<int>

    ghost predicate Valid()
      reads this, next
    {
      && next.Length == capacity
      && Threaded(next[..], free)
      && Distinct(free)
      && freeHead == HeadOf(free)
      && inUse + |free| == capacity
    }

    constructor (capacity: nat)
      ensures Valid() && this.capacity == capacity && fresh(next)
      ensures free == seq(capacity, i => i)
      ensures inUse == 0
    {
      this.capacity := capacity;
      next := new int[capacity](i => NULL);
      freeHead := NULL;
      inUse := 0;
      free := [];
      new;
      var i := capacity;
      while i > 0
        invariant 0 <= i <= capacity
        invariant |free| == capacity - i
        invariant forall k :: 0 <= k < |free| ==> free[k] == i + k
        invariant forall k :: i <= k < capacity ==> next[k] == if k + 1 < capacity then k + 1 else NULL
        invariant freeHead == HeadOf(free)
        invariant next.Length == capacity && inUse == 0
      {
        i := i - 1;
        next[i] := freeHead;
        freeHead := i;
        free := [i] + free;
      }
      forall k | 0 <= k < |free|
        ensures next[..][free[k]] == Succ(free, k)
      {
        assert free[k] == k;
      }
    }

    /** Pops the first free slot, or `NULL` when none is left. */
    method Acquire() returns (slot: int)
      requires Valid()
      modifies this
      ensures Valid()
      ensures old(free) == [] ==> slot == NULL && free == [] && inUse == old(inUse)
      ensures old(free) != [] ==> slot == old(free)[0] && free == old(free)[1..] && inUse == old(inUse) + 1
    {
      if freeHead == NULL {
        return NULL;
      }
      slot := freeHead;
      ThreadTail(next[..], free);
      freeHead := next[slot];
      inUse := inUse + 1;
      free := free[1..];
    }

    /** Pushes a slot back; that the slot is in use makes the counter safe to decrement. */
    method Release(slot: int)
      requires Valid()
      requires 0 <= slot < capacity && slot !in free
      modifies this, next
      ensures Valid()
      ensures free == [slot] + old(free)
      ensures inUse == old(inUse) - 1
    {
      Pigeonhole(free, capacity, slot);
      next[slot] := freeHead;
      freeHead := slot;
      inUse := inUse - 1;
      free := [slot] + free;
      forall i | 0 <= i < |free|
        ensures next[..][free[i]] == Succ(free, i)
      {
        if i > 0 {
          assert free[i] == old(free)[i - 1];
          assert old(next[..])[old(free)[i - 1]] == Succ(old(free), i - 1) == Succ(free, i);
        }
      }
    }
  }
}
