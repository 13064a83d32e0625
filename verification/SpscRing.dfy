/** The ring buffer used from one thread at a time: a bounded queue over wrapping 64-bit counters. */
module SpscRings {
  import opened WrapArithmetic

  class SpscRing<T(0)> {
    const k: nat
    const buf: array<T>
    var head: nat
    var tail: nat

    /** The counters without wrap-around, and the queue they delimit. */
    ghost var pushes: nat
    ghost var pops: nat
    ghost var contents: seq<T>

    ghost predicate Valid()
      reads this, buf
    {
      && 1 <= k <= 63 && buf.Length == Pow2(k)
      && head == Wrap(pushes) && tail == Wrap(pops)
      && pops <= pushes && |contents| == pushes - pops <= Pow2(k)
      && forall i :: pops <= i < pushes ==> buf[i % Pow2(k)] == contents[i - pops]
    }

    constructor (capacity: nat)
      requires capacity <= Pow2(63)
      ensures Valid() && fresh(buf) && contents == [] && buf.Length == RoundUpPow2(capacity)
    {
      k := CapacityExponent(capacity);
      buf := new T[Pow2(CapacityExponent(capacity))];
      head, tail, pushes, pops, contents := 0, 0, 0, 0, [];
      WrapZero();
    }

    /** Appends, or refuses exactly if the ring holds its capacity. */
    method TryPush(v: T) returns (ok: bool)
      requires Valid()
      modifies this, buf
      ensures Valid()
      ensures ok == (|old(contents)| < buf.Length)
      ensures contents == if ok then old(contents) + [v] else old(contents)
    {
      hide Wrap, And, Pow2;
      CapacityFits(k);
      WrappedSuccessor(pushes);
      WrappedDistance(pushes + 1, pops);
      MaskWrap(pushes, k);
      var h := head;
      var next := Wrap(h + 1);
      if Wrap(next - tail) > Pow2(k) {
        return false;
      }
      forall i | pops <= i < pushes
        ensures i % Pow2(k) != pushes % Pow2(k)
      {
        DifferentSlots(i, pushes, Pow2(k));
      }
      buf[And(h, Pow2(k) - 1)] := v;
      head := next;
      contents := contents + [v];
      pushes := pushes + 1;
      return true;
    }

    /** Removes the oldest value, or refuses exactly if there is none. */
    method TryPop() returns (ok: bool, out: T)
      requires Valid()
      modifies this
      ensures Valid()
      ensures ok == (old(contents) != [])
      ensures ok ==> out == old(contents)[0] && contents == old(contents)[1..]
      ensures !ok ==> contents == old(contents)
    {
      hide Wrap, And, Pow2;
      CapacityFits(k);
      WrappedEqual(pushes, pops);
      WrappedSuccessor(pops);
      MaskWrap(pops, k);
      var t := tail;
      out := buf[And(t, Pow2(k) - 1)];
      if t == head {
        return false, out;
      }
      tail := Wrap(t + 1);
      contents := contents[1..];
      pops := pops + 1;
      return true, out;
    }

    /** Without concurrency the approximate size is exact. */
    method SizeApprox() returns (n: nat)
      requires Valid()
      ensures n == |contents|
    {
      hide Wrap, And, Pow2;
      CapacityFits(k);
      WrappedDistance(pushes, pops);
      n := Wrap(head - tail);
    }
  }
}
