/** 64-bit wrap-around, power-of-two masks and capacities. */
module WrapArithmetic {

  function Pow2(k: nat): (p: nat)
    ensures p >= 1
  {
    if k == 0 then 1 else 2 * Pow2(k - 1)
  }

  const WORD: nat := Pow2(64)

  /** The value of an unbounded counter held in a 64-bit word. */
  function Wrap(n: int): (w: nat)
    ensures w < WORD
  {
    n % WORD
  }

  lemma {:induction false} Pow2Add(a: nat, b: nat)
    ensures Pow2(a + b) == Pow2(a) * Pow2(b)
  {
    if a > 0 {
      Pow2Add(a - 1, b);
    }
  }

  lemma {:induction false} Pow2Mono(a: nat, b: nat)
    requires a <= b
    ensures Pow2(a) <= Pow2(b)
  {
    if a < b {
      Pow2Mono(a, b - 1);
    }
  }

  lemma Pow2Grows(a: nat, b: nat)
    requires a < b
    ensures 2 * Pow2(a) <= Pow2(b)
  {
    Pow2Mono(a + 1, b);
  }

  lemma Pow2Doubles(k: nat, p: nat)
    requires Pow2(k) == p
    ensures Pow2(2 * k) == p * p
  {
    Pow2Add(k, k);
  }

  lemma WordIs()
    ensures WORD == 0x1_0000_0000_0000_0000
  {
    assert Pow2(2) == 4 && Pow2(4) == 16;
    hide Pow2;
    Pow2Doubles(4, 16);
    Pow2Doubles(8, 0x100);
    Pow2Doubles(16, 0x1_0000);
    Pow2Doubles(32, 0x1_0000_0000);
  }

  // ----- congruence -----

  lemma MulBound(d: int, m: int)
    requires m > 0
    ensures d >= 1 ==> d * m >= m
    ensures d <= -1 ==> d * m <= -m
  {
  }

  lemma ModUnique(x: int, m: int, q: int, r: int)
    requires m > 0 && 0 <= r < m && x == q * m + r
    ensures x % m == r
  {
    var d := x / m - q;
    assert x == (x / m) * m + x % m;
    assert d * m == r - x % m;
    MulBound(d, m);
  }

  lemma ModShift(x: int, m: int, q: int)
    requires m > 0
    ensures (x + q * m) % m == x % m
  {
    assert x == (x / m) * m + x % m;
    ModUnique(x + q * m, m, x / m + q, x % m);
  }

  /** Congruent numbers less than `m` apart are equal. */
  lemma NearCongruent(a: int, b: int, m: int)
    requires m > 0 && a % m == b % m && -m < a - b < m
    ensures a == b
  {
    var d := a / m - b / m;
    assert a == (a / m) * m + a % m && b == (b / m) * m + b % m;
    assert d * m == a - b;
    MulBound(d, m);
  }

  /** Numbers closer than `m` but not equal have different remainders. */
  lemma DifferentSlots(a: int, b: int, m: int)
    requires m > 0 && a < b < a + m
    ensures a % m != b % m
  {
    if a % m == b % m {
      NearCongruent(a, b, m);
    }
  }

  lemma WrapZero()
    ensures Wrap(0) == 0
  {
    ModUnique(0, WORD, 0, 0);
  }

  /** Subtracting wrapped counters recovers a distance that fits in a word. */
  lemma WrappedDistance(a: int, b: int)
    requires 0 <= a - b < WORD
    ensures Wrap(Wrap(a) - Wrap(b)) == a - b
  {
    var q := b / WORD - a / WORD;
    assert a == (a / WORD) * WORD + Wrap(a) && b == (b / WORD) * WORD + Wrap(b);
    assert Wrap(a) - Wrap(b) == q * WORD + (a - b);
    ModUnique(Wrap(a) - Wrap(b), WORD, q, a - b);
  }

  lemma WrappedSuccessor(n: int)
    ensures Wrap(Wrap(n) + 1) == Wrap(n + 1)
  {
    assert n == (n / WORD) * WORD + Wrap(n);
    ModShift(Wrap(n) + 1, WORD, n / WORD);
  }

  /** Counters less than a word apart wrap to the same value only if they are equal. */
  lemma WrappedEqual(a: int, b: int)
    requires a - b < WORD && b - a < WORD
    ensures Wrap(a) == Wrap(b) <==> a == b
  {
    if Wrap(a) == Wrap(b) {
      NearCongruent(a, b, WORD);
    }
  }

  // ----- masks -----

  /** Bitwise and. */
  function And(a: nat, b: nat): nat {
    if a == 0 || b == 0 then 0
    else 2 * And(a / 2, b / 2) + (a % 2) * (b % 2)
  }

  lemma HalfMod(h: nat, p: nat)
    requires p > 0
    ensures h % (2 * p) == 2 * ((h / 2) % p) + h % 2
  {
    var q, r := (h / 2) / p, (h / 2) % p;
    assert h / 2 == q * p + r;
    assert h == q * (2 * p) + (2 * r + h % 2);
    ModUnique(h, 2 * p, q, 2 * r + h % 2);
  }

  lemma AndOddMask(h: nat, p: nat)
    requires p > 0
    ensures And(h, 2 * p - 1) == 2 * And(h / 2, p - 1) + h % 2
  {
    assert (2 * p - 1) / 2 == p - 1 && (2 * p - 1) % 2 == 1;
  }

  /** Masking with 2^k - 1 is the remainder by 2^k. */
  lemma {:induction false} AndMask(h: nat, k: nat)
    ensures And(h, Pow2(k) - 1) == h % Pow2(k)
  {
    if k == 0 {
      assert Pow2(k) == 1;
    } else {
      var p := Pow2(k - 1);
      assert Pow2(k) == 2 * p;
      hide And, Pow2;
      AndMask(h / 2, k - 1);
      AndOddMask(h, p);
      HalfMod(h, p);
    }
  }

  lemma ModOfMultiple(n: int, big: int, m: int, c: int)
    requires m > 0 && big > 0 && big == c * m
    ensures (n % big) % m == n % m
  {
    assert n == (n / big) * big + n % big;
    assert (n / big) * (c * m) == ((n / big) * c) * m;
    ModShift(n % big, m, (n / big) * c);
  }

  /** Wrapping to 64 bits does not disturb the slot a counter names. */
  lemma MaskWrap(n: nat, k: nat)
    requires k <= 64
    ensures And(Wrap(n), Pow2(k) - 1) == n % Pow2(k)
  {
    AndMask(Wrap(n), k);
    Pow2Add(64 - k, k);
    ModOfMultiple(n, WORD, Pow2(k), Pow2(64 - k));
  }

  // ----- capacity -----

  /** The exponent of the smallest power of two that is at least `n`, searched from 2^k up. */
  function CeilExponent(n: nat, k: nat): (e: nat)
    requires k <= 63 && n <= Pow2(63)
    ensures k <= e <= 63 && n <= Pow2(e)
    ensures e > k ==> Pow2(e - 1) < n
    decreases 63 - k
  {
    if n <= Pow2(k) then k else CeilExponent(n, k + 1)
  }

  /** The exponent of a ring's capacity; a request below 2 gets 2. */
  function CapacityExponent(n: nat): (e: nat)
    requires n <= Pow2(63)
    ensures 1 <= e <= 63
  {
    if n < 2 then 1 else CeilExponent(n, 0)
  }

  function RoundUpPow2(n: nat): nat
    requires n <= Pow2(63)
  {
    Pow2(CapacityExponent(n))
  }

  /** The capacity is the least power of two that is at least 2 and at least the request. */
  lemma RoundUpIsLeast(n: nat, k: nat)
    requires n <= Pow2(63)
    ensures RoundUpPow2(n) >= 2 && RoundUpPow2(n) >= n
    ensures 2 <= Pow2(k) && n <= Pow2(k) ==> RoundUpPow2(n) <= Pow2(k)
  {
    var e := CapacityExponent(n);
    Pow2Mono(1, e);
    if 2 <= Pow2(k) && n <= Pow2(k) {
      if k < e {
        Pow2Mono(k, e - 1);
      } else {
        Pow2Mono(e, k);
      }
    }
  }

  /** A ring of up to 2^63 slots is small against the counters' range. */
  lemma CapacityFits(k: nat)
    requires 1 <= k <= 63
    ensures 2 <= Pow2(k) && Pow2(k) + 1 < WORD
  {
    Pow2Mono(1, k);
    Pow2Grows(k, 64);
    Pow2Mono(2, 64);
  }

  lemma WrappedOnce(n: nat)
    ensures Wrap(n + WORD) == Wrap(n)
  {
    ModShift(n, WORD, 1);
  }
}
