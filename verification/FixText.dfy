/** Bytes and decimal numerals as they occur in FIX messages. */
module FixText {

  type Byte = b: int | 0 <= b < 256

  type Bytes = seq<Byte>

  const SOH: Byte := 1
  const EQUALS: Byte := 61
  const ZERO: Byte := 48
  const MINUS: Byte := 45

  predicate IsDigit(b: Byte) {
    48 <= b <= 57
  }

  predicate AllDigits(s: Bytes) {
    forall i :: 0 <= i < |s| ==> IsDigit(s[i])
  }

  function Digit(b: Byte): int {
    (b as int) - 48
  }

  /** The number a string of digits stands for, without any bound. */
  function Value(s: Bytes): nat
    requires AllDigits(s)
  {
    if s == [] then 0 else Value(s[..|s| - 1]) * 10 + Digit(s[|s| - 1])
  }

  /** Decimal numeral without leading zeros. */
  function Decimal(n: nat): (s: Bytes)
    ensures s != [] && AllDigits(s)
  {
    if n < 10 then [48 + n] else Decimal(n / 10) + [48 + n % 10]
  }

  lemma {:induction false} DecimalValue(n: nat)
    ensures Value(Decimal(n)) == n
  {
    if n >= 10 {
      DecimalValue(n / 10);
      var s := Decimal(n);
      assert s[..|s| - 1] == Decimal(n / 10);
    }
  }

  function Zeros(k: nat): (s: Bytes)
    ensures |s| == k && AllDigits(s)
  {
    seq(k, i => ZERO)
  }

  /** The numeral of `n`, padded with zeros to at least `width` digits. */
  function Padded(n: nat, width: nat): (s: Bytes)
    ensures |s| >= width && AllDigits(s)
  {
    var d := Decimal(n);
    if |d| >= width then d else Zeros(width - |d|) + d
  }

  lemma TimesTen(a: int, p: int, v: int)
    ensures (a * p + v) * 10 == a * (p * 10) + v * 10
  {
  }

  lemma {:induction false} ValueAppend(a: Bytes, b: Bytes)
    requires AllDigits(a) && AllDigits(b)
    ensures AllDigits(a + b) && Value(a + b) == Value(a) * Pow10(|b|) + Value(b)
  {
    if b == [] {
      assert a + b == a;
    } else {
      var n := |b| - 1;
      ValueAppend(a, b[..n]);
      assert (a + b)[..|a| + n] == a + b[..n];
      assert Value(a + b) == Value(a + b[..n]) * 10 + Digit(b[n]);
      TimesTen(Value(a), Pow10(n), Value(b[..n]));
    }
  }

  function Pow10(k: nat): (p: nat)
    ensures p >= 1
  {
    if k == 0 then 1 else Pow10(k - 1) * 10
  }

  lemma {:induction false} ZerosValue(k: nat)
    ensures Value(Zeros(k)) == 0
  {
    if k > 0 {
      ZerosValue(k - 1);
      assert Zeros(k)[..k - 1] == Zeros(k - 1);
    }
  }

  lemma PaddedValue(n: nat, width: nat)
    ensures Value(Padded(n, width)) == n
  {
    hide Value, Pow10, Decimal, Zeros;
    var d := Decimal(n);
    DecimalValue(n);
    if |d| < width {
      ZerosValue(width - |d|);
      ValueAppend(Zeros(width - |d|), d);
      ZeroTimes(Pow10(|d|));
    }
  }

  lemma ZeroTimes(p: int)
    ensures 0 * p == 0
  {
  }

  /** A number below 10^k, k > 0, needs at most k digits, and one from 10^k on needs more. */
  lemma {:induction false} DecimalLength(n: nat, k: nat)
    requires k > 0
    ensures n < Pow10(k) <==> |Decimal(n)| <= k
  {
    if k == 1 {
      assert Pow10(1) == Pow10(0) * 10 == 10;
    } else if n < 10 {
      Pow10Mono(1, k);
      assert Pow10(1) == Pow10(0) * 10 == 10;
    } else {
      DecimalLength(n / 10, k - 1);
      assert Pow10(k) == Pow10(k - 1) * 10;
    }
  }

  lemma {:induction false} Pow10Mono(a: nat, b: nat)
    requires a <= b
    ensures Pow10(a) <= Pow10(b)
  {
    if a < b {
      Pow10Mono(a, b - 1);
    }
  }

  /** A numeral of k digits stands for less than 10^k. */
  lemma {:induction false} ValueBound(s: Bytes)
    requires AllDigits(s)
    ensures Value(s) < Pow10(|s|)
  {
    if s != [] {
      ValueBound(s[..|s| - 1]);
    }
  }

  /** Where the run of digits from `pos` on ends. */
  function DigitsEnd(s: Bytes, pos: nat): (e: nat)
    requires pos <= |s|
    ensures pos <= e <= |s|
    ensures AllDigits(s[pos..e])
    ensures e < |s| ==> !IsDigit(s[e])
    decreases |s| - pos
  {
    if pos == |s| || !IsDigit(s[pos]) then pos
    else
      var e := DigitsEnd(s, pos + 1);
      assert s[pos..e] == [s[pos]] + s[pos + 1..e];
      e
  }

  /** The run ends at the first position that stops it. */
  lemma {:induction false} DigitsEndIs(s: Bytes, pos: nat, e: nat)
    requires pos <= e <= |s| && AllDigits(s[pos..e]) && (e < |s| ==> !IsDigit(s[e]))
    ensures DigitsEnd(s, pos) == e
    decreases e - pos
  {
    if pos < e {
      assert s[pos..e][0] == s[pos];
      assert s[pos + 1..e] == s[pos..e][1..];
      DigitsEndIs(s, pos + 1, e);
    }
  }

  /** The first SOH from `pos` on, or the length if there is none. */
  function SohAt(s: Bytes, pos: nat): (e: nat)
    requires pos <= |s|
    ensures pos <= e <= |s|
    ensures SOH !in s[pos..e]
    ensures e < |s| ==> s[e] == SOH
    decreases |s| - pos
  {
    if pos == |s| || s[pos] == SOH then pos
    else
      var e := SohAt(s, pos + 1);
      assert s[pos..e] == [s[pos]] + s[pos + 1..e];
      e
  }

  lemma {:induction false} SohAtIs(s: Bytes, pos: nat, e: nat)
    requires pos <= e < |s| && SOH !in s[pos..e] && s[e] == SOH
    ensures SohAt(s, pos) == e
    decreases e - pos
  {
    if pos < e {
      assert s[pos..e][0] == s[pos];
      assert s[pos + 1..e] == s[pos..e][1..];
      SohAtIs(s, pos + 1, e);
    }
  }
}
