/** Cutting FIX 4.4 frames out of a byte stream: the splitter, its stability, and what it detects. */
module FixFrames {
  import opened FixText
  import opened WrapArithmetic

  // "8=FIX.4.4" SOH
  const BEGIN: Bytes := [56, 61, 70, 73, 88, 46, 52, 46, 52, SOH]

  const MAX_BODY: nat := 0x10_0000

  datatype Verdict = Incomplete | Malformed | Framed(frame: Bytes)

  function Sum(s: Bytes): nat {
    if s == [] then 0 else Sum(s[..|s| - 1]) + s[|s| - 1]
  }

  /** Sum of all bytes modulo 256. */
  function Checksum(s: Bytes): Byte {
    Sum(s) % 256
  }

  /** `s` from `at` on reads "10=", three digits, SOH. */
  predicate TrailerAt(s: Bytes, at: nat)
    requires at + 7 <= |s|
  {
    && s[at] == 49 && s[at + 1] == 48 && s[at + 2] == EQUALS && s[at + 6] == SOH
    && IsDigit(s[at + 3]) && IsDigit(s[at + 4]) && IsDigit(s[at + 5])
  }

  /** The three check digits as the 8-bit accumulator computes them. */
  function CheckDigits(s: Bytes, at: nat): Byte
    requires at + 7 <= |s| && TrailerAt(s, at)
  {
    (Digit(s[at + 3]) * 100 + Digit(s[at + 4]) * 10 + Digit(s[at + 5])) % 256
  }

  /** The prefix is present and the length field has ended: where, or what is wrong. */
  datatype Header = NeedMore | Bad | Header(bodyStart: nat, bodyLen: nat)

  function ReadHeader(s: Bytes): (h: Header)
    ensures h.Header? ==> 13 <= h.bodyStart <= |s| && h.bodyLen <= MAX_BODY
  {
    if |s| < 10 then NeedMore
    else if s[..10] != BEGIN then Bad
    else if |s| < 12 then NeedMore
    else if s[10] != 57 || s[11] != EQUALS then Bad
    else
      var e := DigitsEnd(s, 12);
      if e == |s| then NeedMore
      else if s[e] != SOH || e == 12 then Bad
      else if Value(s[12..e]) >= WORD || Value(s[12..e]) > MAX_BODY then Bad
      else Header(e + 1, Value(s[12..e]))
  }

  /** The trailer checks behind a body that ends at `bodyEnd`. */
  function Judge(s: Bytes, bodyEnd: nat): (v: Verdict)
    ensures v.Framed? ==> bodyEnd + 7 <= |s| && v.frame == s[..bodyEnd + 7]
  {
    if |s| < bodyEnd + 7 then Incomplete
    else if !TrailerAt(s, bodyEnd) then Malformed
    else if CheckDigits(s, bodyEnd) != Checksum(s[..bodyEnd]) then Malformed
    else Framed(s[..bodyEnd + 7])
  }

  function Split(s: Bytes): (v: Verdict)
    ensures v.Framed? ==> v.frame <= s && |v.frame| >= 20
  {
    match ReadHeader(s)
    case NeedMore => Incomplete
    case Bad => Malformed
    case Header(start, len) => Judge(s, start + len)
  }

  // ----- the scanning loops -----

  /** The checksum loop, with its 32-bit accumulator. */
  method ComputeChecksum(s: Bytes) returns (c: Byte)
    ensures c == Checksum(s)
  {
    var sum: int := 0;
    for i := 0 to |s|
      invariant sum == Sum(s[..i]) % 0x1_0000_0000
    {
      assert s[..i + 1][..i] == s[..i];
      ModShift(sum + s[i] as int, 0x1_0000_0000, Sum(s[..i]) / 0x1_0000_0000);
      sum := (sum + s[i] as int) % 0x1_0000_0000;
    }
    assert s[..|s|] == s;
    ModOfMultiple(Sum(s), 0x1_0000_0000, 256, 0x100_0000);
    c := sum % 256;
  }

  /** Scans the digits of the length field. */
  method ScanDigits(s: Bytes, from: nat) returns (pos: nat)
    requires from <= |s|
    ensures pos == DigitsEnd(s, from)
  {
    pos := from;
    while pos < |s| && IsDigit(s[pos])
      invariant from <= pos <= |s| && DigitsEnd(s, pos) == DigitsEnd(s, from)
    {
      pos := pos + 1;
    }
  }

  /** The header checks and the length field. */
  method ScanHeader(s: Bytes) returns (h: Header)
    ensures h == ReadHeader(s)
  {
    if |s| < 10 {
      return NeedMore;
    }
    if s[..10] != BEGIN {
      return Bad;
    }
    if |s| < 12 {
      return NeedMore;
    }
    if s[10] != 57 || s[11] != EQUALS {
      return Bad;
    }
    var pos := ScanDigits(s, 12);
    if pos == |s| {
      return NeedMore;
    }
    if s[pos] != SOH || pos == 12 {
      return Bad;
    }
    var bodyLen := Value(s[12..pos]);
    if bodyLen >= WORD || bodyLen > MAX_BODY {
      return Bad;
    }
    return Header(pos + 1, bodyLen);
  }

  /** The trailer checks, with the 8-bit accumulator over the three digits. */
  method CheckTrailer(s: Bytes, bodyEnd: nat) returns (ok: bool)
    requires bodyEnd + 7 <= |s|
    ensures ok == (TrailerAt(s, bodyEnd) && CheckDigits(s, bodyEnd) == Checksum(s[..bodyEnd]))
  {
    var total := bodyEnd + 7;
    if s[bodyEnd] != 49 || s[bodyEnd + 1] != 48 || s[bodyEnd + 2] != EQUALS || s[total - 1] != SOH {
      return false;
    }
    var expected := ComputeChecksum(s[..bodyEnd]);
    var got: Byte := 0;
    var i := bodyEnd + 3;
    while i < total - 1
      invariant bodyEnd + 3 <= i <= bodyEnd + 6
      invariant forall j :: bodyEnd + 3 <= j < i ==> IsDigit(s[j])
      invariant got == PartialCheck(s, bodyEnd + 3, i - bodyEnd - 3)
    {
      if !IsDigit(s[i]) {
        return false;
      }
      got := (got as int * 10 + Digit(s[i])) % 256;
      i := i + 1;
    }
    PartialIsWhole(s, bodyEnd);
    ok := got == expected;
  }

  /** The frame splitter: header, length, trailer and checksum, in that order. */
  method SplitFrame(s: Bytes) returns (v: Verdict)
    ensures v == Split(s)
  {
    hide ReadHeader, Checksum, CheckDigits;
    var h := ScanHeader(s);
    match h
    case NeedMore => return Incomplete;
    case Bad => return Malformed;
    case Header(start, len) =>
      if |s| < start + len + 7 {
        return Incomplete;
      }
      var ok := CheckTrailer(s, start + len);
      return if ok then Framed(s[..start + len + 7]) else Malformed;
  }

  /** The 8-bit accumulator after `n` digits. */
  function PartialCheck(s: Bytes, at: nat, n: nat): Byte
    requires at + n <= |s| && forall j :: at <= j < at + n ==> IsDigit(s[j])
  {
    if n == 0 then 0 else (PartialCheck(s, at, n - 1) as int * 10 + Digit(s[at + n - 1])) % 256
  }

  lemma PartialIsWhole(s: Bytes, at: nat)
    requires at + 7 <= |s| && TrailerAt(s, at)
    ensures PartialCheck(s, at + 3, 3) == CheckDigits(s, at)
  {
    assert PartialCheck(s, at + 3, 0) == 0;
    assert PartialCheck(s, at + 3, 1) == Digit(s[at + 3]);
    assert PartialCheck(s, at + 3, 2) == Digit(s[at + 3]) * 10 + Digit(s[at + 4]);
  }

  // ----- streaming -----

  /** Once the header is decided, more bytes do not change it. */
  lemma HeaderIsStable(s: Bytes, more: Bytes)
    ensures !ReadHeader(s).NeedMore? ==> ReadHeader(s + more) == ReadHeader(s)
  {
    var t := s + more;
    if |s| >= 10 {
      assert t[..10] == s[..10];
      if |s| >= 12 {
        var e := DigitsEnd(s, 12);
        if e < |s| {
          assert t[12..e] == s[12..e];
          DigitsEndIs(t, 12, e);
        }
      }
    }
  }

  lemma JudgeIsStable(s: Bytes, more: Bytes, bodyEnd: nat)
    ensures !Judge(s, bodyEnd).Incomplete? ==> Judge(s + more, bodyEnd) == Judge(s, bodyEnd)
  {
    hide Checksum;
    if |s| >= bodyEnd + 7 {
      assert (s + more)[..bodyEnd] == s[..bodyEnd];
      assert (s + more)[..bodyEnd + 7] == s[..bodyEnd + 7];
    }
  }

  /** Appending bytes never changes a verdict that has been reached. */
  lemma SplitIsStable(s: Bytes, more: Bytes)
    ensures !Split(s).Incomplete? ==> Split(s + more) == Split(s)
  {
    hide ReadHeader, Judge;
    HeaderIsStable(s, more);
    match ReadHeader(s)
    case NeedMore =>
    case Bad =>
    case Header(start, len) => JudgeIsStable(s, more, start + len);
  }

  datatype Drained = Drained(frames: seq<Bytes>, rest: Bytes, bad: bool)

  /** All the frames at the front of a buffer; `bad` if the splitter then gives up. */
  function Drain(s: Bytes): Drained
    decreases |s|
  {
    match Split(s)
    case Incomplete => Drained([], s, false)
    case Malformed => Drained([], s, true)
    case Framed(f) =>
      var d := Drain(s[|f|..]);
      d.(frames := [f] + d.frames)
  }

  /** Draining a buffer and then what is left with more bytes is draining them together. */
  lemma {:induction false} DrainAppend(s: Bytes, more: Bytes)
    ensures var d := Drain(s);
            Drain(s + more) ==
            if d.bad then Drained(d.frames, d.rest + more, true)
            else
              var e := Drain(d.rest + more);
              Drained(d.frames + e.frames, e.rest, e.bad)
    decreases |s|
  {
    hide Split;
    SplitIsStable(s, more);
    match Split(s)
    case Incomplete =>
      assert [] + Drain(s + more).frames == Drain(s + more).frames;
    case Malformed =>
    case Framed(f) =>
      assert (s + more)[|f|..] == s[|f|..] + more;
      DrainAppend(s[|f|..], more);
      var d := Drain(s[|f|..]);
      if !d.bad {
        var e := Drain(d.rest + more);
        assert [f] + (d.frames + e.frames) == ([f] + d.frames) + e.frames;
      }
  }

  // ----- corruption -----

  lemma {:induction false} SumReplaced(s: Bytes, i: nat, b: Byte)
    requires i < |s|
    ensures Sum(s[i := b]) == Sum(s) - s[i] as int + b as int
  {
    var n := |s| - 1;
    if i == n {
      assert s[i := b][..n] == s[..n];
    } else {
      SumReplaced(s[..n], i, b);
      assert s[i := b][..n] == s[..n][i := b];
    }
  }

  /** A different byte anywhere gives a different checksum. */
  lemma ChecksumReplaced(s: Bytes, i: nat, b: Byte)
    requires i < |s| && b != s[i]
    ensures Checksum(s[i := b]) != Checksum(s)
  {
    SumReplaced(s, i, b);
    if Checksum(s[i := b]) == Checksum(s) {
      NearCongruent(Sum(s[i := b]), Sum(s), 256);
    }
  }

  /** A different check digit gives a different number modulo 256. */
  lemma CheckDigitsReplaced(s: Bytes, at: nat, i: nat, b: Byte)
    requires at + 7 <= |s| && TrailerAt(s, at) && at + 3 <= i < at + 6
    requires b != s[i] && IsDigit(b)
    ensures TrailerAt(s[i := b], at) && CheckDigits(s[i := b], at) != CheckDigits(s, at)
  {
    var d := Digit(b) - Digit(s[i]);
    var x := Digit(s[at + 3]) * 100 + Digit(s[at + 4]) * 10 + Digit(s[at + 5]);
    assert -9 <= d <= 9 && d != 0;
    var y := x + d * (if i == at + 3 then 100 else if i == at + 4 then 10 else 1);
    DigitShiftSeen(x, d);
  }

  /** 1, 10 and 100 times a non-zero digit difference are never 0 modulo 256. */
  lemma DigitShiftSeen(x: int, d: int)
    requires -9 <= d <= 9 && d != 0
    ensures (x + d) % 256 != x % 256 && (x + d * 10) % 256 != x % 256 && (x + d * 100) % 256 != x % 256
  {
    NotMultiple(x, d);
    NotMultiple(x, d * 10);
    NotMultiple(x, d * 100);
  }

  lemma NotMultiple(x: int, e: int)
    requires e % 256 != 0
    ensures (x + e) % 256 != x % 256
  {
    if (x + e) % 256 == x % 256 {
      var q := (x + e) / 256 - x / 256;
      assert e == q * 256;
      ModUnique(e, 256, q, 0);
    }
  }

  lemma HeaderKept(s: Bytes, i: nat, b: Byte)
    requires ReadHeader(s).Header? && ReadHeader(s).bodyStart <= i < |s|
    ensures ReadHeader(s[i := b]) == ReadHeader(s)
  {
    var start := ReadHeader(s).bodyStart;
    assert s == s[..start] + s[start..];
    assert s[i := b] == s[..start] + s[i := b][start..];
    PrefixDecidesHeader(s, start);
    HeaderIsStable(s[..start], s[start..]);
    HeaderIsStable(s[..start], s[i := b][start..]);
  }

  /** The header is already decided by the bytes up to the body. */
  lemma PrefixDecidesHeader(s: Bytes, start: nat)
    requires ReadHeader(s).Header? && ReadHeader(s).bodyStart == start
    ensures ReadHeader(s[..start]) == ReadHeader(s)
  {
    var p := s[..start];
    assert p[..10] == s[..10];
    assert p[12..start - 1] == s[12..start - 1];
    DigitsEndIs(p, 12, start - 1);
  }

  /** Replacing any one byte of the body or the trailer of an accepted frame is detected. */
  lemma CorruptionDetected(s: Bytes, i: nat, b: Byte)
    requires Split(s).Framed?
    requires ReadHeader(s).bodyStart <= i < |Split(s).frame| && b != s[i]
    ensures Split(s[i := b]) == Malformed
  {
    hide ReadHeader, Checksum, CheckDigits;
    HeaderKept(s, i, b);
    var at := ReadHeader(s).bodyStart + ReadHeader(s).bodyLen;
    var t := s[i := b];
    if i < at {
      assert t[..at] == s[..at][i := b];
      ChecksumReplaced(s[..at], i, b);
      SameCheckDigits(s, t, at);
    } else {
      assert t[..at] == s[..at];
      if at + 3 <= i < at + 6 && IsDigit(b) {
        CheckDigitsReplaced(s, at, i, b);
      }
    }
  }

  lemma SameCheckDigits(s: Bytes, t: Bytes, at: nat)
    requires at + 7 <= |s| == |t| && s[at..] == t[at..] && TrailerAt(s, at)
    ensures TrailerAt(t, at) && CheckDigits(t, at) == CheckDigits(s, at)
  {
    assert forall k :: 0 <= k < 7 ==> s[at + k] == s[at..][k] && t[at + k] == t[at..][k];
  }

  /** So is replacing any byte of "8=FIX.4.4" SOH "9=". */
  lemma PrefixCorruptionDetected(s: Bytes, i: nat, b: Byte)
    requires Split(s).Framed? && i < 12 && b != s[i]
    ensures Split(s[i := b]) == Malformed
  {
    if i < 10 {
      assert s[i := b][..10][i] == b && s[..10][i] == s[i];
    } else {
      assert s[i := b][..10] == s[..10];
    }
  }

  lemma CapFitsWord()
    ensures MAX_BODY < WORD
  {
    WordIs();
  }

  /** A buffer whose length field ends at `e` has the header that field says. */
  lemma HeaderOfLength(s: Bytes, e: nat)
    requires 12 < e < |s| && s[..10] == BEGIN && s[10] == 57 && s[11] == EQUALS
    requires AllDigits(s[12..e]) && s[e] == SOH
    ensures ReadHeader(s) == if Value(s[12..e]) <= MAX_BODY then Header(e + 1, Value(s[12..e])) else Bad
  {
    hide Value;
    DigitsEndIs(s, 12, e);
    CapFitsWord();
  }

  /** "8=FIX.4.4" SOH "9=", digits up to `e`, SOH. */
  predicate LengthFieldAt(s: Bytes, e: nat) {
    && 12 < e < |s| && s[..12] == [56, 61, 70, 73, 88, 46, 52, 46, 52, 1, 57, 61]
    && AllDigits(s[12..e]) && s[e] == 1
  }

  /** From `at` on "10=", three digits for the sum of all bytes before, modulo 256, and SOH. */
  predicate SumFieldAt(s: Bytes, at: nat) {
    && at + 7 <= |s| && s[at..at + 3] == [49, 48, 61] && AllDigits(s[at + 3..at + 6]) && s[at + 6] == 1
    && Value(s[at + 3..at + 6]) % 256 == Sum(s[..at]) % 256
  }

  /** The buffer starts with a whole frame whose length field ends at `e`: a body of at most 2^20 bytes. */
  predicate WholeFrame(s: Bytes, e: nat) {
    LengthFieldAt(s, e) && Value(s[12..e]) <= 1_048_576 && SumFieldAt(s, e + 1 + Value(s[12..e]))
  }

  lemma LengthFieldIs(s: Bytes, e: nat)
    ensures LengthFieldAt(s, e) <==>
              && 12 < e < |s| && s[..10] == BEGIN && s[10] == 57 && s[11] == EQUALS
              && AllDigits(s[12..e]) && s[e] == SOH
  {
    if 12 < e < |s| {
      assert s[..12] == s[..10] + [s[10], s[11]];
      assert s[..12][..10] == s[..10] && s[..12][10] == s[10] && s[..12][11] == s[11];
    }
  }

  lemma ValueOfThree(a: Byte, b: Byte, c: Byte)
    requires IsDigit(a) && IsDigit(b) && IsDigit(c)
    ensures AllDigits([a, b, c]) && Value([a, b, c]) == Digit(a) * 100 + Digit(b) * 10 + Digit(c)
  {
    assert [a, b, c][..2] == [a, b] && [a, b][..1] == [a] && [a][..0] == [];
    assert Value([a]) == Digit(a);
    assert Value([a, b]) == Value([a]) * 10 + Digit(b);
  }

  lemma CheckDigitsAre(s: Bytes, at: nat)
    requires at + 7 <= |s| && TrailerAt(s, at)
    ensures AllDigits(s[at + 3..at + 6]) && CheckDigits(s, at) as int == Value(s[at + 3..at + 6]) % 256
  {
    hide Value;
    ValueOfThree(s[at + 3], s[at + 4], s[at + 5]);
    assert s[at + 3..at + 6] == [s[at + 3], s[at + 4], s[at + 5]];
  }

  lemma TrailerIs(s: Bytes, at: nat)
    requires at + 7 <= |s|
    ensures TrailerAt(s, at)
            <==> s[at..at + 3] == [49, 48, 61] && AllDigits(s[at + 3..at + 6]) && s[at + 6] == 1
  {
    var t, d := s[at..at + 3], s[at + 3..at + 6];
    assert t == [s[at], s[at + 1], s[at + 2]] && d == [s[at + 3], s[at + 4], s[at + 5]];
    assert d[0] == s[at + 3] && d[1] == s[at + 4] && d[2] == s[at + 5];
  }

  lemma SumFieldIs(s: Bytes, at: nat)
    ensures SumFieldAt(s, at) <==> Judge(s, at).Framed?
  {
    hide Value, Sum, TrailerAt, CheckDigits;
    if at + 7 <= |s| {
      TrailerIs(s, at);
      if TrailerAt(s, at) {
        CheckDigitsAre(s, at);
      }
    }
  }

  lemma FramedHeader(s: Bytes)
    requires Split(s).Framed?
    ensures var h := ReadHeader(s);
            && h.Header? && 12 < h.bodyStart - 1 < |s| && s[..10] == BEGIN && s[10] == 57 && s[11] == EQUALS
            && AllDigits(s[12..h.bodyStart - 1]) && s[h.bodyStart - 1] == SOH
            && h.bodyLen == Value(s[12..h.bodyStart - 1]) && h.bodyLen <= MAX_BODY
            && Judge(s, h.bodyStart + h.bodyLen).Framed?
  {
    hide Value, Judge;
  }

  lemma WholeIsFramed(s: Bytes, e: nat)
    requires WholeFrame(s, e)
    ensures Split(s) == Framed(s[..e + 8 + Value(s[12..e])])
  {
    hide Value, ReadHeader, Sum, TrailerAt, CheckDigits, DigitsEnd, Checksum;
    LengthFieldIs(s, e);
    HeaderOfLength(s, e);
    SumFieldIs(s, e + 1 + Value(s[12..e]));
  }

  lemma FramedIsWhole(s: Bytes)
    requires Split(s).Framed?
    ensures ReadHeader(s).Header? && WholeFrame(s, ReadHeader(s).bodyStart - 1)
  {
    hide Value, ReadHeader, SumFieldAt, Judge, LengthFieldAt;
    FramedHeader(s);
    var h := ReadHeader(s);
    LengthFieldIs(s, h.bodyStart - 1);
    SumFieldIs(s, h.bodyStart + h.bodyLen);
  }

  /** A frame is cut off exactly if the buffer starts with a whole one, and it is that one. */
  lemma FramedIff(s: Bytes)
    ensures Split(s).Framed? <==> exists e: nat :: WholeFrame(s, e)
    ensures forall e: nat :: WholeFrame(s, e) ==> Split(s) == Framed(s[..e + 8 + Value(s[12..e])])
  {
    hide Value, ReadHeader, Split, Sum;
    if Split(s).Framed? {
      FramedIsWhole(s);
    }
    forall e: nat | WholeFrame(s, e)
      ensures Split(s) == Framed(s[..e + 8 + Value(s[12..e])])
    {
      WholeIsFramed(s, e);
    }
  }

  // ----- the length field -----

  /** Where the numeral of the length field ends once byte `i` of the field, or its SOH, is `b`. */
  function NumeralEnd(s: Bytes, i: nat, b: Byte): (e: nat)
    requires ReadHeader(s).Header? && 12 <= i < ReadHeader(s).bodyStart
    ensures i <= e <= |s|
  {
    var start := ReadHeader(s).bodyStart;
    if b == SOH then i
    else if i < start - 1 then start - 1
    else DigitsEnd(s, start)
  }

  /** The seven bytes at `at` are a trailer whose check digits match what lies before it. */
  predicate Sealed(s: Bytes, at: nat)
    requires at + 7 <= |s|
  {
    TrailerAt(s, at) && CheckDigits(s, at) == Checksum(s[..at])
  }

  /** The length field of an accepted buffer. */
  lemma HeaderParts(s: Bytes)
    requires ReadHeader(s).Header?
    ensures var e := ReadHeader(s).bodyStart - 1;
            && 12 < e < |s| && s[..10] == BEGIN && s[10] == 57 && s[11] == EQUALS
            && AllDigits(s[12..e]) && s[e] == SOH
  {
  }

  lemma SliceDigits(s: Bytes, a: nat, b: nat, i: nat)
    requires a <= i < b <= |s| && AllDigits(s[a..b])
    ensures IsDigit(s[i])
  {
    assert s[a..b][i - a] == s[i];
  }

  lemma DigitsAt(s: Bytes, a: nat, b: nat)
    requires a <= b <= |s| && forall k :: a <= k < b ==> IsDigit(s[k])
    ensures AllDigits(s[a..b])
  {
  }

  /** The digits of the changed field run exactly up to its new end. */
  lemma NumeralIs(s: Bytes, i: nat, b: Byte)
    requires ReadHeader(s).Header? && 12 <= i < ReadHeader(s).bodyStart && b != s[i]
    requires IsDigit(b) || b == SOH
    ensures var t := s[i := b];
            var e := NumeralEnd(s, i, b);
            AllDigits(t[12..e]) && DigitsEnd(t, 12) == e
  {
    hide ReadHeader;
    HeaderParts(s);
    var start := ReadHeader(s).bodyStart;
    var t, e := s[i := b], NumeralEnd(s, i, b);
    forall k | 12 <= k < e
      ensures IsDigit(t[k])
    {
      if k < start - 1 {
        SliceDigits(s, 12, start - 1, k);
      } else if k >= start {
        SliceDigits(s, start, e, k);
      }
    }
    DigitsAt(t, 12, e);
    DigitsEndIs(t, 12, e);
  }

  /** Reading the header when the numeral's end is known. */
  lemma HeaderByNumeral(t: Bytes, e: nat)
    requires |t| >= 12 && t[..10] == BEGIN && t[10] == 57 && t[11] == EQUALS
    requires 12 <= e <= |t| && DigitsEnd(t, 12) == e && AllDigits(t[12..e])
    ensures ReadHeader(t) ==
            if e == |t| then NeedMore
            else if t[e] != SOH || e == 12 || Value(t[12..e]) > MAX_BODY then Bad
            else Header(e + 1, Value(t[12..e]))
  {
    hide Value, DigitsEnd;
    CapFitsWord();
  }

  /**
    The verdict after changing one byte of the length field, its SOH included, of an accepted buffer:
    Malformed for a byte that is neither digit nor SOH, for an empty numeral, one that does not end in
    SOH and one above the cap; Incomplete if the new end of the frame lies beyond the buffer; otherwise
    Malformed exactly if no matching trailer stands there, and else the frame that ends there.
   */
  lemma LengthCorruption(s: Bytes, i: nat, b: Byte)
    requires Split(s).Framed? && 12 <= i < ReadHeader(s).bodyStart && b != s[i]
    ensures IsDigit(b) || b == SOH ==> AllDigits(s[i := b][12..NumeralEnd(s, i, b)])
    ensures var t := s[i := b];
            var e := NumeralEnd(s, i, b);
            if !IsDigit(b) && b != SOH then Split(t) == Malformed
            else if e == |s| then Split(t) == Incomplete
            else if e == 12 || t[e] != SOH || Value(t[12..e]) > MAX_BODY then Split(t) == Malformed
            else
              var end := e + 1 + Value(t[12..e]);
              && (Split(t) == Incomplete <==> |s| < end + 7)
              && (end + 7 <= |s| ==>
                    && (Split(t) == Malformed <==> !Sealed(t, end))
                    && (Sealed(t, end) ==> Split(t) == Framed(t[..end + 7])))
  {
    hide Value, Checksum, CheckDigits, TrailerAt, DigitsEnd, ReadHeader;
    HeaderParts(s);
    var t := s[i := b];
    assert t[..10] == s[..10];
    if IsDigit(b) || b == SOH {
      var e := NumeralEnd(s, i, b);
      NumeralIs(s, i, b);
      HeaderByNumeral(t, e);
    } else {
      BrokenNumeral(s, i, b);
    }
  }

  lemma BrokenNumeral(s: Bytes, i: nat, b: Byte)
    requires ReadHeader(s).Header? && 12 <= i < ReadHeader(s).bodyStart && !IsDigit(b) && b != SOH
    ensures ReadHeader(s[i := b]) == Bad
  {
    HeaderParts(s);
    var t := s[i := b];
    assert t[..10] == s[..10];
    forall k | 12 <= k < i
      ensures IsDigit(t[k])
    {
      SliceDigits(s, 12, ReadHeader(s).bodyStart - 1, k);
    }
    DigitsAt(t, 12, i);
    DigitsEndIs(t, 12, i);
  }

  /** With nothing behind the frame, a larger digit makes the splitter wait, or refuse above the cap. */
  lemma LargerLengthStalls(s: Bytes, i: nat, b: Byte)
    requires Split(s) == Framed(s)
    requires 12 <= i < ReadHeader(s).bodyStart - 1 && IsDigit(b) && b > s[i]
    ensures var e := ReadHeader(s).bodyStart - 1;
            && AllDigits(s[i := b][12..e])
            && Split(s[i := b]) == if Value(s[i := b][12..e]) <= MAX_BODY then Incomplete else Malformed
  {
    hide Value, Checksum, CheckDigits, TrailerAt, DigitsEnd;
    HeaderParts(s);
    var e := ReadHeader(s).bodyStart - 1;
    assert s[i := b][12..e] == s[12..e][i - 12 := b];
    LargerDigit(s[12..e], i - 12, b);
    HeaderOfLength(s, e);
    LengthCorruption(s, i, b);
  }

  lemma {:induction false} LargerDigit(ds: Bytes, i: nat, b: Byte)
    requires AllDigits(ds) && i < |ds| && IsDigit(b) && b > ds[i]
    ensures AllDigits(ds[i := b]) && Value(ds[i := b]) > Value(ds)
  {
    var n := |ds| - 1;
    if i == n {
      assert ds[i := b][..n] == ds[..n];
    } else {
      LargerDigit(ds[..n], i, b);
      assert ds[i := b][..n] == ds[..n][i := b];
    }
  }

  lemma {:induction false} SumAppend(a: Bytes, b: Bytes)
    ensures Sum(a + b) == Sum(a) + Sum(b)
  {
    if b == [] {
      assert a + b == a;
    } else {
      SumAppend(a, b[..|b| - 1]);
      assert (a + b)[..|a| + |b| - 1] == a + b[..|b| - 1];
    }
  }

  // ----- two failing inputs -----

  /** "8=FIX.4.4", "9=" and one digit, each closed by SOH. */
  function OneDigitHead(digit: Byte): Bytes {
    BEGIN + [57, EQUALS, digit, SOH]
  }

  /** "10=200" SOH. */
  const TRAILER_200: Bytes := [49, 48, EQUALS, 50, 48, 48, SOH]

  /** "a=10=160" SOH. */
  const TAIL_160: Bytes := [97, EQUALS, 49, 48, EQUALS, 49, 54, 48, SOH]

  lemma SumOfFour(a: Byte, b: Byte, c: Byte, d: Byte)
    ensures Sum([a, b]) == a + b && Sum([a, b, c]) == a + b + c && Sum([a, b, c, d]) == a + b + c + d
  {
    assert [a][..0] == [] && [a, b][..1] == [a] && [a, b, c][..2] == [a, b] && [a, b, c, d][..3] == [a, b, c];
    assert Sum([a]) == a;
    assert Sum([a, b]) == a + b;
    assert Sum([a, b, c]) == a + b + c;
  }

  lemma SumOfHead(digit: Byte)
    ensures Sum(OneDigitHead(digit)) == 664 + digit
  {
    var x, y, z := [56, 61, 70, 73], [88, 46, 52, 46], [52, SOH];
    assert BEGIN == x + y + z;
    SumAppend(x + y, z);
    SumAppend(x, y);
    SumAppend(BEGIN, [57, EQUALS, digit, SOH]);
    SumOfFour(56, 61, 70, 73);
    SumOfFour(88, 46, 52, 46);
    SumOfFour(52, SOH, 0, 0);
    SumOfFour(57, EQUALS, digit, SOH);
  }

  lemma SumOfTrailer()
    ensures Sum(TRAILER_200) == 305
  {
    assert TRAILER_200 == [49, 48, EQUALS, 50] + [48, 48, SOH];
    SumAppend([49, 48, EQUALS, 50], [48, 48, SOH]);
    SumOfFour(49, 48, EQUALS, 50);
    SumOfFour(48, 48, SOH, 0);
  }

  lemma OneDigitHeader(digit: Byte, rest: Bytes)
    requires IsDigit(digit)
    ensures ReadHeader(OneDigitHead(digit) + rest) == Header(14, Digit(digit))
  {
    var s := OneDigitHead(digit) + rest;
    assert s[..10] == BEGIN && s[12..13] == [digit] && [digit][..0] == [];
    HeaderOfLength(s, 13);
  }

  /** A frame with an empty body. */
  lemma EmptyBodyIsFramed()
    ensures var s := OneDigitHead(48) + TRAILER_200;
            Split(s) == Framed(s)
  {
    hide Sum, ReadHeader;
    var s := OneDigitHead(48) + TRAILER_200;
    OneDigitHeader(48, TRAILER_200);
    SumOfHead(48);
    assert s[..14] == OneDigitHead(48) && s[..21] == s && s[14..] == TRAILER_200;
  }

  /** Raising its length digit makes the splitter wait. */
  lemma LengthCorruptionCanStall()
    ensures var s := OneDigitHead(48) + TRAILER_200;
            Split(s) == Framed(s) && Split(s[12 := 57]) == Incomplete
  {
    hide Split, ReadHeader;
    var s := OneDigitHead(48) + TRAILER_200;
    EmptyBodyIsFramed();
    OneDigitHeader(48, TRAILER_200);
    LargerLengthStalls(s, 12, 57);
    assert s[12 := 57][12..13] == [57] && [57][..0] == [];
  }

  /** "a=" behind a trailer, and then another trailer: one frame with a body of nine bytes. */
  lemma NestedTrailerIsFramed()
    ensures var s := OneDigitHead(57) + TRAILER_200 + TAIL_160;
            Split(s) == Framed(s)
  {
    hide Sum, ReadHeader;
    var s := OneDigitHead(57) + TRAILER_200 + TAIL_160;
    assert s == OneDigitHead(57) + (TRAILER_200 + TAIL_160);
    OneDigitHeader(57, TRAILER_200 + TAIL_160);
    assert s[..23] == OneDigitHead(57) + TRAILER_200 + [97, EQUALS] && s[..30] == s;
    SumAppend(OneDigitHead(57) + TRAILER_200, [97, EQUALS]);
    SumAppend(OneDigitHead(57), TRAILER_200);
    SumOfHead(57);
    SumOfTrailer();
    SumOfFour(97, EQUALS, 0, 0);
  }

  /** A frame whose body happens to start with a trailer is cut short, silently, by a smaller length. */
  lemma LengthCorruptionCanPass()
    ensures var s := OneDigitHead(57) + TRAILER_200 + TAIL_160;
            && Split(s) == Framed(s)
            && Split(s[12 := 48]) == Framed(OneDigitHead(48) + TRAILER_200)
  {
    hide Split;
    NestedTrailerIsFramed();
    var s := OneDigitHead(57) + TRAILER_200 + TAIL_160;
    assert s[12 := 48] == OneDigitHead(48) + TRAILER_200 + TAIL_160;
    EmptyBodyIsFramed();
    SplitIsStable(OneDigitHead(48) + TRAILER_200, TAIL_160);
  }
}
