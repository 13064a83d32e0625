/** Whole messages: the builder with its back-patched length, and the round trip through the splitter. */
module FixMessages {
  import opened FixText
  import opened FixFields
  import opened FixFrames

  const TAG_BEGIN: int := 8
  const TAG_LENGTH: int := 9
  const TAG_CHECKSUM: int := 10
  const TAG_MSG_TYPE: int := 35
  const TAG_SENDER: int := 49
  const TAG_TARGET: int := 56
  const TAG_SEQ_NUM: int := 34

  // "FIX.4.4"
  const VERSION: Bytes := [70, 73, 88, 46, 52, 46, 52]

  /** The six bytes kept of the length numeral: zero-padded, cut off behind the sixth digit. */
  function LengthText(n: nat): (s: Bytes)
    ensures |s| == 6 && AllDigits(s)
  {
    Padded(n, 6)[..6]
  }

  function Prefix(n: nat): (s: Bytes)
    ensures |s| == 19
  {
    BEGIN + [57, EQUALS] + LengthText(n) + [SOH]
  }

  function Trailer(sum: Byte): Bytes {
    [49, 48, EQUALS] + Padded(sum, 3) + [SOH]
  }

  /** What the checksum covers. */
  function Covered(fs: seq<Field>): Bytes {
    Prefix(|Encode(fs)|) + Encode(fs)
  }

  function Message(fs: seq<Field>): Bytes {
    Covered(fs) + Trailer(Checksum(Covered(fs)))
  }

  // ----- numerals of fixed width -----

  lemma SixDigits(n: nat)
    ensures n <= 999_999 ==> Value(LengthText(n)) == n
    ensures Value(LengthText(n)) <= 999_999
  {
    assert Pow10(2) == 100;
    assert Pow10(4) == 10_000;
    assert Pow10(6) == 1_000_000;
    ValueBound(LengthText(n));
    if n <= 999_999 {
      DecimalLength(n, 6);
      PaddedValue(n, 6);
      assert Padded(n, 6)[..6] == Padded(n, 6);
    }
  }

  lemma ThreeDigits(sum: Byte)
    ensures |Padded(sum, 3)| == 3
    ensures var d := Padded(sum, 3);
            Digit(d[0]) * 100 + Digit(d[1]) * 10 + Digit(d[2]) == sum
  {
    assert Pow10(1) == 10;
    assert Pow10(3) == 1000;
    DecimalLength(sum, 3);
    PaddedValue(sum, 3);
    var d := Padded(sum, 3);
    assert d[..2][..1] == d[..1] && d[..1][..0] == [];
    assert Value(d[..1]) == Digit(d[0]);
    assert Value(d[..2]) == Digit(d[0]) * 10 + Digit(d[1]);
  }

  // ----- through the splitter -----

  lemma TrailerFits(covered: Bytes, sum: Byte)
    ensures var s := covered + Trailer(sum);
            && |s| == |covered| + 7 && TrailerAt(s, |covered|) && CheckDigits(s, |covered|) == sum
            && s[..|covered|] == covered
  {
    hide Padded;
    ThreeDigits(sum);
    var s, d, n := covered + Trailer(sum), Padded(sum, 3), |covered|;
    assert s[n + 3] == d[0] && s[n + 4] == d[1] && s[n + 5] == d[2];
  }

  lemma MessageHeader(fs: seq<Field>)
    ensures ReadHeader(Message(fs)) == Header(19, Value(LengthText(|Encode(fs)|)))
    ensures |Message(fs)| == 19 + |Encode(fs)| + 7
  {
    hide Encode, Checksum, LengthText;
    var s, n := Message(fs), |Encode(fs)|;
    TrailerFits(Covered(fs), Checksum(Covered(fs)));
    SixDigits(n);
    assert s[..19] == Prefix(n);
    assert s[..10] == s[..19][..10] == BEGIN;
    assert s[10] == s[..19][10] && s[11] == s[..19][11] && s[18] == s[..19][18];
    assert s[12..18] == s[..19][12..18] == LengthText(n);
    HeaderOfLength(s, 18);
  }

  lemma ShortIsFramed(fs: seq<Field>)
    requires |Encode(fs)| <= 999_999
    ensures Split(Message(fs)) == Framed(Message(fs))
  {
    hide ReadHeader, LengthText, Checksum, CheckDigits, Trailer, Prefix, Encode, Value, TrailerAt;
    var s, n := Message(fs), |Encode(fs)|;
    MessageHeader(fs);
    SixDigits(n);
    TrailerFits(Covered(fs), Checksum(Covered(fs)));
    assert |Covered(fs)| == 19 + n && s[..19 + n + 7] == s;
  }

  /** Six digits cannot say how long it is, so the splitter cuts it short or refuses it. */
  lemma LongIsNotFramed(fs: seq<Field>)
    requires |Encode(fs)| > 999_999
    ensures Split(Message(fs)) != Framed(Message(fs))
  {
    hide ReadHeader, LengthText, Checksum, CheckDigits, Trailer, Prefix, Encode, Value, TrailerAt, Message;
    MessageHeader(fs);
    SixDigits(|Encode(fs)|);
  }

  /** A built message is one whole frame exactly if its body is at most 999999 bytes long. */
  lemma MessageIsOneFrame(fs: seq<Field>)
    ensures Split(Message(fs)) == Framed(Message(fs)) <==> |Encode(fs)| <= 999_999
  {
    hide Split, Message, Encode;
    if |Encode(fs)| <= 999_999 {
      ShortIsFramed(fs);
    } else {
      LongIsNotFramed(fs);
    }
  }

  // ----- through the parser -----

  function Framing(fs: seq<Field>): seq<Field> {
    [Field(TAG_BEGIN, VERSION), Field(TAG_LENGTH, LengthText(|Encode(fs)|))] + fs
    + [Field(TAG_CHECKSUM, Padded(Checksum(Covered(fs)), 3))]
  }

  lemma DigitsHaveNoSoh(s: Bytes)
    requires AllDigits(s)
    ensures SOH !in s
  {
  }

  lemma OneFieldText(f: Field)
    ensures Encode([f]) == FieldText(f)
  {
    assert [f][..0] == [];
    assert [] + FieldText(f) == FieldText(f);
  }

  lemma EncodePush(fs: seq<Field>, f: Field)
    ensures Encode(fs + [f]) == Encode(fs) + FieldText(f)
  {
    assert (fs + [f])[..|fs|] == fs;
  }

  lemma BeginIsField()
    ensures FieldText(Field(TAG_BEGIN, VERSION)) == BEGIN
  {
    assert Decimal(8) == [56];
  }

  lemma LengthIsField(text: Bytes)
    ensures FieldText(Field(TAG_LENGTH, text)) == [57, EQUALS] + text + [SOH]
  {
    assert Decimal(9) == [57];
  }

  lemma PrefixIsFields(n: nat)
    ensures Encode([Field(TAG_BEGIN, VERSION), Field(TAG_LENGTH, LengthText(n))]) == Prefix(n)
  {
    hide Encode, FieldText, LengthText;
    var a, b := Field(TAG_BEGIN, VERSION), Field(TAG_LENGTH, LengthText(n));
    OneFieldText(a);
    EncodePush([a], b);
    assert [a] + [b] == [a, b];
    BeginIsField();
    LengthIsField(LengthText(n));
    assert BEGIN + ([57, EQUALS] + LengthText(n) + [SOH]) == Prefix(n);
  }

  lemma TrailerIsField(sum: Byte)
    ensures FieldText(Field(TAG_CHECKSUM, Padded(sum, 3))) == Trailer(sum)
  {
    assert Decimal(1) == [49];
    assert Decimal(10) == [49] + [48];
    assert [49] + [48] + [EQUALS] == [49, 48, EQUALS];
  }

  /** A message is nothing but its framed fields, printed. */
  lemma MessageIsFields(fs: seq<Field>)
    ensures Message(fs) == Encode(Framing(fs))
  {
    hide Encode, Checksum, Prefix, Trailer, Padded, LengthText, FieldText;
    var n, sum := |Encode(fs)|, Checksum(Covered(fs));
    var head := [Field(TAG_BEGIN, VERSION), Field(TAG_LENGTH, LengthText(n))];
    var last := Field(TAG_CHECKSUM, Padded(sum, 3));
    PrefixIsFields(n);
    TrailerIsField(sum);
    OneFieldText(last);
    EncodeAppend(head, fs);
    EncodeAppend(head + fs, [last]);
  }

  /** A built message parses back to version, length, its fields in order and checksum. */
  lemma MessageParses(fs: seq<Field>)
    ensures Parse(Message(fs)) == Fields(Framing(fs)) <==> WellFormed(fs)
  {
    hide Encode, Parse, Checksum, LengthText, Padded;
    MessageIsFields(fs);
    FieldsRoundTrip(Framing(fs));
    DigitsHaveNoSoh(LengthText(|Encode(fs)|));
    DigitsHaveNoSoh(Padded(Checksum(Covered(fs)), 3));
    var g := Framing(fs);
    assert WellFormedField(g[0]) && WellFormedField(g[1]) && WellFormedField(g[|g| - 1]);
    if WellFormed(fs) {
      forall i | 0 <= i < |g|
        ensures WellFormedField(g[i])
      {
        assert 2 <= i < |g| - 1 ==> g[i] == fs[i - 2];
      }
    }
    if WellFormed(g) {
      forall i | 0 <= i < |fs|
        ensures WellFormedField(fs[i])
      {
        assert fs[i] == g[i + 2];
      }
    }
  }

  // ----- the builder -----

  /** The standard header every message starts with. */
  function HeaderFields(msgType: Byte, sender: Bytes, target: Bytes, seqNum: nat): seq<Field> {
    [Field(TAG_MSG_TYPE, [msgType]), Field(TAG_SENDER, sender), Field(TAG_TARGET, target),
     Field(TAG_SEQ_NUM, IntText(seqNum))]
  }

  class Builder {
    var buf: Bytes
    var bodyStart: nat
    var bodyLenSlot: nat

    /** The fields added since `Begin`. */
    ghost var fields: seq<Field>

    ghost predicate Valid()
      reads this
    {
      && bodyStart == 19 && bodyLenSlot == 12
      && buf == BEGIN + [57, EQUALS] + Zeros(6) + [SOH] + Encode(fields)
    }

    constructor ()
      ensures fields == []
    {
      buf, bodyStart, bodyLenSlot, fields := [], 0, 0, [];
    }

    method Begin(msgType: Byte, sender: Bytes, target: Bytes, seqNum: nat)
      modifies this
      ensures Valid() && fields == HeaderFields(msgType, sender, target, seqNum)
    {
      buf := BEGIN + [57, EQUALS];
      bodyLenSlot := |buf|;
      buf := buf + Zeros(6) + [SOH];
      bodyStart := |buf|;
      fields := [];
      assert buf + Encode([]) == buf;
      AddChar(TAG_MSG_TYPE, msgType);
      AddStr(TAG_SENDER, sender);
      AddStr(TAG_TARGET, target);
      AddInt(TAG_SEQ_NUM, seqNum);
    }

    method AddStr(tag: int, v: Bytes)
      requires Valid()
      modifies this
      ensures Valid() && fields == old(fields) + [Field(tag, v)]
    {
      hide Encode, IntText;
      ghost var start := BEGIN + [57, EQUALS] + Zeros(6) + [SOH];
      EncodePush(fields, Field(tag, v));
      assert buf + IntText(tag) + [EQUALS] + v + [SOH] == start + (Encode(fields) + FieldText(Field(tag, v)));
      buf := buf + IntText(tag) + [EQUALS] + v + [SOH];
      fields := fields + [Field(tag, v)];
    }

    method AddInt(tag: int, v: int)
      requires Valid()
      modifies this
      ensures Valid() && fields == old(fields) + [Field(tag, IntText(v))]
    {
      AddStr(tag, IntText(v));
    }

    method AddChar(tag: int, c: Byte)
      requires Valid()
      modifies this
      ensures Valid() && fields == old(fields) + [Field(tag, [c])]
    {
      AddStr(tag, [c]);
    }

    /** Patches the length in and appends the checksum; the message is then complete. */
    method Finalize() returns (out: Bytes)
      requires Valid()
      modifies this
      ensures out == buf == Message(fields) && fields == old(fields)
    {
      hide Encode, Checksum, Padded;
      var bodyLen := |buf| - bodyStart;
      buf := buf[..bodyLenSlot] + LengthText(bodyLen) + buf[bodyLenSlot + 6..];
      assert buf == Covered(fields);
      var sum := ComputeChecksum(buf);
      buf := buf + Trailer(sum);
      out := buf;
    }
  }
}
