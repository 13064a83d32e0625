/** Tag=value fields: printing, parsing, and exactly when parsing undoes printing. */
module FixFields {
  import opened FixText

  datatype Field = Field(tag: int, value: Bytes)

  datatype Parsed = Rejected | Fields(fields: seq<Field>)

  const INT_MAX: int := 0x7fff_ffff

  /** Signed decimal, as `to_chars` writes it. */
  function IntText(n: int): (s: Bytes)
    ensures s != []
  {
    if n >= 0 then Decimal(n) else [MINUS] + Decimal(-n)
  }

  function FieldText(f: Field): (s: Bytes)
    ensures s != []
  {
    IntText(f.tag) + [EQUALS] + f.value + [SOH]
  }

  function Encode(fs: seq<Field>): Bytes {
    if fs == [] then [] else Encode(fs[..|fs| - 1]) + FieldText(fs[|fs| - 1])
  }

  datatype Scanned = NoField | OneField(field: Field, next: nat)

  /** A tag is a non-empty run of digits that fits an `int`, up to '='; a value runs up to SOH. */
  function FieldAt(s: Bytes, i: nat): (r: Scanned)
    requires i <= |s|
    ensures r.OneField? ==> i < r.next <= |s|
  {
    var e := DigitsEnd(s, i);
    if e == |s| || s[e] != EQUALS || e == i || Value(s[i..e]) > INT_MAX then NoField
    else
      var v := SohAt(s, e + 1);
      if v == |s| then NoField else OneField(Field(Value(s[i..e]), s[e + 1..v]), v + 1)
  }

  function Joined(fs: seq<Field>, p: Parsed): Parsed {
    match p
    case Rejected => Rejected
    case Fields(gs) => Fields(fs + gs)
  }

  function ParseFrom(s: Bytes, i: nat): Parsed
    requires i <= |s|
    decreases |s| - i
  {
    if i == |s| then Fields([])
    else
      match FieldAt(s, i)
      case NoField => Rejected
      case OneField(f, next) => Joined([f], ParseFrom(s, next))
  }

  function Parse(s: Bytes): Parsed {
    ParseFrom(s, 0)
  }

  // ----- the parsing loop -----

  /** Skips the digits of a tag; stops early at anything that is neither digit nor '='. */
  method ScanTag(s: Bytes, from: nat) returns (ok: bool, i: nat)
    requires from < |s|
    ensures from <= i <= |s|
    ensures ok <==> DigitsEnd(s, from) < |s| && s[DigitsEnd(s, from)] == EQUALS
    ensures ok ==> i == DigitsEnd(s, from)
  {
    i := from;
    while i < |s| && s[i] != EQUALS
      invariant from <= i <= |s| && DigitsEnd(s, i) == DigitsEnd(s, from)
    {
      if !IsDigit(s[i]) {
        return false, i;
      }
      i := i + 1;
    }
    ok := i < |s|;
  }

  method ScanValue(s: Bytes, from: nat) returns (i: nat)
    requires from <= |s|
    ensures i == SohAt(s, from)
  {
    i := from;
    while i < |s| && s[i] != SOH
      invariant from <= i <= |s| && SohAt(s, i) == SohAt(s, from)
    {
      i := i + 1;
    }
  }

  method ScanField(s: Bytes, from: nat) returns (r: Scanned)
    requires from < |s|
    ensures r == FieldAt(s, from)
  {
    hide Value, DigitsEnd, SohAt;
    var ok, e := ScanTag(s, from);
    if !ok || e == from || Value(s[from..e]) > INT_MAX {
      return NoField;
    }
    var v := ScanValue(s, e + 1);
    if v == |s| {
      return NoField;
    }
    return OneField(Field(Value(s[from..e]), s[e + 1..v]), v + 1);
  }

  lemma JoinTwice(fs: seq<Field>, gs: seq<Field>, p: Parsed)
    ensures Joined(fs, Joined(gs, p)) == Joined(fs + gs, p)
  {
    if p.Fields? {
      assert fs + (gs + p.fields) == (fs + gs) + p.fields;
    }
  }

  lemma JoinNothing(p: Parsed)
    ensures Joined([], p) == p
  {
    if p.Fields? {
      assert [] + p.fields == p.fields;
    }
  }

  /** The parser: one field after the other until the frame is used up or a field is bad. */
  method ParseFrame(s: Bytes) returns (p: Parsed)
    ensures p == Parse(s)
  {
    hide FieldAt;
    var i := 0;
    var fields: seq<Field> := [];
    JoinNothing(Parse(s));
    while i < |s|
      invariant 0 <= i <= |s|
      invariant Parse(s) == Joined(fields, ParseFrom(s, i))
      decreases |s| - i
    {
      var r := ScanField(s, i);
      if r.NoField? {
        return Rejected;
      }
      JoinTwice(fields, [r.field], ParseFrom(s, r.next));
      fields := fields + [r.field];
      i := r.next;
    }
    p := Fields(fields);
  }

  // ----- round trip -----

  predicate WellFormedField(f: Field) {
    0 <= f.tag <= INT_MAX && SOH !in f.value
  }

  predicate WellFormed(fs: seq<Field>) {
    forall i :: 0 <= i < |fs| ==> WellFormedField(fs[i])
  }

  /** The printed field stands at position `i`. */
  predicate StandsAt(s: Bytes, i: nat, t: Bytes) {
    i + |t| <= |s| && s[i..i + |t|] == t
  }

  lemma Within(s: Bytes, i: nat, t: Bytes, a: nat, b: nat)
    requires StandsAt(s, i, t) && a <= b <= |t|
    ensures s[i + a..i + b] == t[a..b]
  {
    forall x | 0 <= x < b - a
      ensures s[i + a..i + b][x] == t[a..b][x]
    {
      assert s[i + (a + x)] == s[i..i + |t|][a + x];
    }
  }

  /** Tag, '=', value, SOH, piece by piece. */
  lemma FieldTextParts(f: Field)
    requires f.tag >= 0
    ensures var d, t := Decimal(f.tag), FieldText(f);
            && |t| == |d| + |f.value| + 2
            && t[..|d|] == d && t[|d|] == EQUALS && t[|d| + 1..|d| + 1 + |f.value|] == f.value
            && t[|d| + 1 + |f.value|] == SOH
  {
    hide Decimal;
  }

  /** A printed field is scanned back, wherever it stands. */
  lemma FieldScanned(s: Bytes, i: nat, f: Field)
    requires WellFormedField(f) && StandsAt(s, i, FieldText(f))
    ensures FieldAt(s, i) == OneField(f, i + |FieldText(f)|)
  {
    hide Value, Decimal, DigitsEnd, SohAt, FieldText;
    var d, t := Decimal(f.tag), FieldText(f);
    var e, v := i + |d|, i + |d| + 1 + |f.value|;
    FieldTextParts(f);
    Within(s, i, t, 0, |d|);
    Within(s, i, t, |d| + 1, |d| + 1 + |f.value|);
    assert s[e] == s[i..i + |t|][|d|] && s[v] == s[i..i + |t|][|d| + 1 + |f.value|];
    DigitsEndIs(s, i, e);
    DecimalValue(f.tag);
    SohAtIs(s, e + 1, v);
  }

  lemma {:induction false} EncodePrefix(fs: seq<Field>, k: nat)
    requires k <= |fs|
    ensures Encode(fs[..k]) <= Encode(fs)
    decreases |fs|
  {
    hide FieldText;
    if k < |fs| {
      var n := |fs| - 1;
      EncodePrefix(fs[..n], k);
      assert fs[..n][..k] == fs[..k];
    } else {
      assert fs[..k] == fs;
    }
  }

  /** Field `k` stands right behind the `k` fields before it. */
  lemma FieldStands(fs: seq<Field>, k: nat)
    requires k < |fs|
    ensures StandsAt(Encode(fs), |Encode(fs[..k])|, FieldText(fs[k]))
    ensures |Encode(fs[..k + 1])| == |Encode(fs[..k])| + |FieldText(fs[k])|
  {
    hide FieldText;
    EncodePrefix(fs, k + 1);
    assert fs[..k + 1][..k] == fs[..k];
    var whole := Encode(fs[..k + 1]);
    assert whole == Encode(fs[..k]) + FieldText(fs[k]);
    assert Encode(fs)[..|whole|] == whole;
    assert Encode(fs)[|Encode(fs[..k])|..|whole|] == whole[|Encode(fs[..k])|..];
  }

  lemma {:induction false} ParsesFrom(fs: seq<Field>, k: nat)
    requires WellFormed(fs) && k <= |fs|
    ensures |Encode(fs[..k])| <= |Encode(fs)|
    ensures ParseFrom(Encode(fs), |Encode(fs[..k])|) == Fields(fs[k..])
    decreases |fs| - k
  {
    hide FieldText, FieldAt, Encode;
    EncodePrefix(fs, k);
    if k == |fs| {
      assert fs[..k] == fs && fs[k..] == [];
    } else {
      FieldStands(fs, k);
      FieldScanned(Encode(fs), |Encode(fs[..k])|, fs[k]);
      ParsesFrom(fs, k + 1);
      assert [fs[k]] + fs[k + 1..] == fs[k..];
    }
  }

  lemma {:induction false} ParsedIsWellFormed(s: Bytes, i: nat)
    requires i <= |s|
    ensures ParseFrom(s, i).Fields? ==> WellFormed(ParseFrom(s, i).fields)
    decreases |s| - i
  {
    if i < |s| && FieldAt(s, i).OneField? {
      ParsedIsWellFormed(s, FieldAt(s, i).next);
    }
  }

  /** Parsing undoes printing exactly for non-negative `int` tags and SOH-free values. */
  lemma FieldsRoundTrip(fs: seq<Field>)
    ensures Parse(Encode(fs)) == Fields(fs) <==> WellFormed(fs)
  {
    if WellFormed(fs) {
      ParsesFrom(fs, 0);
      assert fs[..0] == [] && fs[0..] == fs;
    }
    ParsedIsWellFormed(Encode(fs), 0);
  }

  lemma {:induction false} EncodeAppend(fs: seq<Field>, gs: seq<Field>)
    ensures Encode(fs + gs) == Encode(fs) + Encode(gs)
  {
    hide FieldText;
    if gs == [] {
      assert fs + gs == fs;
    } else {
      var n := |gs| - 1;
      EncodeAppend(fs, gs[..n]);
      assert (fs + gs)[..|fs| + n] == fs + gs[..n];
      assert Encode(fs) + Encode(gs[..n]) + FieldText(gs[n]) == Encode(fs) + (Encode(gs[..n]) + FieldText(gs[n]));
    }
  }

  // ----- lookups -----

  /** The value of the first field with this tag, empty if there is none. */
  function Get(fs: seq<Field>, tag: int): Bytes {
    if fs == [] then [] else if fs[0].tag == tag then fs[0].value else Get(fs[1..], tag)
  }

  /** A lookup finds the first field with the tag, and nothing if there is none. */
  lemma {:induction false} GetIsFirst(fs: seq<Field>, tag: int, i: nat)
    requires i <= |fs| && forall j :: 0 <= j < i ==> fs[j].tag != tag
    ensures i < |fs| && fs[i].tag == tag ==> Get(fs, tag) == fs[i].value
    ensures i == |fs| ==> Get(fs, tag) == []
  {
    if 0 < i {
      GetIsFirst(fs[1..], tag, i - 1);
    }
  }
}
