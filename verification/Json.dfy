/**
 * JSON string literals over UTF-16 text and their size in UTF-8 (stringBytes in src/model-input.ts;
 * section 7 of RFC 8259, section 3 of RFC 3629, section 2 of RFC 2781).
 */
module Json {
  import opened Text

  type Byte = b: int | 0 <= b < 256 witness 0

  predicate IsHigh(u: Unit) { 0xD800 <= u <= 0xDBFF }
  predicate IsLow(u: Unit) { 0xDC00 <= u <= 0xDFFF }

  /** A surrogate pair starts at the front. */
  predicate PairFirst(t: Text) { |t| >= 2 && IsHigh(t[0]) && IsLow(t[1]) }

  // ---------------------------------------------------------------- UTF-8

  /** One unit outside pairs; a lone surrogate becomes the replacement character. */
  function UnitBytes(u: Unit): seq<Byte> {
    if u < 0x80 then [u]
    else if u < 0x800 then [0xC0 + u / 0x40, 0x80 + u % 0x40]
    else if IsHigh(u) || IsLow(u) then [0xEF, 0xBF, 0xBD]
    else [0xE0 + u / 0x1000, 0x80 + u / 0x40 % 0x40, 0x80 + u % 0x40]
  }

  function PairBytes(high: Unit, low: Unit): seq<Byte>
    requires IsHigh(high) && IsLow(low)
  {
    var point := 0x10000 + (high - 0xD800) * 0x400 + (low - 0xDC00);
    [0xF0 + point / 0x40000, 0x80 + point / 0x1000 % 0x40, 0x80 + point / 0x40 % 0x40, 0x80 + point % 0x40]
  }

  function Utf8(t: Text): seq<Byte> {
    if t == [] then []
    else if PairFirst(t) then PairBytes(t[0], t[1]) + Utf8(t[2..])
    else UnitBytes(t[0]) + Utf8(t[1..])
  }

  /** The texts can be encoded one after the other: no pair lies across the seam. */
  predicate Seam(a: Text, b: Text) { a == [] || b == [] || !(IsHigh(a[|a| - 1]) && IsLow(b[0])) }

  lemma {:induction false} Utf8Concat(a: Text, b: Text)
    requires Seam(a, b)
    ensures Utf8(a + b) == Utf8(a) + Utf8(b)
    decreases |a|
  {
    if a == [] {
      assert a + b == b;
    } else if PairFirst(a) {
      assert (a + b)[2..] == a[2..] + b && PairFirst(a + b);
      Utf8Concat(a[2..], b);
    } else {
      assert (a + b)[1..] == a[1..] + b;
      assert !PairFirst(a + b);
      Utf8Concat(a[1..], b);
    }
  }

  // ---------------------------------------------------------------- string literals

  function Hex(n: nat): Unit
    requires n < 16
  {
    if n < 10 then 48 + n else 87 + n
  }

  function HexEscape(u: Unit): Text { [BACKSLASH, 117, Hex(u / 0x1000), Hex(u / 0x100 % 16), Hex(u / 0x10 % 16), Hex(u % 16)] }

  /** How one unit outside pairs is written inside a literal. */
  function EscapeUnit(u: Unit): Text {
    if u == QUOTE || u == BACKSLASH then [BACKSLASH, u]
    else if u == 8 then [BACKSLASH, 98]
    else if u == 9 then [BACKSLASH, 116]
    else if u == 10 then [BACKSLASH, 110]
    else if u == 12 then [BACKSLASH, 102]
    else if u == 13 then [BACKSLASH, 114]
    else if u < 32 || IsHigh(u) || IsLow(u) then HexEscape(u)
    else [u]
  }

  function Escape(t: Text): Text {
    if t == [] then []
    else if PairFirst(t) then [t[0], t[1]] + Escape(t[2..])
    else EscapeUnit(t[0]) + Escape(t[1..])
  }

  /** The literal that serialization writes for a string. */
  function Literal(t: Text): Text { [QUOTE] + Escape(t) + [QUOTE] }

  // ---------------------------------------------------------------- its size

  function UnitCost(u: Unit): nat {
    if u == 34 || u == 92 then 2
    else if u < 32 then if u == 8 || u == 9 || u == 10 || u == 12 || u == 13 then 2 else 6
    else if u < 128 then 1
    else if u < 2048 then 2
    else if IsHigh(u) || IsLow(u) then 6 else 3
  }

  function Cost(t: Text): nat {
    if t == [] then 0
    else if PairFirst(t) then 4 + Cost(t[2..])
    else UnitCost(t[0]) + Cost(t[1..])
  }

  function StringBytes(t: Text): nat { 2 + Cost(t) }

  /** An escape never begins in the middle of a pair. */
  lemma {:induction false} EscapeStarts(t: Text)
    ensures t != [] ==> Escape(t) != [] && !IsLow(Escape(t)[0])
  {
  }

  lemma {:induction false} AsciiBytes(t: Text)
    requires forall k :: 0 <= k < |t| ==> t[k] < 0x80
    ensures |Utf8(t)| == |t|
  {
    if t != [] { AsciiBytes(t[1..]); }
  }

  lemma EscapeUnitCost(u: Unit)
    ensures |Utf8(EscapeUnit(u))| == UnitCost(u)
    ensures EscapeUnit(u) != [] && !IsHigh(EscapeUnit(u)[|EscapeUnit(u)| - 1]) && !IsLow(EscapeUnit(u)[0])
  {
    if u == QUOTE || u == BACKSLASH || u < 32 || IsHigh(u) || IsLow(u) {
      AsciiBytes(EscapeUnit(u));
    } else {
      assert EscapeUnit(u) == [u] && [u][1..] == [];
      assert Utf8([u]) == UnitBytes(u) + Utf8([]);
    }
  }

  lemma {:induction false} EscapeCost(t: Text)
    ensures |Utf8(Escape(t))| == Cost(t)
    decreases |t|
  {
    hide EscapeUnit, UnitCost, UnitBytes, PairBytes;
    if t == [] {
    } else if PairFirst(t) {
      EscapeCost(t[2..]);
      EscapedPair(t[0], t[1], Escape(t[2..]));
    } else {
      EscapeCost(t[1..]);
      EscapeUnitCost(t[0]);
      EscapeStarts(t[1..]);
      Utf8Concat(EscapeUnit(t[0]), Escape(t[1..]));
    }
  }

  lemma {:induction false} EscapedPair(high: Unit, low: Unit, rest: Text)
    requires IsHigh(high) && IsLow(low)
    ensures |Utf8([high, low] + rest)| == 4 + |Utf8(rest)|
  {
    var t := [high, low] + rest;
    assert t[2..] == rest && PairFirst(t);
  }

  lemma {:induction false} EscapeEnds(t: Text)
    ensures Escape(t) != [] ==> !IsLow(Escape(t)[0])
    ensures |Utf8([QUOTE] + Escape(t))| == 1 + |Utf8(Escape(t))|
  {
    EscapeStarts(t);
    Utf8Concat([QUOTE], Escape(t));
    AsciiBytes([QUOTE]);
  }

  /** The size that is counted unit by unit is the size of the literal in UTF-8. */
  lemma StringBytesIsSize(t: Text)
    ensures |Utf8(Literal(t))| == StringBytes(t)
  {
    hide Escape, Utf8;
    EscapeCost(t);
    EscapeEnds(t);
    Utf8Concat([QUOTE] + Escape(t), [QUOTE]);
    AsciiBytes([QUOTE]);
  }

  method CountStringBytes(text: Text) returns (bytes: nat)
    ensures bytes == |Utf8(Literal(text))|
  {
    hide Utf8, Literal;
    bytes := 2;
    var i := 0;
    while i < |text|
      invariant i <= |text| && bytes + Cost(text[i..]) == StringBytes(text)
    {
      var code := text[i];
      assert text[i..][0] == code && text[i..][1..] == text[i + 1..];
      if code == 34 || code == 92 { bytes := bytes + 2; }
      else if code < 32 { bytes := bytes + if code == 8 || code == 9 || code == 10 || code == 12 || code == 13 then 2 else 6; }
      else if code < 128 { bytes := bytes + 1; }
      else if code < 2048 { bytes := bytes + 2; }
      else if IsHigh(code) && i + 1 < |text| && IsLow(text[i + 1]) {
        assert text[i..][1] == text[i + 1] && text[i..][2..] == text[i + 2..];
        bytes := bytes + 4;
        i := i + 1;
      }
      else { bytes := bytes + if IsHigh(code) || IsLow(code) then 6 else 3; }
      i := i + 1;
    }
    assert text[i..] == [];
    StringBytesIsSize(text);
  }

  // ---------------------------------------------------------------- joining

  lemma {:induction false} CostConcat(a: Text, b: Text)
    requires Seam(a, b)
    ensures Cost(a + b) == Cost(a) + Cost(b)
    decreases |a|
  {
    if a == [] {
      assert a + b == b;
    } else if PairFirst(a) {
      assert (a + b)[2..] == a[2..] + b && PairFirst(a + b);
      CostConcat(a[2..], b);
    } else {
      assert (a + b)[1..] == a[1..] + b;
      assert !PairFirst(a + b);
      CostConcat(a[1..], b);
    }
  }

  function Break(): Text { [NEWLINE, NEWLINE] }

  /** Two texts joined by a blank line cost four bytes more than apart, whatever surrogates they end in. */
  lemma {:induction false} JoinedCost(a: Text, b: Text)
    ensures Cost(a + Break() + b) == Cost(a) + 4 + Cost(b)
  {
    CostConcat(a + Break(), b);
    CostConcat(a, Break());
    assert Break()[1..] == [NEWLINE] && [NEWLINE][1..] == [];
    assert Cost(Break()) == 4 by { assert Cost([NEWLINE]) == 2; }
  }
}
