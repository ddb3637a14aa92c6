/** Reading UTF-8 back: a byte range between characters is read as the text that was encoded (sliceUtf8 in src/blocks.ts). */
module Decoding {
  import opened Text
  import opened Json
  import opened Blocks

  /** Every surrogate is half of a pair. */
  predicate Wellformed(t: Text) {
    if t == [] then true
    else if PairFirst(t) then Wellformed(t[2..])
    else !IsHigh(t[0]) && !IsLow(t[0]) && Wellformed(t[1..])
  }

  predicate Trails(bytes: seq<Byte>, from: nat, n: nat) {
    from + n <= |bytes| && forall k :: from <= k < from + n ==> Continuation(bytes[k])
  }

  function Value(b: seq<Byte>, k: nat): int
    requires k < |b|
  {
    b[k]
  }

  /** The first character: its units and its length in bytes; strict, as section 3 of RFC 3629 asks. */
  function First(b: seq<Byte>): Option<(Text, nat)>
    requires b != []
  {
    if b[0] < 0x80 then Some(([Value(b, 0)], 1))
    else if 0xC2 <= b[0] < 0xE0 && Trails(b, 1, 1) then Some(([(Value(b, 0) - 0xC0) * 0x40 + (Value(b, 1) - 0x80)], 2))
    else if 0xE0 <= b[0] < 0xF0 && Trails(b, 1, 2) then
      var u := (Value(b, 0) - 0xE0) * 0x1000 + (Value(b, 1) - 0x80) * 0x40 + (Value(b, 2) - 0x80);
      if u < 0x800 || 0xD800 <= u <= 0xDFFF then None else Some(([u], 3))
    else if 0xF0 <= b[0] < 0xF5 && Trails(b, 1, 3) then
      var p := (Value(b, 0) - 0xF0) * 0x40000 + (Value(b, 1) - 0x80) * 0x1000 + (Value(b, 2) - 0x80) * 0x40 + (Value(b, 3) - 0x80);
      if p < 0x10000 || p > 0x10FFFF then None
      else Some(([0xD800 + (p - 0x10000) / 0x400, 0xDC00 + (p - 0x10000) % 0x400], 4))
    else None
  }

  function Decode(b: seq<Byte>): Option<Text>
    decreases |b|
  {
    if b == [] then Some([])
    else
      var first := First(b);
      if first.None? || first.value.1 > |b| || first.value.1 == 0 then None
      else
        var rest := Decode(b[first.value.1..]);
        if rest.None? then None else Some(first.value.0 + rest.value)
  }

  lemma {:induction false} TwoBytes(u: Unit)
    requires 0x80 <= u < 0x800
    ensures var a, b := 0xC0 + u / 0x40, 0x80 + u % 0x40;
            0xC2 <= a < 0xE0 && 0x80 <= b < 0xC0 && (a - 0xC0) * 0x40 + (b - 0x80) == u
  {
  }

  lemma {:induction false} ThreeBytes(u: Unit)
    requires 0x800 <= u
    ensures var a, b, c := 0xE0 + u / 0x1000, 0x80 + u / 0x40 % 0x40, 0x80 + u % 0x40;
            0xE0 <= a < 0xF0 && 0x80 <= b < 0xC0 && 0x80 <= c < 0xC0 && (a - 0xE0) * 0x1000 + (b - 0x80) * 0x40 + (c - 0x80) == u
  {
    assert u / 0x40 == u / 0x1000 * 0x40 + u / 0x40 % 0x40;
  }

  lemma {:induction false} FourBytes(p: nat)
    requires 0x10000 <= p <= 0x10FFFF
    ensures var a, b, c, d := 0xF0 + p / 0x40000, 0x80 + p / 0x1000 % 0x40, 0x80 + p / 0x40 % 0x40, 0x80 + p % 0x40;
            0xF0 <= a < 0xF5 && 0x80 <= b < 0xC0 && 0x80 <= c < 0xC0 && 0x80 <= d < 0xC0
            && (a - 0xF0) * 0x40000 + (b - 0x80) * 0x1000 + (c - 0x80) * 0x40 + (d - 0x80) == p
  {
    assert p / 0x40 == p / 0x1000 * 0x40 + p / 0x40 % 0x40;
    assert p / 0x1000 == p / 0x40000 * 0x40 + p / 0x1000 % 0x40;
  }

  lemma {:induction false} FirstUnit(u: Unit, rest: seq<Byte>)
    requires !IsHigh(u) && !IsLow(u)
    ensures First(UnitBytes(u) + rest) == Some(([u], |UnitBytes(u)|))
  {
    if u >= 0x80 {
      if u < 0x800 { TwoBytes(u); } else { ThreeBytes(u); }
    }
  }

  lemma {:induction false} FirstPair(high: Unit, low: Unit, rest: seq<Byte>)
    requires IsHigh(high) && IsLow(low)
    ensures First(PairBytes(high, low) + rest) == Some(([high, low], 4))
  {
    var p := 0x10000 + (high - 0xD800) * 0x400 + (low - 0xDC00);
    FourBytes(p);
    assert (p - 0x10000) / 0x400 == high - 0xD800 && (p - 0x10000) % 0x400 == low - 0xDC00;
  }

  /** Encoding and reading back gives the text, for every text whose surrogates are paired. */
  lemma {:induction false} DecodesBack(t: Text)
    requires Wellformed(t)
    ensures Decode(Utf8(t)) == Some(t)
    decreases |t|
  {
    hide First, UnitBytes, PairBytes;
    if t == [] {
    } else if PairFirst(t) {
      DecodesBack(t[2..]);
      var a, b := PairBytes(t[0], t[1]), Utf8(t[2..]);
      FirstPair(t[0], t[1], b);
      assert |a| == 4 by { PairBoundaries(t[0], t[1]); FourLong(t[0], t[1]); }
      assert (a + b)[4..] == b;
      assert t == [t[0], t[1]] + t[2..];
    } else {
      DecodesBack(t[1..]);
      var a, b := UnitBytes(t[0]), Utf8(t[1..]);
      FirstUnit(t[0], b);
      assert |a| > 0 by { UnitBoundaries(t[0]); }
      assert (a + b)[|a|..] == b;
      assert t == [t[0]] + t[1..];
    }
  }

  lemma {:induction false} FourLong(high: Unit, low: Unit)
    requires IsHigh(high) && IsLow(low)
    ensures |PairBytes(high, low)| == 4
  {
  }

  /** A byte range of a source as text, or nothing when it does not lie between characters. */
  method SliceUtf8(bytes: seq<Byte>, start: int, end: int) returns (text: Option<Text>)
    ensures text == if 0 <= start <= end <= |bytes| && Boundary(bytes, start) && Boundary(bytes, end) then Decode(bytes[start..end]) else None
  {
    if start < 0 || end < start || end > |bytes| || !Boundary(bytes, start) || !Boundary(bytes, end) { return None; }
    text := Decode(bytes[start..end]);
  }

  // ---------------------------------------------------------------- parts of well-formed texts

  /** Position `i` does not lie inside a pair. */
  predicate Between(t: Text, i: nat) { i <= |t| && (i == 0 || i == |t| || !(IsHigh(t[i - 1]) && IsLow(t[i]))) }

  lemma {:induction false} WellformedParts(t: Text, i: nat)
    requires Wellformed(t) && Between(t, i)
    ensures Wellformed(t[..i]) && Wellformed(t[i..]) && Utf8(t) == Utf8(t[..i]) + Utf8(t[i..])
    decreases |t|
  {
    hide UnitBytes, PairBytes;
    assert t == t[..i] + t[i..];
    Utf8Concat(t[..i], t[i..]);
    if i == 0 {
      assert t[0..] == t;
    } else if PairFirst(t) {
      assert i >= 2;
      WellformedParts(t[2..], i - 2);
      assert t[..i][2..] == t[2..][..i - 2] && t[2..][i - 2..] == t[i..];
      assert PairFirst(t[..i]);
    } else {
      WellformedParts(t[1..], i - 1);
      assert t[..i][1..] == t[1..][..i - 1] && t[1..][i - 1..] == t[i..];
      assert !PairFirst(t[..i]);
    }
  }

  /** In a well-formed text a low surrogate follows a high one, and a high one is followed by a low one. */
  lemma {:induction false} Paired(t: Text, k: nat)
    requires Wellformed(t) && k < |t|
    ensures IsLow(t[k]) ==> k > 0 && IsHigh(t[k - 1])
    ensures IsHigh(t[k]) ==> k + 1 < |t| && IsLow(t[k + 1])
    decreases |t|
  {
    if PairFirst(t) {
      if k >= 2 { Paired(t[2..], k - 2); }
    } else if k >= 1 {
      Paired(t[1..], k - 1);
    }
  }

  /** A part of a text between two positions outside pairs has its own bytes at its own place. */
  lemma {:induction false} PartBytes(t: Text, i: nat, j: nat)
    requires Wellformed(t) && i <= j && Between(t, i) && Between(t, j)
    ensures Wellformed(t[i..j]) && |Utf8(t[..i])| + |Utf8(t[i..j])| == |Utf8(t[..j])| <= |Utf8(t)|
    ensures Utf8(t)[|Utf8(t[..i])|..|Utf8(t[..j])|] == Utf8(t[i..j])
  {
    hide Utf8, Wellformed;
    WellformedParts(t, j);
    var head := t[..j];
    BetweenHead(t, i, j);
    WellformedParts(head, i);
    assert head[..i] == t[..i] && head[i..] == t[i..j];
    var a, b, c := Utf8(t[..i]), Utf8(t[i..j]), Utf8(t[j..]);
    assert Utf8(t) == a + b + c;
    assert (a + b + c)[|a|..|a| + |b|] == b;
  }

  lemma {:induction false} BetweenHead(t: Text, i: nat, j: nat)
    requires i <= j && Between(t, i) && Between(t, j)
    ensures Between(t[..j], i)
  {
  }

  // ---------------------------------------------------------------- reading and encoding again

  lemma {:induction false} WellformedConcat(a: Text, b: Text)
    requires (|a| == 1 && !IsHigh(a[0]) && !IsLow(a[0])) || (|a| == 2 && IsHigh(a[0]) && IsLow(a[1]))
    requires Wellformed(b)
    ensures Wellformed(a + b) && Utf8(a + b) == (if |a| == 1 then UnitBytes(a[0]) else PairBytes(a[0], a[1])) + Utf8(b)
  {
    if |a| == 1 {
      assert (a + b)[1..] == b && !PairFirst(a + b);
    } else {
      assert (a + b)[2..] == b && PairFirst(a + b);
    }
  }

  lemma {:induction false} FirstTwo(a: int, b: int, u: int)
    requires 0xC2 <= a < 0xE0 && 0x80 <= b < 0xC0 && u == (a - 0xC0) * 0x40 + (b - 0x80)
    ensures 0x80 <= u < 0x800 && UnitBytes(u) == [a, b]
  {
    assert u / 0x40 == a - 0xC0 && u % 0x40 == b - 0x80;
  }

  lemma {:induction false} FirstThree(a: int, b: int, c: int, u: int)
    requires 0xE0 <= a < 0xF0 && 0x80 <= b < 0xC0 && 0x80 <= c < 0xC0 && u == (a - 0xE0) * 0x1000 + (b - 0x80) * 0x40 + (c - 0x80)
    requires u >= 0x800 && !(0xD800 <= u <= 0xDFFF)
    ensures u < 0x10000 && UnitBytes(u) == [a, b, c]
  {
    assert u / 0x40 == (a - 0xE0) * 0x40 + (b - 0x80) && u % 0x40 == c - 0x80;
    assert u / 0x1000 == a - 0xE0 && u / 0x40 % 0x40 == b - 0x80;
  }

  lemma {:induction false} FirstFour(a: int, b: int, c: int, d: int, p: int)
    requires 0xF0 <= a < 0xF5 && 0x80 <= b < 0xC0 && 0x80 <= c < 0xC0 && 0x80 <= d < 0xC0
    requires p == (a - 0xF0) * 0x40000 + (b - 0x80) * 0x1000 + (c - 0x80) * 0x40 + (d - 0x80) && 0x10000 <= p <= 0x10FFFF
    ensures var h, l := 0xD800 + (p - 0x10000) / 0x400, 0xDC00 + (p - 0x10000) % 0x400;
            0xD800 <= h <= 0xDBFF && 0xDC00 <= l <= 0xDFFF && PairBytes(h, l) == [a, b, c, d]
  {
    assert p / 0x40 == (a - 0xF0) * 0x1000 + (b - 0x80) * 0x40 + (c - 0x80) && p % 0x40 == d - 0x80;
    assert p / 0x1000 == (a - 0xF0) * 0x40 + (b - 0x80) && p / 0x40 % 0x40 == c - 0x80;
    assert p / 0x40000 == a - 0xF0 && p / 0x1000 % 0x40 == b - 0x80;
  }

  lemma {:induction false} FirstEncodes(b: seq<Byte>)
    requires b != [] && First(b).Some?
    ensures var (t, n) := First(b).value;
            && n <= |b| && ((|t| == 1 && !IsHigh(t[0]) && !IsLow(t[0])) || (|t| == 2 && IsHigh(t[0]) && IsLow(t[1])))
            && (if |t| == 1 then UnitBytes(t[0]) else PairBytes(t[0], t[1])) == b[..n]
  {
    hide UnitBytes, PairBytes;
    var n := First(b).value.1;
    if n == 1 {
      assert UnitBytes(b[0]) == [b[0]] by { OneByte(b[0]); }
    } else if n == 2 {
      FirstTwo(b[0], b[1], First(b).value.0[0]);
    } else if n == 3 {
      FirstThree(b[0], b[1], b[2], First(b).value.0[0]);
    } else {
      FirstFour(b[0], b[1], b[2], b[3],
                (Value(b, 0) - 0xF0) * 0x40000 + (Value(b, 1) - 0x80) * 0x1000 + (Value(b, 2) - 0x80) * 0x40 + (Value(b, 3) - 0x80));
    }
  }

  lemma {:induction false} OneByte(u: Unit)
    requires u < 0x80
    ensures UnitBytes(u) == [u] && !IsHigh(u) && !IsLow(u)
  {
  }

  /** Whatever can be read is the encoding of the text that is read, and its surrogates are paired. */
  lemma {:induction false} EncodesBack(b: seq<Byte>)
    requires Decode(b).Some?
    ensures Wellformed(Decode(b).value) && Utf8(Decode(b).value) == b
    decreases |b|
  {
    hide First, UnitBytes, PairBytes;
    if b != [] {
      var (t, n) := First(b).value;
      FirstEncodes(b);
      EncodesBack(b[n..]);
      WellformedConcat(t, Decode(b[n..]).value);
      assert b == b[..n] + b[n..];
    }
  }

  // ---------------------------------------------------------------- parts of any encoded text

  /** The text with every lone surrogate replaced, which is what encoding and reading back gives. */
  function Repair(t: Text): Text {
    if t == [] then []
    else if PairFirst(t) then [t[0], t[1]] + Repair(t[2..])
    else [Replaced(t[0])] + Repair(t[1..])
  }

  function Replaced(u: Unit): Unit { if IsHigh(u) || IsLow(u) then 0xFFFD else u }

  lemma {:induction false} Repaired(t: Text)
    ensures Wellformed(Repair(t)) && Utf8(Repair(t)) == Utf8(t)
    ensures Wellformed(t) ==> Repair(t) == t
    decreases |t|
  {
    hide Utf8, Wellformed, UnitBytes, PairBytes, Repair, Replaced;
    if t == [] {
      NothingRepaired();
    } else if PairFirst(t) {
      Repaired(t[2..]);
      PairKept(t[0], t[1], Repair(t[2..]));
      PairSteps(t);
    } else {
      Repaired(t[1..]);
      SameUnit(t[0]);
      UnitKept(Replaced(t[0]), Repair(t[1..]));
      UnitSteps(t);
    }
  }

  lemma {:induction false} NothingRepaired()
    ensures Repair([]) == [] && Wellformed([])
  {
  }

  /** A pair in front of a well-formed text. */
  lemma {:induction false} PairKept(high: Unit, low: Unit, rest: Text)
    requires IsHigh(high) && IsLow(low) && Wellformed(rest)
    ensures Wellformed([high, low] + rest) && Utf8([high, low] + rest) == PairBytes(high, low) + Utf8(rest)
  {
    hide PairBytes;
    assert ([high, low] + rest)[2..] == rest;
  }

  lemma {:induction false} UnitKept(u: Unit, rest: Text)
    requires !IsHigh(u) && !IsLow(u) && Wellformed(rest)
    ensures Wellformed([u] + rest) && Utf8([u] + rest) == UnitBytes(u) + Utf8(rest)
  {
    hide UnitBytes;
    assert ([u] + rest)[1..] == rest;
  }

  lemma {:induction false} PairSteps(t: Text)
    requires PairFirst(t)
    ensures Repair(t) == [t[0], t[1]] + Repair(t[2..]) && Utf8(t) == PairBytes(t[0], t[1]) + Utf8(t[2..])
    ensures Wellformed(t) == Wellformed(t[2..]) && t == [t[0], t[1]] + t[2..]
  {
    hide PairBytes;
  }

  lemma {:induction false} UnitSteps(t: Text)
    requires t != [] && !PairFirst(t)
    ensures Repair(t) == [Replaced(t[0])] + Repair(t[1..]) && Utf8(t) == UnitBytes(Replaced(t[0])) + Utf8(t[1..])
    ensures (Wellformed(t) ==> Wellformed(t[1..]) && Replaced(t[0]) == t[0]) && t == [t[0]] + t[1..]
  {
    hide UnitBytes, Replaced, Wellformed;
    SameUnit(t[0]);
    LoneUnit(t);
  }

  lemma {:induction false} SameUnit(u: Unit)
    ensures UnitBytes(Replaced(u)) == UnitBytes(u) && !IsHigh(Replaced(u)) && !IsLow(Replaced(u))
  {
  }

  lemma {:induction false} LoneUnit(t: Text)
    requires t != [] && !PairFirst(t)
    ensures Wellformed(t) ==> Wellformed(t[1..]) && Replaced(t[0]) == t[0]
  {
  }

  /** The first character is whole before every boundary but the first. */
  lemma {:induction false} AfterFirst(a: seq<Byte>, rest: seq<Byte>, i: nat)
    requires OneCharacter(a) && (forall k :: 0 < k < |a| ==> Continuation(a[k]))
    requires 0 < i && Boundary(a + rest, i)
    ensures |a| <= i && Boundary(rest, i - |a|)
  {
    forall k | 0 < k < |a| ensures !Boundary(a + rest, k) { assert (a + rest)[k] == a[k]; }
    assert i < |a + rest| ==> (a + rest)[i] == rest[i - |a|];
  }

  lemma {:induction false} UnitTrails(u: Unit)
    ensures OneCharacter(UnitBytes(u)) && forall k :: 0 < k < |UnitBytes(u)| ==> Continuation(UnitBytes(u)[k])
  {
  }

  lemma {:induction false} PairTrails(high: Unit, low: Unit)
    requires IsHigh(high) && IsLow(low)
    ensures OneCharacter(PairBytes(high, low)) && |PairBytes(high, low)| == 4
    ensures forall k :: 0 < k < 4 ==> Continuation(PairBytes(high, low)[k])
  {
  }

  /** Reading from inside or from before the first character. */
  lemma {:induction false} ReadOn(a: seq<Byte>, rest: seq<Byte>, u: Text, i: nat, j: nat)
    requires |a| > 0 && |a| <= j <= |a + rest| && (i == 0 || |a| <= i <= j)
    requires First(a + rest[..j - |a|]) == Some((u, |a|))
    requires Decode(rest[if i == 0 then 0 else i - |a|..j - |a|]).Some?
    ensures Decode((a + rest)[i..j]).Some?
  {
    hide First;
    var n := |a|;
    if i == 0 {
      assert (a + rest)[0..j] == a + rest[..j - n];
      assert (a + rest[..j - n])[n..] == rest[..j - n] && rest[0..j - n] == rest[..j - n];
    } else {
      assert (a + rest)[i..j] == rest[i - n..j - n];
    }
  }

  lemma {:induction false} BoundaryRange(bytes: seq<Byte>, i: int)
    requires Boundary(bytes, i)
    ensures 0 <= i <= |bytes|
  {
  }

  /** The bytes between two boundaries of an encoded text can be read. */
  lemma {:induction false} SliceDecodes(t: Text, i: nat, j: nat)
    requires Wellformed(t) && Boundary(Utf8(t), i) && Boundary(Utf8(t), j) && i <= j
    ensures j <= |Utf8(t)| && Decode(Utf8(t)[i..j]).Some?
    decreases |t|
  {
    hide UnitBytes, PairBytes, First, Boundary, OneCharacter, Continuation, Encoded;
    BoundaryRange(Utf8(t), j);
    if i == j {
      assert Utf8(t)[i..j] == [];
    } else {
      var pair := PairFirst(t);
      var u, tail := if pair then [t[0], t[1]] else [t[0]], if pair then t[2..] else t[1..];
      var a, rest := if pair then PairBytes(t[0], t[1]) else UnitBytes(t[0]), Utf8(tail);
      if pair { PairTrails(t[0], t[1]); } else { UnitTrails(t[0]); }
      CharacterLength(a);
      AfterFirst(a, rest, j);
      Utf8IsEncoded(tail);
      if i > 0 { AfterFirst(a, rest, i); }
      SliceDecodes(tail, if i == 0 then 0 else i - |a|, j - |a|);
      if pair { FirstPair(t[0], t[1], rest[..j - 4]); } else { FirstUnit(t[0], rest[..j - |a|]); }
      ReadOn(a, rest, u, i, j);
    }
  }

  lemma {:induction false} CharacterLength(a: seq<Byte>)
    requires OneCharacter(a)
    ensures 1 <= |a| <= 4
  {
  }
}
