/**
 * Where the page reader may cut a page: between characters and outside persistent labels
 * (persistentLabels, safePageChunkEnd and firstPageUnitEnd in src/tools.ts).
 */
module PageLabels {
  import opened Text
  import opened Json
  import opened Blocks
  import Atoms
  import Labels

  datatype Span = Span(token: Text, start: nat, end: nat)

  // ---------------------------------------------------------------- labels of a page

  /** Length of the persistent label that starts at `i`, or 0. */
  function LabelLength(t: Text, i: nat): (n: nat)
    requires i <= |t|
    ensures i + n <= |t|
  {
    if i + 39 <= |t| && t[i] == OPEN_BRACKET && t[i + 1] == UPPER_R && Atoms.Uuid(t[i + 2..i + 38]) && t[i + 38] == COLON then
      var n := Labels.DigitRun(t, i + 39);
      if n > 0 && i + 39 + n < |t| && t[i + 39 + n] == CLOSE_BRACKET then 40 + n else 0
    else 0
  }

  /** A found label is the spelling of a revision id and a number. */
  lemma {:induction false} LabelIsSpelled(t: Text, i: nat)
    requires i <= |t| && LabelLength(t, i) > 0
    ensures var n := LabelLength(t, i);
            && n >= 41 && Atoms.Uuid(t[i + 2..i + 38]) && Atoms.Digits(t[i + 39..i + n - 1])
            && t[i..i + n] == Atoms.Spell(UPPER_R, t[i + 2..i + 38], t[i + 39..i + n - 1])
  {
    var n := LabelLength(t, i);
    var head, tail := t[i + 2..i + 38], t[i + 39..i + n - 1];
    var l, r := t[i..i + n], Atoms.Spell(UPPER_R, head, tail);
    forall k | 0 <= k < n ensures l[k] == r[k] { SpellAt(head, tail, k); }
  }

  /** The units of a spelling, one by one. */
  lemma {:induction false} SpellAt(head: Text, tail: Text, k: nat)
    requires |head| == 36 && k < 40 + |tail|
    ensures |Atoms.Spell(UPPER_R, head, tail)| == 40 + |tail|
    ensures Atoms.Spell(UPPER_R, head, tail)[k]
            == if k == 0 then OPEN_BRACKET else if k == 1 then UPPER_R else if k < 38 then head[k - 2]
               else if k == 38 then COLON else if k < 39 + |tail| then tail[k - 39] else CLOSE_BRACKET
  {
  }

  /** Every such spelling is found. */
  lemma {:induction false} SpellingIsFound(t: Text, i: nat, head: Text, tail: Text)
    requires Atoms.Uuid(head) && Atoms.Digits(tail) && i + 40 + |tail| <= |t|
    requires t[i..i + 40 + |tail|] == Atoms.Spell(UPPER_R, head, tail)
    ensures LabelLength(t, i) == 40 + |tail|
  {
    var n := |tail|;
    forall k | 0 <= k < 40 + n ensures t[i..i + 40 + n][k] == t[i + k] == Atoms.Spell(UPPER_R, head, tail)[k] { SpellAt(head, tail, k); }
    SpellAt(head, tail, 0);
    SpellAt(head, tail, 1);
    SpellAt(head, tail, 38);
    SpellAt(head, tail, 39 + n);
    assert t[i + 2..i + 38] == head by {
      forall k | 0 <= k < 36 ensures t[i + 2 + k] == head[k] { SpellAt(head, tail, k + 2); }
    }
    forall k | i + 39 <= k < i + 39 + n ensures IsDigit(t[k]) { SpellAt(head, tail, k - i); }
    RunIs(t, i + 39, n);
  }

  lemma {:induction false} RunIs(t: Text, i: nat, n: nat)
    requires i + n < |t| && (forall k :: i <= k < i + n ==> IsDigit(t[k])) && !IsDigit(t[i + n])
    ensures Labels.DigitRun(t, i) == n
    decreases n
  {
    if n > 0 { RunIs(t, i + 1, n - 1); }
  }

  /** Labels from unit `i` on, with their places in bytes. */
  function LabelsFrom(t: Text, i: nat): seq<Span>
    requires i <= |t|
    decreases |t| - i
  {
    if i == |t| then []
    else
      var n := LabelLength(t, i);
      if n > 0 then [SpanAt(t, i, n)] + LabelsFrom(t, i + n) else LabelsFrom(t, i + 1)
  }

  function SpanAt(t: Text, i: nat, n: nat): Span
    requires i + n <= |t|
  {
    Span(t[i..i + n], |Utf8(t[..i])|, |Utf8(t[..i + n])|)
  }

  method PersistentLabels(body: Text) returns (spans: seq<Span>)
    ensures spans == LabelsFrom(body, 0)
  {
    hide Utf8, LabelLength;
    spans := [];
    var i, charOffset, byteOffset := 0, 0, 0;
    assert body[..0] == [] && |Utf8([])| == 0 by { Nothing(); }
    while i < |body|
      invariant charOffset <= i <= |body| && byteOffset == |Utf8(body[..charOffset])|
      invariant charOffset > 0 ==> body[charOffset - 1] == CLOSE_BRACKET
      invariant spans + LabelsFrom(body, i) == LabelsFrom(body, 0)
    {
      var n := LabelLength(body, i);
      if n > 0 {
        LabelPlace(body, charOffset, i);
        byteOffset := byteOffset + |Utf8(body[charOffset..i])|;
        var start := byteOffset;
        byteOffset := byteOffset + |Utf8(body[i..i + n])|;
        spans := spans + [Span(body[i..i + n], start, byteOffset)];
        i := i + n;
        charOffset := i;
      } else {
        i := i + 1;
      }
    }
  }

  lemma {:induction false} Nothing()
    ensures Utf8([]) == []
  {
  }

  lemma {:induction false} LabelEnds(t: Text, i: nat)
    requires i <= |t| && LabelLength(t, i) > 0
    ensures var n := LabelLength(t, i); n >= 41 && t[i] == OPEN_BRACKET && t[i + n - 1] == CLOSE_BRACKET
    ensures forall j :: i < j < i + LabelLength(t, i) ==> t[j] != OPEN_BRACKET
  {
    var h := t[i + 2..i + 38];
    forall j | i < j < i + LabelLength(t, i) ensures t[j] != OPEN_BRACKET {
      if i + 2 <= j < i + 38 { assert h[j - i - 2] == t[j]; }
    }
  }

  /** No pair lies across position `i`. */
  predicate Free(t: Text, i: nat) { i <= |t| && (i == 0 || i == |t| || !(IsHigh(t[i - 1]) && IsLow(t[i]))) }

  lemma {:induction false} PrefixBytes(t: Text, i: nat, j: nat)
    requires i <= j <= |t| && Free(t, i)
    ensures Utf8(t[..j]) == Utf8(t[..i]) + Utf8(t[i..j])
  {
    assert t[..j] == t[..i] + t[i..j];
    Utf8Concat(t[..i], t[i..j]);
  }

  lemma {:induction false} LabelPlace(t: Text, from: nat, i: nat)
    requires from <= i <= |t| && (from > 0 ==> t[from - 1] == CLOSE_BRACKET) && LabelLength(t, i) > 0
    ensures var n := LabelLength(t, i);
            && t[i + n - 1] == CLOSE_BRACKET && |Utf8(t[..from])| + |Utf8(t[from..i])| == |Utf8(t[..i])|
            && |Utf8(t[..i])| + |Utf8(t[i..i + n])| == |Utf8(t[..i + n])|
  {
    hide Utf8, LabelLength;
    LabelEnds(t, i);
    PrefixBytes(t, from, i);
    PrefixBytes(t, i, i + LabelLength(t, i));
  }

  /** Every label of the text is in the list. */
  lemma {:induction false} LabelsComplete(t: Text, i: nat, j: nat)
    requires i <= j <= |t| && LabelLength(t, j) > 0
    ensures SpanAt(t, j, LabelLength(t, j)) in LabelsFrom(t, i)
    decreases |t| - i
  {
    hide LabelLength, Utf8;
    LabelEnds(t, j);
    var n := LabelLength(t, i);
    if n > 0 && j > i {
      LabelEnds(t, i);
      assert j >= i + n;
      LabelsComplete(t, i + n, j);
    } else if n == 0 {
      LabelsComplete(t, i + 1, j);
    }
  }

  // ---------------------------------------------------------------- labels lie apart

  predicate Placed(bytes: seq<Byte>, s: Span) { s.start < s.end <= |bytes| && Boundary(bytes, s.start) && Boundary(bytes, s.end) }

  /** Labels are whole characters, in order, without overlap. */
  ghost predicate AllPlaced(bytes: seq<Byte>, spans: seq<Span>, from: nat) {
    && (forall k :: 0 <= k < |spans| ==> Placed(bytes, spans[k]) && from <= spans[k].start)
    && forall j, k :: 0 <= j < k < |spans| ==> spans[j].end <= spans[k].start
  }

  lemma {:induction false} Grows(a: Text, b: Text)
    ensures |Utf8(a)| <= |Utf8(a + b)|
    decreases |a|
  {
    hide UnitBytes, PairBytes;
    if PairFirst(a) {
      assert (a + b)[2..] == a[2..] + b;
      Grows(a[2..], b);
    } else if a != [] && PairFirst(a + b) {
      assert a == [a[0]] && a[1..] == [] && |Utf8([])| == 0;
      FourLong(a[0], b[0]);
    } else if a != [] {
      assert (a + b)[1..] == a[1..] + b;
      Grows(a[1..], b);
    }
  }

  lemma {:induction false} FourLong(high: Unit, low: Unit)
    requires IsHigh(high) && IsLow(low)
    ensures |PairBytes(high, low)| == 4 && |UnitBytes(high)| == 3
  {
  }

  lemma {:induction false} CutAt(t: Text, i: nat)
    requires Free(t, i)
    ensures |Utf8(t[..i])| <= |Utf8(t)| && Boundary(Utf8(t), |Utf8(t[..i])|)
  {
    hide Utf8, Encoded;
    assert t[..|t|] == t;
    PrefixBytes(t, i, |t|);
    Utf8IsEncoded(t[i..]);
  }

  lemma {:induction false} LongAsUnits(t: Text)
    ensures |Utf8(t)| >= |t|
    decreases |t|
  {
    hide UnitBytes, PairBytes;
    if PairFirst(t) {
      FourLong(t[0], t[1]);
      LongAsUnits(t[2..]);
    } else if t != [] {
      UnitBoundaries(t[0]);
      LongAsUnits(t[1..]);
    }
  }

  lemma {:induction false} LabelsAreApart(t: Text, i: nat)
    requires i <= |t|
    ensures AllPlaced(Utf8(t), LabelsFrom(t, i), |Utf8(t[..i])|)
    decreases |t| - i
  {
    hide Utf8, LabelLength, Boundary;
    if i < |t| {
      var n := LabelLength(t, i);
      if n > 0 {
        LabelEnds(t, i);
        LabelsAreApart(t, i + n);
        CutAt(t, i);
        CutAt(t, i + n);
        PrefixBytes(t, i, i + n);
        LongAsUnits(t[i..i + n]);
      } else {
        LabelsAreApart(t, i + 1);
        assert t[..i + 1] == t[..i] + [t[i]];
        Grows(t[..i], [t[i]]);
      }
    }
  }

  // ---------------------------------------------------------------- cursors

  predicate Splits(s: Span, c: int) { s.start < c < s.end }

  /** A cursor the reader accepts. */
  predicate Acceptable(bytes: seq<Byte>, spans: seq<Span>, c: int) {
    Boundary(bytes, c) && forall k :: 0 <= k < |spans| ==> !Splits(spans[k], c)
  }

  method FindSplit(spans: seq<Span>, c: int) returns (k: nat)
    ensures k <= |spans| && (k < |spans| ==> Splits(spans[k], c)) && (forall j :: 0 <= j < k ==> !Splits(spans[j], c))
  {
    k := 0;
    while k < |spans| && !Splits(spans[k], c)
      invariant k <= |spans| && forall j :: 0 <= j < k ==> !Splits(spans[j], c)
    {
      k := k + 1;
    }
  }

  /** The last cursor up to `proposed`. */
  method SafeChunkEnd(bytes: seq<Byte>, spans: seq<Span>, start: nat, proposed: nat) returns (end: nat)
    requires AllPlaced(bytes, spans, 0) && Acceptable(bytes, spans, start) && start <= proposed
    ensures start <= end <= proposed && Acceptable(bytes, spans, end)
    ensures forall c :: end < c <= proposed ==> !Acceptable(bytes, spans, c)
  {
    hide Continuation;
    end := if |bytes| <= proposed then |bytes| else proposed;
    while end > start && end < |bytes| && Continuation(bytes[end])
      invariant start <= end <= |bytes| && end <= proposed
      invariant forall c :: end < c <= proposed ==> !Boundary(bytes, c)
    {
      end := end - 1;
    }
    var k := FindSplit(spans, end);
    if k < |spans| {
      SplitIsWhole(bytes, spans, start, end, k);
      end := spans[k].start;
    }
  }

  /** Inside a label the last cursor is the label's start. */
  lemma {:induction false} SplitIsWhole(bytes: seq<Byte>, spans: seq<Span>, start: nat, end: nat, k: nat)
    requires AllPlaced(bytes, spans, 0) && Acceptable(bytes, spans, start) && start <= end
    requires k < |spans| && Splits(spans[k], end)
    ensures start <= spans[k].start && Acceptable(bytes, spans, spans[k].start)
    ensures forall c :: spans[k].start < c <= end ==> !Acceptable(bytes, spans, c)
  {
    hide Boundary;
    assert !Splits(spans[k], start);
    assert Placed(bytes, spans[k]);
    forall j | 0 <= j < |spans| ensures !Splits(spans[j], spans[k].start) {
      assert Placed(bytes, spans[j]);
    }
    forall c | spans[k].start < c <= end ensures !Acceptable(bytes, spans, c) { assert Splits(spans[k], c); }
  }

  method FindStart(spans: seq<Span>, start: nat) returns (k: nat)
    ensures k <= |spans| && (k < |spans| ==> spans[k].start == start) && (forall j :: 0 <= j < k ==> spans[j].start != start)
  {
    k := 0;
    while k < |spans| && spans[k].start != start
      invariant k <= |spans| && forall j :: 0 <= j < k ==> spans[j].start != start
    {
      k := k + 1;
    }
  }

  /** `e` is the first cursor after `start`. */
  ghost predicate NextCursor(bytes: seq<Byte>, spans: seq<Span>, start: nat, e: nat) {
    && start < e <= |bytes| && Acceptable(bytes, spans, e)
    && forall c :: start < c < e ==> !Acceptable(bytes, spans, c)
  }

  method FirstUnitEnd(bytes: seq<Byte>, spans: seq<Span>, start: nat) returns (end: nat)
    requires AllPlaced(bytes, spans, 0) && Acceptable(bytes, spans, start)
    ensures if start < |bytes| then NextCursor(bytes, spans, start, end) else end == start
  {
    hide Continuation;
    var k := FindStart(spans, start);
    if k < |spans| {
      LabelIsUnit(bytes, spans, start, k);
      return spans[k].end;
    }
    if start >= |bytes| { return start; }
    end := start + 1;
    while end < |bytes| && Continuation(bytes[end])
      invariant start < end <= |bytes| && forall c :: start < c < end ==> !Boundary(bytes, c)
    {
      end := end + 1;
    }
    CharacterIsUnit(bytes, spans, start, end);
  }

  lemma {:induction false} LabelIsUnit(bytes: seq<Byte>, spans: seq<Span>, start: nat, k: nat)
    requires AllPlaced(bytes, spans, 0) && k < |spans| && spans[k].start == start
    ensures NextCursor(bytes, spans, start, spans[k].end) && start < |bytes|
  {
    hide Boundary;
    assert Placed(bytes, spans[k]);
    forall j | 0 <= j < |spans| ensures !Splits(spans[j], spans[k].end) {
      assert Placed(bytes, spans[j]);
    }
    forall c | start < c < spans[k].end ensures !Acceptable(bytes, spans, c) { assert Splits(spans[k], c); }
  }

  lemma {:induction false} CharacterIsUnit(bytes: seq<Byte>, spans: seq<Span>, start: nat, end: nat)
    requires AllPlaced(bytes, spans, 0) && Acceptable(bytes, spans, start)
    requires forall k :: 0 <= k < |spans| ==> spans[k].start != start
    requires start < end <= |bytes| && Boundary(bytes, end) && forall c :: start < c < end ==> !Boundary(bytes, c)
    ensures Acceptable(bytes, spans, end)
  {
    forall k | 0 <= k < |spans| ensures !Splits(spans[k], end) {
      assert Placed(bytes, spans[k]) && !Splits(spans[k], start);
    }
  }
}
