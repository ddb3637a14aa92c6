/** Following the cursors of the page reader, and the budget it advises (getPageTool in src/tools.ts). */
module PageSession {
  import opened Text
  import opened Json
  import opened Blocks
  import opened Decoding
  import opened PageLabels
  import opened PageReader
  import Atoms

  // ---------------------------------------------------------------- following the cursors

  function CursorAt(replies: seq<Reply>, k: nat): nat
    requires k <= |replies| && forall j :: 0 <= j < |replies| ==> replies[j].Chunk?
  {
    if k == 0 then 0 else replies[k - 1].end
  }

  /** Calls that start at byte 0 and go on at the cursor of the reply before, each with a budget of its own. */
  ghost predicate Session(p: Page, limits: seq<nat>, replies: seq<Reply>) {
    && |limits| == |replies|
    && (forall k :: 0 <= k < |replies| ==> replies[k].Chunk?)
    && forall k :: 0 <= k < |replies| ==> CursorAt(replies, k) < |Bytes(p)| && Answers(p, CursorAt(replies, k), limits[k], replies[k])
  }

  function ChunkOf(p: Page, replies: seq<Reply>, k: nat): Text
    requires k < |replies| && forall j :: 0 <= j < |replies| ==> replies[j].Chunk?
  {
    ChunkText(Bytes(p), CursorAt(replies, k), replies[k].end)
  }

  function Read(p: Page, replies: seq<Reply>, n: nat): Text
    requires n <= |replies| && forall j :: 0 <= j < |replies| ==> replies[j].Chunk?
  {
    if n == 0 then [] else Read(p, replies, n - 1) + ChunkOf(p, replies, n - 1)
  }

  /** Every cursor is accepted by the next call, and every chunk moves on. */
  lemma {:induction false} CursorsAreAccepted(p: Page, limits: seq<nat>, replies: seq<Reply>, k: nat)
    requires Session(p, limits, replies) && k <= |replies|
    ensures CursorOf(p, CursorAt(replies, k)) && CursorAt(replies, k) <= |Bytes(p)|
    ensures k <= CursorAt(replies, k) && (k < |replies| ==> CursorAt(replies, k) < replies[k].end)
  {
    hide CursorOf, Bytes, Answers;
    if k == 0 {
      StartIsCursor(p);
    } else {
      CursorsAreAccepted(p, limits, replies, k - 1);
      ChunkMovesOn(p, CursorAt(replies, k - 1), limits[k - 1], replies[k - 1]);
      CursorInside(p, CursorAt(replies, k));
    }
    if k < |replies| { ChunkMovesOn(p, CursorAt(replies, k), limits[k], replies[k]); }
  }

  lemma {:induction false} ChunkMovesOn(p: Page, start: nat, limit: nat, r: Reply)
    requires start < |Bytes(p)| && r.Chunk? && Answers(p, start, limit, r)
    ensures start < r.end && CursorOf(p, r.end)
  {
    hide FitsWith, NoneFit, Acceptable, Bytes, Candidate, Plain;
  }

  lemma {:induction false} StartIsCursor(p: Page)
    ensures CursorOf(p, 0)
  {
    hide Utf8, LabelsFrom, Encoded;
    PageIsPlaced(p);
    Utf8IsEncoded(p.body);
    forall k | 0 <= k < |Spans(p)| ensures !Splits(Spans(p)[k], 0) { assert Placed(Bytes(p), Spans(p)[k]); }
  }

  /** The chunks read so far encode to the bytes before the cursor. */
  lemma {:induction false} ReadSoFar(p: Page, limits: seq<nat>, replies: seq<Reply>, n: nat)
    requires Session(p, limits, replies) && n <= |replies|
    ensures CursorAt(replies, n) <= |Bytes(p)|
    ensures Wellformed(Read(p, replies, n)) && Utf8(Read(p, replies, n)) == Bytes(p)[..CursorAt(replies, n)]
  {
    hide Utf8, Wellformed, Bytes, ChunkText, CursorOf, Answers;
    CursorsAreAccepted(p, limits, replies, n);
    if n == 0 {
      NoText();
    } else {
      CursorsAreAccepted(p, limits, replies, n - 1);
      ReadSoFar(p, limits, replies, n - 1);
      ChunkIsRead(p, CursorAt(replies, n - 1), CursorAt(replies, n));
      Extend(Bytes(p), CursorAt(replies, n - 1), CursorAt(replies, n), Read(p, replies, n - 1), ChunkOf(p, replies, n - 1));
    }
  }

  lemma {:induction false} Extend(bytes: seq<Byte>, start: nat, end: nat, before: Text, chunk: Text)
    requires start <= end <= |bytes| && Wellformed(before) && Wellformed(chunk)
    requires Utf8(before) == bytes[..start] && Utf8(chunk) == bytes[start..end]
    ensures Wellformed(before + chunk) && Utf8(before + chunk) == bytes[..end]
  {
    hide Utf8, Wellformed;
    Glue(before, chunk);
    assert bytes[..start] + bytes[start..end] == bytes[..end];
  }

  lemma {:induction false} NoText()
    ensures Wellformed([]) && Utf8([]) == []
  {
  }

  lemma {:induction false} Glue(a: Text, b: Text)
    requires Wellformed(a) && Wellformed(b)
    ensures Wellformed(a + b) && Utf8(a + b) == Utf8(a) + Utf8(b)
  {
    hide Utf8, Wellformed;
    if a != [] { Paired(a, |a| - 1); }
    Utf8Concat(a, b);
    WellformedConcat(a, b);
  }

  lemma {:induction false} WellformedConcat(a: Text, b: Text)
    requires Wellformed(a) && Wellformed(b)
    ensures Wellformed(a + b)
    decreases |a|
  {
    if a == [] {
      assert a + b == b;
    } else if PairFirst(a) {
      assert (a + b)[2..] == a[2..] + b;
      WellformedConcat(a[2..], b);
    } else {
      assert (a + b)[1..] == a[1..] + b;
      WellformedConcat(a[1..], b);
    }
  }

  /**
   * When the reader says that there is no next cursor, the chunks concatenate to the whole body,
   * in which a lone surrogate reads as the replacement character; a body without one is read exactly.
   */
  lemma {:induction false} ChunksAreTheBody(p: Page, limits: seq<nat>, replies: seq<Reply>)
    requires Session(p, limits, replies) && CursorAt(replies, |replies|) == |Bytes(p)|
    ensures Read(p, replies, |replies|) == Repair(p.body)
    ensures Wellformed(p.body) ==> Read(p, replies, |replies|) == p.body
    ensures |replies| <= |Bytes(p)|
  {
    hide Utf8, Wellformed, Decode, Repair, CursorOf, Answers;
    ReadSoFar(p, limits, replies, |replies|);
    CursorsAreAccepted(p, limits, replies, |replies|);
    Repaired(p.body);
    assert Bytes(p)[..|Bytes(p)|] == Bytes(p);
    DecodesBack(Read(p, replies, |replies|));
    DecodesBack(Repair(p.body));
  }

  /** No label is cut: each one lies whole on one side of every cursor. */
  lemma {:induction false} LabelsStayWhole(p: Page, limits: seq<nat>, replies: seq<Reply>, k: nat, j: nat)
    requires Session(p, limits, replies) && k <= |replies| && j <= |p.body| && LabelLength(p.body, j) > 0
    ensures var s := SpanAt(p.body, j, LabelLength(p.body, j)); s.end <= CursorAt(replies, k) || CursorAt(replies, k) <= s.start
  {
    hide LabelLength, Utf8, Answers, LabelsFrom;
    CursorsAreAccepted(p, limits, replies, k);
    LabelsComplete(p.body, 0, j);
    var s := SpanAt(p.body, j, LabelLength(p.body, j));
    var m :| 0 <= m < |Spans(p)| && Spans(p)[m] == s;
    assert !Splits(Spans(p)[m], CursorAt(replies, k));
  }

  // ---------------------------------------------------------------- the advised budget

  lemma {:induction false} PlainIsShorter(p: Page, start: nat, end: nat, v: nat)
    requires v <= |Shown(p.citations, Spans(p), start, end)| && Shown(p.citations, Spans(p), start, end) != []
    ensures |Utf8(Candidate(p, Bytes(p), Spans(p), start, end, v))| >= |Utf8(Plain(p, Bytes(p), start, end))| + 3
  {
    hide Utf8, Plain, Shown, Bytes, Spans, Appendix;
    AppendixParts(Shown(p.citations, Spans(p), start, end), v);
    Longer(Plain(p, Bytes(p), start, end), Appendix(Shown(p.citations, Spans(p), start, end), v));
  }

  lemma {:induction false} Longer(plain: Text, more: Text)
    requires |more| >= 3 && more[0] == NEWLINE
    ensures |Utf8(plain + more)| >= |Utf8(plain)| + 3
  {
    hide Utf8;
    Utf8Concat(plain, more);
    LongAsUnits(more);
  }

  lemma {:induction false} PlainIsSome(p: Page, start: nat, end: nat)
    ensures |Utf8(Plain(p, Bytes(p), start, end))| >= 1
  {
    hide Utf8, RangeLine, ChunkText, Bytes;
    var head, chunk, next := RangeLine(p, |Bytes(p)|, start, end), ChunkText(Bytes(p), start, end), NextLine(p, |Bytes(p)|, end);
    assert |next| >= 1 by { NextLineIsSome(p, |Bytes(p)|, end); }
    LongAsUnits(head + chunk + next);
  }

  lemma {:induction false} NextLineIsSome(p: Page, total: nat, end: nat)
    ensures |NextLine(p, total, end)| >= 1
  {
    hide Atoms.Decimal;
  }

  /** The budget advised for a chunk is enough for it exactly when the page stores no citation of a label in it. */
  lemma {:induction false} AdviceSuffices(p: Page, start: nat, end: nat)
    ensures (exists v: nat :: FitsWith(p, start, end, MinimumTokens(Plain(p, Bytes(p), start, end)), v))
            <==> Shown(p.citations, Spans(p), start, end) == []
  {
    hide Utf8, Plain, Shown, Bytes, Spans, Appendix;
    var plain := Plain(p, Bytes(p), start, end);
    var m := MinimumTokens(plain);
    var shown := Shown(p.citations, Spans(p), start, end);
    if shown == [] {
      AppendixParts(shown, 0);
      assert Candidate(p, Bytes(p), Spans(p), start, end, 0) == plain;
      assert FitsWith(p, start, end, m, 0);
    } else {
      forall v: nat ensures !FitsWith(p, start, end, m, v) {
        if v <= |shown| { PlainIsShorter(p, start, end, v); }
        PlainIsSome(p, start, end);
      }
    }
  }

  lemma {:induction false} OneNext(bytes: seq<Byte>, spans: seq<Span>, start: nat, e: nat, e': nat)
    requires NextCursor(bytes, spans, start, e) && NextCursor(bytes, spans, start, e')
    ensures e == e'
  {
    hide Acceptable;
  }

  // ---------------------------------------------------------------- no longer chunk is cheaper

  lemma {:induction false} DigitsGrow(m: nat, n: nat)
    requires m <= n
    ensures |Atoms.Decimal(m)| <= |Atoms.Decimal(n)|
  {
    if m >= 10 { DigitsGrow(m / 10, n / 10); }
  }

  function Power(d: nat): nat { if d == 0 then 1 else 10 * Power(d - 1) }

  lemma {:induction false} DigitsFew(n: nat, d: nat)
    requires d > 0 && n < Power(d)
    ensures |Atoms.Decimal(n)| <= d
  {
    if n >= 10 {
      assert Power(0) == 1;
      DigitsFew(n / 10, d - 1);
    }
  }

  /** A cursor that is a safe integer has at most sixteen digits. */
  lemma {:induction false} CursorDigits(n: nat)
    requires n <= Atoms.MAX_SAFE
    ensures |Atoms.Decimal(n)| <= 16
  {
    assert Power(2) == 100;
    assert Power(4) == 10000;
    assert Power(6) == 100_0000;
    assert Power(8) == 1_0000_0000;
    assert Power(10) == 100_0000_0000;
    assert Power(12) == 1_0000_0000_0000;
    assert Power(14) == 100_0000_0000_0000;
    assert Power(16) == 1_0000_0000_0000_0000;
    DigitsFew(n, 16);
  }

  lemma {:induction false} AllDigits(n: nat)
    ensures IsAscii(Atoms.Decimal(n))
  {
    hide Atoms.Decimal;
    assert Atoms.Digits(Atoms.Decimal(n));
  }

  lemma {:induction false} AsciiJoin(a: Text, b: Text)
    requires IsAscii(a) && IsAscii(b)
    ensures IsAscii(a + b)
  {
  }

  lemma {:induction false} RangeIsAscii(total: nat, start: nat, end: nat)
    ensures IsAscii(RangeText(total, start, end))
  {
    hide Ascii, Atoms.Decimal, IsAscii;
    AllDigits(start);
    AllDigits(end);
    AllDigits(total);
    LiteralsAreAscii();
    var t := [NEWLINE, NEWLINE] + Ascii("Body UTF-8 bytes [");
    AsciiJoin([NEWLINE, NEWLINE], Ascii("Body UTF-8 bytes ["));
    AsciiJoin(t, Atoms.Decimal(start));
    t := t + Atoms.Decimal(start);
    AsciiJoin(t, [COMMA]);
    t := t + [COMMA];
    AsciiJoin(t, Atoms.Decimal(end));
    t := t + Atoms.Decimal(end);
    AsciiJoin(t, Ascii(") of "));
    t := t + Ascii(") of ");
    AsciiJoin(t, Atoms.Decimal(total));
    t := t + Atoms.Decimal(total);
    AsciiJoin(t, Ascii(" (consumed through byte "));
    t := t + Ascii(" (consumed through byte ");
    AsciiJoin(t, Atoms.Decimal(end));
    t := t + Atoms.Decimal(end);
    AsciiJoin(t, Ascii(")."));
    AsciiJoin(t + Ascii(")."), [NEWLINE, NEWLINE]);
  }

  lemma {:induction false} LiteralsAreAscii()
    ensures IsAscii(Ascii("Body UTF-8 bytes [")) && IsAscii(Ascii(") of ")) && IsAscii(Ascii(" (consumed through byte ")) && IsAscii(Ascii(")."))
    ensures IsAscii([NEWLINE, NEWLINE]) && IsAscii([COMMA])
  {
    hide Ascii;
  }

  lemma {:induction false} AsciiLength(t: Text)
    requires IsAscii(t)
    ensures |Utf8(t)| == |t|
  {
    hide Utf8;
    AsciiBytes(t);
  }

  lemma {:induction false} LineBehind(a: Text, b: Text)
    requires b != [] && b[0] == NEWLINE
    ensures |Utf8(a + b)| == |Utf8(a)| + |Utf8(b)|
  {
    hide Utf8;
    Utf8Concat(a, b);
  }

  /** The bytes of a reply without its citations. */
  lemma {:induction false} PlainBytes(p: Page, start: nat, end: nat)
    requires CursorOf(p, start) && CursorOf(p, end) && start <= end && IsAscii(p.head)
    ensures end <= |Bytes(p)|
    ensures var total := |Bytes(p)|;
            |Utf8(Plain(p, Bytes(p), start, end))|
            == |Utf8(p.header)| + |RangeText(total, start, end)| + (end - start) + |NextLine(p, total, end)|
  {
    hide Utf8, RangeText, NextLine, ChunkText, CursorOf, IsAscii, Wellformed, Bytes;
    var total := |Bytes(p)|;
    ChunkIsRead(p, start, end);
    var range, chunk, next := RangeText(total, start, end), ChunkText(Bytes(p), start, end), NextLine(p, total, end);
    RangeIsAscii(total, start, end);
    AsciiLength(range);
    LineBehind(p.header, range);
    NextIsAscii(p, total, end);
    AsciiLength(next);
    LineBehind(p.header + range + chunk, next);
    ChunkBehind(p.header, range, chunk);
  }

  lemma {:induction false} ChunkBehind(header: Text, range: Text, chunk: Text)
    requires Wellformed(chunk)
    ensures |Utf8(header + range + chunk)| == |Utf8(header + range)| + |Utf8(chunk)|
  {
    hide Utf8, Wellformed;
    if chunk != [] { Paired(chunk, 0); }
    Utf8Concat(header + range, chunk);
  }

  lemma {:induction false} NextIsAscii(p: Page, total: nat, end: nat)
    requires IsAscii(p.head)
    ensures IsAscii(NextLine(p, total, end))
  {
    hide Ascii, Atoms.Decimal;
    AllDigits(end);
  }

  // ---------------------------------------------------------------- what a longer chunk costs

  lemma {:induction false} TokensAreLong(t: Text, i: nat, k: nat)
    requires i <= |t| && k < |LabelsFrom(t, i)|
    ensures |LabelsFrom(t, i)[k].token| >= 41
    decreases |t| - i
  {
    hide LabelLength, Utf8;
    var n := LabelLength(t, i);
    if i < |t| {
      if n > 0 {
        LabelEnds(t, i);
        if k > 0 { TokensAreLong(t, i + n, k - 1); }
      } else {
        TokensAreLong(t, i + 1, k);
      }
    }
  }

  /** A citation of a chunk is one of every longer chunk. */
  lemma {:induction false} ShownGrows(cs: seq<Citation>, spans: seq<Span>, start: nat, e: nat, c: nat)
    requires e <= c && Shown(cs, spans, start, e) != []
    ensures Shown(cs, spans, start, c) != []
    decreases |cs|
  {
    hide InChunk;
    if InChunk(spans, start, e, cs[0].token) {
      ChunkGrows(spans, start, e, c, cs[0].token);
    } else {
      ShownGrows(cs[1..], spans, start, e, c);
    }
  }

  lemma {:induction false} ChunkGrows(spans: seq<Span>, start: nat, e: nat, c: nat, token: Text)
    requires e <= c && InChunk(spans, start, e, token)
    ensures InChunk(spans, start, c, token)
  {
  }

  lemma {:induction false} ShownTokens(cs: seq<Citation>, spans: seq<Span>, start: nat, end: nat, k: nat)
    requires k < |Shown(cs, spans, start, end)|
    ensures InChunk(spans, start, end, Shown(cs, spans, start, end)[k].token)
    decreases |cs|
  {
    hide InChunk;
    if InChunk(spans, start, end, cs[0].token) {
      if k > 0 { ShownTokens(cs[1..], spans, start, end, k - 1); }
    } else {
      ShownTokens(cs[1..], spans, start, end, k);
    }
  }

  /** What follows a chunk with a citation takes at least 86 bytes. */
  lemma {:induction false} AppendixCosts(p: Page, start: nat, end: nat, v: nat)
    requires v <= |Shown(p.citations, Spans(p), start, end)| && Shown(p.citations, Spans(p), start, end) != []
    ensures var t := Appendix(Shown(p.citations, Spans(p), start, end), v); |t| >= 86 && t[0] == NEWLINE
  {
    hide Shown, LabelsFrom, Appendix, LineOf;
    var shown := Shown(p.citations, Spans(p), start, end);
    AppendixParts(shown, v);
    ShownTokens(p.citations, Spans(p), start, end, 0);
    var k :| 0 <= k < |Spans(p)| && Spans(p)[k].token == shown[0].token;
    TokensAreLong(p.body, 0, k);
  }

  /** With a UUID for a head, no chunk from here that shows a citation is within three bytes of the first unit without it. */
  lemma {:induction false} LongerCosts(p: Page, start: nat, e: nat, c: nat, v: nat)
    requires CursorOf(p, start) && CursorOf(p, e) && CursorOf(p, c) && start < e <= c && Atoms.Uuid(p.head) && |Bytes(p)| <= Atoms.MAX_SAFE
    requires Shown(p.citations, Spans(p), start, e) != [] && v <= |Shown(p.citations, Spans(p), start, c)|
    ensures |Utf8(Candidate(p, Bytes(p), Spans(p), start, c, v))| >= |Utf8(Plain(p, Bytes(p), start, e))| + 3
  {
    hide Utf8, Plain, Shown, Bytes, Spans, Appendix, CursorOf, RangeText, NextLine, Atoms.Uuid, IsAscii, Atoms.Decimal;
    UuidIsAscii(p.head);
    ShownGrows(p.citations, Spans(p), start, e, c);
    AppendixCosts(p, start, c, v);
    var plain, more := Plain(p, Bytes(p), start, c), Appendix(Shown(p.citations, Spans(p), start, c), v);
    LineBehind(plain, more);
    LongAsUnits(more);
    PlainBytes(p, start, e);
    PlainBytes(p, start, c);
    DigitsGrow(e, c);
    CursorDigits(e);
  }

  lemma {:induction false} UuidIsAscii(h: Text)
    requires Atoms.Uuid(h)
    ensures |h| == 36 && IsAscii(h)
  {
    forall k | 0 <= k < 36 ensures h[k] < 0x80 { assert if k == 8 || k == 13 || k == 18 || k == 23 then h[k] == DASH else IsHex(h[k]); }
  }

  /** The call reads from `start` at the head of the page. */
  predicate Asks(p: Page, start: nat, cursor: Option<int>, head: Option<Text>) {
    (cursor == Some(start) && head == Some(p.head)) || (cursor.None? && start == 0 && (head.None? || head == Some(p.head)))
  }

  /**
   * Following the advice gives a chunk exactly when the page stores no citation of a label in the first unit and the
   * advised budget is one that a call may have. A greater one is refused; otherwise the same advice is given again.
   */
  lemma {:induction false} AdviceExactly(p: Page, start: nat, e: nat, cursor: Option<int>, head: Option<Text>, r: Reply)
    requires CursorOf(p, start) && start < |Bytes(p)| <= Atoms.MAX_SAFE && Atoms.Uuid(p.head) && NextCursor(Bytes(p), Spans(p), start, e)
    requires Asks(p, start, cursor, head) && Replies(p, Some(MinimumTokens(Plain(p, Bytes(p), start, e))), cursor, head, r)
    ensures var m := MinimumTokens(Plain(p, Bytes(p), start, e));
            && (r.Chunk? <==> Shown(p.citations, Spans(p), start, e) == [] && m <= MAX_TOOL_OUTPUT_TOKENS)
            && (m > MAX_TOOL_OUTPUT_TOKENS <==> r == Refused(BadBudget))
            && (!r.Chunk? && m <= MAX_TOOL_OUTPUT_TOKENS ==> r == Minimum(m))
  {
    hide Utf8, Plain, Shown, Bytes, Spans, MinimumTokens, Acceptable, Atoms.Uuid, Answers;
    var m := MinimumTokens(Plain(p, Bytes(p), start, e));
    assert m >= 1;
    if m <= MAX_TOOL_OUTPUT_TOKENS {
      assert Boundary(Bytes(p), start) by { CursorIsBoundary(p, start); }
      assert Answers(p, start, m, r);
      AnswerToAdvice(p, start, e, r);
    }
  }

  lemma {:induction false} CursorIsBoundary(p: Page, c: int)
    requires CursorOf(p, c)
    ensures Boundary(Bytes(p), c)
  {
  }

  lemma {:induction false} AnswerToAdvice(p: Page, start: nat, e: nat, r: Reply)
    requires CursorOf(p, start) && start < |Bytes(p)| <= Atoms.MAX_SAFE && Atoms.Uuid(p.head) && NextCursor(Bytes(p), Spans(p), start, e)
    requires Answers(p, start, MinimumTokens(Plain(p, Bytes(p), start, e)), r)
    ensures r.Chunk? <==> Shown(p.citations, Spans(p), start, e) == []
    ensures !r.Chunk? ==> r == Minimum(MinimumTokens(Plain(p, Bytes(p), start, e)))
  {
    hide Utf8, Plain, Shown, Bytes, Spans, FitsWith, MinimumTokens, Acceptable, Atoms.Uuid;
    var m := MinimumTokens(Plain(p, Bytes(p), start, e));
    if Shown(p.citations, Spans(p), start, e) == [] {
      AdviceSuffices(p, start, e);
      var v: nat :| FitsWith(p, start, e, m, v);
      assert CursorOf(p, e);
    } else {
      forall c: nat, v: nat | start < c && CursorOf(p, c) ensures !FitsWith(p, start, c, m, v) { NoChunkFits(p, start, e, c, v); }
      assert r.Minimum?;
      var e' :| NextCursor(Bytes(p), Spans(p), start, e') && r.tokens == MinimumTokens(Plain(p, Bytes(p), start, e'));
      OneNext(Bytes(p), Spans(p), start, e, e');
    }
  }

  lemma {:induction false} NoChunkFits(p: Page, start: nat, e: nat, c: nat, v: nat)
    requires CursorOf(p, start) && start < |Bytes(p)| <= Atoms.MAX_SAFE && Atoms.Uuid(p.head) && NextCursor(Bytes(p), Spans(p), start, e)
    requires Shown(p.citations, Spans(p), start, e) != [] && start < c && CursorOf(p, c)
    ensures !FitsWith(p, start, c, MinimumTokens(Plain(p, Bytes(p), start, e)), v)
  {
    hide Utf8, Plain, Shown, Bytes, Spans, Candidate, Acceptable, Atoms.Uuid;
    assert CursorOf(p, e) && e <= c;
    PlainIsSome(p, start, e);
    if v <= |Shown(p.citations, Spans(p), start, c)| { LongerCosts(p, start, e, c, v); }
  }

  // ---------------------------------------------------------------- pages where the advice fails

  function Zeros(): Text { seq(36, k => if k == 8 || k == 13 || k == 18 || k == 23 then DASH else ZERO) }

  function OneLabel(digits: Text): Text { Atoms.Spell(UPPER_R, Zeros(), digits) }

  lemma {:induction false} LabelPageIsOneUnit(p: Page, digits: Text)
    requires Atoms.Digits(digits) && p.body == OneLabel(digits)
    ensures Spans(p) == [Span(OneLabel(digits), 0, 40 + |digits|)] && |Bytes(p)| == 40 + |digits|
    ensures CursorOf(p, 0) && NextCursor(Bytes(p), Spans(p), 0, 40 + |digits|)
  {
    hide Utf8, LabelLength, Acceptable, AllPlaced;
    var body, n := OneLabel(digits), 40 + |digits|;
    forall k | 0 <= k < n ensures |body| == n && body[k] < 0x80 { SpellAt(Zeros(), digits, k); }
    AsciiBytes(body);
    assert body[0..0 + 40 + |digits|] == body;
    SpellingIsFound(body, 0, Zeros(), digits);
    assert body[..0] == [] && body[0..n] == body && body[..n] == body;
    Nothing();
    assert LabelsFrom(body, n) == [];
    PageIsPlaced(p);
    StartIsCursor(p);
    LabelIsUnit(Bytes(p), Spans(p), 0, 0);
  }

  /**
   * Whatever its title and its citation say, for a page of one cited label the reader repeats the same advice for
   * ever, or refuses what it advised.
   */
  lemma {:induction false} AdviceNeverWorks(p: Page, c: Citation, digits: Text, cursor: Option<int>, head: Option<Text>, r: Reply)
    requires Atoms.Uuid(p.head) && Atoms.Digits(digits) && |digits| < Atoms.MAX_SAFE - 40
    requires p.body == OneLabel(digits) && p.citations == [c] && c.token == OneLabel(digits)
    requires Asks(p, 0, cursor, head) && Replies(p, Some(MinimumTokens(Plain(p, Bytes(p), 0, 40 + |digits|))), cursor, head, r)
    ensures var m := MinimumTokens(Plain(p, Bytes(p), 0, 40 + |digits|)); r == if m <= MAX_TOOL_OUTPUT_TOKENS then Minimum(m) else Refused(BadBudget)
  {
    hide Utf8, Plain, MinimumTokens, Bytes, Spans, Replies, Atoms.Uuid, Atoms.Digits, NextCursor, CursorOf;
    LabelPageIsOneUnit(p, digits);
    assert InChunk(Spans(p), 0, 40 + |digits|, OneLabel(digits)) by { assert Spans(p)[0].token == OneLabel(digits); }
    assert p.citations[0].token == OneLabel(digits);
    AdviceExactly(p, 0, 40 + |digits|, cursor, head, r);
  }

  /** For a page of one label of 12000 or more digits that no citation stores, the advice is refused. */
  lemma {:induction false} LongAdviceIsRefused(p: Page, digits: Text, cursor: Option<int>, head: Option<Text>, r: Reply)
    requires Atoms.Uuid(p.head) && Atoms.Digits(digits) && 12000 <= |digits| < Atoms.MAX_SAFE - 40
    requires p.body == OneLabel(digits) && p.citations == []
    requires Asks(p, 0, cursor, head) && Replies(p, Some(MinimumTokens(Plain(p, Bytes(p), 0, 40 + |digits|))), cursor, head, r)
    ensures Shown(p.citations, Spans(p), 0, 40 + |digits|) == [] && r == Refused(BadBudget)
  {
    hide Utf8, Plain, MinimumTokens, Bytes, Spans, Replies, Atoms.Uuid, Atoms.Digits, NextCursor, CursorOf, RangeText, NextLine, IsAscii;
    var e := 40 + |digits|;
    LabelPageIsOneUnit(p, digits);
    assert CursorOf(p, e) by { NextIsCursor(p, 0, e); }
    UuidIsAscii(p.head);
    PlainBytes(p, 0, e);
    MinimumIsLong(Plain(p, Bytes(p), 0, e));
    AdviceExactly(p, 0, e, cursor, head, r);
  }

  lemma {:induction false} NextIsCursor(p: Page, start: nat, e: nat)
    requires NextCursor(Bytes(p), Spans(p), start, e)
    ensures CursorOf(p, e)
  {
    hide Acceptable;
  }

  lemma {:induction false} MinimumIsLong(t: Text)
    requires |Utf8(t)| > 3 * MAX_TOOL_OUTPUT_TOKENS
    ensures MinimumTokens(t) > MAX_TOOL_OUTPUT_TOKENS
  {
    hide Utf8;
  }

  /** At the end of the page the advised budget gives the last, empty chunk, unless it is one that no call may have. */
  lemma {:induction false} AdviceAtTheEnd(p: Page, cursor: Option<int>, head: Option<Text>, r: Reply)
    requires var end := |Bytes(p)|;
             Asks(p, end, cursor, head) && Replies(p, Some(MinimumTokens(Plain(p, Bytes(p), end, end))), cursor, head, r)
    requires CursorOf(p, |Bytes(p)|)
    ensures r.Chunk? <==> MinimumTokens(Plain(p, Bytes(p), |Bytes(p)|, |Bytes(p)|)) <= MAX_TOOL_OUTPUT_TOKENS
  {
    hide Utf8, Plain, Bytes, Spans, Acceptable;
    CursorIsBoundary(p, |Bytes(p)|);
  }
}
