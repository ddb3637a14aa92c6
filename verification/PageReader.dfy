/** Reading a page in chunks that fit a token budget (getPageTool in src/tools.ts). */
module PageReader {
  import opened Text
  import opened Json
  import opened Blocks
  import opened Decoding
  import opened PageLabels
  import Atoms

  /** A citation of the page: its label, and what its line in the reply says. */
  datatype Citation = Citation(token: Text, title: Text, start: nat, end: nat, deleted: bool)
  datatype Page = Page(header: Text, head: Text, body: Text, citations: seq<Citation>)

  datatype Problem = BadBudget | NeedsHead | HeadChanged | BadCursor | SplitsLabel
  datatype Reply = Refused(problem: Problem) | Chunk(end: nat, visible: nat, text: Text) | Minimum(tokens: nat)

  const MAX_TOOL_OUTPUT_TOKENS := 4000

  // ---------------------------------------------------------------- the text of a reply

  function Bytes(p: Page): seq<Byte> { Utf8(p.body) }

  function Spans(p: Page): seq<Span> { LabelsFrom(p.body, 0) }

  function Fits(text: Text, limit: nat): bool { |Utf8(text)| <= limit * 3 }

  function MinimumTokens(text: Text): (n: nat)
    ensures n >= 1 && Fits(text, n) && (n > 1 ==> !Fits(text, n - 1))
  {
    if |Utf8(text)| <= 3 then 1 else (|Utf8(text)| + 2) / 3
  }

  function ChunkText(bytes: seq<Byte>, start: nat, end: nat): Text {
    if start <= end <= |bytes| && Decode(bytes[start..end]).Some? then Decode(bytes[start..end]).value else []
  }

  /** Which bytes the chunk has. */
  function RangeText(total: nat, start: nat, end: nat): (t: Text)
    ensures t != [] && t[0] == NEWLINE
    ensures |t| == 54 + |Atoms.Decimal(start)| + |Atoms.Decimal(total)| + 2 * |Atoms.Decimal(end)|
  {
    hide Ascii, Atoms.Decimal;
    [NEWLINE, NEWLINE] + Ascii("Body UTF-8 bytes [") + Atoms.Decimal(start) + [COMMA] + Atoms.Decimal(end) + Ascii(") of ") + Atoms.Decimal(total)
      + Ascii(" (consumed through byte ") + Atoms.Decimal(end) + Ascii(").") + [NEWLINE, NEWLINE]
  }

  predicate IsAscii(t: Text) { forall k :: 0 <= k < |t| ==> t[k] < 0x80 }

  function RangeLine(p: Page, total: nat, start: nat, end: nat): Text { p.header + RangeText(total, start, end) }

  function NextLine(p: Page, total: nat, end: nat): (t: Text)
    ensures t != [] && t[0] == NEWLINE
    ensures |t| == if end < total then 47 + |Atoms.Decimal(end)| + |p.head| else 17
  {
    hide Ascii, Atoms.Decimal;
    if end < total
    then [NEWLINE, NEWLINE] + Ascii("Next cursor: ") + Atoms.Decimal(end) + Ascii("; continue with headRevisionId ") + p.head + Ascii(".")
    else [NEWLINE, NEWLINE] + Ascii("No next cursor.")
  }

  function Plain(p: Page, bytes: seq<Byte>, start: nat, end: nat): Text {
    RangeLine(p, |bytes|, start, end) + ChunkText(bytes, start, end) + NextLine(p, |bytes|, end)
  }

  predicate InChunk(spans: seq<Span>, start: nat, end: nat, token: Text) {
    exists k :: 0 <= k < |spans| && spans[k].token == token && start <= spans[k].start && spans[k].end <= end
  }

  /** The page's citations whose label stands in the chunk. */
  function Shown(citations: seq<Citation>, spans: seq<Span>, start: nat, end: nat): seq<Citation> {
    if citations == [] then []
    else
      var rest := Shown(citations[1..], spans, start, end);
      if InChunk(spans, start, end, citations[0].token) then [citations[0]] + rest else rest
  }

  function LineOf(c: Citation): (line: Text)
    ensures |line| >= |c.token| + 15
  {
    hide Ascii;
    Ascii("- ") + c.title + [SPACE] + c.token + Ascii(" bytes [") + Atoms.Decimal(c.start) + [COMMA] + Atoms.Decimal(c.end) + Ascii(")")
      + if c.deleted then Ascii(" (source deleted)") else []
  }

  function LinesOfCitations(cs: seq<Citation>): (lines: Text)
    ensures cs != [] ==> |lines| >= 15 + |cs[0].token|
  {
    if cs == [] then [] else if |cs| == 1 then LineOf(cs[0]) else LineOf(cs[0]) + [NEWLINE] + LinesOfCitations(cs[1..])
  }

  function Stored(cs: seq<Citation>): (t: Text)
    ensures |t| >= 30 && t[0] == NEWLINE && (cs != [] ==> |t| >= 45 + |cs[0].token|)
  {
    hide Ascii, LinesOfCitations;
    [NEWLINE, NEWLINE] + (Ascii("### Stored source citations") + [NEWLINE] + LinesOfCitations(cs))
  }

  function Hidden(n: nat): (t: Text)
    ensures |t| >= 101 && t[0] == NEWLINE
  {
    hide Ascii, Atoms.Decimal;
    [NEWLINE, NEWLINE] + (Atoms.Decimal(n) + Ascii(" stored source citations hidden because maxTokens was reached; increase maxTokens to include them."))
  }

  /** What follows the chunk: as many citations as are visible, and how many are hidden. */
  function Appendix(shown: seq<Citation>, visible: nat): Text
    requires visible <= |shown|
  {
    (if visible > 0 then Stored(shown[..visible]) else []) + if visible < |shown| then Hidden(|shown| - visible) else []
  }

  /** It is empty only without citations; else it begins a line and has room for the first label. */
  lemma {:induction false} AppendixParts(shown: seq<Citation>, visible: nat)
    requires visible <= |shown|
    ensures var t := Appendix(shown, visible);
            if shown == [] then t == []
            else |t| >= 3 && t[0] == NEWLINE && (|t| >= 101 || |t| >= 45 + |shown[0].token|)
  {
    hide Stored, Hidden;
    if visible > 0 { assert shown[..visible][0] == shown[0]; }
  }

  function Candidate(p: Page, bytes: seq<Byte>, spans: seq<Span>, start: nat, end: nat, visible: nat): Text {
    var shown := Shown(p.citations, spans, start, end);
    Plain(p, bytes, start, end) + if visible <= |shown| then Appendix(shown, visible) else []
  }

  // ---------------------------------------------------------------- what a reply has to be

  predicate FitsWith(p: Page, start: nat, end: nat, limit: nat, visible: nat) {
    visible <= |Shown(p.citations, Spans(p), start, end)| && Fits(Candidate(p, Bytes(p), Spans(p), start, end, visible), limit)
  }

  predicate CursorOf(p: Page, c: int) { Acceptable(Bytes(p), Spans(p), c) }

  /** No chunk from `start` fits that ends at a cursor from `least` on. */
  ghost predicate NoneFit(p: Page, start: nat, least: int, limit: nat) {
    forall c: nat, v: nat :: least <= c && CursorOf(p, c) ==> !FitsWith(p, start, c, limit, v)
  }

  ghost predicate MinimumFor(p: Page, start: nat, tokens: nat) {
    exists e :: NextCursor(Bytes(p), Spans(p), start, e) && tokens == MinimumTokens(Plain(p, Bytes(p), start, e))
  }

  /** The longest chunk that fits, with the most citations that fit; or, when none fits, the advised budget. */
  ghost predicate Answers(p: Page, start: nat, limit: nat, r: Reply) {
    if start == |Bytes(p)| then
      var text := Plain(p, Bytes(p), start, start);
      r == if Fits(text, limit) then Chunk(start, 0, text) else Minimum(MinimumTokens(text))
    else match r
      case Refused(_) => false
      case Chunk(end, visible, text) =>
        && start < end && CursorOf(p, end) && FitsWith(p, start, end, limit, visible)
        && text == Candidate(p, Bytes(p), Spans(p), start, end, visible)
        && (forall w: nat :: visible < w ==> !FitsWith(p, start, end, limit, w))
        && NoneFit(p, start, end + 1, limit)
      case Minimum(tokens) => NoneFit(p, start, start + 1, limit) && MinimumFor(p, start, tokens)
  }

  // ---------------------------------------------------------------- reading

  /** The most citations with which a chunk fits. */
  method MostVisible(p: Page, bytes: seq<Byte>, spans: seq<Span>, start: nat, end: nat, limit: nat) returns (visible: Option<nat>)
    requires bytes == Bytes(p) && spans == Spans(p)
    ensures visible.None? ==> forall v: nat :: !FitsWith(p, start, end, limit, v)
    ensures visible.Some? ==> FitsWith(p, start, end, limit, visible.value) && forall w: nat :: visible.value < w ==> !FitsWith(p, start, end, limit, w)
  {
    hide Candidate, Fits, Shown;
    var n := |Shown(p.citations, spans, start, end)|;
    while n >= 0
      invariant n <= |Shown(p.citations, spans, start, end)|
      invariant forall w: nat :: n < w ==> !FitsWith(p, start, end, limit, w)
      decreases n
    {
      if Fits(Candidate(p, bytes, spans, start, end, n), limit) { return Some(n); }
      if n == 0 { break; }
      n := n - 1;
    }
    visible := None;
  }

  method Advise(p: Page, bytes: seq<Byte>, spans: seq<Span>, start: nat) returns (r: Reply)
    requires bytes == Bytes(p) && spans == Spans(p) && CursorOf(p, start) && start < |bytes| && AllPlaced(bytes, spans, 0)
    ensures r.Minimum? && MinimumFor(p, start, r.tokens)
  {
    hide Utf8, LabelsFrom, Plain, MinimumTokens, Acceptable;
    var end := FirstUnitEnd(bytes, spans, start);
    r := Minimum(MinimumTokens(Plain(p, bytes, start, end)));
  }

  method ReadFrom(p: Page, bytes: seq<Byte>, spans: seq<Span>, start: nat, limit: nat) returns (r: Reply)
    requires bytes == Bytes(p) && spans == Spans(p) && CursorOf(p, start) && AllPlaced(bytes, spans, 0)
    ensures Answers(p, start, limit, r)
  {
    hide Bytes, Spans, Plain, MinimumTokens, Fits, FitsWith, Candidate, Acceptable, MinimumFor, AllPlaced;
    if start == |bytes| {
      var text := Plain(p, bytes, start, start);
      return if Fits(text, limit) then Chunk(start, 0, text) else Minimum(MinimumTokens(text));
    }
    assert start < |bytes| by { CursorInside(p, start); }
    var end := SafeChunkEnd(bytes, spans, start, start + limit * 3);
    NothingLongerFits(p, start, end, limit);
    while end != start
      invariant start <= end && CursorOf(p, end) && NoneFit(p, start, end + 1, limit)
      decreases end
    {
      var visible := MostVisible(p, bytes, spans, start, end, limit);
      if visible.Some? {
        return Chunk(end, visible.value, Candidate(p, bytes, spans, start, end, visible.value));
      }
      var smaller := SafeChunkEnd(bytes, spans, start, end - 1);
      NoneFitFrom(p, start, smaller, end, limit);
      end := smaller;
    }
    r := Advise(p, bytes, spans, start);
  }

  lemma {:induction false} CursorInside(p: Page, start: nat)
    requires CursorOf(p, start)
    ensures start <= |Bytes(p)|
  {
  }

  lemma {:induction false} NoneFitFrom(p: Page, start: nat, smaller: nat, end: nat, limit: nat)
    requires NoneFit(p, start, end + 1, limit) && forall v: nat :: !FitsWith(p, start, end, limit, v)
    requires forall c :: smaller < c <= end - 1 ==> !Acceptable(Bytes(p), Spans(p), c)
    ensures NoneFit(p, start, smaller + 1, limit)
  {
    hide FitsWith, Acceptable;
  }

  /** A chunk of more bytes than the whole reply may have never fits, so the search may start below. */
  lemma {:induction false} NothingLongerFits(p: Page, start: nat, end: nat, limit: nat)
    requires CursorOf(p, start) && forall c :: end < c <= start + limit * 3 ==> !Acceptable(Bytes(p), Spans(p), c)
    ensures NoneFit(p, start, end + 1, limit)
  {
    hide FitsWith, Acceptable, Bytes, Spans;
    forall c: nat, v: nat | end + 1 <= c && CursorOf(p, c) ensures !FitsWith(p, start, c, limit, v) {
      assert c > start + limit * 3;
      TooLong(p, start, c, limit, v);
    }
  }

  lemma {:induction false} TooLong(p: Page, start: nat, end: nat, limit: nat, v: nat)
    requires CursorOf(p, start) && CursorOf(p, end) && end > start + limit * 3
    ensures !FitsWith(p, start, end, limit, v)
  {
    hide Utf8, Decode, Spans, LabelsFrom, RangeLine, NextLine, Appendix, Shown;
    var bytes := Bytes(p);
    ChunkIsRead(p, start, end);
    var chunk := ChunkText(bytes, start, end);
    var shown := Shown(p.citations, Spans(p), start, end);
    var tail := NextLine(p, |bytes|, end) + if v <= |shown| then Appendix(shown, v) else [];
    var head := RangeLine(p, |bytes|, start, end);
    assert Candidate(p, bytes, Spans(p), start, end, v) == head + (chunk + tail);
    Contains(head, chunk, tail);
  }

  lemma {:induction false} Contains(head: Text, chunk: Text, tail: Text)
    requires Wellformed(chunk)
    ensures |Utf8(head + (chunk + tail))| >= |Utf8(chunk)|
  {
    hide Utf8, Wellformed;
    if chunk != [] {
      Paired(chunk, 0);
      Paired(chunk, |chunk| - 1);
      Utf8Concat(head, chunk + tail);
      Utf8Concat(chunk, tail);
    } else {
      Nothing();
    }
  }

  /** Between two cursors the bytes can be read, and are what the chunk encodes. */
  lemma {:induction false} ChunkIsRead(p: Page, start: nat, end: nat)
    requires CursorOf(p, start) && CursorOf(p, end) && start <= end
    ensures end <= |Bytes(p)| && Decode(Bytes(p)[start..end]).Some?
    ensures Wellformed(ChunkText(Bytes(p), start, end)) && Utf8(ChunkText(Bytes(p), start, end)) == Bytes(p)[start..end]
  {
    hide Utf8, Decode, Spans, Wellformed;
    Repaired(p.body);
    SliceDecodes(Repair(p.body), start, end);
    EncodesBack(Bytes(p)[start..end]);
  }

  /** What a call is answered with: the refusals in their order, or the answer from its cursor under its budget. */
  ghost predicate Replies(p: Page, maxTokens: Option<int>, cursor: Option<int>, head: Option<Text>, r: Reply) {
    var start := if cursor.Some? then cursor.value else 0;
    if maxTokens.Some? && !(1 <= maxTokens.value <= MAX_TOOL_OUTPUT_TOKENS) then r == Refused(BadBudget)
    else if cursor.Some? && head.None? then r == Refused(NeedsHead)
    else if head.Some? && head.value != p.head then r == Refused(HeadChanged)
    else if !Boundary(Bytes(p), start) then r == Refused(BadCursor)
    else if !CursorOf(p, start) then r == Refused(SplitsLabel)
    else Answers(p, start, if maxTokens.Some? then maxTokens.value else MAX_TOOL_OUTPUT_TOKENS, r)
  }

  method GetPage(p: Page, maxTokens: Option<int>, cursor: Option<int>, head: Option<Text>) returns (r: Reply)
    ensures Replies(p, maxTokens, cursor, head, r)
  {
    hide Answers, Utf8, LabelsFrom, Boundary, AllPlaced;
    if maxTokens.Some? && !(1 <= maxTokens.value <= MAX_TOOL_OUTPUT_TOKENS) { return Refused(BadBudget); }
    var limit := if maxTokens.Some? then maxTokens.value else MAX_TOOL_OUTPUT_TOKENS;
    if cursor.Some? && head.None? { return Refused(NeedsHead); }
    if head.Some? && head.value != p.head { return Refused(HeadChanged); }
    var bytes := Utf8(p.body);
    var start := if cursor.Some? then cursor.value else 0;
    if !Boundary(bytes, start) { return Refused(BadCursor); }
    var spans := PersistentLabels(p.body);
    var k := FindSplit(spans, start);
    if k < |spans| { return Refused(SplitsLabel); }
    assert AllPlaced(bytes, spans, 0) by { PageIsPlaced(p); }
    assert start >= 0 by { BoundaryIsNat(bytes, start); }
    r := ReadFrom(p, bytes, spans, start, limit);
  }

  lemma {:induction false} BoundaryIsNat(bytes: seq<Byte>, c: int)
    requires Boundary(bytes, c)
    ensures 0 <= c <= |bytes|
  {
  }

  lemma {:induction false} PageIsPlaced(p: Page)
    ensures AllPlaced(Bytes(p), Spans(p), 0)
  {
    hide AllPlaced, LabelsFrom;
    LabelsAreApart(p.body, 0);
    assert p.body[..0] == [];
  }
}
