/** Cutting a source into blocks: lines, runs of lines, and chunks of long runs (src/blocks.ts). */
module Blocks {
  import opened Text
  import opened Json

  // ---------------------------------------------------------------- UTF-8 boundaries

  predicate Continuation(b: Byte) { 0x80 <= b < 0xC0 }

  /** A character starts here, or the text ends. */
  predicate Boundary(bytes: seq<Byte>, i: int) { 0 <= i <= |bytes| && (i < |bytes| ==> !Continuation(bytes[i])) }

  predicate Near(bytes: seq<Byte>, i: int, j: int) { i - 3 <= j <= i && Boundary(bytes, j) }

  ghost predicate Reached(bytes: seq<Byte>, i: int) { exists j :: Near(bytes, i, j) }

  /** From every place the last boundary is at most three bytes away, and one follows every ASCII byte. */
  ghost predicate Encoded(bytes: seq<Byte>) {
    && (forall i :: 0 <= i <= |bytes| ==> Reached(bytes, i))
    && (forall i :: 0 <= i < |bytes| && bytes[i] < 0x80 ==> Boundary(bytes, i + 1))
  }

  /** One character of one to four bytes. */
  predicate OneCharacter(a: seq<Byte>) {
    1 <= |a| <= 4 && !Continuation(a[0]) && (|a| == 1 || forall k :: 0 <= k < |a| ==> a[k] >= 0x80)
  }

  lemma {:induction false} UnitBoundaries(u: Unit)
    ensures OneCharacter(UnitBytes(u))
  {
  }

  lemma {:induction false} PairBoundaries(high: Unit, low: Unit)
    requires IsHigh(high) && IsLow(low)
    ensures OneCharacter(PairBytes(high, low))
  {
  }

  lemma {:induction false} EncodedConcat(a: seq<Byte>, b: seq<Byte>)
    requires OneCharacter(a) && Encoded(b) && Boundary(b, 0)
    ensures Encoded(a + b) && Boundary(a + b, 0) && Boundary(a + b, |a|)
  {
    forall i | 0 <= i <= |a + b| ensures Reached(a + b, i) {
      if i < |a| {
        assert Near(a + b, i, 0);
      } else {
        assert Reached(b, i - |a|);
        var j :| Near(b, i - |a|, j);
        assert Near(a + b, i, j + |a|);
      }
    }
    forall i | 0 <= i < |a + b| && (a + b)[i] < 0x80 ensures Boundary(a + b, i + 1) {
      if i >= |a| { assert Boundary(b, i - |a| + 1); }
    }
  }

  lemma {:induction false} Utf8IsEncoded(t: Text)
    ensures Encoded(Utf8(t)) && Boundary(Utf8(t), 0)
    decreases |t|
  {
    hide UnitBytes, PairBytes, Encoded, OneCharacter;
    if t == [] {
      assert Encoded([]) by { NothingEncoded(); }
    } else if PairFirst(t) {
      Utf8IsEncoded(t[2..]);
      PairBoundaries(t[0], t[1]);
      EncodedConcat(PairBytes(t[0], t[1]), Utf8(t[2..]));
    } else {
      Utf8IsEncoded(t[1..]);
      UnitBoundaries(t[0]);
      EncodedConcat(UnitBytes(t[0]), Utf8(t[1..]));
    }
  }

  lemma {:induction false} NothingEncoded()
    ensures Encoded([])
  {
    assert Near([], 0, 0);
  }

  // ---------------------------------------------------------------- lines

  datatype Line = Line(body: Text, start: nat, end: nat, charStart: nat, charEnd: nat)

  predicate Breaks(u: Unit) { u == NEWLINE || u == RETURN }

  /** Units of the break at `at`; CR and LF together are one break. */
  function BreakAt(text: Text, at: nat): (n: nat)
    ensures at + n <= |text| || n == 0
  {
    if at >= |text| || !Breaks(text[at]) then 0
    else if text[at] == RETURN && at + 1 < |text| && text[at + 1] == NEWLINE then 2 else 1
  }

  /** The body is the text up to the next break or the end of the source, and the line ends after that break. */
  predicate LineText(text: Text, line: Line) {
    var stop := line.charStart + |line.body|;
    && stop <= |text| && line.body == text[line.charStart..stop]
    && (forall k :: 0 <= k < |line.body| ==> !Breaks(line.body[k]))
    && (stop < |text| ==> Breaks(text[stop])) && line.charEnd == stop + BreakAt(text, stop)
  }

  predicate LineOk(text: Text, line: Line, from: nat) {
    && LineText(text, line)
    && line.charStart == from && line.charStart < line.charEnd <= |text|
    && line.start == |Utf8(text[..line.charStart])| && line.end == |Utf8(text[..line.charEnd])|
    && Boundary(Utf8(text), line.start) && Boundary(Utf8(text), line.end) && line.start < line.end
  }

  function After(lines: seq<Line>, k: nat): nat
    requires k <= |lines|
  {
    if k == 0 then 0 else lines[k - 1].charEnd
  }

  /** Lines follow each other without a gap, in characters and in bytes. */
  ghost predicate LinesOf(text: Text, lines: seq<Line>, upTo: nat) {
    && (forall k :: 0 <= k < |lines| ==> LineOk(text, lines[k], After(lines, k)))
    && upTo == After(lines, |lines|)
  }

  lemma {:induction false} LinesPush(text: Text, lines: seq<Line>, upTo: nat, line: Line)
    requires LinesOf(text, lines, upTo) && LineOk(text, line, upTo)
    ensures LinesOf(text, lines + [line], line.charEnd)
  {
    hide LineOk;
    forall k | 0 <= k < |lines + [line]| ensures LineOk(text, (lines + [line])[k], After(lines + [line], k)) {
      if k < |lines| { assert After(lines + [line], k) == After(lines, k); }
    }
  }

  /** Cutting after a line break cuts between characters. */
  lemma {:induction false} CutHere(text: Text, at: nat)
    requires at <= |text| && (at == 0 || at == |text| || Breaks(text[at - 1]))
    ensures Utf8(text) == Utf8(text[..at]) + Utf8(text[at..])
    ensures Boundary(Utf8(text), |Utf8(text[..at])|)
  {
    assert text == text[..at] + text[at..];
    Utf8Concat(text[..at], text[at..]);
    Utf8IsEncoded(text[at..]);
  }

  lemma {:induction false} SomeBytes(t: Text)
    requires t != []
    ensures |Utf8(t)| > 0
  {
    if !PairFirst(t) { UnitBoundaries(t[0]); }
  }

  lemma {:induction false} CutTwice(text: Text, from: nat, to: nat)
    requires from < to <= |text| && (from == 0 || Breaks(text[from - 1])) && (to == |text| || Breaks(text[to - 1]))
    ensures |Utf8(text[..to])| == |Utf8(text[..from])| + |Utf8(text[from..to])| && |Utf8(text[from..to])| > 0
  {
    assert text[..to] == text[..from] + text[from..to];
    Utf8Concat(text[..from], text[from..to]);
    SomeBytes(text[from..to]);
  }

  /** The lines of a source, each with its own break. */
  method SplitLines(text: Text) returns (lines: seq<Line>)
    ensures LinesOf(text, lines, |text|)
  {
    hide Utf8, LinesOf, LineText;
    lines := [];
    var charStart, start := 0, 0;
    CutHere(text, 0);
    assert text[..0] == [];
    NoUtf8();
    assert LinesOf(text, [], 0) by { NoLines(text); }
    while charStart < |text|
      invariant charStart <= |text| && LinesOf(text, lines, charStart) && start == |Utf8(text[..charStart])|
      invariant charStart == 0 || charStart == |text| || Breaks(text[charStart - 1])
    {
      var separator := charStart;
      while separator < |text| && !Breaks(text[separator])
        invariant charStart <= separator <= |text| && forall k :: charStart <= k < separator ==> !Breaks(text[k])
      {
        separator := separator + 1;
      }
      var charEnd := if separator == |text| then |text|
                     else separator + if text[separator] == RETURN && separator + 1 < |text| && text[separator + 1] == NEWLINE then 2 else 1;
      var raw := text[charStart..charEnd];
      var end := start + |Utf8(raw)|;
      CutTwice(text, charStart, charEnd);
      CutHere(text, charStart);
      CutHere(text, charEnd);
      assert LineText(text, Line(text[charStart..separator], start, end, charStart, charEnd)) by { FoundLine(text, charStart, separator, start, end); }
      LinesPush(text, lines, charStart, Line(text[charStart..separator], start, end, charStart, charEnd));
      lines := lines + [Line(text[charStart..separator], start, end, charStart, charEnd)];
      start, charStart := end, charEnd;
    }
  }

  lemma {:induction false} FoundLine(text: Text, from: nat, stop: nat, start: nat, end: nat)
    requires from <= stop <= |text| && (forall k :: from <= k < stop ==> !Breaks(text[k])) && (stop < |text| ==> Breaks(text[stop]))
    ensures LineText(text, Line(text[from..stop], start, end, from, stop + BreakAt(text, stop)))
  {
  }

  /** The lines are the only ones: a source is split in one way. */
  lemma {:induction false} LinesAreUnique(text: Text, a: seq<Line>, b: seq<Line>)
    requires LinesOf(text, a, |text|) && LinesOf(text, b, |text|)
    ensures a == b
  {
    hide LinesOf;
    var n := if |a| <= |b| then |a| else |b|;
    forall k | 0 <= k < n ensures a[k] == b[k] { SameLine(text, a, b, k); }
    LastLine(text, a, n);
    LastLine(text, b, n);
  }

  lemma {:induction false} SameLine(text: Text, a: seq<Line>, b: seq<Line>, k: nat)
    requires LinesOf(text, a, |text|) && LinesOf(text, b, |text|) && k < |a| && k < |b|
    ensures a[k] == b[k]
  {
    hide LineOk, LinesOf;
    if k > 0 { SameLine(text, a, b, k - 1); }
    LineIs(text, a, k);
    LineIs(text, b, k);
    TwoLines(text, a[k], b[k], After(a, k));
  }

  lemma {:induction false} LineIs(text: Text, lines: seq<Line>, k: nat)
    requires LinesOf(text, lines, |text|) && k < |lines|
    ensures LineOk(text, lines[k], After(lines, k))
  {
    hide LineOk;
  }

  lemma {:induction false} TwoLines(text: Text, a: Line, b: Line, from: nat)
    requires LineOk(text, a, from) && LineOk(text, b, from)
    ensures a == b
  {
    hide Utf8, LineText, Boundary;
    OneLine(text, a, b);
  }

  /** The line that reaches the end of the source is the last. */
  lemma {:induction false} LastLine(text: Text, lines: seq<Line>, k: nat)
    requires LinesOf(text, lines, |text|) && k <= |lines|
    ensures |lines| == k <==> After(lines, k) == |text|
  {
    hide Utf8, LineText, Boundary;
    if k < |lines| { assert LineOk(text, lines[k], After(lines, k)); }
  }

  lemma {:induction false} OneLine(text: Text, a: Line, b: Line)
    requires LineText(text, a) && LineText(text, b) && a.charStart == b.charStart
    ensures a.body == b.body && a.charEnd == b.charEnd
  {
    BodyHasNoBreak(text, a);
    BodyHasNoBreak(text, b);
  }

  lemma {:induction false} BodyHasNoBreak(text: Text, line: Line)
    requires LineText(text, line)
    ensures forall k :: line.charStart <= k < line.charStart + |line.body| ==> !Breaks(text[k])
  {
    forall k | line.charStart <= k < line.charStart + |line.body| ensures !Breaks(text[k]) { assert line.body[k - line.charStart] == text[k]; }
  }

  lemma {:induction false} NoLines(text: Text)
    ensures LinesOf(text, [], 0)
  {
  }

  lemma {:induction false} NoUtf8()
    ensures Utf8([]) == []
  {
  }

  // ---------------------------------------------------------------- chunks of a long run

  datatype Kind = Heading | Paragraph | ListItem | Table | CodeBlock | Quote

  datatype Block = Block(id: nat, kind: Kind, start: nat, end: nat, heading: Option<Text>)

  const MAX_BLOCK: nat := 4096

  function Largest(kind: Kind): nat { if kind == Paragraph then 1536 else MAX_BLOCK }

  predicate ChunkOk(bytes: seq<Byte>, b: Block, id: nat, kind: Kind, heading: Option<Text>, start: nat) {
    && b.id == id && b.kind == kind && b.heading == heading && b.start == start
    && b.start < b.end <= b.start + Largest(kind) && Boundary(bytes, b.start) && Boundary(bytes, b.end)
  }

  /** Where chunk `k` has to start. */
  function EndBefore(blocks: seq<Block>, from: nat, start: nat, k: nat): nat
    requires from <= k <= |blocks|
  {
    if k == from then start else blocks[k - 1].end
  }

  /** Consecutive blocks of one kind that cover the bytes from `start` to `end`. */
  ghost predicate Chunks(bytes: seq<Byte>, blocks: seq<Block>, from: nat, kind: Kind, heading: Option<Text>, start: nat, end: nat) {
    && from <= |blocks|
    && (forall k :: from <= k < |blocks| ==> ChunkOk(bytes, blocks[k], k + 1, kind, heading, EndBefore(blocks, from, start, k)))
    && end == EndBefore(blocks, from, start, |blocks|)
  }

  predicate CutOk(bytes: seq<Byte>, sentence: (nat, nat) -> nat, o: nat, s: nat) {
    Boundary(bytes, o) && Boundary(bytes, s) && o < s ==>
      sentence(o, s) == 0 || (sentence(o, s) <= s - o && Boundary(bytes, o + sentence(o, s)))
  }

  /** Where a sentence ends inside a chunk, as the sentence pattern finds it; 0 when it does not help. */
  ghost predicate SentenceEnds(bytes: seq<Byte>, sentence: (nat, nat) -> nat) {
    forall o: nat, s: nat :: CutOk(bytes, sentence, o, s)
  }

  /** The last boundary up to `from`. */
  ghost predicate LastBoundary(bytes: seq<Byte>, from: nat, at: nat) {
    at <= from && Boundary(bytes, at) && forall q :: at < q <= from ==> !Boundary(bytes, q)
  }

  predicate IsBreak(bytes: seq<Byte>, q: nat, spaces: bool) { q < |bytes| && (bytes[q] == 10 || (spaces && bytes[q] == 32)) }

  /** After the last line break or space between `low` and `stop`, or at `stop` when there is none. */
  ghost predicate AfterBreak(bytes: seq<Byte>, low: nat, stop: nat, spaces: bool, at: nat) {
    && low < at <= stop
    && (forall q :: low < q < stop && IsBreak(bytes, q, spaces) ==> q < at)
    && (at < stop ==> at - 1 > low && IsBreak(bytes, at - 1, spaces))
  }

  function ChunkSize(kind: Kind): nat { if kind == Paragraph then 1024 else MAX_BLOCK }

  /**
   * Where the chunk that starts at `offset` ends: at the end of the run, else at the last sentence end, else after
   * the last break of its second half; code, lists and tables after their last line break.
   */
  ghost predicate StopRule(bytes: seq<Byte>, sentence: (nat, nat) -> nat, kind: Kind, offset: nat, end: nat, stop: nat) {
    if end <= offset + ChunkSize(kind) then stop == end
    else exists b: nat :: LastBoundary(bytes, offset + ChunkSize(kind), b) && StopFrom(bytes, sentence, kind, offset, b, stop)
  }

  ghost predicate StopFrom(bytes: seq<Byte>, sentence: (nat, nat) -> nat, kind: Kind, offset: nat, b: nat, stop: nat) {
    if kind != Paragraph then AfterBreak(bytes, offset, b, false, stop)
    else if sentence(offset, b) > 0 then stop == offset + sentence(offset, b)
    else AfterBreak(bytes, offset + 512, b, true, stop)
  }

  /** One block when the run is short enough; otherwise every chunk stops where the rule says. */
  ghost predicate CutByRule(bytes: seq<Byte>, sentence: (nat, nat) -> nat, blocks: seq<Block>, from: nat, kind: Kind, start: nat, end: nat) {
    if end <= start + Largest(kind) then |blocks| == from + 1
    else forall k :: from <= k < |blocks| ==> StopRule(bytes, sentence, kind, blocks[k].start, end, blocks[k].end)
  }

  method BackToBoundary(bytes: seq<Byte>, offset: nat, from: nat) returns (stop: nat)
    requires Encoded(bytes) && offset + 4 <= from <= |bytes|
    ensures from - 3 <= stop && LastBoundary(bytes, from, stop)
  {
    assert Reached(bytes, from);
    ghost var j :| Near(bytes, from, j);
    stop := from;
    while stop < |bytes| && Continuation(bytes[stop])
      invariant from - 3 <= j <= stop <= from && forall q :: stop < q <= from ==> !Boundary(bytes, q)
      decreases stop
    {
      stop := stop - 1;
    }
  }

  /** The last place after a byte of these kinds, searched backwards; `stop` when there is none. */
  method LastBreak(bytes: seq<Byte>, low: nat, stop: nat, spaces: bool) returns (at: nat)
    requires Encoded(bytes) && low < stop <= |bytes| && Boundary(bytes, stop)
    ensures AfterBreak(bytes, low, stop, spaces, at) && Boundary(bytes, at)
  {
    var point := stop - 1;
    while point > low
      invariant low <= point < stop && forall q :: point < q < stop ==> !IsBreak(bytes, q, spaces)
    {
      if bytes[point] == 10 || (spaces && bytes[point] == 32) { return point + 1; }
      point := point - 1;
    }
    at := stop;
  }

  lemma {:induction false} SentenceCut(bytes: seq<Byte>, sentence: (nat, nat) -> nat, o: nat, s: nat)
    requires SentenceEnds(bytes, sentence) && Boundary(bytes, o) && Boundary(bytes, s) && o < s
    ensures sentence(o, s) == 0 || (sentence(o, s) <= s - o && Boundary(bytes, o + sentence(o, s)))
  {
    assert CutOk(bytes, sentence, o, s);
  }

  /** Where the next chunk of a run stops. */
  method NextStop(bytes: seq<Byte>, kind: Kind, offset: nat, end: nat, sentence: (nat, nat) -> nat) returns (stop: nat)
    requires Encoded(bytes) && offset < end <= |bytes| && Boundary(bytes, offset) && Boundary(bytes, end) && SentenceEnds(bytes, sentence)
    ensures offset < stop <= end && Boundary(bytes, stop) && stop <= offset + Largest(kind)
    ensures StopRule(bytes, sentence, kind, offset, end, stop)
  {
    hide Encoded, SentenceEnds, Boundary, IsBreak;
    var size := ChunkSize(kind);
    if end <= offset + size { return end; }
    stop := BackToBoundary(bytes, offset, offset + size);
    ghost var b := stop;
    if kind == Paragraph {
      var cut := sentence(offset, stop);
      SentenceCut(bytes, sentence, offset, stop);
      if cut > 0 { stop := offset + cut; } else { stop := LastBreak(bytes, offset + 512, stop, true); }
    } else {
      stop := LastBreak(bytes, offset, stop, false);
    }
    assert StopFrom(bytes, sentence, kind, offset, b, stop);
  }

  lemma {:induction false} ChunksPush(bytes: seq<Byte>, blocks: seq<Block>, from: nat, kind: Kind, heading: Option<Text>, start: nat, offset: nat, stop: nat)
    requires Chunks(bytes, blocks, from, kind, heading, start, offset)
    requires offset < stop <= offset + Largest(kind) && Boundary(bytes, offset) && Boundary(bytes, stop)
    ensures Chunks(bytes, blocks + [Block(|blocks| + 1, kind, offset, stop, heading)], from, kind, heading, start, stop)
  {
    hide Boundary, Largest, ChunkOk, EndBefore;
    var b := Block(|blocks| + 1, kind, offset, stop, heading);
    var more := blocks + [b];
    LastEnd(more, from, start);
    forall k | from <= k < |more| ensures ChunkOk(bytes, more[k], k + 1, kind, heading, EndBefore(more, from, start, k)) {
      EndBeforePush(blocks, b, from, start, k);
      if k < |blocks| {
        assert ChunkOk(bytes, blocks[k], k + 1, kind, heading, EndBefore(blocks, from, start, k));
      } else {
        NewChunk(bytes, b, |blocks| + 1, kind, heading, offset);
      }
    }
  }

  lemma {:induction false} NewChunk(bytes: seq<Byte>, b: Block, id: nat, kind: Kind, heading: Option<Text>, start: nat)
    requires b == Block(id, kind, start, b.end, heading) && start < b.end <= start + Largest(kind) && Boundary(bytes, start) && Boundary(bytes, b.end)
    ensures ChunkOk(bytes, b, id, kind, heading, start)
  {
    hide Boundary, Largest;
  }

  lemma {:induction false} EndBeforePush(blocks: seq<Block>, b: Block, from: nat, start: nat, k: nat)
    requires from <= k <= |blocks|
    ensures EndBefore(blocks + [b], from, start, k) == EndBefore(blocks, from, start, k)
  {
  }

  lemma {:induction false} EndBeforeInit(blocks: seq<Block>, from: nat, start: nat, n: nat, k: nat)
    requires from <= k <= n <= |blocks|
    ensures EndBefore(blocks[..n], from, start, k) == EndBefore(blocks, from, start, k)
  {
  }

  lemma {:induction false} ChunkIs(bytes: seq<Byte>, blocks: seq<Block>, from: nat, kind: Kind, heading: Option<Text>, start: nat, end: nat, k: nat)
    requires Chunks(bytes, blocks, from, kind, heading, start, end) && from <= k < |blocks|
    ensures ChunkOk(bytes, blocks[k], k + 1, kind, heading, EndBefore(blocks, from, start, k))
    ensures blocks[k].start == EndBefore(blocks, from, start, k)
  {
  }

  lemma {:induction false} ChunksInit(bytes: seq<Byte>, blocks: seq<Block>, from: nat, kind: Kind, heading: Option<Text>, start: nat, end: nat)
    requires Chunks(bytes, blocks, from, kind, heading, start, end) && from < |blocks|
    ensures var n := |blocks| - 1;
            Chunks(bytes, blocks[..n], from, kind, heading, start, blocks[n].start) && blocks[n].end == end
  {
    hide ChunkOk, EndBefore;
    var n := |blocks| - 1;
    ChunkIs(bytes, blocks, from, kind, heading, start, end, n);
    EndBeforeInit(blocks, from, start, n, n);
    assert EndBefore(blocks, from, start, |blocks|) == blocks[n].end by { LastEnd(blocks, from, start); }
    forall k | from <= k < n ensures ChunkOk(bytes, blocks[..n][k], k + 1, kind, heading, EndBefore(blocks[..n], from, start, k)) {
      ChunkIs(bytes, blocks, from, kind, heading, start, end, k);
      EndBeforeInit(blocks, from, start, n, k);
    }
  }

  lemma {:induction false} LastEnd(blocks: seq<Block>, from: nat, start: nat)
    requires from < |blocks|
    ensures EndBefore(blocks, from, start, |blocks|) == blocks[|blocks| - 1].end
  {
  }

  /** Emits the blocks of one run: one block, or chunks that follow each other without a gap. */
  method Emit(bytes: seq<Byte>, blocks: seq<Block>, kind: Kind, heading: Option<Text>, start: nat, end: nat, sentence: (nat, nat) -> nat)
    returns (result: seq<Block>)
    requires Encoded(bytes) && start < end <= |bytes| && Boundary(bytes, start) && Boundary(bytes, end) && SentenceEnds(bytes, sentence)
    ensures blocks < result && result[..|blocks|] == blocks && Chunks(bytes, result, |blocks|, kind, heading, start, end)
    ensures CutByRule(bytes, sentence, result, |blocks|, kind, start, end)
  {
    hide Encoded, SentenceEnds, StopRule, Boundary;
    result := blocks;
    var offset := start;
    if end - start <= Largest(kind) {
      ChunksPush(bytes, blocks, |blocks|, kind, heading, start, start, end);
      return blocks + [Block(|blocks| + 1, kind, start, end, heading)];
    }
    while offset < end
      invariant start <= offset <= end && blocks <= result && result[..|blocks|] == blocks && Boundary(bytes, offset)
      invariant Chunks(bytes, result, |blocks|, kind, heading, start, offset) && (offset > start ==> |result| > |blocks|)
      invariant forall k :: |blocks| <= k < |result| ==> StopRule(bytes, sentence, kind, result[k].start, end, result[k].end)
    {
      var stop := NextStop(bytes, kind, offset, end, sentence);
      ChunksPush(bytes, result, |blocks|, kind, heading, start, offset, stop);
      result := result + [Block(|result| + 1, kind, offset, stop, heading)];
      offset := stop;
    }
  }
}
