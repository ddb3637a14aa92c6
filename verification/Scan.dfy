/** The line state machine that cuts a source into blocks, and the joining of table captions (src/blocks.ts). */
module Scan {
  import opened Text
  import opened Json
  import opened Blocks

  datatype Fence = Fence(mark: Unit, count: nat)

  /** The line patterns. Nothing below depends on what they say. */
  datatype Patterns = Patterns(
    closes: (Text, Fence) -> bool, opens: Text -> Option<Fence>, blank: Text -> bool,
    atx: Text -> Option<Text>, underline: Text -> bool, bullet: Text -> bool, title: Text -> Text,
    kind: (Option<Kind>, Text, Option<Text>) -> Kind)

  datatype Run = Run(kind: Kind, first: nat, last: nat)

  // ---------------------------------------------------------------- the runs of a source

  /** Lines that make one block, or the chunks of one. */
  datatype Segment = Segment(kind: Kind, first: nat, last: nat, heading: Option<Text>)

  function BodyAt(lines: seq<Line>, k: nat): Option<Text> { if k < |lines| then Some(lines[k].body) else None }

  /** The line that closes the fence, or the last line. */
  function FenceEnd(lines: seq<Line>, p: Patterns, f: Fence, k: nat): (e: nat)
    requires 0 < k <= |lines|
    ensures k - 1 <= e < |lines|
    ensures forall j :: k <= j < e ==> !p.closes(lines[j].body, f)
    ensures e + 1 < |lines| ==> e >= k && p.closes(lines[e].body, f)
    decreases |lines| - k
  {
    if k == |lines| then k - 1 else if p.closes(lines[k].body, f) then k else FenceEnd(lines, p, f, k + 1)
  }

  predicate Underlined(lines: seq<Line>, p: Patterns, k: nat) {
    k + 1 < |lines| && p.underline(lines[k + 1].body)
  }

  predicate IsTitle(lines: seq<Line>, p: Patterns, k: nat)
    requires k < |lines|
  {
    p.atx(lines[k].body).Some? || (Underlined(lines, p, k) && !p.bullet(lines[k].body))
  }

  /** A line that neither opens code nor is blank nor is a heading. */
  predicate IsPlain(lines: seq<Line>, p: Patterns, k: nat)
    requires k < |lines|
  {
    p.opens(lines[k].body).None? && !p.blank(lines[k].body) && !IsTitle(lines, p, k)
  }

  /** The last line that goes on with a run of this kind. */
  function RunEnd(lines: seq<Line>, p: Patterns, kind: Kind, k: nat): (e: nat)
    requires 0 < k <= |lines|
    ensures k - 1 <= e < |lines|
    decreases |lines| - k
  {
    if k < |lines| && IsPlain(lines, p, k) && p.kind(Some(kind), lines[k].body, BodyAt(lines, k + 1)) == kind then RunEnd(lines, p, kind, k + 1)
    else k - 1
  }

  /** The runs from line `i` on, each found as a whole: code up to its closing fence, headings, and longest runs of one kind. */
  function Segments(lines: seq<Line>, p: Patterns, i: nat, heading: Option<Text>, before: Option<Kind>): seq<Segment>
    requires i <= |lines|
    decreases |lines| - i
  {
    if i == |lines| then []
    else
      var body := lines[i].body;
      if p.opens(body).Some? then
        var e := FenceEnd(lines, p, p.opens(body).value, i + 1);
        [Segment(CodeBlock, i, e, heading)] + Segments(lines, p, e + 1, heading, None)
      else if p.blank(body) then Segments(lines, p, i + 1, heading, None)
      else if IsTitle(lines, p, i) then
        var title := Some(if p.atx(body).Some? then p.atx(body).value else p.title(body));
        var e := if p.atx(body).None? && Underlined(lines, p, i) then i + 1 else i;
        [Segment(Heading, i, e, title)] + Segments(lines, p, e + 1, title, None)
      else
        var kind := p.kind(before, body, BodyAt(lines, i + 1));
        var e := RunEnd(lines, p, kind, i + 1);
        [Segment(kind, i, e, heading)] + Segments(lines, p, e + 1, heading, Some(kind))
  }

  /** What is left to emit while a run is pending. */
  function Ahead(lines: seq<Line>, p: Patterns, i: nat, heading: Option<Text>, pending: Option<Run>, fence: Option<Fence>): seq<Segment>
    requires i <= |lines| && (pending.Some? ==> i > 0)
  {
    if pending.None? then Segments(lines, p, i, heading, None)
    else if fence.Some? then
      var e := FenceEnd(lines, p, fence.value, i);
      [Segment(pending.value.kind, pending.value.first, e, heading)] + Segments(lines, p, e + 1, heading, None)
    else
      var e := RunEnd(lines, p, pending.value.kind, i);
      [Segment(pending.value.kind, pending.value.first, e, heading)] + Segments(lines, p, e + 1, heading, Some(pending.value.kind))
  }

  /** The blocks from `a` to `b` are those of one run. */
  ghost predicate SegmentOk(bytes: seq<Byte>, lines: seq<Line>, sentence: (nat, nat) -> nat, blocks: seq<Block>, g: Segment, a: nat, b: nat) {
    && a < b <= |blocks| && g.first <= g.last < |lines|
    && Chunks(bytes, blocks[..b], a, g.kind, g.heading, lines[g.first].start, lines[g.last].end)
    && CutByRule(bytes, sentence, blocks[..b], a, g.kind, lines[g.first].start, lines[g.last].end)
  }

  /** The blocks are those of the runs, run by run; run `k` has the blocks from `marks[k]` to `marks[k + 1]`. */
  ghost predicate Emitted(bytes: seq<Byte>, lines: seq<Line>, sentence: (nat, nat) -> nat, blocks: seq<Block>, gs: seq<Segment>, marks: seq<nat>) {
    && |marks| == |gs| + 1 && marks[0] == 0 && marks[|gs|] == |blocks|
    && forall k :: 0 <= k < |gs| ==> SegmentOk(bytes, lines, sentence, blocks, gs[k], marks[k], marks[k + 1])
  }

  lemma {:induction false} EmittedPush(bytes: seq<Byte>, lines: seq<Line>, sentence: (nat, nat) -> nat, blocks: seq<Block>, gs: seq<Segment>, marks: seq<nat>,
                                       result: seq<Block>, g: Segment)
    requires Emitted(bytes, lines, sentence, blocks, gs, marks) && blocks < result && g.first <= g.last < |lines|
    requires Chunks(bytes, result, |blocks|, g.kind, g.heading, lines[g.first].start, lines[g.last].end)
    requires CutByRule(bytes, sentence, result, |blocks|, g.kind, lines[g.first].start, lines[g.last].end)
    ensures Emitted(bytes, lines, sentence, result, gs + [g], marks + [|result|])
  {
    hide Chunks, CutByRule;
    var gs', marks' := gs + [g], marks + [|result|];
    assert result[..|result|] == result;
    forall k | 0 <= k < |gs'| ensures SegmentOk(bytes, lines, sentence, result, gs'[k], marks'[k], marks'[k + 1]) {
      if k < |gs| {
        assert SegmentOk(bytes, lines, sentence, blocks, gs[k], marks[k], marks[k + 1]);
        assert result[..marks[k + 1]] == blocks[..marks[k + 1]];
      }
    }
  }

  // ---------------------------------------------------------------- what blocks are

  predicate BlockOk(bytes: seq<Byte>, b: Block, id: nat) {
    b.id == id && b.start < b.end <= b.start + MAX_BLOCK && b.end <= |bytes| && Boundary(bytes, b.start) && Boundary(bytes, b.end)
  }

  /** Ids from 1, ranges in order and apart, each non-empty, of limited size and between characters. */
  ghost predicate Shaped(bytes: seq<Byte>, blocks: seq<Block>) {
    && (forall k :: 0 <= k < |blocks| ==> BlockOk(bytes, blocks[k], k + 1))
    && (forall k :: 0 < k < |blocks| ==> blocks[k - 1].end <= blocks[k].start)
  }

  predicate Holds(b: Block, at: int) { b.start <= at < b.end }

  ghost predicate Covered(blocks: seq<Block>, at: int) { exists b :: b in blocks && Holds(b, at) }

  ghost predicate LineCovered(blocks: seq<Block>, line: Line) { forall at :: line.start <= at < line.end ==> Covered(blocks, at) }

  function LineStart(bytes: seq<Byte>, lines: seq<Line>, k: nat): nat { if k < |lines| then lines[k].start else |bytes| }

  /** The lines before `upTo` are cut: each is blank or covered, and the blocks end before the next line. */
  ghost predicate Cut(bytes: seq<Byte>, lines: seq<Line>, p: Patterns, blocks: seq<Block>, upTo: nat) {
    && upTo <= |lines| && Shaped(bytes, blocks)
    && (blocks != [] ==> blocks[|blocks| - 1].end <= LineStart(bytes, lines, upTo))
    && (forall k :: 0 <= k < upTo ==> p.blank(lines[k].body) || LineCovered(blocks, lines[k]))
  }

  // ---------------------------------------------------------------- emitting a run

  ghost predicate Adjoining(bytes: seq<Byte>, lines: seq<Line>) {
    && (forall k :: 0 <= k < |lines| ==> lines[k].start < lines[k].end <= |bytes| && Boundary(bytes, lines[k].start) && Boundary(bytes, lines[k].end))
    && (forall k :: 0 < k < |lines| ==> lines[k - 1].end == lines[k].start)
    && (lines != [] ==> lines[|lines| - 1].end == |bytes|)
  }

  lemma {:induction false} LineIn(text: Text, line: Line, from: nat)
    requires LineOk(text, line, from) && Utf8(text[..|text|]) == Utf8(text)
    ensures line.start < line.end <= |Utf8(text)| && Boundary(Utf8(text), line.start) && Boundary(Utf8(text), line.end)
    ensures line.charEnd == |text| ==> line.end == |Utf8(text)|
  {
    hide Utf8, LineText;
  }

  lemma {:induction false} LinesMeet(text: Text, a: Line, b: Line, from: nat)
    requires LineOk(text, a, from) && LineOk(text, b, a.charEnd)
    ensures a.end == b.start
  {
    hide Utf8, LineText;
  }

  lemma {:induction false} LinesAdjoin(text: Text, lines: seq<Line>)
    requires LinesOf(text, lines, |text|)
    ensures Adjoining(Utf8(text), lines)
  {
    hide Utf8, LineOk, Boundary;
    assert text[..|text|] == text;
    forall k | 0 <= k < |lines|
      ensures lines[k].start < lines[k].end <= |Utf8(text)| && Boundary(Utf8(text), lines[k].start) && Boundary(Utf8(text), lines[k].end) {
      LineIn(text, lines[k], After(lines, k));
    }
    forall k | 0 < k < |lines| ensures lines[k - 1].end == lines[k].start {
      assert LineOk(text, lines[k - 1], After(lines, k - 1)) && LineOk(text, lines[k], After(lines, k));
      LinesMeet(text, lines[k - 1], lines[k], After(lines, k - 1));
    }
    if lines != [] { LineIn(text, lines[|lines| - 1], After(lines, |lines| - 1)); }
  }

  lemma {:induction false} LinesInOrder(bytes: seq<Byte>, lines: seq<Line>, a: nat, b: nat)
    requires Adjoining(bytes, lines) && a <= b <= |lines|
    ensures LineStart(bytes, lines, a) <= LineStart(bytes, lines, b)
    decreases b - a
  {
    if a < b {
      LinesInOrder(bytes, lines, a + 1, b);
    }
  }

  lemma {:induction false} ChunksCover(bytes: seq<Byte>, blocks: seq<Block>, from: nat, kind: Kind, heading: Option<Text>, start: nat, end: nat, at: nat)
    requires Chunks(bytes, blocks, from, kind, heading, start, end) && start <= at < end
    ensures Covered(blocks, at)
    decreases |blocks|
  {
    if from < |blocks| {
      var n := |blocks| - 1;
      ChunksInit(bytes, blocks, from, kind, heading, start, end);
      if blocks[n].start <= at {
        assert blocks[n] in blocks && Holds(blocks[n], at);
      } else {
        var less := blocks[..n];
        ChunksCover(bytes, less, from, kind, heading, start, blocks[n].start, at);
        var b :| b in less && Holds(b, at);
        assert b in blocks;
      }
    }
  }

  lemma {:induction false} EmitKeeps(bytes: seq<Byte>, lines: seq<Line>, p: Patterns, blocks: seq<Block>, result: seq<Block>, run: Run, heading: Option<Text>)
    requires Adjoining(bytes, lines) && Cut(bytes, lines, p, blocks, run.first) && run.first <= run.last < |lines|
    requires blocks < result && result[..|blocks|] == blocks
    requires Chunks(bytes, result, |blocks|, run.kind, heading, lines[run.first].start, lines[run.last].end)
    ensures Cut(bytes, lines, p, result, run.last + 1)
  {
    hide Covered, LineCovered, Adjoining;
    LineEnds(bytes, lines, run.last);
    EmitShaped(bytes, blocks, result, run.kind, heading, lines[run.first].start, lines[run.last].end);
    forall k | 0 <= k < run.last + 1 ensures p.blank(lines[k].body) || LineCovered(result, lines[k]) {
      if k < run.first {
        if LineCovered(blocks, lines[k]) { CoverGrows(blocks, result, lines[k]); }
      } else {
        RunCovers(bytes, lines, result, |blocks|, run, heading, k);
      }
    }
  }

  lemma {:induction false} LineEnds(bytes: seq<Byte>, lines: seq<Line>, k: nat)
    requires Adjoining(bytes, lines) && k < |lines|
    ensures lines[k].end == LineStart(bytes, lines, k + 1) <= |bytes|
  {
  }

  lemma {:induction false} EmitShaped(bytes: seq<Byte>, blocks: seq<Block>, result: seq<Block>, kind: Kind, heading: Option<Text>, start: nat, end: nat)
    requires Shaped(bytes, blocks) && blocks < result && result[..|blocks|] == blocks && Chunks(bytes, result, |blocks|, kind, heading, start, end)
    requires end <= |bytes| && (blocks != [] ==> blocks[|blocks| - 1].end <= start)
    ensures Shaped(bytes, result) && result[|result| - 1].end == end
  {
    forall k | |blocks| <= k < |result| ensures result[k].end <= end { ChunksWithin(bytes, result, |blocks|, kind, heading, start, end, k); }
    forall k | 0 <= k < |result| ensures BlockOk(bytes, result[k], k + 1) {
      if k < |blocks| { assert result[k] == blocks[k]; }
      else { assert ChunkOk(bytes, result[k], k + 1, kind, heading, EndBefore(result, |blocks|, start, k)); }
    }
    forall k | 0 < k < |result| ensures result[k - 1].end <= result[k].start {
      if k < |blocks| { assert result[k] == blocks[k] && result[k - 1] == blocks[k - 1]; }
      else {
        assert ChunkOk(bytes, result[k], k + 1, kind, heading, EndBefore(result, |blocks|, start, k));
        if k == |blocks| { assert result[k - 1] == blocks[k - 1]; }
      }
    }
  }

  lemma {:induction false} ChunksWithin(bytes: seq<Byte>, blocks: seq<Block>, from: nat, kind: Kind, heading: Option<Text>, start: nat, end: nat, k: nat)
    requires Chunks(bytes, blocks, from, kind, heading, start, end) && from <= k < |blocks|
    ensures blocks[k].end <= end
    decreases |blocks|
  {
    hide Boundary, Largest;
    var n := |blocks| - 1;
    ChunksInit(bytes, blocks, from, kind, heading, start, end);
    assert ChunkOk(bytes, blocks[n], n + 1, kind, heading, EndBefore(blocks, from, start, n));
    if k < n { ChunksWithin(bytes, blocks[..n], from, kind, heading, start, blocks[n].start, k); }
  }

  lemma {:induction false} CoverGrows(blocks: seq<Block>, result: seq<Block>, line: Line)
    requires LineCovered(blocks, line) && blocks <= result
    ensures LineCovered(result, line)
  {
    forall at | line.start <= at < line.end ensures Covered(result, at) {
      assert Covered(blocks, at);
      var b :| b in blocks && Holds(b, at);
      assert b in result;
    }
  }

  lemma {:induction false} RunCovers(bytes: seq<Byte>, lines: seq<Line>, result: seq<Block>, from: nat, run: Run, heading: Option<Text>, k: nat)
    requires Adjoining(bytes, lines) && run.first <= k <= run.last < |lines|
    requires Chunks(bytes, result, from, run.kind, heading, lines[run.first].start, lines[run.last].end)
    ensures LineCovered(result, lines[k])
  {
    hide Covered;
    LinesInOrder(bytes, lines, run.first, k);
    LinesInOrder(bytes, lines, k + 1, run.last + 1);
    LineEnds(bytes, lines, run.last);
    LineEnds(bytes, lines, k);
    forall at | lines[k].start <= at < lines[k].end ensures Covered(result, at) {
      ChunksCover(bytes, result, from, run.kind, heading, lines[run.first].start, lines[run.last].end, at);
    }
  }

  method EmitRun(bytes: seq<Byte>, ghost p: Patterns, lines: seq<Line>, blocks: seq<Block>, run: Run, heading: Option<Text>, sentence: (nat, nat) -> nat)
    returns (result: seq<Block>)
    requires Encoded(bytes) && SentenceEnds(bytes, sentence) && Adjoining(bytes, lines)
    requires Cut(bytes, lines, p, blocks, run.first) && run.first <= run.last < |lines|
    ensures Cut(bytes, lines, p, result, run.last + 1) && blocks < result
    ensures Chunks(bytes, result, |blocks|, run.kind, heading, lines[run.first].start, lines[run.last].end)
    ensures CutByRule(bytes, sentence, result, |blocks|, run.kind, lines[run.first].start, lines[run.last].end)
  {
    hide Encoded, SentenceEnds, Cut, Chunks, CutByRule;
    RunRange(bytes, lines, run);
    result := Emit(bytes, blocks, run.kind, heading, lines[run.first].start, lines[run.last].end, sentence);
    EmitKeeps(bytes, lines, p, blocks, result, run, heading);
  }

  lemma {:induction false} RunRange(bytes: seq<Byte>, lines: seq<Line>, run: Run)
    requires Adjoining(bytes, lines) && run.first <= run.last < |lines|
    ensures lines[run.first].start < lines[run.last].end <= |bytes|
    ensures Boundary(bytes, lines[run.first].start) && Boundary(bytes, lines[run.last].end)
  {
    LinesInOrder(bytes, lines, run.first, run.last);
  }

  /** The runs that were emitted, and where the blocks of each begin. */
  datatype Log = Log(gs: seq<Segment>, marks: seq<nat>)

  ghost predicate Logged(bytes: seq<Byte>, lines: seq<Line>, sentence: (nat, nat) -> nat, blocks: seq<Block>, log: Log) {
    Emitted(bytes, lines, sentence, blocks, log.gs, log.marks)
  }

  function Segmented(run: Run, heading: Option<Text>): Segment { Segment(run.kind, run.first, run.last, heading) }

  method EmitLogged(bytes: seq<Byte>, ghost p: Patterns, lines: seq<Line>, blocks: seq<Block>, run: Run, heading: Option<Text>, sentence: (nat, nat) -> nat,
                    ghost log: Log) returns (result: seq<Block>, ghost log': Log)
    requires Encoded(bytes) && SentenceEnds(bytes, sentence) && Adjoining(bytes, lines)
    requires Cut(bytes, lines, p, blocks, run.first) && run.first <= run.last < |lines| && Logged(bytes, lines, sentence, blocks, log)
    ensures Cut(bytes, lines, p, result, run.last + 1) && Logged(bytes, lines, sentence, result, log')
    ensures log'.gs == log.gs + [Segmented(run, heading)]
  {
    hide Encoded, SentenceEnds, Cut, Chunks, CutByRule, Emitted, Adjoining;
    result := EmitRun(bytes, p, lines, blocks, run, heading, sentence);
    EmittedPush(bytes, lines, sentence, blocks, log.gs, log.marks, result, Segmented(run, heading));
    log' := Log(log.gs + [Segmented(run, heading)], log.marks + [|result|]);
  }

  /** Emits the pending run, when there is one. */
  method Flush(bytes: seq<Byte>, ghost p: Patterns, lines: seq<Line>, blocks: seq<Block>, pending: Option<Run>, ghost upTo: nat, heading: Option<Text>,
               sentence: (nat, nat) -> nat, ghost log: Log) returns (result: seq<Block>, ghost log': Log)
    requires Encoded(bytes) && SentenceEnds(bytes, sentence) && Adjoining(bytes, lines) && Logged(bytes, lines, sentence, blocks, log)
    requires pending.Some? ==> pending.value.first <= pending.value.last < |lines| && upTo == pending.value.last + 1
    requires Cut(bytes, lines, p, blocks, if pending.Some? then pending.value.first else upTo)
    ensures Cut(bytes, lines, p, result, upTo) && Logged(bytes, lines, sentence, result, log')
    ensures log'.gs == log.gs + Done(heading, pending)
  {
    hide Encoded, SentenceEnds, Cut, Logged, Adjoining;
    result, log' := blocks, log;
    if pending.Some? { result, log' := EmitLogged(bytes, p, lines, blocks, pending.value, heading, sentence, log); }
  }

  lemma {:induction false} BlankLine(bytes: seq<Byte>, lines: seq<Line>, p: Patterns, blocks: seq<Block>, upTo: nat)
    requires Adjoining(bytes, lines) && Cut(bytes, lines, p, blocks, upTo) && upTo < |lines| && p.blank(lines[upTo].body)
    ensures Cut(bytes, lines, p, blocks, upTo + 1)
  {
    hide LineCovered, Shaped;
    LinesInOrder(bytes, lines, upTo, upTo + 1);
  }

  /**
   * The blocks are those of the runs of the source, in order: code up to its closing fence, headings, and
   * longest runs of one kind under the nearest heading before. Whatever the patterns say, every line that
   * is not blank is in exactly one run, and so every byte of it in exactly one block.
   */
  method ScanBlocks(text: Text, p: Patterns, sentence: (nat, nat) -> nat) returns (blocks: seq<Block>, lines: seq<Line>, ghost marks: seq<nat>)
    requires SentenceEnds(Utf8(text), sentence)
    ensures LinesOf(text, lines, |text|) && Cut(Utf8(text), lines, p, blocks, |lines|)
    ensures Emitted(Utf8(text), lines, sentence, blocks, Segments(lines, p, 0, None, None), marks)
  {
    hide Utf8, Encoded, SentenceEnds, Cut, LinesOf, Adjoining, Logged, Segments, FenceEnd, RunEnd, IsPlain, IsTitle;
    lines := SplitLines(text);
    var bytes := Utf8(text);
    Utf8IsEncoded(text);
    LinesAdjoin(text, lines);
    blocks := [];
    NothingCut(bytes, lines, p, sentence);
    ghost var log := Log([], [0]);
    ghost var all := Segments(lines, p, 0, None, None);
    var heading: Option<Text> := None;
    var pending: Option<Run> := None;
    var fence: Option<Fence> := None;
    var i := 0;
    while i < |lines|
      invariant Between(bytes, lines, p, sentence, all, blocks, log, heading, pending, fence, i)
    {
      if fence.Some? {
        blocks, pending, fence, log := InCode(bytes, p, lines, sentence, all, blocks, heading, pending.value, fence.value, i, log);
        i := i + 1;
      } else {
        blocks, heading, pending, fence, i, log := OutOfCode(bytes, p, lines, sentence, all, blocks, heading, pending, i, log);
      }
    }
    EndStep(lines, p, heading, pending, fence);
    blocks, log := Flush(bytes, p, lines, blocks, pending, i, heading, sentence, log);
    assert log.gs == all;
    marks := log.marks;
    assert Emitted(bytes, lines, sentence, blocks, log.gs, marks) by { LoggedIs(bytes, lines, sentence, blocks, log); }
  }

  /** Before line `i`: what is emitted and what is pending are the runs of the source. */
  ghost predicate Between(bytes: seq<Byte>, lines: seq<Line>, p: Patterns, sentence: (nat, nat) -> nat, all: seq<Segment>, blocks: seq<Block>, log: Log,
                          heading: Option<Text>, pending: Option<Run>, fence: Option<Fence>, i: nat) {
    && Adjacent(lines, i, pending) && (fence.Some? ==> pending.Some? && pending.value.kind == CodeBlock)
    && Cut(bytes, lines, p, blocks, if pending.Some? then pending.value.first else i) && Logged(bytes, lines, sentence, blocks, log)
    && all == log.gs + Ahead(lines, p, i, heading, pending, fence)
  }

  /** A line of code, which may close it. */
  method InCode(bytes: seq<Byte>, p: Patterns, lines: seq<Line>, sentence: (nat, nat) -> nat, ghost all: seq<Segment>, blocks: seq<Block>,
                heading: Option<Text>, run: Run, fence: Fence, i: nat, ghost log: Log)
    returns (result: seq<Block>, pending: Option<Run>, open: Option<Fence>, ghost log': Log)
    requires Encoded(bytes) && SentenceEnds(bytes, sentence) && Adjoining(bytes, lines) && i < |lines|
    requires Between(bytes, lines, p, sentence, all, blocks, log, heading, Some(run), Some(fence), i)
    ensures Between(bytes, lines, p, sentence, all, result, log', heading, pending, open, i + 1)
  {
    hide Encoded, SentenceEnds, Cut, Adjoining, Logged, Segments, Ahead;
    CodeStep(lines, p, i, heading, run, fence);
    var longer := run.(last := i);
    if p.closes(lines[i].body, fence) {
      result, log' := Flush(bytes, p, lines, blocks, Some(longer), i + 1, heading, sentence, log);
      pending, open := None, None;
    } else {
      result, pending, open, log' := blocks, Some(longer), Some(fence), log;
    }
  }

  method OutOfCode(bytes: seq<Byte>, p: Patterns, lines: seq<Line>, sentence: (nat, nat) -> nat, ghost all: seq<Segment>, blocks: seq<Block>,
                   heading: Option<Text>, before: Option<Run>, i: nat, ghost log: Log)
    returns (result: seq<Block>, title: Option<Text>, pending: Option<Run>, open: Option<Fence>, next: nat, ghost log': Log)
    requires Encoded(bytes) && SentenceEnds(bytes, sentence) && Adjoining(bytes, lines) && i < |lines|
    requires Between(bytes, lines, p, sentence, all, blocks, log, heading, before, None, i)
    ensures next > i && Between(bytes, lines, p, sentence, all, result, log', title, pending, open, next)
  {
    hide Encoded, SentenceEnds, Cut, Adjoining, Logged, Ahead, Segments, Done;
    var body := lines[i].body;
    title, open, next := heading, p.opens(body), i + 1;
    if open.Some? {
      OpenStep(lines, p, i, heading, before);
      result, log' := Flush(bytes, p, lines, blocks, before, i, heading, sentence, log);
      pending := Some(Run(CodeBlock, i, i));
      Regroup(log.gs, Done(heading, before), Ahead(lines, p, i + 1, heading, pending, open));
    } else if p.blank(body) {
      BlankStep(lines, p, i, heading, before);
      result, log' := Flush(bytes, p, lines, blocks, before, i, heading, sentence, log);
      BlankLine(bytes, lines, p, result, i);
      pending := None;
      Regroup(log.gs, Done(heading, before), Ahead(lines, p, i + 1, heading, None, None));
    } else {
      var atx := p.atx(body);
      var setext := i + 1 < |lines| && p.underline(lines[i + 1].body);
      if atx.Some? || (setext && !p.bullet(body)) {
        TitleStep(lines, p, i, heading, before);
        result, log' := Flush(bytes, p, lines, blocks, before, i, heading, sentence, log);
        pending, title := None, Some(if atx.Some? then atx.value else p.title(body));
        var last := if setext && atx.None? then i + 1 else i;
        result, log' := EmitLogged(bytes, p, lines, result, Run(Heading, i, last), title, sentence, log');
        next := last + 1;
        Regroup(log.gs, Done(heading, before), [Segment(Heading, i, last, title)] + Ahead(lines, p, next, title, None, None));
        Regroup(log.gs + Done(heading, before), [Segment(Heading, i, last, title)], Ahead(lines, p, next, title, None, None));
      } else {
        result, pending, log' := PlainLine(bytes, p, lines, sentence, all, blocks, heading, before, i, log);
      }
    }
  }

  /** A line that begins a run or goes on with the pending one. */
  method PlainLine(bytes: seq<Byte>, p: Patterns, lines: seq<Line>, sentence: (nat, nat) -> nat, ghost all: seq<Segment>, blocks: seq<Block>,
                   heading: Option<Text>, before: Option<Run>, i: nat, ghost log: Log)
    returns (result: seq<Block>, pending: Option<Run>, ghost log': Log)
    requires Encoded(bytes) && SentenceEnds(bytes, sentence) && Adjoining(bytes, lines) && i < |lines| && IsPlain(lines, p, i)
    requires Between(bytes, lines, p, sentence, all, blocks, log, heading, before, None, i)
    ensures Between(bytes, lines, p, sentence, all, result, log', heading, pending, None, i + 1)
  {
    hide Encoded, SentenceEnds, Cut, Adjoining, Logged, Ahead, Segments, IsPlain, Done;
    var kind := p.kind(KindOf(before), lines[i].body, BodyAt(lines, i + 1));
    PlainStep(lines, p, i, heading, before);
    if before.None? || before.value.kind != kind {
      result, log' := Flush(bytes, p, lines, blocks, before, i, heading, sentence, log);
      pending := Some(Run(kind, i, i));
      Regroup(log.gs, Done(heading, before), Ahead(lines, p, i + 1, heading, pending, None));
    } else {
      result, pending, log' := blocks, Some(before.value.(last := i)), log;
    }
  }

  lemma {:induction false} Regroup(gs: seq<Segment>, done: seq<Segment>, rest: seq<Segment>)
    ensures gs + (done + rest) == gs + done + rest
  {
  }

  lemma {:induction false} LoggedIs(bytes: seq<Byte>, lines: seq<Line>, sentence: (nat, nat) -> nat, blocks: seq<Block>, log: Log)
    requires Logged(bytes, lines, sentence, blocks, log)
    ensures Emitted(bytes, lines, sentence, blocks, log.gs, log.marks)
  {
  }

  // ---------------------------------------------------------------- one line more

  function Done(heading: Option<Text>, pending: Option<Run>): seq<Segment> {
    if pending.Some? then [Segmented(pending.value, heading)] else []
  }

  function KindOf(pending: Option<Run>): Option<Kind> { if pending.Some? then Some(pending.value.kind) else None }

  predicate Adjacent(lines: seq<Line>, i: nat, pending: Option<Run>) {
    i <= |lines| && (pending.Some? ==> pending.value.first <= pending.value.last && pending.value.last + 1 == i)
  }

  lemma {:induction false} CodeStep(lines: seq<Line>, p: Patterns, i: nat, heading: Option<Text>, run: Run, fence: Fence)
    requires Adjacent(lines, i, Some(run)) && i < |lines|
    ensures var longer := run.(last := i);
            Ahead(lines, p, i, heading, Some(run), Some(fence))
            == if p.closes(lines[i].body, fence) then Done(heading, Some(longer)) + Ahead(lines, p, i + 1, heading, None, None)
               else Ahead(lines, p, i + 1, heading, Some(longer), Some(fence))
  {
    hide Segments;
  }

  /** A line that cannot go on with the pending run ends it. */
  lemma {:induction false} RunStops(lines: seq<Line>, p: Patterns, i: nat, heading: Option<Text>, pending: Option<Run>)
    requires Adjacent(lines, i, pending)
    requires pending.None? || i == |lines| || !IsPlain(lines, p, i) || (pending.Some? && p.kind(Some(pending.value.kind), lines[i].body, BodyAt(lines, i + 1)) != pending.value.kind)
    ensures Ahead(lines, p, i, heading, pending, None) == Done(heading, pending) + Segments(lines, p, i, heading, KindOf(pending))
  {
    hide Segments, IsPlain;
    if pending.None? { assert Done(heading, pending) == []; }
  }

  lemma {:induction false} OpenStep(lines: seq<Line>, p: Patterns, i: nat, heading: Option<Text>, pending: Option<Run>)
    requires Adjacent(lines, i, pending) && i < |lines| && p.opens(lines[i].body).Some?
    ensures Ahead(lines, p, i, heading, pending, None)
            == Done(heading, pending) + Ahead(lines, p, i + 1, heading, Some(Run(CodeBlock, i, i)), p.opens(lines[i].body))
  {
    RunStops(lines, p, i, heading, pending);
  }

  lemma {:induction false} BlankStep(lines: seq<Line>, p: Patterns, i: nat, heading: Option<Text>, pending: Option<Run>)
    requires Adjacent(lines, i, pending) && i < |lines| && p.opens(lines[i].body).None? && p.blank(lines[i].body)
    ensures Ahead(lines, p, i, heading, pending, None) == Done(heading, pending) + Ahead(lines, p, i + 1, heading, None, None)
  {
    RunStops(lines, p, i, heading, pending);
  }

  lemma {:induction false} TitleStep(lines: seq<Line>, p: Patterns, i: nat, heading: Option<Text>, pending: Option<Run>)
    requires Adjacent(lines, i, pending) && i < |lines| && p.opens(lines[i].body).None? && !p.blank(lines[i].body)
    requires p.atx(lines[i].body).Some? || (BodyAt(lines, i + 1).Some? && p.underline(BodyAt(lines, i + 1).value) && !p.bullet(lines[i].body))
    ensures var atx := p.atx(lines[i].body);
            var title := Some(if atx.Some? then atx.value else p.title(lines[i].body));
            var last := if atx.None? && BodyAt(lines, i + 1).Some? && p.underline(BodyAt(lines, i + 1).value) then i + 1 else i;
            && last < |lines|
            && Ahead(lines, p, i, heading, pending, None)
               == Done(heading, pending) + ([Segment(Heading, i, last, title)] + Ahead(lines, p, last + 1, title, None, None))
  {
    RunStops(lines, p, i, heading, pending);
  }

  lemma {:induction false} PlainStep(lines: seq<Line>, p: Patterns, i: nat, heading: Option<Text>, pending: Option<Run>)
    requires Adjacent(lines, i, pending) && i < |lines| && IsPlain(lines, p, i)
    ensures var kind := p.kind(KindOf(pending), lines[i].body, BodyAt(lines, i + 1));
            Ahead(lines, p, i, heading, pending, None)
            == if pending.None? || pending.value.kind != kind then Done(heading, pending) + Ahead(lines, p, i + 1, heading, Some(Run(kind, i, i)), None)
               else Ahead(lines, p, i + 1, heading, Some(pending.value.(last := i)), None)
  {
    hide IsPlain, Segments, RunEnd;
    var kind := p.kind(KindOf(pending), lines[i].body, BodyAt(lines, i + 1));
    if pending.None? || pending.value.kind != kind {
      RunStops(lines, p, i, heading, pending);
      RunBegins(lines, p, i, heading, KindOf(pending));
    } else {
      RunGoesOn(lines, p, i, kind);
    }
  }

  lemma {:induction false} RunBegins(lines: seq<Line>, p: Patterns, i: nat, heading: Option<Text>, before: Option<Kind>)
    requires i < |lines| && IsPlain(lines, p, i)
    ensures var kind := p.kind(before, lines[i].body, BodyAt(lines, i + 1));
            var e := RunEnd(lines, p, kind, i + 1);
            Segments(lines, p, i, heading, before) == [Segment(kind, i, e, heading)] + Segments(lines, p, e + 1, heading, Some(kind))
  {
  }

  lemma {:induction false} RunGoesOn(lines: seq<Line>, p: Patterns, i: nat, kind: Kind)
    requires 0 < i < |lines| && IsPlain(lines, p, i) && p.kind(Some(kind), lines[i].body, BodyAt(lines, i + 1)) == kind
    ensures RunEnd(lines, p, kind, i) == RunEnd(lines, p, kind, i + 1)
  {
  }

  lemma {:induction false} EndStep(lines: seq<Line>, p: Patterns, heading: Option<Text>, pending: Option<Run>, fence: Option<Fence>)
    requires Adjacent(lines, |lines|, pending) && (fence.Some? ==> pending.Some?)
    ensures Ahead(lines, p, |lines|, heading, pending, fence) == Done(heading, pending)
  {
  }

  lemma {:induction false} NothingCut(bytes: seq<Byte>, lines: seq<Line>, p: Patterns, sentence: (nat, nat) -> nat)
    ensures Cut(bytes, lines, p, [], 0) && Logged(bytes, lines, sentence, [], Log([], [0]))
  {
  }

  /** In shaped blocks no byte is in two. */
  lemma {:induction false} BlocksApart(bytes: seq<Byte>, blocks: seq<Block>, j: nat, k: nat)
    requires Shaped(bytes, blocks) && j < k < |blocks|
    ensures blocks[j].end <= blocks[k].start
    decreases k - j
  {
    assert BlockOk(bytes, blocks[j], j + 1) && BlockOk(bytes, blocks[k - 1], k);
    if j + 1 < k { BlocksApart(bytes, blocks, j, k - 1); }
  }
}
