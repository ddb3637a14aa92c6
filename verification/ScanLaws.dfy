/** What the runs of a source are, line by line (src/blocks.ts). */
module ScanLaws {
  import opened Text
  import opened Json
  import opened Blocks
  import opened Scan
  import opened Captions

  /** The line is underlined by the next one and is no list item: a heading of two lines. */
  predicate TwoLineTitle(lines: seq<Line>, p: Patterns, k: nat) {
    k < |lines| && p.atx(lines[k].body).None? && k + 1 < |lines| && p.underline(lines[k + 1].body) && !p.bullet(lines[k].body)
  }

  /** The line goes on with a run of this kind: it opens no code, is not blank, is no heading and is of this kind after such a run. */
  predicate GoesOn(lines: seq<Line>, p: Patterns, kind: Kind, k: nat) {
    && k < |lines| && p.opens(lines[k].body).None? && !p.blank(lines[k].body)
    && p.atx(lines[k].body).None? && !TwoLineTitle(lines, p, k)
    && p.kind(Some(kind), lines[k].body, if k + 1 < |lines| then Some(lines[k + 1].body) else None) == kind
  }

  /** Code goes up to the first later line that closes its fence, or to the end of the source. */
  ghost predicate CodeUpTo(lines: seq<Line>, p: Patterns, f: Fence, first: nat, last: nat) {
    && first <= last < |lines| && (forall k :: first < k < last ==> !p.closes(lines[k].body, f))
    && ((first < last && p.closes(lines[last].body, f)) || (last == |lines| - 1 && (first < last ==> !p.closes(lines[last].body, f))))
  }

  /** What begins with line `i`, under this heading and after a run of this kind. */
  ghost predicate SegmentIs(lines: seq<Line>, p: Patterns, g: Segment, heading: Option<Text>, before: Option<Kind>) {
    && g.first <= g.last < |lines|
    && var body := lines[g.first].body;
       if p.opens(body).Some? then g.kind == CodeBlock && g.heading == heading && CodeUpTo(lines, p, p.opens(body).value, g.first, g.last)
       else
         && !p.blank(body)
         && if p.atx(body).Some? then g.kind == Heading && g.last == g.first && g.heading == p.atx(body)
            else if TwoLineTitle(lines, p, g.first) then g.kind == Heading && g.last == g.first + 1 && g.heading == Some(p.title(body))
            else
              && g.kind == p.kind(before, body, if g.first + 1 < |lines| then Some(lines[g.first + 1].body) else None) && g.heading == heading
              && (forall k :: g.first < k <= g.last ==> GoesOn(lines, p, g.kind, k)) && !GoesOn(lines, p, g.kind, g.last + 1)
  }

  predicate Titles(lines: seq<Line>, p: Patterns, g: Segment)
    requires g.first < |lines|
  {
    p.opens(lines[g.first].body).None? && (p.atx(lines[g.first].body).Some? || TwoLineTitle(lines, p, g.first))
  }

  /** From line `i` on, the segments are one after the other, with nothing but blank lines between them. */
  ghost predicate CutsLines(lines: seq<Line>, p: Patterns, gs: seq<Segment>, i: nat, heading: Option<Text>, before: Option<Kind>)
    decreases |gs|
  {
    if gs == [] then forall k :: i <= k < |lines| ==> p.blank(lines[k].body) && p.opens(lines[k].body).None?
    else
      var g := gs[0];
      && i <= g.first && SegmentIs(lines, p, g, heading, if g.first == i then before else None)
      && (forall k :: i <= k < g.first ==> p.blank(lines[k].body) && p.opens(lines[k].body).None?)
      && CutsLines(lines, p, gs[1..], g.last + 1, NextHeading(lines, p, g, heading), NextKind(lines, p, g))
  }

  lemma {:induction false} CodeEnds(lines: seq<Line>, p: Patterns, f: Fence, i: nat)
    requires i < |lines|
    ensures CodeUpTo(lines, p, f, i, FenceEnd(lines, p, f, i + 1))
  {
    EndsAtLast(lines, p, f, i + 1);
  }

  lemma {:induction false} EndsAtLast(lines: seq<Line>, p: Patterns, f: Fence, k: nat)
    requires 0 < k <= |lines|
    ensures var e := FenceEnd(lines, p, f, k); (e >= k && p.closes(lines[e].body, f)) || (e == |lines| - 1 && (e >= k ==> !p.closes(lines[e].body, f)))
    decreases |lines| - k
  {
    if k < |lines| && !p.closes(lines[k].body, f) { EndsAtLast(lines, p, f, k + 1); }
  }

  lemma {:induction false} RunGoesOn(lines: seq<Line>, p: Patterns, kind: Kind, k: nat)
    requires 0 < k <= |lines|
    ensures var e := RunEnd(lines, p, kind, k); (forall j :: k <= j <= e ==> GoesOn(lines, p, kind, j)) && !GoesOn(lines, p, kind, e + 1)
    decreases |lines| - k
  {
    if k < |lines| && GoesOn(lines, p, kind, k) { RunGoesOn(lines, p, kind, k + 1); }
  }

  /** The heading and the kind that the next segment comes under. */
  function NextHeading(lines: seq<Line>, p: Patterns, g: Segment, heading: Option<Text>): Option<Text>
    requires g.first < |lines|
  {
    if Titles(lines, p, g) then g.heading else heading
  }

  function NextKind(lines: seq<Line>, p: Patterns, g: Segment): Option<Kind>
    requires g.first < |lines|
  {
    if Titles(lines, p, g) || p.opens(lines[g.first].body).Some? then None else Some(g.kind)
  }

  /** The first segment begins here, and the rest is what begins after it. */
  ghost predicate Begins(lines: seq<Line>, p: Patterns, gs: seq<Segment>, i: nat, heading: Option<Text>, before: Option<Kind>) {
    && gs != [] && gs[0].first == i && SegmentIs(lines, p, gs[0], heading, before)
    && gs[1..] == Segments(lines, p, gs[0].last + 1, NextHeading(lines, p, gs[0], heading), NextKind(lines, p, gs[0]))
  }

  lemma {:induction false} FirstAndRest(g: Segment, rest: seq<Segment>)
    ensures ([g] + rest)[0] == g && ([g] + rest)[1..] == rest
  {
  }

  lemma {:induction false} CodeHere(lines: seq<Line>, p: Patterns, i: nat, heading: Option<Text>, before: Option<Kind>)
    requires i < |lines| && p.opens(lines[i].body).Some?
    ensures Begins(lines, p, Segments(lines, p, i, heading, before), i, heading, before)
  {
    hide FenceEnd, CodeUpTo;
    CodeEnds(lines, p, p.opens(lines[i].body).value, i);
    var e := FenceEnd(lines, p, p.opens(lines[i].body).value, i + 1);
    FirstAndRest(Segment(CodeBlock, i, e, heading), Segments(lines, p, e + 1, heading, None));
  }

  lemma {:induction false} TitleHere(lines: seq<Line>, p: Patterns, i: nat, heading: Option<Text>, before: Option<Kind>)
    requires i < |lines| && p.opens(lines[i].body).None? && !p.blank(lines[i].body) && IsTitle(lines, p, i)
    ensures Begins(lines, p, Segments(lines, p, i, heading, before), i, heading, before)
  {
    hide Segments, SegmentIs;
    var body := lines[i].body;
    var title := Some(if p.atx(body).Some? then p.atx(body).value else p.title(body));
    var e := if p.atx(body).None? && Underlined(lines, p, i) then i + 1 else i;
    var g := Segment(Heading, i, e, title);
    TitleFirst(lines, p, i, heading, before);
    FirstAndRest(g, Segments(lines, p, e + 1, title, None));
    assert SegmentIs(lines, p, g, heading, before) by { TitleIs(lines, p, i, heading, before); }
  }

  lemma {:induction false} TitleFirst(lines: seq<Line>, p: Patterns, i: nat, heading: Option<Text>, before: Option<Kind>)
    requires i < |lines| && p.opens(lines[i].body).None? && !p.blank(lines[i].body) && IsTitle(lines, p, i)
    ensures var body := lines[i].body;
            var title := Some(if p.atx(body).Some? then p.atx(body).value else p.title(body));
            var e := if p.atx(body).None? && Underlined(lines, p, i) then i + 1 else i;
            Segments(lines, p, i, heading, before) == [Segment(Heading, i, e, title)] + Segments(lines, p, e + 1, title, None)
  {
    hide FenceEnd, RunEnd;
  }

  lemma {:induction false} TitleIs(lines: seq<Line>, p: Patterns, i: nat, heading: Option<Text>, before: Option<Kind>)
    requires i < |lines| && p.opens(lines[i].body).None? && !p.blank(lines[i].body) && IsTitle(lines, p, i)
    ensures var body := lines[i].body;
            var title := Some(if p.atx(body).Some? then p.atx(body).value else p.title(body));
            var e := if p.atx(body).None? && Underlined(lines, p, i) then i + 1 else i;
            SegmentIs(lines, p, Segment(Heading, i, e, title), heading, before)
  {
    hide GoesOn, CodeUpTo;
  }

  lemma {:induction false} PlainHere(lines: seq<Line>, p: Patterns, i: nat, heading: Option<Text>, before: Option<Kind>)
    requires i < |lines| && p.opens(lines[i].body).None? && !p.blank(lines[i].body) && !IsTitle(lines, p, i)
    ensures Begins(lines, p, Segments(lines, p, i, heading, before), i, heading, before)
  {
    hide RunEnd, GoesOn;
    var kind := p.kind(before, lines[i].body, BodyAt(lines, i + 1));
    var e := RunEnd(lines, p, kind, i + 1);
    RunGoesOn(lines, p, kind, i + 1);
    FirstAndRest(Segment(kind, i, e, heading), Segments(lines, p, e + 1, heading, Some(kind)));
  }

  lemma {:induction false} SegmentHere(lines: seq<Line>, p: Patterns, i: nat, heading: Option<Text>, before: Option<Kind>)
    requires i < |lines| && (p.opens(lines[i].body).Some? || !p.blank(lines[i].body))
    ensures Begins(lines, p, Segments(lines, p, i, heading, before), i, heading, before)
  {
    hide Begins, Segments;
    if p.opens(lines[i].body).Some? {
      CodeHere(lines, p, i, heading, before);
    } else if IsTitle(lines, p, i) {
      TitleHere(lines, p, i, heading, before);
    } else {
      PlainHere(lines, p, i, heading, before);
    }
  }

  /** The runs of a source are cut as the lines say. */
  lemma {:induction false} SegmentsAreCut(lines: seq<Line>, p: Patterns, i: nat, heading: Option<Text>, before: Option<Kind>)
    requires i <= |lines|
    ensures CutsLines(lines, p, Segments(lines, p, i, heading, before), i, heading, before)
    decreases |lines| - i
  {
    hide SegmentIs, NextHeading, NextKind, Segments;
    if i == |lines| {
      NoSegments(lines, p, heading, before);
    } else if p.opens(lines[i].body).None? && p.blank(lines[i].body) {
      SegmentsAreCut(lines, p, i + 1, heading, None);
      BlankFirst(lines, p, i, heading, before);
    } else {
      var gs := Segments(lines, p, i, heading, before);
      SegmentHere(lines, p, i, heading, before);
      SegmentIn(lines, p, gs[0], heading, before);
      SegmentsAreCut(lines, p, gs[0].last + 1, NextHeading(lines, p, gs[0], heading), NextKind(lines, p, gs[0]));
    }
  }

  lemma {:induction false} NoSegments(lines: seq<Line>, p: Patterns, heading: Option<Text>, before: Option<Kind>)
    ensures Segments(lines, p, |lines|, heading, before) == []
  {
  }

  lemma {:induction false} SegmentIn(lines: seq<Line>, p: Patterns, g: Segment, heading: Option<Text>, before: Option<Kind>)
    requires SegmentIs(lines, p, g, heading, before)
    ensures g.first <= g.last < |lines|
  {
  }

  lemma {:induction false} BlankFirst(lines: seq<Line>, p: Patterns, i: nat, heading: Option<Text>, before: Option<Kind>)
    requires i < |lines| && p.opens(lines[i].body).None? && p.blank(lines[i].body)
    requires CutsLines(lines, p, Segments(lines, p, i + 1, heading, None), i + 1, heading, None)
    ensures CutsLines(lines, p, Segments(lines, p, i, heading, before), i, heading, before)
  {
    hide SegmentIs, Titles;
    var gs := Segments(lines, p, i + 1, heading, None);
    assert Segments(lines, p, i, heading, before) == gs;
  }

  // ---------------------------------------------------------------- sizes

  /** A run of at most 1536 bytes, or of 4096 unless it is a paragraph, is one block; no block is longer than that. */
  lemma {:induction false} BlockSizes(bytes: seq<Byte>, lines: seq<Line>, sentence: (nat, nat) -> nat, blocks: seq<Block>, g: Segment, a: nat, b: nat)
    requires SegmentOk(bytes, lines, sentence, blocks, g, a, b)
    ensures lines[g.last].end - lines[g.first].start <= (if g.kind == Paragraph then 1536 else 4096) ==> b == a + 1
    ensures forall k :: a <= k < b ==>
              && blocks[k].end - blocks[k].start <= (if g.kind == Paragraph then 1536 else 4096)
              && blocks[k].kind == g.kind && blocks[k].heading == g.heading
  {
    hide CutByRule, Boundary;
    assert b == a + 1 <== lines[g.last].end - lines[g.first].start <= (if g.kind == Paragraph then 1536 else 4096) by {
      ShortIsOne(bytes, sentence, blocks[..b], a, g.kind, lines[g.first].start, lines[g.last].end);
    }
    assert forall k :: a <= k < b ==> blocks[..b][k] == blocks[k];
  }

  lemma {:induction false} ShortIsOne(bytes: seq<Byte>, sentence: (nat, nat) -> nat, blocks: seq<Block>, from: nat, kind: Kind, start: nat, end: nat)
    requires CutByRule(bytes, sentence, blocks, from, kind, start, end)
    ensures end <= start + (if kind == Paragraph then 1536 else 4096) ==> |blocks| == from + 1
  {
    hide StopRule;
  }

  /** In a longer run, a chunk that is not the last one ends with a sentence, or after a break at most 1024 bytes on, or 4096 unless it is a paragraph. */
  lemma {:induction false} ChunkSizes(bytes: seq<Byte>, sentence: (nat, nat) -> nat, kind: Kind, offset: nat, end: nat, stop: nat)
    requires StopRule(bytes, sentence, kind, offset, end, stop) && stop < end
    ensures (exists b: nat :: stop == offset + sentence(offset, b)) || (offset < stop <= offset + (if kind == Paragraph then 1024 else 4096))
  {
    hide Boundary;
  }

  // ---------------------------------------------------------------- captions

  /** No neighbour of the block is another part of the same run. */
  predicate Whole(blocks: seq<Block>, k: nat) {
    && k < |blocks|
    && (k == 0 || blocks[k - 1].kind != blocks[k].kind || blocks[k - 1].end < blocks[k].start || blocks[k - 1].end > blocks[k].start)
    && (k + 1 == |blocks| || blocks[k + 1].kind != blocks[k].kind || blocks[k].end != blocks[k + 1].start)
  }

  /** The table is next to the paragraph, with only white space between them. */
  predicate Touches(blocks: seq<Block>, gap: nat -> bool, t: nat, k: nat) {
    && t < |blocks| && k < |blocks| && blocks[t].kind == Table
    && ((t + 1 == k && gap(t)) || (t == k + 1 && gap(k)))
  }

  /** A paragraph is the caption of a table exactly when it begins like one, touches this table and no other, and both are whole. */
  lemma {:induction false} CaptionExactly(blocks: seq<Block>, caption: nat -> bool, gap: nat -> bool, k: nat, t: nat)
    ensures TableFor(blocks, caption, gap, k) == Some(t) <==>
              && k < |blocks| && blocks[k].kind == Paragraph && caption(k) && Touches(blocks, gap, t, k)
              && (forall u: nat :: Touches(blocks, gap, u, k) ==> u == t) && Whole(blocks, t) && Whole(blocks, k)
  {
    assert k > 0 ==> (Touches(blocks, gap, k - 1, k) <==> k < |blocks| && blocks[k - 1].kind == Table && gap(k - 1));
    assert Touches(blocks, gap, k + 1, k) <==> k + 1 < |blocks| && blocks[k + 1].kind == Table && gap(k);
  }

  /** A table takes a paragraph exactly when that is its only caption and both fit into 4096 bytes. */
  lemma {:induction false} JoinExactly(blocks: seq<Block>, caption: nat -> bool, gap: nat -> bool, t: nat, c: nat)
    requires t < |blocks| && c < |blocks|
    ensures Captions.Fits(blocks, caption, gap, t, c) <==>
              && (forall k: nat :: k < |blocks| ==> (TableFor(blocks, caption, gap, k) == Some(t) <==> k == c))
              && (if blocks[t].end >= blocks[c].end then blocks[t].end else blocks[c].end)
                 - (if blocks[t].start <= blocks[c].start then blocks[t].start else blocks[c].start) <= 4096
  {
    hide TableFor;
    CaptionsAre(blocks, caption, gap, t, |blocks|);
    OnlyCaption(CaptionsOf(blocks, caption, gap, t, |blocks|), c);
  }

  lemma {:induction false} CaptionsAre(blocks: seq<Block>, caption: nat -> bool, gap: nat -> bool, t: nat, upTo: nat)
    ensures var cs := CaptionsOf(blocks, caption, gap, t, upTo);
            && (forall k: nat :: k in cs <==> k < upTo && TableFor(blocks, caption, gap, k) == Some(t))
            && forall i, j :: 0 <= i < j < |cs| ==> cs[i] < cs[j]
  {
    hide TableFor;
    if upTo > 0 {
      CaptionsAre(blocks, caption, gap, t, upTo - 1);
      var before, cs := CaptionsOf(blocks, caption, gap, t, upTo - 1), CaptionsOf(blocks, caption, gap, t, upTo);
      assert forall i :: 0 <= i < |before| ==> before[i] in before;
      assert forall i, j :: 0 <= i < j < |cs| ==> cs[i] < cs[j];
    }
  }

  lemma {:induction false} OnlyCaption(cs: seq<nat>, c: nat)
    requires forall i, j :: 0 <= i < j < |cs| ==> cs[i] < cs[j]
    ensures cs == [c] <==> forall k: nat :: k in cs <==> k == c
  {
    if forall k: nat :: k in cs <==> k == c {
      assert c in cs;
      assert forall i :: 0 <= i < |cs| ==> cs[i] in cs;
      assert |cs| > 1 ==> cs[0] == c && cs[1] == c;
    }
  }
}
