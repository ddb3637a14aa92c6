/** The code ranges of a text in which one label outside code was replaced. */
module CodeShift {
  import opened Text
  import opened CodeRanges
  import opened Splice

  lemma NotCoveredParts(xs: seq<Range>, ys: seq<Range>, p: nat)
    requires !InRanges(xs + ys, p)
    ensures !InRanges(xs, p) && !InRanges(ys, p)
  {
    assert forall x :: x in xs || x in ys ==> x in xs + ys;
  }

  lemma EndBeforeAppend(xs: seq<Range>, ys: seq<Range>, p: nat)
    requires EndBefore(xs, p) && EndBefore(ys, p)
    ensures EndBefore(xs + ys, p)
  {
  }

  predicate StartFrom(xs: seq<Range>, q: nat) {
    xs == [] || q <= xs[0].start
  }

  /** Fences before and after a label, in a text and in the text with the label replaced. */
  predicate Around(t: Text, u: Text, p: nat, a: nat, b: nat, near: seq<Range>, far: seq<Range>, far': seq<Range>) {
    && Spliced(t, u, p, a, b)
    && RangesIn(t, near) && RangesIn(u, near) && EndBefore(near, p)
    && RangesIn(t, far) && RangesIn(u, far') && Moved(far, far', b - a) && StartFrom(far, p + a)
    && RangesIn(t, near + far) && RangesIn(u, near + far')
  }

  lemma AroundDrop(t: Text, u: Text, p: nat, a: nat, b: nat, near: seq<Range>, far: seq<Range>, far': seq<Range>)
    requires Around(t, u, p, a, b, near, far, far') && near != []
    ensures Around(t, u, p, a, b, near[1..], far, far')
    ensures near[0].start < near[0].end <= p
  {
    assert near[0] in near;
    assert forall x :: x in near[1..] ==> x in near;
    assert forall k :: 0 <= k < |near[1..] + far| ==> (near[1..] + far)[k] == (near + far)[k + 1];
    assert forall k :: 0 <= k < |near[1..] + far'| ==> (near[1..] + far')[k] == (near + far')[k + 1];
  }

  lemma {:induction false} DropNear(t: Text, near: seq<Range>, far: seq<Range>, i: nat)
    requires near != [] && near[0].end <= i < |t|
    requires RangesIn(t, near + far) && RangesIn(t, near[1..] + far)
    ensures InlineFrom(t, near + far, i) == InlineFrom(t, near[1..] + far, i)
  {
    InlineDrop(t, near + far, 0, i);
    assert (near + far)[0..] == near + far;
    assert (near + far)[1..] == near[1..] + far;
  }

  /** From the first two units of the label on, the scanner reaches the end of the label. */
  lemma {:induction false} ThroughLabel(t: Text, p: nat, a: nat, fences: seq<Range>, i: nat)
    requires Inert(t, p, a) && RangesIn(t, fences) && StartFrom(fences, p + a) && p <= i <= p + 1
    ensures InlineFrom(t, [] + fences, i) == [] + InlineFrom(t, fences, p + a)
  {
    InlineThrough(t, fences, i, p + a);
    assert [] + fences == fences;
  }

  lemma HereBefore(t: Text, u: Text, p: nat, a: nat, b: nat, near: seq<Range>, far: seq<Range>, far': seq<Range>, i: nat)
    requires Around(t, u, p, a, b, near, far, far') && i < p
    requires !InRanges(InlineHere(t, Limit(t, near + far), i).0, p)
    ensures InlineHere(t, Limit(t, near + far), i) == InlineHere(u, Limit(u, near + far'), i)
    ensures EndBefore(InlineHere(t, Limit(t, near + far), i).0, p) && InlineHere(t, Limit(t, near + far), i).1 <= p + 1
  {
    hide InlineHere, InRanges;
    if near != [] {
      AroundDrop(t, u, p, a, b, near, far, far');
      HereBeforeNear(t, u, p, i, near[0].start);
    } else {
      assert near + far == far && near + far' == far';
      HereBeforeFar(t, u, p, a, b, i, Limit(t, far), Limit(u, far'));
    }
  }

  /** Inline ranges around a label outside code: those before it are the same, the rest starts after it. */
  lemma {:induction false} InlineHead(t: Text, u: Text, p: nat, a: nat, b: nat,
                                      near: seq<Range>, far: seq<Range>, far': seq<Range>, i: nat)
    returns (before: seq<Range>)
    requires Around(t, u, p, a, b, near, far, far') && i <= p + 1
    requires !InRanges(InlineFrom(t, near + far, i), p)
    ensures InlineFrom(t, near + far, i) == before + InlineFrom(t, far, p + a)
    ensures InlineFrom(u, near + far', i) == before + InlineFrom(u, far', p + b)
    ensures EndBefore(before, p)
    decreases p + 1 - i, |near|
  {
    hide InlineFrom, InlineHere, InRanges;
    if near != [] {
      AroundDrop(t, u, p, a, b, near, far, far');
      assert (near + far)[0] == near[0] && (near + far')[0] == near[0];
    }
    if near != [] && near[0].end <= i {
      DropNear(t, near, far, i);
      DropNear(u, near, far', i);
      before := InlineHead(t, u, p, a, b, near[1..], far, far', i);
    } else if i >= p {
      ThroughLabel(t, p, a, far, i);
      ThroughLabel(u, p, b, far', i);
      before := [];
    } else if near != [] && near[0].start <= i {
      InlineSkip(t, near + far, i);
      InlineSkip(u, near + far', i);
      before := InlineHead(t, u, p, a, b, near, far, far', near[0].end);
    } else {
      before := InlineHeadStep(t, u, p, a, b, near, far, far', i);
    }
  }

  lemma InlineHeadStep(t: Text, u: Text, p: nat, a: nat, b: nat,
                       near: seq<Range>, far: seq<Range>, far': seq<Range>, i: nat)
    returns (before: seq<Range>)
    requires Around(t, u, p, a, b, near, far, far') && i < p && (near != [] ==> i < near[0].start)
    requires !InRanges(InlineFrom(t, near + far, i), p)
    ensures InlineFrom(t, near + far, i) == before + InlineFrom(t, far, p + a)
    ensures InlineFrom(u, near + far', i) == before + InlineFrom(u, far', p + b)
    ensures EndBefore(before, p)
    decreases p + 1 - i, |near|, 0
  {
    hide InlineFrom, InlineHere, InRanges, EndBefore, Spliced;
    assert near != [] ==> (near + far)[0] == near[0] && (near + far')[0] == near[0];
    assert p + a <= |t| && p + b <= |u| by { Bounds(t, u, p, a, b); }
    InlineStep(t, near + far, i);
    InlineStep(u, near + far', i);
    var (found, next) := InlineHere(t, Limit(t, near + far), i);
    NotCoveredParts(found, InlineFrom(t, near + far, next), p);
    HereBefore(t, u, p, a, b, near, far, far', i);
    var more := InlineHead(t, u, p, a, b, near, far, far', next);
    EndBeforeAppend(found, more, p);
    before := found + more;
  }

  lemma Bounds(t: Text, u: Text, p: nat, a: nat, b: nat)
    requires Spliced(t, u, p, a, b)
    ensures p + a <= |t| && p + b <= |u|
  {
  }

  /** Positions are covered alike in a text and in the text with the label replaced. */
  ghost predicate SameCover(xs: seq<Range>, us: seq<Range>, p: nat, a: nat, b: nat) {
    && (forall q: nat :: q < p ==> (InRanges(xs, q) <==> InRanges(us, q)))
    && (forall q: nat :: p <= q < p + b ==> !InRanges(us, q))
    && forall q: nat :: p + a <= q ==> (InRanges(xs, q) <==> InRanges(us, q - a + b))
  }

  predicate AllFrom(xs: seq<Range>, q: nat) {
    forall k :: 0 <= k < |xs| ==> q <= xs[k].start
  }

  lemma MovedCover(ys: seq<Range>, zs: seq<Range>, d: int, q: nat, r: nat)
    requires Moved(ys, zs, d) && r == q + d
    ensures InRanges(ys, q) <==> InRanges(zs, r)
  {
    if InRanges(ys, q) {
      var k :| 0 <= k < |ys| && ys[k].start <= q < ys[k].end;
      assert zs[k] in zs;
    }
    if InRanges(zs, r) {
      var k :| 0 <= k < |zs| && zs[k].start <= r < zs[k].end;
      assert ys[k] in ys;
    }
  }

  lemma CoverParts(xs: seq<Range>, ys: seq<Range>, q: nat)
    ensures InRanges(xs + ys, q) <==> InRanges(xs, q) || InRanges(ys, q)
  {
    assert forall x :: x in xs + ys <==> x in xs || x in ys;
    if InRanges(xs, q) {
      var x :| x in xs && x.start <= q < x.end;
      assert x in xs + ys;
    }
    if InRanges(ys, q) {
      var x :| x in ys && x.start <= q < x.end;
      assert x in xs + ys;
    }
  }

  lemma PartsCover(xs: seq<Range>, ys: seq<Range>, zs: seq<Range>, p: nat, a: nat, b: nat)
    requires EndBefore(xs, p) && AllFrom(ys, p + a) && Moved(ys, zs, b - a)
    ensures SameCover(xs + ys, xs + zs, p, a, b)
  {
    hide InRanges;
    forall q: nat ensures InRanges(xs, q) ==> q < p
                  ensures InRanges(ys, q) ==> q >= p + a
                  ensures InRanges(zs, q) ==> q >= p + b
                  ensures InRanges(xs + ys, q) <==> InRanges(xs, q) || InRanges(ys, q)
                  ensures InRanges(xs + zs, q) <==> InRanges(xs, q) || InRanges(zs, q)
                  ensures q >= p + a ==> (InRanges(ys, q) <==> InRanges(zs, q - a + b))
    {
      CoverParts(xs, ys, q);
      CoverParts(xs, zs, q);
      OutsideParts(xs, ys, zs, p, a, b, q);
      if q >= p + a {
        MovedCover(ys, zs, b - a, q, q - a + b);
      }
    }
  }

  lemma OutsideParts(xs: seq<Range>, ys: seq<Range>, zs: seq<Range>, p: nat, a: nat, b: nat, q: nat)
    requires EndBefore(xs, p) && AllFrom(ys, p + a) && Moved(ys, zs, b - a)
    ensures InRanges(xs, q) ==> q < p
    ensures InRanges(ys, q) ==> q >= p + a
    ensures InRanges(zs, q) ==> q >= p + b
  {
    if InRanges(zs, q) {
      var k :| 0 <= k < |zs| && zs[k].start <= q < zs[k].end;
      assert ys[k].start >= p + a;
    }
  }

  lemma StartsAfter(t: Text, fs: seq<Fence>, q: nat)
    requires FencesOk(t, fs) && (fs != [] ==> q <= fs[0].start)
    ensures AllFrom(Outers(fs), q)
  {
    forall k | 0 <= k < |fs| ensures q <= fs[k].start {
      if k > 0 {
        assert fs[0].end <= fs[k].start;
      }
    }
  }

  lemma {:induction false} AfterLineStarts(t: Text, p: nat, a: nat)
    requires Inert(t, p, a)
    ensures LineEnd(t, p) == LineEnd(t, p + a)
    ensures AllFrom(Outers(FencesAfterLine(t, p)), p + a)
    ensures FencesOk(t, FencesAfterLine(t, p))
  {
    hide FencesFrom, LineEnd;
    LineThrough(t, p, p + a);
    var nl := LineEnd(t, p);
    if nl < |t| {
      FencesFromOk(t, nl + 1, None);
      StartsAfter(t, FencesFrom(t, nl + 1, None), nl + 1);
    }
  }

  lemma {:induction false} LineThrough(t: Text, q: nat, end: nat)
    requires q <= end <= |t| && forall k :: q <= k < end ==> t[k] != NEWLINE
    ensures LineEnd(t, q) == LineEnd(t, end)
    decreases end - q
  {
    if q < end {
      LineThrough(t, q + 1, end);
    }
  }

  lemma {:induction false} NextLines(t: Text, u: Text, p: nat, a: nat, b: nat)
    requires Spliced(t, u, p, a, b)
    ensures LineEnd(u, p) == LineEnd(t, p) + b - a
    ensures LineEnd(t, p) < |t| ==> LineEnd(u, p) < |u| && SameTail(t, LineEnd(t, p) + 1, u, LineEnd(u, p) + 1)
    ensures LineEnd(t, p) == |t| ==> LineEnd(u, p) == |u|
  {
    hide LineEnd;
    LineThrough(t, p, p + a);
    LineThrough(u, p, p + b);
    LineEndTail(t, p + a, u, p + b);
  }

  lemma AfterLineMoved(t: Text, u: Text, p: nat, a: nat, b: nat)
    requires Spliced(t, u, p, a, b)
    ensures Moved(Outers(FencesAfterLine(t, p)), Outers(FencesAfterLine(u, p)), b - a)
  {
    hide FencesFrom, LineEnd, Inert, SameHead;
    NextLines(t, u, p, a, b);
    if LineEnd(t, p) < |t| {
      FencesTail(t, u, LineEnd(t, p) + 1, LineEnd(u, p) + 1, None, None, b - a);
    }
  }

  /** The fences of the two texts are a common part before the label and moved parts after its line. */
  lemma FenceParts(t: Text, u: Text, p: nat, a: nat, b: nat) returns (near: seq<Range>, far: seq<Range>, far': seq<Range>)
    requires Spliced(t, u, p, a, b) && !InRanges(Outers(Fences(t)), p)
    ensures Outers(Fences(t)) == near + far && Outers(Fences(u)) == near + far'
    ensures Around(t, u, p, a, b, near, far, far') && AllFrom(far, p + a)
  {
    hide FencesFrom, FencesAfterLine;
    var before := FencesHead(t, u, p, 0, None);
    var after, after' := FencesAfterLine(t, p), FencesAfterLine(u, p);
    OutersConcat(before, after);
    OutersConcat(before, after');
    near, far, far' := Outers(before), Outers(after), Outers(after');
    AfterLineMoved(t, u, p, a, b);
    AfterLineStarts(t, p, a);
    AfterLineStarts(u, p, b);
    FencesAreOrdered(t);
    FencesAreOrdered(u);
    RangesParts(t, near, far);
    RangesParts(u, near, far');
  }

  lemma RangesParts(t: Text, near: seq<Range>, far: seq<Range>)
    requires RangesIn(t, near + far)
    ensures RangesIn(t, near) && RangesIn(t, far)
  {
    assert forall k :: 0 <= k < |near| ==> near[k] == (near + far)[k];
    assert forall k :: 0 <= k < |far| ==> far[k] == (near + far)[k + |near|];
  }

  lemma CodeCover(t: Text, q: nat)
    ensures InRanges(Code(t), q) <==>
            InRanges(Outers(Fences(t)), q) || (RangesIn(t, Outers(Fences(t))) && InRanges(Inline(t, Outers(Fences(t))), q))
  {
    InlineRangesAreSpans(t);
    CoverParts(Outers(Fences(t)), Inline(t, Outers(Fences(t))), q);
  }

  /** Where a label outside code is replaced by labels, every other position stays inside or outside code. */
  lemma CodeMoves(t: Text, u: Text, p: nat, a: nat, b: nat)
    requires Spliced(t, u, p, a, b) && !InRanges(Code(t), p)
    ensures SameCover(Code(t), Code(u), p, a, b)
  {
    hide Fences, Code, InRanges, InlineFrom, Spliced, Around;
    CodeCover(t, p);
    var near, far, far' := FenceParts(t, u, p, a, b);
    assert RangesIn(t, near + far) && RangesIn(u, near + far') by { AroundIn(t, u, p, a, b, near, far, far'); }
    assert RangesIn(t, far) && RangesIn(u, far') && EndBefore(near, p) && Moved(far, far', b - a)
      by { AroundIn(t, u, p, a, b, near, far, far'); }
    var before := InlineHead(t, u, p, a, b, near, far, far', 0);
    PartsCover(near, far, far', p, a, b);
    InlineFar(t, u, p, a, b, far, far', near);
    PartsCover(before, InlineFrom(t, far, p + a), InlineFrom(u, far', p + b), p, a, b);
    forall q: nat ensures InRanges(Code(t), q) <==>
                            InRanges(near + far, q) || InRanges(InlineFrom(t, near + far, 0), q) {
      CodeCover(t, q);
    }
    forall q: nat ensures InRanges(Code(u), q) <==>
                            InRanges(near + far', q) || InRanges(InlineFrom(u, near + far', 0), q) {
      CodeCover(u, q);
    }
  }

  lemma AroundIn(t: Text, u: Text, p: nat, a: nat, b: nat, near: seq<Range>, far: seq<Range>, far': seq<Range>)
    requires Around(t, u, p, a, b, near, far, far')
    ensures RangesIn(t, near + far) && RangesIn(u, near + far') && RangesIn(t, far) && RangesIn(u, far')
    ensures EndBefore(near, p) && Moved(far, far', b - a) && p + a <= |t| && p + b <= |u|
  {
  }

  lemma LaterFences(t: Text, near: seq<Range>, far: seq<Range>)
    requires FencesAtLineStarts(t, near + far)
    ensures FencesAtLineStarts(t, far)
  {
    assert forall k :: 0 <= k < |far| ==> far[k] == (near + far)[k + |near|];
  }

  lemma {:induction false} InlineFar(t: Text, u: Text, p: nat, a: nat, b: nat, far: seq<Range>, far': seq<Range>, near: seq<Range>)
    requires Around(t, u, p, a, b, near, far, far')
    requires near + far == Outers(Fences(t))
    ensures AllFrom(InlineFrom(t, far, p + a), p + a)
    ensures Moved(InlineFrom(t, far, p + a), InlineFrom(u, far', p + b), b - a)
  {
    hide InlineFrom, Fences, CodeSpan, FencesAtLineStarts;
    InlineTail(t, u, far, far', p + a, p + b, b - a);
    InlineRangesAreSpans(t);
    LaterFences(t, near, far);
    InlineFromOk(t, far, p + a);
  }
}
