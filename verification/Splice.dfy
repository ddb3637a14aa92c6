/**
 * Replacing a label outside code by other labels moves the code ranges and changes none of them
 * (src/code-ranges.ts under the rewriting of src/citations.ts).
 */
module Splice {
  import opened Text
  import opened CodeRanges

  /** The two texts agree from `q` and `r` on. */
  predicate SameTail(t: Text, q: nat, u: Text, r: nat) {
    && q <= |t| && r <= |u| && |t| - q == |u| - r
    && forall k :: q <= k < |t| ==> t[k] == u[k - q + r]
  }

  /** The same ranges, moved by `d`. */
  predicate Moved(xs: seq<Range>, ys: seq<Range>, d: int) {
    && |xs| == |ys|
    && forall k :: 0 <= k < |xs| ==> ys[k].start == xs[k].start + d && ys[k].end == xs[k].end + d
  }

  lemma MovedConcat(xs: seq<Range>, ys: seq<Range>, xs': seq<Range>, ys': seq<Range>, d: int)
    requires Moved(xs, ys, d) && Moved(xs', ys', d)
    ensures Moved(xs + xs', ys + ys', d)
  {
  }

  // ---------------------------------------------------------------- common tails

  lemma {:induction false} LineEndTail(t: Text, q: nat, u: Text, r: nat)
    requires SameTail(t, q, u, r)
    ensures LineEnd(u, r) - r == LineEnd(t, q) - q
    decreases |t| - q
  {
    if q < |t| && t[q] != NEWLINE {
      LineEndTail(t, q + 1, u, r + 1);
    }
  }

  predicate MovedOpen(open: Option<OpenFence>, open': Option<OpenFence>, d: int) {
    && open.Some? == open'.Some?
    && (open.Some? ==> && open'.value.opener == open.value.opener
                       && open'.value.start == open.value.start + d)
  }

  lemma FenceLineTail(line: Text, q: nat, r: nat, nl: nat, ml: nat, open: Option<OpenFence>, open': Option<OpenFence>, d: int)
    requires r == q + d && ml == nl + d && MovedOpen(open, open', d)
    ensures Moved(Outers(FenceLine(line, q, nl, open).0), Outers(FenceLine(line, r, ml, open').0), d)
    ensures MovedOpen(FenceLine(line, q, nl, open).1, FenceLine(line, r, ml, open').1, d)
  {
    hide FenceOpener, Closes;
  }

  lemma OutersConcat(xs: seq<Fence>, ys: seq<Fence>)
    ensures Outers(xs + ys) == Outers(xs) + Outers(ys)
  {
  }

  /** The outer ranges found from a common tail are moved copies. */
  lemma {:induction false} FencesTail(t: Text, u: Text, q: nat, r: nat, open: Option<OpenFence>, open': Option<OpenFence>, d: int)
    requires SameTail(t, q, u, r) && r == q + d && MovedOpen(open, open', d)
    ensures Moved(Outers(FencesFrom(t, q, open)), Outers(FencesFrom(u, r, open')), d)
    decreases |t| - q
  {
    hide FenceLine, FencesFrom, LineEnd;
    LineEndTail(t, q, u, r);
    var nl, ml := LineEnd(t, q), LineEnd(u, r);
    assert t[q..nl] == u[r..ml];
    FencesFromStep(t, q, open);
    FencesFromStep(u, r, open');
    var end := if nl < |t| then nl + 1 else nl;
    var end' := if ml < |u| then ml + 1 else ml;
    FenceLineTail(t[q..nl], q, r, end, end', open, open', d);
    var (done, next) := FenceLine(t[q..nl], q, end, open);
    var (done', next') := FenceLine(t[q..nl], r, end', open');
    var rest := if nl < |t| then FencesFrom(t, end, next) else Unclosed(t, next);
    var rest' := if ml < |u| then FencesFrom(u, end', next') else Unclosed(u, next');
    if nl < |t| {
      FencesTail(t, u, end, end', next, next', d);
    }
    OutersConcat(done, rest);
    OutersConcat(done', rest');
    MovedConcat(Outers(done), Outers(done'), Outers(rest), Outers(rest'), d);
  }

  lemma {:induction false} RunTail(t: Text, q: nat, u: Text, r: nat)
    requires SameTail(t, q, u, r)
    ensures RunLength(u, r, TICK) == RunLength(t, q, TICK)
    decreases |t| - q
  {
    if q < |t| && t[q] == TICK {
      RunTail(t, q + 1, u, r + 1);
    }
  }

  lemma {:induction false} FindCloseTail(t: Text, q: nat, u: Text, r: nat, limit: nat, end: nat, n: nat, d: int)
    requires SameTail(t, q, u, r) && limit <= |t| && r == q + d && end == limit + d
    ensures FindClose(u, r, end, n).None? <==> FindClose(t, q, limit, n).None?
    ensures FindClose(t, q, limit, n).Some? ==> FindClose(u, r, end, n).value == FindClose(t, q, limit, n).value + d
    decreases |t| - q
  {
    hide FindClose, RunLength;
    if q >= limit {
      FindCloseEnd(t, q, limit, n);
      FindCloseEnd(u, r, end, n);
    } else {
      FindCloseStep(t, q, limit, n);
      FindCloseStep(u, r, end, n);
      RunTail(t, q, u, r);
      var m := if t[q] == TICK then RunLength(t, q, TICK) else 1;
      if t[q] != TICK || m != n {
        FindCloseTail(t, q + m, u, r + m, limit, end, n, d);
      }
    }
  }

  lemma InlineHereTail(t: Text, u: Text, limit: nat, limit': nat, i: nat, j: nat, d: int)
    requires i < |t| && SameTail(t, i, u, j) && j == i + d && limit <= |t| && limit' == limit + d
    ensures limit' <= |u|
    ensures InlineHere(u, limit', j).1 == InlineHere(t, limit, i).1 + d
    ensures Moved(InlineHere(t, limit, i).0, InlineHere(u, limit', j).0, d)
  {
    hide FindClose, RunLength;
    assert t[i] == u[j];
    if t[i] == TICK {
      RunTail(t, i, u, j);
      var n := RunLength(t, i, TICK);
      FindCloseTail(t, i + n, u, j + n, limit, limit', n, d);
    }
  }

  lemma {:induction false} InlineTail(t: Text, u: Text, fences: seq<Range>, fences': seq<Range>, i: nat, j: nat, d: int)
    requires |t| + d == |u| && j == i + d && (i <= |t| ==> SameTail(t, i, u, j))
    requires RangesIn(t, fences) && RangesIn(u, fences') && Moved(fences, fences', d)
    ensures Moved(InlineFrom(t, fences, i), InlineFrom(u, fences', j), d)
    decreases |t| + 1 - i, |fences|
  {
    hide InlineHere, InlineFrom;
    if i >= |t| {
      InlineDone(t, fences, i);
      InlineDone(u, fences', j);
    } else if fences != [] && fences[0].end <= i {
      InlineDrop(t, fences, 0, i);
      InlineDrop(u, fences', 0, j);
      assert fences[0..] == fences && fences'[0..] == fences';
      InlineTail(t, u, fences[1..], fences'[1..], i, j, d);
    } else if fences != [] && fences[0].start <= i {
      InlineSkip(t, fences, i);
      InlineSkip(u, fences', j);
      InlineTail(t, u, fences, fences', fences[0].end, fences'[0].end, d);
    } else {
      InlineStep(t, fences, i);
      InlineStep(u, fences', j);
      InlineHereTail(t, u, Limit(t, fences), Limit(u, fences'), i, j, d);
      var (found, next) := InlineHere(t, Limit(t, fences), i);
      var (found', next') := InlineHere(u, Limit(u, fences'), j);
      InlineTail(t, u, fences, fences', next, next', d);
      MovedConcat(found, found', InlineFrom(t, fences, next), InlineFrom(u, fences', next'), d);
    }
  }

  // ---------------------------------------------------------------- the text before the label

  /** A stretch that starts with a bracket and holds no newline, backtick or backslash. */
  predicate Inert(t: Text, p: nat, n: nat) {
    && p + n <= |t| && n > 1 && t[p] == OPEN_BRACKET
    && forall k :: p <= k < p + n ==> t[k] != NEWLINE && t[k] != TICK && t[k] != BACKSLASH
  }

  predicate SameHead(t: Text, u: Text, p: nat) {
    p <= |t| && p <= |u| && forall k :: 0 <= k < p ==> t[k] == u[k]
  }

  /** `t` and `u` agree except that the inert stretch of length `a` at `p` became one of length `b`. */
  predicate Spliced(t: Text, u: Text, p: nat, a: nat, b: nat) {
    Inert(t, p, a) && Inert(u, p, b) && SameHead(t, u, p) && SameTail(t, p + a, u, p + b)
  }

  predicate EndBefore(xs: seq<Range>, p: nat) {
    forall x :: x in xs ==> x.end <= p
  }

  lemma {:induction false} LineEndHead(t: Text, u: Text, p: nat, pos: nat)
    requires SameHead(t, u, p) && pos <= p
    ensures LineEnd(t, pos) < p ==> LineEnd(u, pos) == LineEnd(t, pos)
    ensures LineEnd(t, pos) >= p ==> LineEnd(t, pos) == LineEnd(t, p) && LineEnd(u, pos) == LineEnd(u, p)
    decreases p - pos
  {
    if pos < p && t[pos] != NEWLINE {
      LineEndHead(t, u, p, pos + 1);
    }
  }

  /** An open fence covers at least the rest of its line. */
  lemma {:induction false} OpenCovers(t: Text, pos: nat, open: Option<OpenFence>)
    requires pos <= |t| && LineStart(t, pos) && open.Some? && OpenOk(t, pos, open)
    ensures FencesFrom(t, pos, open) != []
    ensures FencesFrom(t, pos, open)[0].start == open.value.start
    ensures FencesFrom(t, pos, open)[0].end >= LineEnd(t, pos)
    ensures LineEnd(t, pos) < |t| ==> FencesFrom(t, pos, open)[0].end > LineEnd(t, pos)
    decreases |t| - pos
  {
    hide FencesFrom, Closes, LineEnd;
    FencesFromStep(t, pos, open);
    var nl := LineEnd(t, pos);
    if nl < |t| && !Closes(t[pos..nl], open.value.opener) {
      OpenCovers(t, nl + 1, open);
      assert [] + FencesFrom(t, nl + 1, open) == FencesFrom(t, nl + 1, open);
    }
  }

  /** A fence opener has to be complete before a bracket. */
  lemma OpenerBeforeBracket(line: Text, q: nat)
    requires q < |line| && line[q] == OPEN_BRACKET
    ensures FenceOpener(line) == FenceOpener(line[..q])
  {
    var head := line[..q];
    var k := RunLength(head, 0, SPACE);
    RunLengthUnique(line, 0, SPACE, k);
    if k < q {
      var mark := line[k];
      if mark == TICK || mark == TILDE {
        RunLengthUnique(line, k, mark, RunLength(head, k, mark));
      }
    }
  }

  /** The fences that follow the line of position `p` when no fence is open there. */
  function FencesAfterLine(t: Text, p: nat): seq<Fence>
    requires p <= |t|
  {
    if LineEnd(t, p) < |t| then FencesFrom(t, LineEnd(t, p) + 1, None) else []
  }

  /** Only the part of a line before a bracket decides whether it opens a fence. */
  lemma {:induction false} LineOpener(t: Text, pos: nat, p: nat)
    requires pos <= p < |t| && t[p] == OPEN_BRACKET && LineEnd(t, pos) == LineEnd(t, p)
    ensures p < LineEnd(t, pos)
    ensures FenceOpener(t[pos..LineEnd(t, pos)]) == FenceOpener(t[pos..p])
  {
    hide FenceOpener, LineEnd;
    var nl := LineEnd(t, pos);
    assert p < nl;
    OpenerBeforeBracket(t[pos..nl], p - pos);
    assert t[pos..nl][..p - pos] == t[pos..p];
  }

  /** On a line that opens no fence the scanner just moves on. */
  lemma {:induction false} PlainLine(t: Text, pos: nat, p: nat)
    requires pos <= p < |t| && t[p] == OPEN_BRACKET && LineEnd(t, pos) == LineEnd(t, p)
    requires FenceOpener(t[pos..p]).None?
    ensures FencesFrom(t, pos, None) == FencesAfterLine(t, p)
  {
    hide FencesFrom, FenceOpener, LineEnd;
    FencesFromStep(t, pos, None);
    LineOpener(t, pos, p);
    assert [] + FencesAfterLine(t, p) == FencesAfterLine(t, p);
  }

  lemma FirstCovers(fs: seq<Fence>, p: nat)
    requires fs != [] && fs[0].start <= p < fs[0].end
    ensures InRanges(Outers(fs), p)
  {
    assert Outers(fs)[0] in Outers(fs);
  }

  /** A line that opens a fence is covered by it. */
  lemma {:induction false} OpenerCovers(t: Text, pos: nat, p: nat)
    requires pos <= |t| && LineStart(t, pos) && pos <= p < LineEnd(t, pos)
    requires FenceOpener(t[pos..LineEnd(t, pos)]).Some?
    ensures InRanges(Outers(FencesFrom(t, pos, None)), p)
  {
    hide FencesFrom, FenceOpener, LineEnd;
    var nl := LineEnd(t, pos);
    FencesFromStep(t, pos, None);
    if nl < |t| {
      var begun := Some(OpenFence(FenceOpener(t[pos..nl]).value, pos, nl + 1));
      OpenCovers(t, nl + 1, begun);
      assert [] + FencesFrom(t, nl + 1, begun) == FencesFrom(t, nl + 1, begun);
    }
    FirstCovers(FencesFrom(t, pos, None), p);
  }

  /** A line that holds a bracket outside every fence is not in a fence and opens none. */
  lemma {:induction false} LabelLine(t: Text, pos: nat, p: nat, open: Option<OpenFence>)
    requires pos <= p < |t| && t[p] == OPEN_BRACKET && LineEnd(t, pos) == LineEnd(t, p)
    requires LineStart(t, pos) && OpenOk(t, pos, open)
    requires !InRanges(Outers(FencesFrom(t, pos, open)), p)
    ensures open.None? && FenceOpener(t[pos..p]).None?
  {
    hide FencesFrom, FenceOpener, LineEnd, InRanges, LineStart;
    LineOpener(t, pos, p);
    if open.Some? {
      OpenCovers(t, pos, open);
      FirstCovers(FencesFrom(t, pos, open), p);
    } else if FenceOpener(t[pos..p]).Some? {
      OpenerCovers(t, pos, p);
    }
  }

  lemma HeadStep(t: Text, u: Text, p: nat, pos: nat, open: Option<OpenFence>) returns (done: seq<Fence>, next: Option<OpenFence>)
    requires SameHead(t, u, p) && p < |t| && p < |u|
    requires pos <= p && LineEnd(t, pos) < p && LineStart(t, pos) && OpenOk(t, pos, open)
    ensures var at := LineEnd(t, pos) + 1;
            && LineStart(t, at) && OpenOk(t, at, next)
            && FencesFrom(t, pos, open) == done + FencesFrom(t, at, next)
            && FencesFrom(u, pos, open) == done + FencesFrom(u, at, next)
            && EndBefore(Outers(done), p)
  {
    hide FencesFrom, FenceLine, LineEnd;
    var nl := LineEnd(t, pos);
    LineEndHead(t, u, p, pos);
    FencesFromStep(t, pos, open);
    FencesFromStep(u, pos, open);
    assert t[pos..nl] == u[pos..nl];
    FenceLineOk(t, pos, nl, nl + 1, open);
    done, next := FenceLine(t[pos..nl], pos, nl + 1, open).0, FenceLine(t[pos..nl], pos, nl + 1, open).1;
  }

  lemma CoveredConcat(xs: seq<Fence>, ys: seq<Fence>, p: nat)
    requires !InRanges(Outers(xs + ys), p)
    ensures !InRanges(Outers(ys), p)
  {
    OutersConcat(xs, ys);
  }

  lemma EndBeforeConcat(xs: seq<Fence>, ys: seq<Fence>, p: nat)
    requires EndBefore(Outers(xs), p) && EndBefore(Outers(ys), p)
    ensures EndBefore(Outers(xs + ys), p)
  {
    OutersConcat(xs, ys);
  }

  /** Fences around a label outside code: the earlier ones end before it, the later ones start after its line. */
  lemma {:induction false} FencesHead(t: Text, u: Text, p: nat, pos: nat, open: Option<OpenFence>)
    returns (before: seq<Fence>)
    requires SameHead(t, u, p) && p < |t| && p < |u| && t[p] == OPEN_BRACKET && u[p] == OPEN_BRACKET
    requires pos <= p && LineStart(t, pos) && OpenOk(t, pos, open)
    requires !InRanges(Outers(FencesFrom(t, pos, open)), p)
    ensures FencesFrom(t, pos, open) == before + FencesAfterLine(t, p)
    ensures FencesFrom(u, pos, open) == before + FencesAfterLine(u, p)
    ensures EndBefore(Outers(before), p)
    decreases p - pos
  {
    hide FencesFrom, FenceOpener, LineEnd, FencesAfterLine, InRanges, EndBefore, OpenOk;
    LineEndHead(t, u, p, pos);
    var nl := LineEnd(t, pos);
    if nl < p {
      var done, next := HeadStep(t, u, p, pos, open);
      CoveredConcat(done, FencesFrom(t, nl + 1, next), p);
      var more := FencesHead(t, u, p, nl + 1, next);
      EndBeforeConcat(done, more, p);
      before := done + more;
    } else {
      LabelLine(t, pos, p, open);
      assert t[pos..p] == u[pos..p];
      PlainLine(t, pos, p);
      PlainLine(u, pos, p);
      before := [];
      assert EndBefore(Outers(before), p) by { EndBeforeNone(p); }
    }
  }

  lemma EndBeforeNone(p: nat)
    ensures EndBefore(Outers([]), p)
  {
  }

  lemma {:induction false} RunHead(t: Text, u: Text, p: nat, i: nat)
    requires SameHead(t, u, p) && i <= p && p < |t| && p < |u| && t[p] != TICK && u[p] != TICK
    ensures RunLength(t, i, TICK) == RunLength(u, i, TICK)
    ensures i + RunLength(t, i, TICK) <= p
    decreases p - i
  {
    if i < p && t[i] == TICK {
      RunHead(t, u, p, i + 1);
    }
  }

  lemma {:induction false} FindCloseHead(t: Text, u: Text, p: nat, j: nat, limit: nat, n: nat)
    requires SameHead(t, u, p) && j <= p && limit <= p && p < |t| && p < |u| && t[p] != TICK && u[p] != TICK
    ensures FindClose(t, j, limit, n) == FindClose(u, j, limit, n)
    ensures FindClose(t, j, limit, n).Some? ==> FindClose(t, j, limit, n).value + n <= p
    decreases p - j
  {
    hide FindClose, RunLength;
    if j >= limit {
      FindCloseEnd(t, j, limit, n);
      FindCloseEnd(u, j, limit, n);
    } else {
      FindCloseStep(t, j, limit, n);
      FindCloseStep(u, j, limit, n);
      RunHead(t, u, p, j);
      var m := if t[j] == TICK then RunLength(t, j, TICK) else 1;
      if t[j] != TICK || m != n {
        FindCloseHead(t, u, p, j + m, limit, n);
      }
    }
  }

  /** A search stops before the bracket or goes on from it. */
  lemma {:induction false} FindCloseSplit(t: Text, p: nat, j: nat, limit: nat, n: nat)
    requires j <= p < limit <= |t| && t[p] != TICK
    ensures FindClose(t, j, limit, n) ==
            if FindClose(t, j, p, n).Some? then FindClose(t, j, p, n) else FindClose(t, p, limit, n)
    decreases p - j
  {
    hide FindClose, RunLength;
    if j == p {
      FindCloseEnd(t, j, p, n);
    } else {
      FindCloseStep(t, j, limit, n);
      FindCloseStep(t, j, p, n);
      var m := if t[j] == TICK then RunLength(t, j, TICK) else 1;
      assert j + m <= p;
      if t[j] != TICK || m != n {
        FindCloseSplit(t, p, j + m, limit, n);
      }
    }
  }

  /** A search passes through a label without stopping. */
  lemma {:induction false} FindCloseThrough(t: Text, q: nat, end: nat, limit: nat, n: nat)
    requires q <= end <= limit <= |t| && forall k :: q <= k < end ==> t[k] != TICK
    ensures FindClose(t, q, limit, n) == FindClose(t, end, limit, n)
    decreases end - q
  {
    hide FindClose;
    if q < end {
      FindCloseStep(t, q, limit, n);
      FindCloseThrough(t, q + 1, end, limit, n);
    }
  }

  /** The scanner passes through a label one unit at a time. */
  lemma {:induction false} InlineThrough(t: Text, fences: seq<Range>, q: nat, end: nat)
    requires q <= end <= |t| && RangesIn(t, fences) && (fences != [] ==> end <= fences[0].start)
    requires forall k :: q <= k < end ==> t[k] != TICK && t[k] != BACKSLASH
    ensures InlineFrom(t, fences, q) == InlineFrom(t, fences, end)
    decreases end - q
  {
    hide InlineFrom, FindClose;
    if q < end {
      InlineStep(t, fences, q);
      InlineThrough(t, fences, q + 1, end);
      assert [] + InlineFrom(t, fences, q + 1) == InlineFrom(t, fences, q + 1);
    }
  }

  /** One scanner position before the label, when a fence before the label limits the search. */
  lemma HereBeforeNear(t: Text, u: Text, p: nat, i: nat, limit: nat)
    requires SameHead(t, u, p) && i < p && limit <= p && p < |t| && p < |u| && t[p] != TICK && u[p] != TICK
    ensures InlineHere(t, limit, i) == InlineHere(u, limit, i)
    ensures EndBefore(InlineHere(t, limit, i).0, p) && InlineHere(t, limit, i).1 <= p + 1
  {
    hide FindClose, RunLength;
    if t[i] == TICK {
      RunHead(t, u, p, i);
      FindCloseHead(t, u, p, i + RunLength(t, i, TICK), limit, RunLength(t, i, TICK));
    }
  }

  /** The search for a close in the two texts, when nothing limits it before the label. */
  lemma {:induction false} CloseAcross(t: Text, u: Text, p: nat, a: nat, b: nat, j: nat, limit: nat, limit': nat, n: nat)
    requires Spliced(t, u, p, a, b) && j <= p && p + a <= limit <= |t| && limit' == limit - a + b
    ensures FindClose(t, j, limit, n).Some? && FindClose(t, j, limit, n).value < p ==>
              FindClose(u, j, limit', n) == FindClose(t, j, limit, n) && FindClose(t, j, limit, n).value + n <= p
    ensures FindClose(t, j, limit, n).None? ==> FindClose(u, j, limit', n).None?
  {
    hide FindClose, RunLength;
    FindCloseSplit(t, p, j, limit, n);
    FindCloseSplit(u, p, j, limit', n);
    FindCloseHead(t, u, p, j, p, n);
    FindCloseThrough(t, p, p + a, limit, n);
    FindCloseThrough(u, p, p + b, limit', n);
    FindCloseTail(t, p + a, u, p + b, limit, limit', n, b - a);
  }

  /** One scanner position before a label that no code covers, when nothing limits it before the label. */
  lemma HereBeforeFar(t: Text, u: Text, p: nat, a: nat, b: nat, i: nat, limit: nat, limit': nat)
    requires Spliced(t, u, p, a, b) && i < p && p + a <= limit <= |t| && limit' == limit - a + b
    requires !InRanges(InlineHere(t, limit, i).0, p)
    ensures limit' <= |u| && InlineHere(t, limit, i) == InlineHere(u, limit', i)
    ensures EndBefore(InlineHere(t, limit, i).0, p) && InlineHere(t, limit, i).1 <= p + 1
  {
    hide FindClose, RunLength;
    if t[i] == TICK {
      RunHead(t, u, p, i);
      var n := RunLength(t, i, TICK);
      CloseAcross(t, u, p, a, b, i + n, limit, limit', n);
    }
  }
}
