/** Fenced and inline code ranges of an answer (src/code-ranges.ts). */
module CodeRanges {
  import opened Text

  /** A half-open range of UTF-16 positions. */
  datatype Range = Range(start: nat, end: nat)

  datatype Fence = Fence(start: nat, end: nat, contentStart: nat, contentEnd: nat, closed: bool)
  {
    function Outer(): Range { Range(start, end) }
  }

  datatype Opener = Opener(mark: Unit, count: nat)
  datatype OpenFence = OpenFence(opener: Opener, start: nat, contentStart: nat)

  // ---------------------------------------------------------------- fences

  /** At most three spaces and a run of at least three backticks or tildes. */
  function FenceOpener(line: Text): (o: Option<Opener>)
    ensures o.Some? ==> o.value.count >= 3 && |line| >= 3
  {
    var k := RunLength(line, 0, SPACE);
    if k > 3 || k == |line| || (line[k] != TICK && line[k] != TILDE) then None
    else
      var n := RunLength(line, k, line[k]);
      if n < 3 then None else Some(Opener(line[k], n))
  }

  /** The trimmed line is a run of the opener's mark that is at least as long as the opener. */
  predicate Closes(line: Text, opener: Opener) {
    var body := Trim(line);
    |body| >= opener.count && forall k :: 0 <= k < |body| ==> body[k] == opener.mark
  }

  /** Position of the first newline at or after `pos`, or the end of the text. */
  function LineEnd(text: Text, pos: nat): (nl: nat)
    requires pos <= |text|
    ensures pos <= nl <= |text|
    ensures nl < |text| ==> text[nl] == NEWLINE
    ensures forall k :: pos <= k < nl ==> text[k] != NEWLINE
    decreases |text| - pos
  {
    if pos == |text| || text[pos] == NEWLINE then pos else LineEnd(text, pos + 1)
  }

  /** State of the fence scanner after one line, and the range the line completes. */
  function FenceLine(line: Text, pos: nat, lineEnd: nat, open: Option<OpenFence>): (seq<Fence>, Option<OpenFence>) {
    match open
    case None =>
      var o := FenceOpener(line);
      ([], if o.Some? then Some(OpenFence(o.value, pos, lineEnd)) else None)
    case Some(f) =>
      if Closes(line, f.opener) then ([Fence(f.start, lineEnd, f.contentStart, pos, true)], None)
      else ([], open)
  }

  /** A fence that is still open at the end of the text covers the rest of it. */
  function Unclosed(text: Text, open: Option<OpenFence>): seq<Fence> {
    if open.None? then [] else [Fence(open.value.start, |text|, open.value.contentStart, |text|, false)]
  }

  function FencesFrom(text: Text, pos: nat, open: Option<OpenFence>): seq<Fence>
    requires pos <= |text|
    decreases |text| - pos
  {
    var nl := LineEnd(text, pos);
    if nl == |text| then
      var (done, open') := FenceLine(text[pos..nl], pos, nl, open);
      done + Unclosed(text, open')
    else
      var (done, open') := FenceLine(text[pos..nl], pos, nl + 1, open);
      done + FencesFrom(text, nl + 1, open')
  }

  function Fences(text: Text): seq<Fence> { FencesFrom(text, 0, None) }

  function Outers(fences: seq<Fence>): (r: seq<Range>)
    ensures |r| == |fences| && forall k :: 0 <= k < |r| ==> r[k] == fences[k].Outer()
  {
    seq(|fences|, k requires 0 <= k < |fences| => fences[k].Outer())
  }

  lemma FencesFromStep(text: Text, pos: nat, open: Option<OpenFence>)
    requires pos <= |text|
    ensures var nl := LineEnd(text, pos);
            var next := if nl < |text| then nl + 1 else nl;
            var (done, open') := FenceLine(text[pos..nl], pos, next, open);
            FencesFrom(text, pos, open) ==
              done + if nl < |text| then FencesFrom(text, next, open') else Unclosed(text, open')
  {
    hide FenceLine, LineEnd, Unclosed;
  }

  method FencedCodeRanges(text: Text) returns (ranges: seq<Fence>)
    ensures ranges == Fences(text)
  {
    hide Closes, FenceOpener, FencesFrom, LineEnd, Unclosed;
    ranges := [];
    var open: Option<OpenFence> := None;
    var pos, more := 0, true;
    while more
      invariant more ==> pos <= |text| && ranges + FencesFrom(text, pos, open) == Fences(text)
      invariant !more ==> ranges + Unclosed(text, open) == Fences(text)
      decreases more, |text| - pos
    {
      var nl := LineEnd(text, pos);
      var lineEnd := if nl < |text| then nl + 1 else nl;
      ghost var was, before := open, ranges;
      FencesFromStep(text, pos, open);
      if open.None? {
        var o := FenceOpener(text[pos..nl]);
        if o.Some? {
          open := Some(OpenFence(o.value, pos, lineEnd));
        }
      } else if Closes(text[pos..nl], open.value.opener) {
        ranges := ranges + [Fence(open.value.start, lineEnd, open.value.contentStart, pos, true)];
        open := None;
      }
      assert ranges == before + FenceLine(text[pos..nl], pos, lineEnd, was).0;
      assert open == FenceLine(text[pos..nl], pos, lineEnd, was).1;
      more, pos := nl < |text|, lineEnd;
    }
    ranges := ranges + Unclosed(text, open);
  }

  predicate LineStart(text: Text, pos: nat) {
    pos <= |text| && (pos == 0 || text[pos - 1] == NEWLINE)
  }

  /** Ordered, disjoint, non-empty ranges inside the text that start at line starts. */
  predicate FencesOk(text: Text, fences: seq<Fence>) {
    && (forall k :: 0 <= k < |fences| ==>
          && fences[k].start < fences[k].end <= |text|
          && LineStart(text, fences[k].start)
          && fences[k].start < fences[k].contentStart <= fences[k].contentEnd <= fences[k].end)
    && forall j, k :: 0 <= j < k < |fences| ==> fences[j].end <= fences[k].start
  }

  predicate OpenOk(text: Text, pos: nat, open: Option<OpenFence>) {
    open.None? ||
    (open.value.start < open.value.contentStart <= pos && LineStart(text, open.value.start))
  }

  lemma FencesOkCons(text: Text, f: Fence, rest: seq<Fence>)
    requires FencesOk(text, [f]) && FencesOk(text, rest)
    requires rest != [] ==> f.end <= rest[0].start
    ensures FencesOk(text, [f] + rest)
  {
    forall k | 0 <= k < |rest| ensures f.end <= rest[k].start {
      if k > 0 {
        assert rest[0].end <= rest[k].start;
      }
    }
  }

  /** What FencesFromOk says of the ranges that follow `pos`. */
  predicate FencesAfter(text: Text, pos: nat, open: Option<OpenFence>, fences: seq<Fence>) {
    && FencesOk(text, fences)
    && (fences != [] ==> if open.None? then fences[0].start >= pos else fences[0].start == open.value.start)
  }

  lemma FenceLineOk(text: Text, pos: nat, nl: nat, next: nat, open: Option<OpenFence>)
    requires pos <= nl <= next <= |text| && LineStart(text, pos) && OpenOk(text, pos, open)
    requires pos < nl ==> pos < next
    ensures var (done, open') := FenceLine(text[pos..nl], pos, next, open);
            && OpenOk(text, next, open')
            && (open'.Some? ==> open'.value.start == if open.Some? then open.value.start else pos)
            && (done == [] && open.Some? ==> open'.Some?)
            && (done == [] || (open.Some? && open'.None? && |done| == 1 && FencesOk(text, done)
                               && done[0].start == open.value.start && done[0].end == next))
  {
    hide FenceOpener, Closes, RunLength;
  }

  lemma LastLineOk(text: Text, pos: nat, open: Option<OpenFence>)
    requires pos <= |text| && LineStart(text, pos) && OpenOk(text, pos, open)
    ensures var (done, open') := FenceLine(text[pos..], pos, |text|, open);
            FencesAfter(text, pos, open, done + Unclosed(text, open'))
  {
    hide FenceOpener, Closes;
    assert text[pos..|text|] == text[pos..];
    FenceLineOk(text, pos, |text|, |text|, open);
  }

  lemma {:induction false} FencesFromOk(text: Text, pos: nat, open: Option<OpenFence>)
    requires pos <= |text| && LineStart(text, pos) && OpenOk(text, pos, open)
    ensures FencesAfter(text, pos, open, FencesFrom(text, pos, open))
    decreases |text| - pos
  {
    hide FenceLine, OpenOk, FencesOk;
    var nl := LineEnd(text, pos);
    if nl < |text| {
      FenceLineOk(text, pos, nl, nl + 1, open);
      var (done, open') := FenceLine(text[pos..nl], pos, nl + 1, open);
      FencesFromOk(text, nl + 1, open');
      var rest := FencesFrom(text, nl + 1, open');
      if done != [] {
        assert done == [done[0]];
        FencesOkCons(text, done[0], rest);
      } else {
        assert done + rest == rest;
      }
    } else {
      LastLineOk(text, pos, open);
      assert text[pos..nl] == text[pos..];
    }
  }

  /** Fenced ranges are ordered and disjoint, start at line starts and hold their content. */
  lemma FencesAreOrdered(text: Text)
    ensures FencesOk(text, Fences(text))
  {
    FencesFromOk(text, 0, None);
  }

  // ---------------------------------------------------------------- inline code

  predicate RangesIn(text: Text, ranges: seq<Range>) {
    forall k :: 0 <= k < |ranges| ==> ranges[k].start < ranges[k].end <= |text|
  }

  predicate Ordered(ranges: seq<Range>) {
    forall j, k :: 0 <= j < k < |ranges| ==> ranges[j].end <= ranges[k].start
  }

  /** First backtick run of length `n` that starts in [j, limit), stepping over whole runs. */
  function FindClose(text: Text, j: nat, limit: nat, n: nat): (c: Option<nat>)
    requires j <= |text| && limit <= |text|
    ensures c.Some? ==> j <= c.value < limit && text[c.value] == TICK && RunLength(text, c.value, TICK) == n
    decreases |text| - j
  {
    if j >= limit then None
    else if text[j] != TICK then FindClose(text, j + 1, limit, n)
    else
      var m := RunLength(text, j, TICK);
      if m == n then Some(j) else FindClose(text, j + m, limit, n)
  }

  lemma FindCloseStep(text: Text, j: nat, limit: nat, n: nat)
    requires j < |text| && j < limit <= |text|
    ensures FindClose(text, j, limit, n) ==
            if text[j] != TICK then FindClose(text, j + 1, limit, n)
            else if RunLength(text, j, TICK) == n then Some(j)
            else FindClose(text, j + RunLength(text, j, TICK), limit, n)
  {
    hide RunLength;
  }

  lemma {:induction false} FindCloseEnd(text: Text, j: nat, limit: nat, n: nat)
    requires limit <= j <= |text|
    ensures FindClose(text, j, limit, n) == None
  {
  }

  /** The scanner at a position that no fence covers: the range it completes and where it goes on. */
  function InlineHere(text: Text, limit: nat, i: nat): (r: (seq<Range>, nat))
    requires i < |text| && limit <= |text|
    ensures r.1 > i
  {
    if text[i] == BACKSLASH then ([], i + 2)
    else if text[i] != TICK then ([], i + 1)
    else
      var n := RunLength(text, i, TICK);
      var c := FindClose(text, i + n, limit, n);
      if c.None? then ([], i + n) else ([Range(i, c.value + n)], c.value + n)
  }

  /** A code span has to close before the next fence. */
  function Limit(text: Text, fences: seq<Range>): (limit: nat)
    requires RangesIn(text, fences)
    ensures limit <= |text|
  {
    if fences != [] then fences[0].start else |text|
  }

  /** The inline ranges found from position `i` on, given the fences that may still matter. */
  function InlineFrom(text: Text, fences: seq<Range>, i: nat): seq<Range>
    requires RangesIn(text, fences)
    decreases |text| + 1 - i, |fences|
  {
    if i >= |text| then []
    else if fences != [] && fences[0].end <= i then InlineFrom(text, fences[1..], i)
    else if fences != [] && fences[0].start <= i then InlineFrom(text, fences, fences[0].end)
    else
      var (found, next) := InlineHere(text, Limit(text, fences), i);
      found + InlineFrom(text, fences, next)
  }

  function Inline(text: Text, fences: seq<Range>): seq<Range>
    requires RangesIn(text, fences)
  {
    InlineFrom(text, fences, 0)
  }

  lemma {:induction false} InlineStep(text: Text, fences: seq<Range>, i: nat)
    requires RangesIn(text, fences) && i < |text| && (fences != [] ==> i < fences[0].start)
    ensures var (found, next) := InlineHere(text, Limit(text, fences), i);
            InlineFrom(text, fences, i) == found + InlineFrom(text, fences, next)
  {
    hide InlineHere;
  }

  lemma {:induction false} InlineDone(text: Text, fences: seq<Range>, i: nat)
    requires RangesIn(text, fences) && i >= |text|
    ensures InlineFrom(text, fences, i) == []
  {
  }

  method CountTicks(text: Text, i: nat) returns (n: nat)
    requires i < |text| && text[i] == TICK
    ensures n == RunLength(text, i, TICK)
  {
    n := 1;
    while i + n < |text| && text[i + n] == TICK
      invariant 1 <= n <= |text| - i
      invariant forall k :: i <= k < i + n ==> text[k] == TICK
    {
      n := n + 1;
    }
    RunLengthUnique(text, i, TICK, n);
  }

  method SearchClose(text: Text, from: nat, limit: nat, n: nat) returns (close: Option<nat>)
    requires from <= |text| && limit <= |text|
    ensures close == FindClose(text, from, limit, n)
  {
    var j := from;
    while j < limit
      invariant j <= |text|
      invariant FindClose(text, j, limit, n) == FindClose(text, from, limit, n)
    {
      if text[j] != TICK {
        j := j + 1;
      } else {
        var m := CountTicks(text, j);
        if m == n { return Some(j); }
        j := j + m;
      }
    }
    return None;
  }

  /** A fence that ends at or before the position no longer matters. */
  lemma {:induction false} InlineDrop(text: Text, fences: seq<Range>, next: nat, i: nat)
    requires RangesIn(text, fences) && next < |fences| && fences[next].end <= i < |text|
    ensures InlineFrom(text, fences[next..], i) == InlineFrom(text, fences[next + 1..], i)
  {
    assert fences[next..][1..] == fences[next + 1..];
    assert fences[next..][0] == fences[next];
  }

  lemma {:induction false} InlineSkip(text: Text, fences: seq<Range>, i: nat)
    requires RangesIn(text, fences) && fences != [] && fences[0].start <= i < fences[0].end
    ensures InlineFrom(text, fences, i) == InlineFrom(text, fences, fences[0].end)
  {
  }

  method SkipFences(text: Text, fences: seq<Range>, first: nat, i: nat) returns (next: nat)
    requires RangesIn(text, fences) && first <= |fences| && i < |text|
    ensures first <= next <= |fences| && (next < |fences| ==> fences[next].end > i)
    ensures InlineFrom(text, fences[next..], i) == InlineFrom(text, fences[first..], i)
  {
    next := first;
    while next < |fences| && fences[next].end <= i
      invariant first <= next <= |fences|
      invariant InlineFrom(text, fences[next..], i) == InlineFrom(text, fences[first..], i)
    {
      InlineDrop(text, fences, next, i);
      next := next + 1;
    }
  }

  /** One position outside every fence: an escape, an ordinary unit, or a backtick run. */
  method ScanUnit(text: Text, fences: seq<Range>, next: nat, i: nat) returns (found: seq<Range>, after: nat)
    requires RangesIn(text, fences) && next <= |fences| && i < |text|
    requires next < |fences| ==> i < fences[next].start
    ensures (found, after) == InlineHere(text, Limit(text, fences[next..]), i)
  {
    hide RunLength, FindClose;
    if text[i] == BACKSLASH { return [], i + 2; }
    if text[i] != TICK { return [], i + 1; }
    var n := CountTicks(text, i);
    var limit := if next < |fences| then fences[next].start else |text|;
    var close := SearchClose(text, i + n, limit, n);
    if close.None? { return [], i + n; }
    return [Range(i, close.value + n)], close.value + n;
  }

  method InlineCodeRanges(text: Text, fences: seq<Range>) returns (ranges: seq<Range>)
    requires RangesIn(text, fences)
    ensures ranges == Inline(text, fences)
  {
    hide InlineHere, InlineFrom;
    ranges := [];
    var i, next := 0, 0;
    while i < |text|
      invariant next <= |fences|
      invariant ranges + InlineFrom(text, fences[next..], i) == Inline(text, fences)
      decreases |text| + 1 - i
    {
      next := SkipFences(text, fences, next, i);
      ghost var rest := fences[next..];
      assert rest != [] ==> rest[0] == fences[next];
      if next < |fences| && fences[next].start <= i {
        InlineSkip(text, rest, i);
        i := fences[next].end;
      } else {
        InlineStep(text, rest, i);
        var found, after := ScanUnit(text, fences, next, i);
        ranges, i := ranges + found, after;
      }
    }
    InlineDone(text, fences[next..], i);
  }

  /** A backtick run of exactly `n` that starts at `q`. */
  predicate RunAt(text: Text, q: nat, n: nat) {
    0 < q < |text| && text[q] == TICK && text[q - 1] != TICK && RunLength(text, q, TICK) == n
  }

  /** An opener paired with the first later run of its own length, with no fence in between. */
  ghost predicate CodeSpan(text: Text, fences: seq<Range>, r: Range) {
    && r.start < r.end <= |text| && text[r.start] == TICK
    && var n := RunLength(text, r.start, TICK);
    && r.start + 2 * n < r.end
    && RunAt(text, r.end - n, n)
    && (forall q :: r.start + n <= q < r.end - n ==> !RunAt(text, q, n))
    && forall k :: 0 <= k < |fences| ==> fences[k].end <= r.start || r.end <= fences[k].start
  }

  lemma {:induction false} FindCloseFirst(text: Text, j: nat, limit: nat, n: nat)
    requires 0 < j <= |text| && limit <= |text| && (j < |text| ==> text[j - 1] != TICK || text[j] != TICK)
    ensures var c := FindClose(text, j, limit, n);
            && (c.Some? ==> RunAt(text, c.value, n) && forall q :: j <= q < c.value ==> !RunAt(text, q, n))
            && (c.None? ==> forall q :: j <= q < limit ==> !RunAt(text, q, n))
    decreases |text| - j
  {
    if j < limit {
      if text[j] != TICK {
        FindCloseFirst(text, j + 1, limit, n);
      } else {
        var m := RunLength(text, j, TICK);
        if m != n {
          FindCloseFirst(text, j + m, limit, n);
        }
      }
    }
  }

  predicate FencesAtLineStarts(text: Text, fences: seq<Range>) {
    && RangesIn(text, fences) && Ordered(fences)
    && forall k :: 0 <= k < |fences| ==> LineStart(text, fences[k].start)
  }

  /** An opener at `i` that finds its close makes a span that meets no fence. */
  lemma OpenerSpan(text: Text, fences: seq<Range>, i: nat, n: nat, limit: nat, c: nat)
    requires FencesAtLineStarts(text, fences) && i < |text| && text[i] == TICK
    requires fences != [] ==> i < fences[0].start
    requires n == RunLength(text, i, TICK) && limit == Limit(text, fences)
    requires FindClose(text, i + n, limit, n) == Some(c)
    ensures CodeSpan(text, fences, Range(i, c + n))
  {
    hide RunLength, FindClose;
    FindCloseFirst(text, i + n, limit, n);
    assert RunAt(text, c, n);
    if fences != [] {
      assert LineStart(text, limit);
      assert text[limit - 1] == NEWLINE;
      assert c + n <= limit;
      assert forall k :: 0 < k < |fences| ==> fences[0].end <= fences[k].start;
    }
  }

  predicate SpansFrom(text: Text, fences: seq<Range>, i: nat, rs: seq<Range>) {
    RangesIn(text, rs) && Ordered(rs) && forall k :: 0 <= k < |rs| ==> i <= rs[k].start
  }

  ghost predicate AllSpans(text: Text, fences: seq<Range>, rs: seq<Range>) {
    forall r :: r in rs ==> CodeSpan(text, fences, r)
  }

  lemma SpansCons(text: Text, fences: seq<Range>, i: nat, r: Range, rs: seq<Range>)
    requires i <= r.start < r.end <= |text| && SpansFrom(text, fences, r.end, rs)
    requires CodeSpan(text, fences, r) && AllSpans(text, fences, rs)
    ensures SpansFrom(text, fences, i, [r] + rs) && AllSpans(text, fences, [r] + rs)
  {
    hide CodeSpan;
  }

  lemma SpansUndrop(text: Text, fences: seq<Range>, i: nat, rs: seq<Range>)
    requires fences != [] && fences[0].end <= i && SpansFrom(text, fences[1..], i, rs) && AllSpans(text, fences[1..], rs)
    ensures SpansFrom(text, fences, i, rs) && AllSpans(text, fences, rs)
  {
    forall r | r in rs ensures CodeSpan(text, fences, r) {
      assert CodeSpan(text, fences[1..], r);
      assert forall m :: 0 < m < |fences| ==> fences[m] == fences[1..][m - 1];
    }
  }

  lemma SpansWiden(text: Text, fences: seq<Range>, i: nat, next: nat, rs: seq<Range>)
    requires i <= next && SpansFrom(text, fences, next, rs)
    ensures SpansFrom(text, fences, i, rs)
  {
  }

  lemma {:induction false} InlineFromOk(text: Text, fences: seq<Range>, i: nat)
    requires FencesAtLineStarts(text, fences)
    ensures SpansFrom(text, fences, i, InlineFrom(text, fences, i))
    ensures AllSpans(text, fences, InlineFrom(text, fences, i))
    decreases |text| + 1 - i, |fences|
  {
    hide CodeSpan;
    if i >= |text| {
    } else if fences != [] && fences[0].end <= i {
      InlineDrop(text, fences, 0, i);
      assert fences[0..] == fences;
      InlineFromOk(text, fences[1..], i);
      SpansUndrop(text, fences, i, InlineFrom(text, fences[1..], i));
    } else if fences != [] && fences[0].start <= i {
      InlineSkip(text, fences, i);
      InlineFromOk(text, fences, fences[0].end);
      SpansWiden(text, fences, i, fences[0].end, InlineFrom(text, fences, i));
    } else {
      InlineFromOkHere(text, fences, i);
    }
  }

  lemma {:induction false} InlineFromOkHere(text: Text, fences: seq<Range>, i: nat)
    requires FencesAtLineStarts(text, fences)
    requires i < |text| && (fences != [] ==> i < fences[0].start)
    ensures SpansFrom(text, fences, i, InlineFrom(text, fences, i))
    ensures AllSpans(text, fences, InlineFrom(text, fences, i))
    decreases |text| + 1 - i, |fences|, 0
  {
    hide FindClose, RunLength, InlineFrom, CodeSpan, SpansFrom, AllSpans;
    InlineStep(text, fences, i);
    var (found, next) := InlineHere(text, Limit(text, fences), i);
    InlineFromOk(text, fences, next);
    var rs := InlineFrom(text, fences, next);
    if found == [] {
      assert found + rs == rs;
      SpansWiden(text, fences, i, next, rs);
    } else {
      OpenerSpan(text, fences, i, RunLength(text, i, TICK), Limit(text, fences), next - RunLength(text, i, TICK));
      SpansCons(text, fences, i, Range(i, next), rs);
    }
  }

  /** Inline ranges are ordered, avoid every fence, and pair an opener with the first later equal run. */
  lemma InlineRangesAreSpans(text: Text)
    ensures var fences := Outers(Fences(text));
            && FencesAtLineStarts(text, fences)
            && var rs := Inline(text, fences);
            SpansFrom(text, fences, 0, rs) && AllSpans(text, fences, rs)
  {
    FencesAreOrdered(text);
    var fences := Outers(Fences(text));
    assert forall k :: 0 <= k < |fences| ==> LineStart(text, fences[k].start);
    InlineFromOk(text, fences, 0);
  }

  // ---------------------------------------------------------------- one-pass containment

  ghost predicate InRanges(ranges: seq<Range>, at: nat) {
    exists r :: r in ranges && r.start <= at < r.end
  }

  function InsertByStart(r: Range, sorted: seq<Range>): (s: seq<Range>)
    ensures forall x :: x in s <==> x == r || x in sorted
  {
    if sorted == [] || r.start <= sorted[0].start then [r] + sorted
    else [sorted[0]] + InsertByStart(r, sorted[1..])
  }

  /** The comparison sort of the ranges by their start. */
  function SortByStart(s: seq<Range>): (r: seq<Range>)
    ensures forall x :: x in r <==> x in s
  {
    if s == [] then [] else InsertByStart(s[0], SortByStart(s[1..]))
  }

  predicate Apart(a: Range, b: Range) { a.end <= b.start || b.end <= a.start }

  lemma {:induction false} InsertKeepsOrder(r: Range, sorted: seq<Range>)
    requires Ordered(sorted) && r.start < r.end
    requires forall x :: x in sorted ==> x.start < x.end && Apart(r, x)
    ensures Ordered(InsertByStart(r, sorted))
  {
    if sorted != [] && sorted[0].start < r.start {
      InsertKeepsOrder(r, sorted[1..]);
      var rest := InsertByStart(r, sorted[1..]);
      forall k | 0 <= k < |rest| ensures sorted[0].end <= rest[k].start {
        assert rest[k] in rest;
        assert Apart(r, sorted[0]);
      }
    } else if sorted != [] {
      assert Apart(r, sorted[0]);
      forall k | 0 <= k < |sorted| ensures r.end <= sorted[k].start {
        assert Apart(r, sorted[k]);
      }
    }
  }

  lemma {:induction false} SortedRangesAreOrdered(s: seq<Range>)
    requires forall x :: x in s ==> x.start < x.end
    requires forall j, k :: 0 <= j < k < |s| ==> Apart(s[j], s[k])
    ensures Ordered(SortByStart(s))
  {
    if s != [] {
      SortedRangesAreOrdered(s[1..]);
      forall x | x in s[1..] ensures Apart(s[0], x) {
      }
      InsertKeepsOrder(s[0], SortByStart(s[1..]));
    }
  }

  /** All code ranges of the text, fenced and inline, in order. */
  function Code(text: Text): seq<Range>
  {
    InlineRangesAreSpans(text);
    SortByStart(Outers(Fences(text)) + Inline(text, Outers(Fences(text))))
  }

  lemma CodeIsOrdered(text: Text)
    ensures Ordered(Code(text)) && RangesIn(text, Code(text))
  {
    InlineRangesAreSpans(text);
    var fences := Outers(Fences(text));
    var rs := Inline(text, fences);
    forall j, k | 0 <= j < k < |fences + rs| ensures Apart((fences + rs)[j], (fences + rs)[k]) {
      if j < |fences| <= k {
        assert CodeSpan(text, fences, rs[k - |fences|]);
      }
    }
    SortedRangesAreOrdered(fences + rs);
    forall k | 0 <= k < |Code(text)| ensures Code(text)[k].start < Code(text)[k].end <= |text| {
      assert Code(text)[k] in fences + rs;
    }
  }

  /** One step of the index that visits each sorted range once as label positions grow. */
  method Inside(code: seq<Range>, first: nat, at: nat) returns (inside: bool, index: nat)
    requires Ordered(code) && first <= |code|
    requires forall k :: 0 <= k < first ==> code[k].end <= at
    ensures inside <==> InRanges(code, at)
    ensures index <= |code| && forall k :: 0 <= k < index ==> code[k].end <= at
  {
    index := first;
    while index < |code| && code[index].end <= at
      invariant index <= |code|
      invariant forall k :: 0 <= k < index ==> code[k].end <= at
    {
      index := index + 1;
    }
    inside := index < |code| && code[index].start <= at;
    if inside {
      assert code[index] in code;
    }
  }
}
