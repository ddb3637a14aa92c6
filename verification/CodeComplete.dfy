/** Exactly which backtick runs open inline code (src/code-ranges.ts). */
module CodeComplete {
  import opened Text
  import opened CodeRanges

  /** Number of backslashes directly before a position. */
  function Backslashes(text: Text, at: nat): nat
    requires at <= |text|
  {
    if at > 0 && text[at - 1] == BACKSLASH then 1 + Backslashes(text, at - 1) else 0
  }

  predicate Escaped(text: Text, at: nat)
    requires at <= |text|
  {
    Backslashes(text, at) % 2 == 1
  }

  /** Not escaped, and not inside a backtick run unless that run's first backtick is the escaped one. */
  predicate Reads(text: Text, at: nat) {
    at <= |text| ==>
      && !Escaped(text, at)
      && (0 < at < |text| && text[at] == TICK && text[at - 1] == TICK ==> Escaped(text, at - 1))
  }

  /** The first backtick of a run, after an escaped one if there is one. */
  predicate Opens(text: Text, q: nat) {
    q < |text| && text[q] == TICK && Reads(text, q)
  }

  /** A later run of the same length begins at `c`, and no fence meets the text from `q` to it. */
  ghost predicate ClosesAt(text: Text, fences: seq<Range>, q: nat, c: nat)
    requires q < |text|
  {
    var n := RunLength(text, q, TICK);
    && q + n <= c && RunAt(text, c, n)
    && forall k :: 0 <= k < |fences| ==> fences[k].end <= q || c < fences[k].start
  }

  ghost predicate Closable(text: Text, fences: seq<Range>, q: nat) {
    q < |text| && Opens(text, q) && exists c: nat :: ClosesAt(text, fences, q, c)
  }

  /** Every fence ends behind a line break or with the text. */
  predicate FencesEndLines(text: Text, fences: seq<Range>) {
    forall k :: 0 <= k < |fences| ==> fences[k].end == |text| || LineStart(text, fences[k].end)
  }

  // ---------------------------------------------------------------- where fences end

  lemma {:induction false} FencesFromEndLines(text: Text, pos: nat, open: Option<OpenFence>)
    requires pos <= |text| && LineStart(text, pos) && OpenOk(text, pos, open)
    ensures FencesEndLines(text, Outers(FencesFrom(text, pos, open)))
    decreases |text| - pos
  {
    hide FenceLine, OpenOk, FencesOk;
    FencesFromStep(text, pos, open);
    var nl := LineEnd(text, pos);
    var next := if nl < |text| then nl + 1 else nl;
    FenceLineOk(text, pos, nl, next, open);
    if nl < |text| {
      FencesFromEndLines(text, next, FenceLine(text[pos..nl], pos, next, open).1);
    }
  }

  // ---------------------------------------------------------------- one step of the scanner

  lemma {:induction false} EscapeReads(text: Text, i: nat)
    requires i < |text| && text[i] == BACKSLASH && Reads(text, i)
    ensures Reads(text, i + 2) && !Opens(text, i) && !Opens(text, i + 1)
  {
    if i + 1 < |text| && text[i + 1] == BACKSLASH {
      assert Backslashes(text, i + 2) == Backslashes(text, i + 1) + 1;
    }
    assert Backslashes(text, i + 1) == Backslashes(text, i) + 1;
  }

  lemma {:induction false} UnitReads(text: Text, i: nat)
    requires i < |text| && text[i] != BACKSLASH && text[i] != TICK
    ensures Reads(text, i + 1) && !Opens(text, i)
  {
  }

  lemma {:induction false} RunReads(text: Text, e: nat)
    requires 0 < e <= |text| && text[e - 1] == TICK && (e < |text| ==> text[e] != TICK)
    ensures Reads(text, e)
  {
  }

  lemma {:induction false} LineReads(text: Text, at: nat)
    requires at == |text| || LineStart(text, at)
    ensures at < |text| ==> Reads(text, at)
  {
  }

  /** A run that is read from its start has no other opener in it. */
  lemma {:induction false} OneOpener(text: Text, i: nat, q: nat)
    requires Opens(text, i) && i < q < i + RunLength(text, i, TICK)
    ensures !Opens(text, q)
  {
    hide RunLength;
    assert text[q] == TICK && text[q - 1] == TICK;
    if q - 1 > i { assert text[q - 2] == TICK; }
  }

  // ---------------------------------------------------------------- the whole scan

  ghost predicate Covered(rs: seq<Range>, q: nat) {
    exists r :: r in rs && r.start <= q < r.end
  }

  /** What the scan from `i` finds: openers only, and for a later opener that can close a range around it. */
  ghost predicate Finds(text: Text, fences: seq<Range>, i: nat, q: nat, rs: seq<Range>) {
    && (forall r :: r in rs ==> Opens(text, r.start))
    && (i <= q && Closable(text, fences, q) ==> Covered(rs, q))
  }

  lemma FindsDropped(text: Text, fences: seq<Range>, i: nat, q: nat, rs: seq<Range>)
    requires fences != [] && fences[0].end <= i && Finds(text, fences[1..], i, q, rs)
    ensures Finds(text, fences, i, q, rs)
  {
    hide Opens, RunAt, RunLength;
    if i <= q && Closable(text, fences, q) {
      var c: nat :| ClosesAt(text, fences, q, c);
      assert ClosesAt(text, fences[1..], q, c);
    }
  }

  /** An opener that can close lies in no fence. */
  lemma FindsSkipped(text: Text, fences: seq<Range>, i: nat, q: nat, rs: seq<Range>)
    requires fences != [] && fences[0].start <= i < fences[0].end && Finds(text, fences, fences[0].end, q, rs)
    ensures Finds(text, fences, i, q, rs)
  {
    hide Opens, RunAt, RunLength;
  }

  lemma ClosesBeforeLimit(text: Text, fences: seq<Range>, q: nat, c: nat)
    requires RangesIn(text, fences) && q < |text| && (fences != [] ==> q < fences[0].start)
    requires ClosesAt(text, fences, q, c)
    ensures c < Limit(text, fences)
  {
    hide RunLength;
    if fences != [] { assert fences[0].start < fences[0].end; }
  }

  lemma {:induction false} RunHere(text: Text, fences: seq<Range>, i: nat, q: nat)
    requires RangesIn(text, fences) && Opens(text, i) && (fences != [] ==> i < fences[0].start)
    requires i <= q < InlineHere(text, Limit(text, fences), i).1 && Closable(text, fences, q)
    ensures Covered(InlineHere(text, Limit(text, fences), i).0, q)
  {
    hide RunLength, FindClose, Reads;
    var n := RunLength(text, i, TICK);
    var limit := Limit(text, fences);
    var close := FindClose(text, i + n, limit, n);
    if close.None? {
      if q > i { OneOpener(text, i, q); }
      var c: nat :| ClosesAt(text, fences, q, c);
      ClosesBeforeLimit(text, fences, q, c);
      FindCloseFirst(text, i + n, limit, n);
      assert false;
    } else {
      var r := Range(i, close.value + n);
      assert r in InlineHere(text, limit, i).0;
    }
  }

  lemma {:induction false} HereReads(text: Text, limit: nat, i: nat)
    requires i < |text| && limit <= |text| && Reads(text, i)
    ensures Reads(text, InlineHere(text, limit, i).1)
    ensures forall r :: r in InlineHere(text, limit, i).0 ==> Opens(text, r.start)
    ensures text[i] != TICK ==> forall q :: i <= q < InlineHere(text, limit, i).1 ==> !Opens(text, q)
  {
    hide RunLength, FindClose, Reads;
    if text[i] == BACKSLASH {
      EscapeReads(text, i);
    } else if text[i] != TICK {
      UnitReads(text, i);
    } else {
      var e := InlineHere(text, limit, i).1;
      EndOfRun(text, limit, i);
      RunReads(text, e);
    }
  }

  lemma {:induction false} EndOfRun(text: Text, limit: nat, i: nat)
    requires i < |text| && limit <= |text| && text[i] == TICK
    ensures var e := InlineHere(text, limit, i).1;
            0 < e <= |text| && text[e - 1] == TICK && (e < |text| ==> text[e] != TICK)
  {
    hide FindClose;
    assert RunLength(text, i, TICK) > 0;
  }

  lemma {:induction false} ScanFinds(text: Text, fences: seq<Range>, i: nat, q: nat)
    requires RangesIn(text, fences) && FencesEndLines(text, fences) && (i < |text| ==> Reads(text, i))
    ensures Finds(text, fences, i, q, InlineFrom(text, fences, i))
    decreases |text| + 1 - i, |fences|
  {
    hide ClosesAt, Reads, InlineHere;
    if i >= |text| {
    } else if fences != [] && fences[0].end <= i {
      InlineDrop(text, fences, 0, i);
      assert fences[0..] == fences;
      ScanFinds(text, fences[1..], i, q);
      FindsDropped(text, fences, i, q, InlineFrom(text, fences[1..], i));
    } else if fences != [] && fences[0].start <= i {
      InlineSkip(text, fences, i);
      LineReads(text, fences[0].end);
      ScanFinds(text, fences, fences[0].end, q);
      FindsSkipped(text, fences, i, q, InlineFrom(text, fences, i));
    } else {
      InlineStep(text, fences, i);
      var (found, next) := InlineHere(text, Limit(text, fences), i);
      HereReads(text, Limit(text, fences), i);
      ScanFinds(text, fences, next, q);
      if i <= q < next && Closable(text, fences, q) {
        RunHere(text, fences, i, q);
      }
      FindsJoined(text, fences, i, q, found, next, InlineFrom(text, fences, next));
    }
  }

  lemma FindsJoined(text: Text, fences: seq<Range>, i: nat, q: nat, found: seq<Range>, next: nat, rest: seq<Range>)
    requires forall r :: r in found ==> Opens(text, r.start)
    requires i <= q < next && Closable(text, fences, q) ==> Covered(found, q)
    requires Finds(text, fences, next, q, rest)
    ensures Finds(text, fences, i, q, found + rest)
  {
    hide Opens, Closable;
    if i <= q && Closable(text, fences, q) {
      var rs := if q < next then found else rest;
      var r :| r in rs && r.start <= q < r.end;
      assert r in found + rest;
    }
  }

  // ---------------------------------------------------------------- the exact inline ranges

  /**
   * An inline range begins at a position exactly when a backtick run opens there that a later run of its length
   * closes before the next fence, unless the position is inside an earlier range.
   */
  lemma {:induction false} InlineIsExact(text: Text, q: nat)
    ensures var fences := Outers(Fences(text));
            && RangesIn(text, fences)
            && var rs := Inline(text, fences);
            (exists r :: r in rs && r.start == q) <==>
              Closable(text, fences, q) && !(exists r :: r in rs && r.start < q < r.end)
  {
    hide Opens, ClosesAt, CodeSpan, InlineFrom, FencesFrom;
    var fences := Outers(Fences(text));
    InlineRangesAreSpans(text);
    FencesFromEndLines(text, 0, None);
    var rs := Inline(text, fences);
    LineReads(text, 0);
    ScanFinds(text, fences, 0, q);
    if r :| r in rs && r.start == q {
      SpanCloses(text, fences, r);
      forall o | o in rs && o.start < q ensures o.end <= q {
        var j :| 0 <= j < |rs| && rs[j] == o;
        var k :| 0 <= k < |rs| && rs[k] == r;
        assert j != k;
        if k < j { assert false; }
      }
    }
  }

  lemma SpanCloses(text: Text, fences: seq<Range>, r: Range)
    requires CodeSpan(text, fences, r) && Opens(text, r.start)
    ensures Closable(text, fences, r.start)
  {
    hide Opens, RunLength;
    var n := RunLength(text, r.start, TICK);
    assert ClosesAt(text, fences, r.start, r.end - n);
  }
}
