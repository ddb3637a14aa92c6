/** Exactly where code fences begin and end, over the lines of the text (src/code-ranges.ts). */
module FenceLaws {
  import opened Text
  import opened CodeRanges

  predicate All(text: Text, from: nat, to: nat, mark: Unit) { to <= |text| && forall k :: from <= k < to ==> text[k] == mark }

  predicate Blanks(text: Text, from: nat, to: nat) { to <= |text| && forall k :: from <= k < to ==> IsSpace(text[k]) }

  /** Where the line at `p` gives way to the next: behind its line break, or at the end of the text. */
  function AfterLine(text: Text, p: nat): (a: nat)
    requires p <= |text|
    ensures p <= a <= |text| && LineEnd(text, p) <= a
  {
    if LineEnd(text, p) < |text| then LineEnd(text, p) + 1 else |text|
  }

  /** At most three spaces and then a whole run of at least three backticks, or of tildes. */
  predicate OpensRun(text: Text, p: nat, indent: nat, mark: Unit, n: nat) {
    && p <= |text| && indent <= 3 && n >= 3 && (mark == TICK || mark == TILDE)
    && p + indent + n <= LineEnd(text, p)
    && All(text, p, p + indent, SPACE) && All(text, p + indent, p + indent + n, mark)
    && (p + indent + n < LineEnd(text, p) ==> text[p + indent + n] != mark)
  }

  /** The line at `p` opens a fence with this run. */
  ghost predicate OpensWith(text: Text, p: nat, mark: Unit, n: nat) {
    LineStart(text, p) && exists indent: nat :: OpensRun(text, p, indent, mark, n)
  }

  ghost predicate OpensLine(text: Text, p: nat) { exists mark: Unit, n: nat :: OpensWith(text, p, mark, n) }

  /** Only the mark, at least `n` times, stands between the white space at the ends of the line. */
  predicate OnlyMarks(text: Text, p: nat, i: nat, j: nat, mark: Unit, n: nat) {
    p <= i <= j <= |text| && j <= LineEnd(text, p) && j - i >= n && Blanks(text, p, i) && All(text, i, j, mark) && Blanks(text, j, LineEnd(text, p))
  }

  ghost predicate ClosesLine(text: Text, p: nat, mark: Unit, n: nat) {
    LineStart(text, p) && exists i: nat, j: nat :: OnlyMarks(text, p, i, j, mark, n)
  }

  /** No line from `from` up to `to` closes a fence of this run. */
  ghost predicate NoneCloses(text: Text, from: nat, to: nat, mark: Unit, n: nat) {
    forall c: nat :: from <= c < to ==> !ClosesLine(text, c, mark, n)
  }

  /** The fence ends with the first line that closes it, or with the text when there is none. */
  ghost predicate EndsRight(text: Text, from: nat, mark: Unit, n: nat, f: Fence) {
    if f.closed then
      && from <= f.contentEnd <= |text| && ClosesLine(text, f.contentEnd, mark, n) && NoneCloses(text, from, f.contentEnd, mark, n)
      && f.end == AfterLine(text, f.contentEnd)
    else NoneCloses(text, from, |text| + 1, mark, n) && f.contentEnd == |text| && f.end == |text|
  }

  /** The fence begins with a line that opens one, has its content from the next line on, and ends as it should. */
  ghost predicate IsFence(text: Text, f: Fence) {
    exists mark: Unit, n: nat ::
      OpensWith(text, f.start, mark, n) && f.contentStart == AfterLine(text, f.start) && EndsRight(text, f.contentStart, mark, n, f)
  }

  predicate StartsAt(fs: seq<Fence>, p: nat) { exists k :: 0 <= k < |fs| && fs[k].start == p }

  predicate Inside(fs: seq<Fence>, p: nat) { exists k :: 0 <= k < |fs| && fs[k].start < p < fs[k].end }

  // ---------------------------------------------------------------- lines

  lemma {:induction false} OpenerIs(text: Text, p: nat)
    requires LineStart(text, p)
    ensures var o := FenceOpener(text[p..LineEnd(text, p)]);
            && (o.Some? ==> OpensWith(text, p, o.value.mark, o.value.count))
            && (OpensLine(text, p) ==> o.Some?)
  {
    hide LineEnd, RunLength;
    var line := text[p..LineEnd(text, p)];
    var k := RunLength(line, 0, SPACE);
    var o := FenceOpener(line);
    if o.Some? { assert OpensRun(text, p, k, o.value.mark, o.value.count); }
    if OpensLine(text, p) {
      var mark: Unit, n: nat :| OpensWith(text, p, mark, n);
      var indent: nat :| OpensRun(text, p, indent, mark, n);
      assert forall i :: 0 <= i < |line| ==> line[i] == text[p + i];
      RunLengthUnique(line, 0, SPACE, indent);
      RunLengthUnique(line, indent, mark, n);
    }
  }

  lemma {:induction false} CloserIs(text: Text, p: nat, o: Opener)
    requires LineStart(text, p) && o.count >= 3 && (o.mark == TICK || o.mark == TILDE)
    ensures Closes(text[p..LineEnd(text, p)], o) <==> ClosesLine(text, p, o.mark, o.count)
  {
    hide Closes, OnlyMarks, LineEnd;
    if Closes(text[p..LineEnd(text, p)], o) { ClosesMarks(text, p, o); }
    if i: nat, j: nat :| OnlyMarks(text, p, i, j, o.mark, o.count) { MarksClose(text, p, i, j, o); }
  }

  lemma {:induction false} ClosesMarks(text: Text, p: nat, o: Opener)
    requires p <= |text| && Closes(text[p..LineEnd(text, p)], o)
    ensures exists i: nat, j: nat :: OnlyMarks(text, p, i, j, o.mark, o.count)
  {
    hide LineEnd, TrimStart, TrimEnd, IsSpace, OnlyMarks;
    var line := text[p..LineEnd(text, p)];
    var i, j := Trimmed(line, o.mark);
    assert OnlyMarks(text, p, p + i, p + j, o.mark, o.count) by { MarksInText(text, p, i, j, o.mark, o.count); }
  }

  lemma {:induction false} Trimmed(line: Text, mark: Unit) returns (i: nat, j: nat)
    requires forall k :: 0 <= k < |Trim(line)| ==> Trim(line)[k] == mark
    ensures i <= j <= |line| && j - i == |Trim(line)| && Blanks(line, 0, i) && All(line, i, j, mark) && Blanks(line, j, |line|)
  {
    hide TrimStart, TrimEnd, IsSpace;
    var t := TrimStart(line);
    i, j := |line| - |t|, |line| - |t| + |Trim(line)|;
    assert t == line[i..] && Trim(line) == t[..j - i];
    assert line == line[..i] + (Trim(line) + t[j - i..]);
    assert Blanks(t, j - i, |t|);
    forall k | j <= k < |line| ensures IsSpace(line[k]) { BlankAt(t, j - i, k - i); }
  }

  lemma {:induction false} BlankAt(t: Text, from: nat, k: nat)
    requires Blanks(t, from, |t|) && from <= k < |t|
    ensures IsSpace(t[k])
  {
    hide IsSpace;
  }

  lemma {:induction false} MarksInText(text: Text, p: nat, i: nat, j: nat, mark: Unit, n: nat)
    requires p <= |text|
    requires var line := text[p..LineEnd(text, p)];
             i <= j <= |line| && j - i >= n && Blanks(line, 0, i) && All(line, i, j, mark) && Blanks(line, j, |line|)
    ensures OnlyMarks(text, p, p + i, p + j, mark, n)
  {
    hide LineEnd, IsSpace;
    var line := text[p..LineEnd(text, p)];
    forall k | p <= k < LineEnd(text, p) ensures text[k] == line[k - p] { }
  }

  lemma {:induction false} MarksInLine(text: Text, p: nat, i: nat, j: nat, mark: Unit, n: nat)
    requires p <= |text| && OnlyMarks(text, p, i, j, mark, n)
    ensures var line := text[p..LineEnd(text, p)];
            j - p <= |line| && Blanks(line, 0, i - p) && All(line, i - p, j - p, mark) && Blanks(line, j - p, |line|)
  {
    hide LineEnd, IsSpace;
  }

  lemma {:induction false} MarksClose(text: Text, p: nat, i: nat, j: nat, o: Opener)
    requires p <= |text| && o.count >= 3 && (o.mark == TICK || o.mark == TILDE) && OnlyMarks(text, p, i, j, o.mark, o.count)
    ensures Closes(text[p..LineEnd(text, p)], o)
  {
    hide LineEnd, OnlyMarks, Blanks, All, Closes;
    MarksInLine(text, p, i, j, o.mark, o.count);
    MarksBound(text, p, i, j, o.mark, o.count);
    TrimmedMarks(text[p..LineEnd(text, p)], i - p, j - p, o);
  }

  lemma {:induction false} TrimmedMarks(line: Text, i: nat, j: nat, o: Opener)
    requires o.count >= 3 && (o.mark == TICK || o.mark == TILDE) && i <= j <= |line| && j - i >= o.count
    requires Blanks(line, 0, i) && All(line, i, j, o.mark) && Blanks(line, j, |line|)
    ensures Closes(line, o)
  {
    hide TrimStart, TrimEnd, IsSpace;
    assert !IsSpace(o.mark) by { MarkIsNoSpace(o.mark); }
    assert line[i] == o.mark && line[j - 1] == o.mark;
    TrimIs(line, i, j);
    assert forall k :: 0 <= k < j - i ==> line[i..j][k] == line[i + k];
  }

  lemma {:induction false} MarkIsNoSpace(mark: Unit)
    requires mark == TICK || mark == TILDE
    ensures !IsSpace(mark)
  {
  }

  lemma {:induction false} MarksBound(text: Text, p: nat, i: nat, j: nat, mark: Unit, n: nat)
    requires p <= |text| && OnlyMarks(text, p, i, j, mark, n)
    ensures p <= i <= j && j - i >= n
  {
    hide LineEnd, IsSpace;
  }

  lemma {:induction false} TrimStartIs(line: Text, i: nat)
    requires i < |line| && !IsSpace(line[i]) && Blanks(line, 0, i)
    ensures TrimStart(line) == line[i..]
    decreases i
  {
    hide IsSpace;
    if i == 0 {
      assert line[0..] == line;
    } else {
      assert forall k :: 0 <= k < |line| - 1 ==> line[1..][k] == line[k + 1];
      TrimStartIs(line[1..], i - 1);
      assert line[1..][i - 1..] == line[i..];
    }
  }

  lemma {:induction false} TrimEndIs(line: Text, j: nat)
    requires 0 < j <= |line| && !IsSpace(line[j - 1]) && Blanks(line, j, |line|)
    ensures TrimEnd(line) == line[..j]
    decreases |line|
  {
    hide IsSpace;
    var n := |line| - 1;
    if j == |line| {
      assert line[..j] == line;
    } else {
      assert IsSpace(line[n]);
      TrimEndIs(line[..n], j);
      assert line[..n][..j] == line[..j];
    }
  }

  /** White space around a text that begins and ends with none is what is trimmed. */
  lemma {:induction false} TrimIs(line: Text, i: nat, j: nat)
    requires i < j <= |line| && !IsSpace(line[i]) && !IsSpace(line[j - 1]) && Blanks(line, 0, i) && Blanks(line, j, |line|)
    ensures Trim(line) == line[i..j]
  {
    hide IsSpace, TrimStart, TrimEnd;
    TrimStartIs(line, i);
    var t := line[i..];
    assert t[j - i - 1] == line[j - 1];
    assert Blanks(t, j - i, |t|) by { forall k | j - i <= k < |t| ensures IsSpace(t[k]) { assert t[k] == line[i + k]; } }
    TrimEndIs(t, j - i);
    assert t[..j - i] == line[i..j];
  }

  // ---------------------------------------------------------------- the scan

  /** What the scan finds from `pos` on when no fence is open. */
  ghost predicate Right(text: Text, pos: nat, fs: seq<Fence>) {
    && (forall p: nat :: pos <= p ==> (StartsAt(fs, p) <==> OpensLine(text, p) && !Inside(fs, p)))
    && forall k :: 0 <= k < |fs| ==> pos <= fs[k].start < fs[k].end && IsFence(text, fs[k])
  }

  /** What it finds when a fence is open. */
  ghost predicate RightOpen(text: Text, pos: nat, o: OpenFence, fs: seq<Fence>) {
    && fs != [] && fs[0].start == o.start && fs[0].contentStart == o.contentStart
    && EndsRight(text, pos, o.opener.mark, o.opener.count, fs[0]) && Right(text, fs[0].end, fs[1..])
  }

  predicate OpenerOk(open: Option<OpenFence>) {
    open.Some? ==> open.value.opener.count >= 3 && (open.value.opener.mark == TICK || open.value.opener.mark == TILDE)
  }

  ghost predicate RightFrom(text: Text, pos: nat, open: Option<OpenFence>, fs: seq<Fence>) {
    if open.None? then Right(text, pos, fs) else RightOpen(text, pos, open.value, fs)
  }

  /** A line has no other start in it, and nothing opens at the end of the text. */
  lemma {:induction false} NoStartInside(text: Text, pos: nat, p: nat)
    requires pos <= |text| && (pos < p < AfterLine(text, pos) || p >= |text|)
    ensures !OpensLine(text, p)
    ensures forall mark, n: nat :: n >= 3 ==> !ClosesLine(text, p, mark, n)
  {
    hide RunLength;
  }

  lemma {:induction false} NothingAtEnd(text: Text)
    ensures Right(text, |text|, [])
  {
    hide OpensLine;
    forall p: nat | |text| <= p ensures !OpensLine(text, p) { NoStartInside(text, |text|, p); }
  }

  /** A line that opens nothing is passed over. */
  lemma {:induction false} PassLine(text: Text, pos: nat, fs: seq<Fence>)
    requires LineStart(text, pos) && !OpensLine(text, pos) && Right(text, AfterLine(text, pos), fs)
    ensures Right(text, pos, fs)
  {
    hide OpensLine, IsFence;
    forall p: nat | pos <= p < AfterLine(text, pos) ensures !OpensLine(text, p) { if p > pos { NoStartInside(text, pos, p); } }
    forall p: nat | pos <= p ensures StartsAt(fs, p) <==> OpensLine(text, p) && !Inside(fs, p) { }
  }

  /** A fence that opens here, and what follows it. */
  lemma {:induction false} OpenLine(text: Text, pos: nat, o: Opener, fs: seq<Fence>)
    requires OpensWith(text, pos, o.mark, o.count) && RightOpen(text, AfterLine(text, pos), OpenFence(o, pos, AfterLine(text, pos)), fs)
    requires fs != [] && fs[0].end > pos
    ensures Right(text, pos, fs)
  {
    hide OpensWith, EndsRight, AfterLine, IsFence, StartsAt, Inside;
    var f, rest := fs[0], fs[1..];
    assert IsFence(text, f) by { FenceHere(text, f, o); }
    forall k | 0 <= k < |fs| ensures pos <= fs[k].start < fs[k].end && IsFence(text, fs[k]) { if k > 0 { assert fs[k] == rest[k - 1]; } }
    forall p: nat | pos <= p ensures StartsAt(fs, p) <==> OpensLine(text, p) && !Inside(fs, p) { Onward(text, fs, p); }
  }

  lemma {:induction false} FenceHere(text: Text, f: Fence, o: Opener)
    requires OpensWith(text, f.start, o.mark, o.count) && f.contentStart == AfterLine(text, f.start) && EndsRight(text, f.contentStart, o.mark, o.count, f)
    ensures IsFence(text, f)
  {
    hide OpensWith, EndsRight, AfterLine;
  }

  lemma {:induction false} Onward(text: Text, fs: seq<Fence>, p: nat)
    requires fs != [] && fs[0].start <= p && fs[0].start < fs[0].end && OpensLine(text, fs[0].start) && Right(text, fs[0].end, fs[1..])
    ensures StartsAt(fs, p) <==> OpensLine(text, p) && !Inside(fs, p)
  {
    hide OpensLine, IsFence;
    var f, rest := fs[0], fs[1..];
    assert forall k :: 0 < k < |fs| ==> fs[k] == rest[k - 1];
    assert forall k :: 0 <= k < |rest| ==> rest[k] == fs[k + 1];
  }

  // ---------------------------------------------------------------- every text

  lemma {:induction false} NoneMore(text: Text, from: nat, to: nat, mark: Unit, n: nat)
    requires from <= |text| && n >= 3 && NoneCloses(text, AfterLine(text, from), to, mark, n) && !ClosesLine(text, from, mark, n)
    ensures NoneCloses(text, from, to, mark, n)
  {
    hide ClosesLine, AfterLine;
    forall c: nat | from <= c < to ensures !ClosesLine(text, c, mark, n) {
      if from < c < AfterLine(text, from) { NoStartInside(text, from, c); }
    }
  }

  /** A line that does not close the open fence is passed over. */
  lemma {:induction false} StayOpen(text: Text, pos: nat, o: OpenFence, fs: seq<Fence>)
    requires LineStart(text, pos) && o.opener.count >= 3 && !ClosesLine(text, pos, o.opener.mark, o.opener.count) && RightOpen(text, AfterLine(text, pos), o, fs)
    ensures RightOpen(text, pos, o, fs)
  {
    hide ClosesLine, Right, AfterLine, NoneCloses;
    var f := fs[0];
    NoneMore(text, pos, if f.closed then f.contentEnd else |text| + 1, o.opener.mark, o.opener.count) by {
      assert f.closed ==> f.contentEnd >= AfterLine(text, pos);
    }
  }

  lemma {:induction false} CloseHere(text: Text, pos: nat, o: OpenFence, rest: seq<Fence>)
    requires LineStart(text, pos) && ClosesLine(text, pos, o.opener.mark, o.opener.count) && Right(text, AfterLine(text, pos), rest)
    ensures RightOpen(text, pos, o, [Fence(o.start, AfterLine(text, pos), o.contentStart, pos, true)] + rest)
  {
    hide ClosesLine, Right, AfterLine;
    var fs := [Fence(o.start, AfterLine(text, pos), o.contentStart, pos, true)] + rest;
    assert fs[1..] == rest;
  }

  lemma {:induction false} NeverCloses(text: Text, o: OpenFence)
    requires o.opener.count >= 3
    ensures RightOpen(text, |text|, o, [Fence(o.start, |text|, o.contentStart, |text|, false)])
  {
    hide ClosesLine, Right;
    var fs := [Fence(o.start, |text|, o.contentStart, |text|, false)];
    assert fs[1..] == [];
    NothingAtEnd(text);
    forall c: nat | |text| <= c < |text| + 1 ensures !ClosesLine(text, c, o.opener.mark, o.opener.count) { NoStartInside(text, |text|, c); }
  }

  /** What is found behind the line at `pos`, by what that line left open. */
  function RestOf(text: Text, pos: nat, open: Option<OpenFence>): seq<Fence>
    requires pos <= |text|
  {
    if LineEnd(text, pos) < |text| then FencesFrom(text, AfterLine(text, pos), open) else Unclosed(text, open)
  }

  lemma {:induction false} FencesFromLine(text: Text, pos: nat, open: Option<OpenFence>)
    requires pos <= |text|
    ensures var (done, open') := FenceLine(text[pos..LineEnd(text, pos)], pos, AfterLine(text, pos), open);
            FencesFrom(text, pos, open) == done + RestOf(text, pos, open')
  {
    hide FenceLine, LineEnd, Unclosed, FencesFrom;
    FencesFromStep(text, pos, open);
  }

  /** A line either opens or closes a fence, or it is passed over. */
  lemma {:induction false} LineIsRight(text: Text, pos: nat, open: Option<OpenFence>)
    requires LineStart(text, pos) && OpenerOk(open)
    requires var (done, open') := FenceLine(text[pos..LineEnd(text, pos)], pos, AfterLine(text, pos), open);
             && OpenerOk(open') && RightFrom(text, AfterLine(text, pos), open', RestOf(text, pos, open'))
             && (open.None? && open'.Some? ==> RestOf(text, pos, open') != [] && RestOf(text, pos, open')[0].end > pos)
    ensures RightFrom(text, pos, open, FencesFrom(text, pos, open))
  {
    hide Right, RightOpen, LineEnd, FenceOpener, Closes, ClosesLine, OpensLine, FencesFrom, RestOf, Unclosed, AfterLine, OpensWith;
    var line := text[pos..LineEnd(text, pos)];
    FencesFromLine(text, pos, open);
    var (done, open') := FenceLine(line, pos, AfterLine(text, pos), open);
    var rest := RestOf(text, pos, open');
    match open {
      case None =>
        OpenerIs(text, pos);
        assert done + rest == rest;
        if open'.None? { PassLine(text, pos, rest); } else { OpenLine(text, pos, open'.value.opener, rest); }
      case Some(o) =>
        CloserIs(text, pos, o.opener);
        if open'.None? { CloseHere(text, pos, o, rest); } else { assert done + rest == rest; StayOpen(text, pos, o, rest); }
    }
  }

  lemma {:induction false} OpenedIsOk(text: Text, pos: nat, open: Option<OpenFence>)
    requires LineStart(text, pos) && OpenOk(text, pos, open) && OpenerOk(open)
    ensures var open' := FenceLine(text[pos..LineEnd(text, pos)], pos, AfterLine(text, pos), open).1;
            OpenerOk(open') && OpenOk(text, AfterLine(text, pos), open') && (open.None? && open'.Some? ==> pos < AfterLine(text, pos))
  {
    hide LineEnd, Closes;
    OpenerIs(text, pos);
    FenceLineOk(text, pos, LineEnd(text, pos), AfterLine(text, pos), open);
  }

  lemma {:induction false} ScanIsRight(text: Text, pos: nat, open: Option<OpenFence>)
    requires LineStart(text, pos) && OpenOk(text, pos, open) && OpenerOk(open)
    ensures RightFrom(text, pos, open, FencesFrom(text, pos, open))
    decreases |text| - pos
  {
    hide Right, RightOpen, FenceLine, FencesFrom, OpenOk;
    var next := AfterLine(text, pos);
    var open' := FenceLine(text[pos..LineEnd(text, pos)], pos, next, open).1;
    OpenedIsOk(text, pos, open);
    if LineEnd(text, pos) < |text| {
      ScanIsRight(text, next, open');
      FencesFromOk(text, next, open');
      EndsLater(text, pos, next, open', FencesFrom(text, next, open'));
    } else {
      if open'.None? { NothingAtEnd(text); } else { NeverCloses(text, open'.value); }
    }
    LineIsRight(text, pos, open);
  }

  lemma {:induction false} EndsLater(text: Text, pos: nat, next: nat, open: Option<OpenFence>, fs: seq<Fence>)
    requires pos < next <= |text| && FencesAfter(text, next, open, fs) && RightFrom(text, next, open, fs)
    ensures fs != [] ==> fs[0].end > pos
    ensures open.Some? ==> fs != []
  {
    hide Right, IsFence, ClosesLine;
  }

  /**
   * A fence begins exactly at a line that has at most three spaces and then a run of at least three backticks or tildes,
   * unless the line lies inside an earlier fence. It ends with the first later line of which only its mark is left when
   * white space is trimmed, at least as often as in its own run, or with the text when there is none.
   */
  lemma {:induction false} FencesAreExact(text: Text)
    ensures forall p: nat :: StartsAt(Fences(text), p) <==> OpensLine(text, p) && !Inside(Fences(text), p)
    ensures forall f :: f in Fences(text) ==> IsFence(text, f)
  {
    hide FencesFrom, OpensLine, IsFence;
    ScanIsRight(text, 0, None);
  }
}
