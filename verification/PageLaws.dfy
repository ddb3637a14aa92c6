/** Which citations and which cursor the text of a page chunk gives its reader (src/tools.ts). */
module PageLaws {
  import opened Text
  import opened Json
  import Atoms
  import opened PageLabels
  import opened PageReader

  /** The label stands in the chunk as a whole. */
  predicate StandsIn(p: Page, start: nat, end: nat, token: Text) {
    exists k :: 0 <= k < |Spans(p)| && Spans(p)[k].token == token && start <= Spans(p)[k].start && Spans(p)[k].end <= end
  }

  lemma {:induction false} ShownMore(cs: seq<Citation>, c: Citation, spans: seq<Span>, start: nat, end: nat)
    ensures Shown(cs + [c], spans, start, end) == Shown(cs, spans, start, end) + if InChunk(spans, start, end, c.token) then [c] else []
    decreases |cs|
  {
    if cs == [] {
      assert ([] + [c])[1..] == [] && cs + [c] == [c];
    } else {
      ShownMore(cs[1..], c, spans, start, end);
      assert (cs + [c])[1..] == cs[1..] + [c];
    }
  }

  /** The citations of a chunk are those of the page whose label stands in it, in the order of the page. */
  lemma {:induction false} ShownExactly(p: Page, start: nat, end: nat, n: nat)
    requires n <= |p.citations|
    ensures n == 0 ==> Shown(p.citations[..n], Spans(p), start, end) == []
    ensures n > 0 ==> Shown(p.citations[..n], Spans(p), start, end)
                      == Shown(p.citations[..n - 1], Spans(p), start, end) + if StandsIn(p, start, end, p.citations[n - 1].token) then [p.citations[n - 1]] else []
    ensures p.citations[..|p.citations|] == p.citations
  {
    hide Spans;
    if n > 0 {
      ShownMore(p.citations[..n - 1], p.citations[n - 1], Spans(p), start, end);
      assert p.citations[..n - 1] + [p.citations[n - 1]] == p.citations[..n];
    }
  }

  /** At `at` stands this number in digits, between a space and a semicolon. */
  predicate NumberAt(line: Text, at: nat, stop: nat, n: nat) {
    && 0 < at < stop < |line| && line[at - 1] == 32 && line[stop] == 59
    && Atoms.Digits(line[at..stop]) && Atoms.DecimalValue(line[at..stop]) == n
  }

  /** Behind the chunk, unless it is the last one, the text ends with a line that has the cursor of the next one. */
  lemma {:induction false} CursorIsWritten(p: Page, start: nat, end: nat)
    requires end < |Bytes(p)|
    ensures exists before: Text, line: Text, stop: nat :: Plain(p, Bytes(p), start, end) == before + line && NumberAt(line, 15, stop, end)
  {
    hide Bytes, RangeLine, ChunkText, Atoms.Decimal, Utf8, NextLine, NumberAt;
    var before := RangeLine(p, |Bytes(p)|, start, end) + ChunkText(Bytes(p), start, end);
    var line := NextLine(p, |Bytes(p)|, end);
    var stop := NextLineSays(p, |Bytes(p)|, end);
    assert Plain(p, Bytes(p), start, end) == before + line;
  }

  lemma {:induction false} NextLineSays(p: Page, total: nat, end: nat) returns (stop: nat)
    requires end < total
    ensures NumberAt(NextLine(p, total, end), 15, stop, end)
  {
    hide Atoms.Decimal, NextLine;
    stop := 15 + |Atoms.Decimal(end)|;
    NextLineIs(p, total, end);
    Atoms.DecimalReads(end);
  }

  lemma {:induction false} NextLineIs(p: Page, total: nat, end: nat)
    requires end < total
    ensures var line, d := NextLine(p, total, end), Atoms.Decimal(end);
            |line| > 15 + |d| && d != [] && line[14] == 32 && line[15 + |d|] == 59 && line[15..15 + |d|] == d
  {
    hide Atoms.Decimal;
    var d := Atoms.Decimal(end);
    var left := [NEWLINE, NEWLINE] + Ascii("Next cursor: ");
    var right := Ascii("; continue with headRevisionId ") + p.head + Ascii(".");
    assert |left| == 15 && left[14] == 32 && right[0] == 59;
    assert NextLine(p, total, end) == left + d + right;
  }
}
