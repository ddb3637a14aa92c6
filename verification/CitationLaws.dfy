/** What a label is, what it may say, and what is cited for it, spelled out over texts and sources (src/citations.ts). */
module CitationLaws {
  import opened Text
  import opened CodeRanges
  import opened Splice
  import opened Labels
  import opened Atoms
  import opened Tokens
  import opened Citations
  import opened Persist
  import opened Repeats

  // ---------------------------------------------------------------- labels

  /** `[S` with digits and then nothing or a colon and any body, or `[R` with a colon in its body; bodies hold no bracket or line break. */
  predicate IsLabel(text: Text, p: nat, e: nat) {
    && p + 3 <= e <= |text| && text[p] == 91 && text[e - 1] == 93
    && (forall k :: p < k < e - 1 ==> text[k] != 91 && text[k] != 93 && text[k] != 10)
    && (text[p + 1] == 83 || text[p + 1] == 82)
    && (text[p + 1] == 83 ==> exists d :: p + 2 < d < e && (forall k :: p + 2 <= k < d ==> 48 <= text[k] <= 57) && (d == e - 1 || text[d] == 58))
    && (text[p + 1] == 82 ==> exists c :: p + 1 < c < e - 1 && text[c] == 58)
  }

  lemma {:induction false} LabelAtExactly(text: Text, p: nat, e: nat)
    requires p < |text|
    ensures IsLabel(text, p, e) <==> LabelAt(text, p) > 0 && e == p + LabelAt(text, p)
  {
    hide IsLabel, LabelAt;
    if IsLabel(text, p, e) { LabelIsFound(text, p, e); }
    if LabelAt(text, p) > 0 { LabelAtIs(text, p); }
  }

  lemma {:induction false} LabelIsFound(text: Text, p: nat, e: nat)
    requires p < |text| && IsLabel(text, p, e)
    ensures LabelAt(text, p) == e - p > 0
  {
    hide BodyEnd, LabelBody;
    BodyEndUnique(text, p + 1, e - 1);
    assert LabelBody(text[p + 1..e - 1]) by { BodyIsLabel(text, p, e); }
  }

  lemma {:induction false} BodyIsLabel(text: Text, p: nat, e: nat)
    requires p < |text| && IsLabel(text, p, e)
    ensures LabelBody(text[p + 1..e - 1])
  {
    hide DigitRun;
    var b := text[p + 1..e - 1];
    assert b[0] == text[p + 1];
    if text[p + 1] == 83 {
      var d :| p + 2 < d < e && (forall k :: p + 2 <= k < d ==> 48 <= text[k] <= 57) && (d == e - 1 || text[d] == 58);
      assert forall k :: 1 <= k < |b| ==> b[k] == text[p + 1 + k];
      DigitRunUnique(b, 1, d - p - 2);
    } else {
      var c :| p + 1 < c < e - 1 && text[c] == 58;
      assert b[c - p - 1] == COLON;
    }
  }

  lemma {:induction false} LabelAtIs(text: Text, p: nat)
    requires p < |text| && LabelAt(text, p) > 0
    ensures IsLabel(text, p, p + LabelAt(text, p))
  {
    hide BodyEnd, DigitRun;
    var e := p + LabelAt(text, p);
    var b := text[p + 1..e - 1];
    assert LabelBody(b) && b[0] == text[p + 1];
    assert forall k :: 0 <= k < |b| ==> b[k] == text[p + 1 + k];
    if b[0] == UPPER_S {
      var d := p + 2 + DigitRun(b, 1);
      assert forall k :: p + 2 <= k < d ==> text[k] == b[k - p - 1];
      assert d == e - 1 || text[d] == b[d - p - 1];
    } else {
      var k :| 0 <= k < |b| && b[k] == COLON;
      assert text[p + 1 + k] == 58;
    }
  }

  /** A label of the text that begins outside code. */
  ghost predicate Stands(text: Text, p: nat) { p < |text| && (exists e: nat :: IsLabel(text, p, e)) && !InRanges(Code(text), p) }

  /** Where piece `k` begins. */
  function StartOf(ps: seq<Piece>, k: nat): nat
    requires k <= |ps|
  {
    if k == 0 then 0 else StartOf(ps, k - 1) + |Spelled(ps[k - 1])|
  }

  lemma {:induction false} StartShifts(x: Piece, ps: seq<Piece>, k: nat)
    requires k <= |ps|
    ensures StartOf([x] + ps, k + 1) == |Spelled(x)| + StartOf(ps, k)
  {
    if k > 0 { StartShifts(x, ps, k - 1); }
  }

  lemma {:induction false} StandsIs(text: Text, p: nat)
    requires p < |text|
    ensures Stands(text, p) <==> LabelAt(text, p) > 0 && !InRanges(Code(text), p)
  {
    hide IsLabel, LabelAt, Code, InRanges;
    LabelAtExactly(text, p, p + LabelAt(text, p));
    forall e: nat | IsLabel(text, p, e) ensures LabelAt(text, p) > 0 { LabelAtExactly(text, p, e); }
  }

  /** A label has no other label in it. */
  lemma {:induction false} NoneInside(text: Text, p: nat, q: nat)
    requires p < |text| && p < q < p + LabelAt(text, p)
    ensures !Stands(text, q)
  {
    hide Code, InRanges, BodyEnd, LabelBody;
  }

  /** The piece that begins at `q`, counted from `p`. */
  ghost predicate BeginsAt(ps: seq<Piece>, p: nat, q: nat) { exists k: nat :: k < |ps| && ps[k].Label? && p + StartOf(ps, k) == q }

  lemma {:induction false} BeginsCons(x: Piece, ps: seq<Piece>, p: nat, q: nat)
    ensures BeginsAt([x] + ps, p, q) <==> (x.Label? && p == q) || BeginsAt(ps, p + |Spelled(x)|, q)
  {
    hide StartOf;
    var all := [x] + ps;
    assert StartOf(all, 0) == 0 by { NoStart(all); }
    if k: nat :| k < |all| && all[k].Label? && p + StartOf(all, k) == q {
      if k > 0 { StartShifts(x, ps, k - 1); assert ps[k - 1] == all[k]; }
    }
    if x.Label? && p == q { assert all[0] == x; }
    if k: nat :| k < |ps| && ps[k].Label? && p + |Spelled(x)| + StartOf(ps, k) == q {
      StartShifts(x, ps, k);
      assert all[k + 1] == ps[k];
    }
  }

  lemma {:induction false} NoStart(ps: seq<Piece>)
    ensures StartOf(ps, 0) == 0
  {
  }

  /** The label pieces of a text are exactly its labels outside code. */
  lemma {:induction false} PiecesFromAreLabels(text: Text, p: nat, q: nat)
    requires p <= |text|
    ensures BeginsAt(PiecesFrom(text, p), p, q) <==> p <= q && Stands(text, q)
    decreases |text| - p
  {
    hide PiecesFrom, Stands, LabelAt, Code, InRanges, BeginsAt;
    if p == |text| {
      PiecesEnd(text);
      NothingBegins(text, p, q);
    } else {
      PiecesStep(text, p);
      StandsIs(text, p);
      var n := LabelAt(text, p);
      if n > 0 && !InRanges(Code(text), p) {
        PiecesFromAreLabels(text, p + n, q);
        BeginsCons(Label(text[p..p + n]), PiecesFrom(text, p + n), p, q);
        if p < q < p + n { NoneInside(text, p, q); }
      } else {
        PiecesFromAreLabels(text, p + 1, q);
        BeginsCons(Plain(text[p]), PiecesFrom(text, p + 1), p, q);
      }
    }
  }

  lemma {:induction false} NothingBegins(text: Text, p: nat, q: nat)
    requires p == |text|
    ensures !BeginsAt([], p, q) && (p <= q ==> !Stands(text, q))
  {
  }

  /** The labels that are judged are exactly the labels of the text that begin outside code. */
  lemma {:induction false} PiecesAreLabels(text: Text, q: nat)
    ensures BeginsAt(Pieces(text), 0, q) <==> Stands(text, q)
  {
    hide PiecesFrom, Stands, BeginsAt;
    PiecesFromAreLabels(text, 0, q);
  }

  // ---------------------------------------------------------------- what a label may say

  /** A revision id: five groups of hexadecimal digits, joined by dashes. */
  predicate RevisionId(h: Text) {
    && |h| == 36 && h[8] == 45 && h[13] == 45 && h[18] == 45 && h[23] == 45
    && forall k :: 0 <= k < 36 && k != 8 && k != 13 && k != 18 && k != 23 ==> 48 <= h[k] <= 57 || 65 <= h[k] <= 70 || 97 <= h[k] <= 102
  }

  /** One or more decimal digits. */
  predicate Number(s: Text) { |s| > 0 && forall k :: 0 <= k < |s| ==> 48 <= s[k] <= 57 }

  /** The only source with this alias, or with this revision id. */
  predicate NamedBy(kind: Unit, head: Text, source: nat, sources: seq<LabelSource>) {
    source < |sources| &&
    if kind == 83 then Number(head) && sources[source].alias == [83] + head && forall j :: 0 <= j < |sources| && j != source ==> sources[j].alias != [83] + head
    else kind == 82 && RevisionId(head) && sources[source].revisionId == head && forall j :: 0 <= j < |sources| && j != source ==> sources[j].revisionId != head
  }

  /** The atom is `[`, kind, head, `:`, tail, `]`; head names one source and tail the block. */
  predicate Spells(atom: Text, kind: Unit, head: Text, tail: Text, at: Parsed, sources: seq<LabelSource>) {
    && atom == [91, kind] + head + [58] + tail + [93] && Number(tail) && DecimalValue(tail) == at.block && NamedBy(kind, head, at.source, sources)
  }

  /** The atom spells a block of exactly one source, and this is where the last block of that number lies. */
  ghost predicate Says(atom: Text, c: Cited, sources: seq<LabelSource>) {
    && c.atom == atom && c.at.source < |sources| && 1 <= c.at.block <= MAX_SAFE
    && LastBlock(sources[c.at.source].blocks, c.at.block, Block(c.at.block, c.at.start, c.at.end))
    && exists kind: Unit, head: Text, tail: Text :: Spells(atom, kind, head, tail, c.at, sources)
  }

  lemma {:induction false} NamesIs(kind: Unit, head: Text, tail: Text, at: Parsed, sources: seq<LabelSource>)
    ensures Names(kind, head, tail, at, sources) <==>
              && at.source < |sources| && 1 <= at.block <= MAX_SAFE && LastBlock(sources[at.source].blocks, at.block, Block(at.block, at.start, at.end))
              && Number(tail) && DecimalValue(tail) == at.block && NamedBy(kind, head, at.source, sources)
  {
    hide LastBlock, DecimalValue;
    assert Digits(tail) <==> Number(tail);
    assert Digits(head) <==> Number(head);
    UuidIs(head);
  }

  lemma {:induction false} SpellsIs(atom: Text, kind: Unit, head: Text, tail: Text, at: Parsed, sources: seq<LabelSource>)
    ensures atom == Spell(kind, head, tail) && Names(kind, head, tail, at, sources) <==>
              Spells(atom, kind, head, tail, at, sources) && at.source < |sources| && 1 <= at.block <= MAX_SAFE
              && LastBlock(sources[at.source].blocks, at.block, Block(at.block, at.start, at.end))
  {
    hide Names, LastBlock, DecimalValue, NamedBy;
    NamesIs(kind, head, tail, at, sources);
  }

  lemma {:induction false} UuidIs(h: Text)
    ensures Uuid(h) <==> RevisionId(h)
  {
  }

  /** A single atom cites exactly what it says. */
  lemma {:induction false} AtomExactly(atom: Text, c: Cited, maps: ScopeMaps, sources: seq<LabelSource>)
    requires Bracketed(atom) && MapsFor(maps, sources)
    ensures CitedAtom(atom, maps) == Some(c) <==> Says(atom, c, sources)
  {
    hide ParseToken, Names, MapsFor, LastBlock, Spell, Spells;
    ParseTokenExact(atom, c.at, maps, sources);
    if kind: Unit, head: Text, tail: Text :| atom == Spell(kind, head, tail) && Names(kind, head, tail, c.at, sources) {
      SpellsIs(atom, kind, head, tail, c.at, sources);
    }
    if kind: Unit, head: Text, tail: Text :| Spells(atom, kind, head, tail, c.at, sources) {
      SpellsIs(atom, kind, head, tail, c.at, sources);
    }
  }

  // ---------------------------------------------------------------- groups and pairs

  /** The parts between the commas of a group. */
  ghost predicate CommaParts(s: Text, parts: seq<Text>) {
    parts != [] && JoinCommas(parts) == s && forall k :: 0 <= k < |parts| ==> 44 !in parts[k]
  }

  /** `S1:5`: a compact label without its brackets. */
  ghost predicate IsCompact(s: Text) { exists head, tail :: Number(head) && Number(tail) && s == [83] + head + [58] + tail }

  predicate Spaces(s: Text) { forall k :: 0 <= k < |s| ==> IsSpace(s[k]) }

  predicate PairOf(s: Text, a: Text, left: Text, dash: Unit, right: Text, b: Text) {
    s == a + left + [dash] + right + b && dash in {45, 0x2013, 0x2014} && Spaces(left) && Spaces(right)
  }

  /** Two compact labels with one dash between them, and white space around it if any. */
  ghost predicate IsPair(s: Text, a: Text, b: Text) {
    IsCompact(a) && IsCompact(b) && exists left: Text, dash: Unit, right: Text :: PairOf(s, a, left, dash, right, b)
  }

  lemma {:induction false} CompactIs(s: Text, i: nat, a: Text)
    requires i + |a| <= |s| && s[i..i + |a|] == a && IsCompact(a) && (i + |a| < |s| ==> !IsDigit(s[i + |a|]))
    ensures Compact(s, i) == |a| > 0
  {
    hide DigitRun;
    var head, tail :| Number(head) && Number(tail) && a == [83] + head + [58] + tail;
    var j := i + 1 + |head|;
    assert forall k :: 0 <= k < |a| ==> s[i + k] == a[k];
    assert s[i] == 83 && s[j] == a[1 + |head|] == 58;
    forall k | i + 1 <= k < j ensures IsDigit(s[k]) { assert s[k] == a[k - i] == head[k - i - 1]; }
    DigitRunUnique(s, i + 1, |head|);
    forall k | j + 1 <= k < i + |a| ensures IsDigit(s[k]) { assert s[k] == a[k - i] == tail[k - j - 1]; }
    DigitRunUnique(s, j + 1, |tail|);
  }

  lemma {:induction false} CompactReads(s: Text, i: nat)
    requires i <= |s| && Compact(s, i) > 0
    ensures IsCompact(s[i..i + Compact(s, i)])
  {
    hide DigitRun;
    var d := DigitRun(s, i + 1);
    var j := i + 1 + d;
    var e := DigitRun(s, j + 1);
    var head, tail := s[i + 1..j], s[j + 1..j + 1 + e];
    assert Number(head) && Number(tail);
    assert s[i..i + Compact(s, i)] == [83] + head + [58] + tail;
  }

  lemma {:induction false} SpaceRunUnique(s: Text, i: nat, n: nat)
    requires i + n <= |s| && (forall k :: i <= k < i + n ==> IsSpace(s[k])) && (i + n < |s| ==> !IsSpace(s[i + n]))
    ensures SpaceRun(s, i) == n
    decreases n
  {
    hide IsSpace;
    if n > 0 { SpaceRunUnique(s, i + 1, n - 1); }
  }

  lemma {:induction false} CompactFirst(a: Text)
    requires IsCompact(a)
    ensures |a| >= 4 && a[0] == 83
  {
  }

  lemma {:induction false} PairPlaces(s: Text, a: Text, left: Text, dash: Unit, right: Text, b: Text)
    requires PairOf(s, a, left, dash, right, b)
    ensures var i, j := |a| + |left|, |a| + |left| + 1 + |right|;
            && |s| == j + |b| && s[..|a|] == a && s[j..] == b && s[i] == dash
            && (forall k :: |a| <= k < i ==> IsSpace(s[k])) && forall k :: i + 1 <= k < j ==> IsSpace(s[k])
  {
    hide IsSpace;
    var i, j := |a| + |left|, |a| + |left| + 1 + |right|;
    forall k | |a| <= k < i ensures IsSpace(s[k]) { assert s[k] == left[k - |a|]; }
    forall k | i + 1 <= k < j ensures IsSpace(s[k]) { assert s[k] == right[k - i - 1]; }
  }

  lemma {:induction false} PairParts(s: Text, a: Text, left: Text, dash: Unit, right: Text, b: Text)
    requires PairOf(s, a, left, dash, right, b) && IsCompact(a) && IsCompact(b)
    ensures AdjacentPair(s) == Some((a, b))
  {
    hide IsCompact, Compact, SpaceRun, IsSpace, PairOf;
    PairPlaces(s, a, left, dash, right, b);
    assert dash in {45, 0x2013, 0x2014} by { PairDash(s, a, left, dash, right, b); }
    CompactFirst(a);
    CompactFirst(b);
    var i := |a| + |left|;
    var j := i + 1 + |right|;
    assert s[j] == b[0];
    assert s[0..|a|] == a && s[j..j + |b|] == b;
    DashIs(dash);
    SpaceIs(s[|a|]);
    CompactIs(s, 0, a);
    SpaceRunUnique(s, |a|, |left|);
    SpaceRunUnique(s, i + 1, |right|);
    CompactIs(s, j, b);
  }

  lemma {:induction false} PairDash(s: Text, a: Text, left: Text, dash: Unit, right: Text, b: Text)
    requires PairOf(s, a, left, dash, right, b)
    ensures dash in {45, 0x2013, 0x2014}
  {
  }

  lemma {:induction false} DashIs(u: Unit)
    ensures IsDash(u) <==> u in {45, 0x2013, 0x2014}
    ensures IsDash(u) ==> !IsSpace(u) && !IsDigit(u)
    ensures !IsSpace(83)
  {
  }

  lemma {:induction false} SpaceIs(u: Unit)
    ensures IsSpace(u) ==> !IsDigit(u)
  {
  }

  /** A pair is found exactly where there is one. */
  lemma {:induction false} PairExactly(s: Text, a: Text, b: Text)
    ensures AdjacentPair(s) == Some((a, b)) <==> IsPair(s, a, b)
  {
    hide IsCompact, AdjacentPair, PairOf;
    if AdjacentPair(s) == Some((a, b)) { PairReads(s, a, b); }
    if IsPair(s, a, b) {
      var left: Text, dash: Unit, right: Text :| PairOf(s, a, left, dash, right, b);
      PairParts(s, a, left, dash, right, b);
    }
  }

  lemma {:induction false} PairReads(s: Text, a: Text, b: Text)
    requires AdjacentPair(s) == Some((a, b))
    ensures IsPair(s, a, b)
  {
    hide Compact, SpaceRun, IsSpace, IsCompact, PairOf;
    var n := Compact(s, 0);
    var i := n + SpaceRun(s, n);
    var j := i + 1 + SpaceRun(s, i + 1);
    CompactReads(s, 0);
    CompactReads(s, j);
    DashIs(s[i]);
    assert s[0..n] == a && s[j..j + Compact(s, j)] == b;
    assert PairOf(s, a, s[n..i], s[i], s[i + 1..j], b) by { PairCut(s, n, i, j); assert s[..n] == a && s[j..] == b; }
  }

  lemma {:induction false} PairCut(s: Text, n: nat, i: nat, j: nat)
    requires n <= i < j <= |s| && s[i] in {45, 0x2013, 0x2014}
    requires (forall k :: n <= k < i ==> IsSpace(s[k])) && forall k :: i + 1 <= k < j ==> IsSpace(s[k])
    ensures PairOf(s, s[..n], s[n..i], s[i], s[i + 1..j], s[j..])
  {
    hide IsSpace;
    assert s == s[..n] + s[n..i] + [s[i]] + s[i + 1..j] + s[j..];
  }

  // ---------------------------------------------------------------- what is accepted

  ghost predicate SaysAll(atoms: seq<Text>, cited: seq<Cited>, sources: seq<LabelSource>) {
    |cited| == |atoms| && forall k :: 0 <= k < |atoms| ==> Says(atoms[k], cited[k], sources)
  }

  ghost predicate PairMeans(inner: Text, a: Text, b: Text, cited: seq<Cited>, sources: seq<LabelSource>) {
    && IsPair(inner, a, b) && SaysAll([[91] + a + [93], [91] + b + [93]], cited, sources)
    && |cited| == 2 && cited[0].at.source == cited[1].at.source && cited[1].at.block == cited[0].at.block + 1
  }

  ghost predicate GroupMeans(inner: Text, parts: seq<Text>, cited: seq<Cited>, sources: seq<LabelSource>) {
    CommaParts(inner, parts) && SaysAll(WrapAll(parts), cited, sources)
  }

  /**
   * A label with a comma cites its trimmed parts, each in brackets; two compact labels around a dash cite both, when the
   * second block follows the first in the same source; any other label cites the one passage that it names.
   */
  ghost predicate Means(token: Text, cited: seq<Cited>, sources: seq<LabelSource>)
    requires Bracketed(token)
  {
    var inner := token[1..|token| - 1];
    if 44 in inner then exists parts :: GroupMeans(inner, parts, cited, sources)
    else if exists a, b :: IsPair(inner, a, b) then exists a, b :: PairMeans(inner, a, b, cited, sources)
    else SaysAll([token], cited, sources)
  }

  lemma {:induction false} PartsUnique(parts: seq<Text>, other: seq<Text>)
    requires parts != [] && other != [] && JoinCommas(parts) == JoinCommas(other)
    requires (forall k :: 0 <= k < |parts| ==> COMMA !in parts[k]) && forall k :: 0 <= k < |other| ==> COMMA !in other[k]
    ensures parts == other
    decreases |parts|
  {
    FirstPart(parts);
    FirstPart(other);
    var s := JoinCommas(parts);
    SameFirst(s, parts[0], other[0]);
    assert parts[0] == s[..|parts[0]|] == other[0];
    if |parts| > 1 {
      assert JoinCommas(parts[1..]) == s[|parts[0]| + 1..] == JoinCommas(other[1..]);
      PartsUnique(parts[1..], other[1..]);
      assert parts == [parts[0]] + parts[1..] && other == [other[0]] + other[1..];
    } else {
      assert parts == [parts[0]] && other == [other[0]];
    }
  }

  /** Two beginnings without a comma that are followed by one, or by nothing, are the same. */
  lemma {:induction false} SameFirst(s: Text, a: Text, b: Text)
    requires |a| <= |s| && |b| <= |s| && s[..|a|] == a && s[..|b|] == b && COMMA !in a && COMMA !in b
    requires (|a| < |s| ==> s[|a|] == COMMA) && (|b| < |s| ==> s[|b|] == COMMA)
    ensures a == b
  {
    assert |a| == |b|;
  }

  lemma {:induction false} FirstPart(parts: seq<Text>)
    requires parts != []
    ensures var s := JoinCommas(parts);
            && |parts[0]| <= |s| && s[..|parts[0]|] == parts[0]
            && (|parts| == 1 <==> |s| == |parts[0]|)
            && (|parts| > 1 ==> s[|parts[0]|] == COMMA && s[|parts[0]| + 1..] == JoinCommas(parts[1..]))
  {
  }

  lemma {:induction false} CiteAllExactly(atoms: seq<Text>, cited: seq<Cited>, maps: ScopeMaps, sources: seq<LabelSource>)
    requires AllBracketed(atoms) && MapsFor(maps, sources)
    ensures CiteAll(atoms, maps) == Some(cited) <==> SaysAll(atoms, cited, sources)
  {
    hide ParseToken, MapsFor, Says, CitedAtom;
    if |cited| == |atoms| {
      forall k | 0 <= k < |atoms| ensures CitedAtom(atoms[k], maps) == Some(cited[k]) <==> Says(atoms[k], cited[k], sources) {
        AtomExactly(atoms[k], cited[k], maps, sources);
      }
      forall k | 0 <= k < |atoms| ensures CitedAtom(atoms[k], maps).Some? <==> ParseToken(atoms[k], maps).Some? { CitedIs(atoms[k], maps); }
      if SaysAll(atoms, cited, sources) { assert CiteAll(atoms, maps).value == cited; }
    }
  }

  lemma {:induction false} CitedIs(atom: Text, maps: ScopeMaps)
    requires Bracketed(atom)
    ensures CitedAtom(atom, maps).Some? <==> ParseToken(atom, maps).Some?
  {
    hide ParseToken;
  }

  lemma {:induction false} GroupAccepts(token: Text, cited: seq<Cited>, maps: ScopeMaps, sources: seq<LabelSource>)
    requires Bracketed(token) && MapsFor(maps, sources) && COMMA in Inner(token)
    ensures Accept(token, maps) == Some(cited) <==> exists parts :: GroupMeans(Inner(token), parts, cited, sources)
  {
    hide MapsFor, SaysAll, CiteAll, JoinCommas, SplitCommas, AdjacentPair;
    var inner := Inner(token);
    SplitJoins(inner);
    CiteAllExactly(WrapAll(SplitCommas(inner)), cited, maps, sources);
    assert CommaParts(inner, SplitCommas(inner));
    assert SaysAll(WrapAll(SplitCommas(inner)), cited, sources) ==> GroupMeans(inner, SplitCommas(inner), cited, sources);
    forall parts | CommaParts(inner, parts) ensures parts == SplitCommas(inner) { PartsUnique(parts, SplitCommas(inner)); }
  }

  lemma {:induction false} PairAccepts(token: Text, a: Text, b: Text, cited: seq<Cited>, maps: ScopeMaps, sources: seq<LabelSource>)
    requires Bracketed(token) && MapsFor(maps, sources) && COMMA !in Inner(token) && AdjacentPair(Inner(token)) == Some((a, b))
    ensures Accept(token, maps) == Some(cited) <==> exists c, d :: PairMeans(Inner(token), c, d, cited, sources)
  {
    hide MapsFor, SaysAll, CiteAll, IsPair, AdjacentPair;
    var inner := Inner(token);
    CiteAllExactly([Wrap(a), Wrap(b)], cited, maps, sources);
    PairExactly(inner, a, b);
    if SaysAll([Wrap(a), Wrap(b)], cited, sources) { TwoSaid(Wrap(a), Wrap(b), cited, sources); }
    assert Accept(token, maps) == Some(cited) <==> PairMeans(inner, a, b, cited, sources);
    forall c, d | PairMeans(inner, c, d, cited, sources) ensures c == a && d == b { PairExactly(inner, c, d); }
  }

  lemma {:induction false} OneAccepts(token: Text, cited: seq<Cited>, maps: ScopeMaps, sources: seq<LabelSource>)
    requires Bracketed(token) && MapsFor(maps, sources) && COMMA !in Inner(token) && AdjacentPair(Inner(token)).None?
    ensures Accept(token, maps) == Some(cited) <==> SaysAll([token], cited, sources)
  {
    hide MapsFor, SaysAll, CiteAll, AdjacentPair;
    CiteAllExactly([token], cited, maps, sources);
  }

  /** A label is accepted, for these passages, exactly when it means them. */
  lemma {:induction false} AcceptExactly(token: Text, cited: seq<Cited>, maps: ScopeMaps, sources: seq<LabelSource>)
    requires Bracketed(token) && MapsFor(maps, sources)
    ensures Accept(token, maps) == Some(cited) <==> Means(token, cited, sources)
  {
    hide MapsFor, SaysAll, Accept, IsPair, AdjacentPair, GroupMeans, PairMeans;
    var inner := Inner(token);
    if COMMA in inner {
      GroupAccepts(token, cited, maps, sources);
    } else {
      forall a, b ensures AdjacentPair(inner) == Some((a, b)) <==> IsPair(inner, a, b) { PairExactly(inner, a, b); }
      if AdjacentPair(inner).Some? {
        var (a, b) := AdjacentPair(inner).value;
        PairAccepts(token, a, b, cited, maps, sources);
      } else {
        OneAccepts(token, cited, maps, sources);
      }
    }
  }

  lemma {:induction false} TwoSaid(a: Text, b: Text, cited: seq<Cited>, sources: seq<LabelSource>)
    requires SaysAll([a, b], cited, sources)
    ensures |cited| == 2
  {
  }

  // ---------------------------------------------------------------- what is cited

  /** In a frozen scope a label is cited for exactly the passages that it means. */
  lemma {:induction false} JudgeExactly(token: Text, cited: seq<Cited>, scope: Scope)
    requires Frozen(scope) && Bracketed(token)
    ensures Judge(token, scope) == Some(cited) <==> Means(token, cited, scope.sources)
  {
    hide Accept, Means, MapsFor;
    AcceptExactly(token, cited, scope.maps, scope.sources);
    if Accept(token, scope.maps).Some? {
      var all := Accept(token, scope.maps).value;
      AcceptExactly(token, all, scope.maps, scope.sources);
      MeansSources(token, all, scope.sources);
    }
  }

  lemma {:induction false} MeansSources(token: Text, cited: seq<Cited>, sources: seq<LabelSource>)
    requires Bracketed(token) && Means(token, cited, sources)
    ensures forall c :: c in cited ==> c.at.source < |sources|
  {
    hide IsPair, CommaParts, LastBlock, NamedBy, Number, IsCompact;
  }

  /** The citation of a passage: its source as it is frozen, the place of its block, and the label that was written. */
  predicate CitesPassage(c: Citation, at: Parsed, atom: Text, sources: seq<LabelSource>) {
    && at.source < |sources|
    && c.revisionId == sources[at.source].revisionId && c.sourceId == sources[at.source].sourceId && c.title == sources[at.source].title
    && c.block == at.block && c.start == at.start && c.end == at.end && !c.deleted && c.token == atom
  }

  /** The passages of the accepted labels, in the order of the text. */
  function Passages(ps: seq<Piece>, scope: Scope): (all: seq<Cited>)
    ensures forall c :: c in all ==> c.at.source < |scope.sources|
  {
    if ps == [] then []
    else (if ps[0].Label? && Judge(ps[0].token, scope).Some? then Judge(ps[0].token, scope).value else []) + Passages(ps[1..], scope)
  }

  predicate SamePassage(c: Citation, at: Parsed, sources: seq<LabelSource>) {
    at.source < |sources| && c.revisionId == sources[at.source].revisionId && c.block == at.block
  }

  /** The passage at place `m` was mentioned before. */
  predicate SeenBefore(cs: seq<Citation>, at: Parsed, sources: seq<LabelSource>) {
    exists k :: 0 <= k < |cs| && SamePassage(cs[k], at, sources)
  }

  /** `cs` with a citation for each passage that it does not have yet, in order. */
  ghost predicate CitesFirst(cs: seq<Citation>, all: seq<Cited>, result: seq<Citation>, sources: seq<LabelSource>)
    decreases |all|
  {
    if all == [] then result == cs
    else if SeenBefore(cs, all[0].at, sources) then CitesFirst(cs, all[1..], result, sources)
    else exists c :: CitesPassage(c, all[0].at, all[0].atom, sources) && CitesFirst(cs + [c], all[1..], result, sources)
  }

  lemma {:induction false} SeenIs(cs: seq<Citation>, c: Cited, scope: Scope)
    requires c.at.source < |scope.sources|
    ensures KeyOf(Cite(c, scope.sources[c.at.source])) in Seen(cs) <==> SeenBefore(cs, c.at, scope.sources)
  {
    var key := KeyOf(Cite(c, scope.sources[c.at.source]));
    SeenIsCited(cs, key);
    if key in Seen(cs) {
      var d :| d in cs && KeyOf(d) == key;
      var k :| 0 <= k < |cs| && cs[k] == d;
      assert SamePassage(cs[k], c.at, scope.sources);
    }
    if k :| 0 <= k < |cs| && SamePassage(cs[k], c.at, scope.sources) { assert cs[k] in cs; }
  }

  lemma {:induction false} EmitAllCites(cited: seq<Cited>, scope: Scope, cs: seq<Citation>, more: seq<Cited>, result: seq<Citation>)
    requires forall c :: c in cited ==> c.at.source < |scope.sources|
    requires CitesFirst(EmitAll(cited, scope, cs).1, more, result, scope.sources)
    ensures CitesFirst(cs, cited + more, result, scope.sources)
    decreases |cited|
  {
    hide Seen, SeenBefore;
    if cited == [] {
      assert cited + more == more;
    } else {
      var c := cited[0];
      assert c in cited;
      SeenIs(cs, c, scope);
      var next := Emit(c, scope, cs).1;
      EmitAllCites(cited[1..], scope, next, more, result);
      assert (cited + more)[0] == c && (cited + more)[1..] == cited[1..] + more;
      if !SeenBefore(cs, c.at, scope.sources) {
        assert next == cs + [Cite(c, scope.sources[c.at.source])];
        assert CitesPassage(Cite(c, scope.sources[c.at.source]), c.at, c.atom, scope.sources);
      }
    }
  }

  lemma {:induction false} RunCites(ps: seq<Piece>, scope: Scope, cs: seq<Citation>)
    ensures CitesFirst(cs, Passages(ps, scope), Run(ps, scope, cs).citations, scope.sources)
    decreases |ps|
  {
    hide Judge, EmitAll, Seen, CitesFirst;
    if ps == [] {
      NothingCites(cs, scope.sources);
    } else {
      var next := Place(ps[0], scope, cs).citations;
      RunCites(ps[1..], scope, next);
      var here := if ps[0].Label? && Judge(ps[0].token, scope).Some? then Judge(ps[0].token, scope).value else [];
      if here == [] { NoEmit(scope, cs); }
      EmitAllCites(here, scope, cs, Passages(ps[1..], scope), Run(ps, scope, cs).citations);
    }
  }

  lemma {:induction false} NothingCites(cs: seq<Citation>, sources: seq<LabelSource>)
    ensures CitesFirst(cs, [], cs, sources)
  {
  }

  lemma {:induction false} NoEmit(scope: Scope, cs: seq<Citation>)
    ensures EmitAll([], scope, cs) == ([], cs)
  {
  }

  /**
   * The citations of an answer are those of the passages that its accepted labels mean, each at its first mention, with
   * the frozen source, the place of the block and the label as it was written there.
   */
  lemma {:induction false} CitationsAreFirstMentions(answer: Text, scope: Scope)
    ensures CitesFirst([], Passages(Pieces(answer), scope), Resolve(answer, scope).citations, scope.sources)
  {
    hide Run, PiecesFrom, Passages, CitesFirst, Flatten, Concat;
    RunCites(Pieces(answer), scope, []);
  }

  /** The persistent form keeps each citation of a resolved answer, under `[R`, its revision id, its block and `]`. */
  lemma {:induction false} PersistentCitations(answer: Text, scope: Scope)
    ensures var r := Resolve(answer, scope);
            var p := PersistentAnswer(r.text, r.citations);
            && |p.citations| == |r.citations| && p.invalid == 0
            && forall k :: 0 <= k < |r.citations| ==>
                 p.citations[k] == r.citations[k].(token := [91, 82] + r.citations[k].revisionId + [58] + Decimal(r.citations[k].block) + [93])
  {
    hide Run, PiecesFrom, Concat, Flatten, Decimal, OneEach, LastingCitations;
    ResolvedIsBacked(answer, scope);
    LastingIsRenamed(Resolve(answer, scope).citations);
  }
}
