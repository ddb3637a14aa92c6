/** Finding a quoted passage in the source and keeping its exact bytes (src/quotes.ts). */
module Quotes {
  import opened Text
  import opened Json
  import opened Blocks
  import opened Decoding
  import opened Fold

  datatype Slice = Slice(base: nat, text: Text)

  /** The slice is what the bytes at its place encode. */
  predicate SliceOk(bytes: seq<Byte>, s: Slice) {
    && Wellformed(s.text) && s.base + |Utf8(s.text)| <= |bytes| && bytes[s.base..s.base + |Utf8(s.text)|] == Utf8(s.text)
    && Boundary(bytes, s.base) && Boundary(bytes, s.base + |Utf8(s.text)|)
  }

  ghost predicate SlicesOk(bytes: seq<Byte>, slices: map<int, Slice>) { forall id :: id in slices ==> SliceOk(bytes, slices[id]) }

  /** A block as it is listed: its id and its range of bytes. */
  type Listed = (int, int, int)

  /** The block has an id, and its range lies between characters and can be read. */
  predicate Readable(bytes: seq<Byte>, b: Listed) {
    && b.0 >= 1 && 0 <= b.1 <= b.2 <= |bytes| && Boundary(bytes, b.1) && Boundary(bytes, b.2) && Decode(bytes[b.1..b.2]).Some?
  }

  function SliceAt(bytes: seq<Byte>, b: Listed): Slice
    requires Readable(bytes, b)
  {
    Slice(b.1, Decode(bytes[b.1..b.2]).value)
  }

  /** The blocks that can be read, by id; a later block of the same id replaces an earlier one. */
  function SlicesOf(bytes: seq<Byte>, blocks: seq<Listed>): map<int, Slice> {
    if blocks == [] then map[]
    else
      var b := blocks[|blocks| - 1];
      var before := SlicesOf(bytes, blocks[..|blocks| - 1]);
      if Readable(bytes, b) then before[b.0 := SliceAt(bytes, b)] else before
  }

  method LoadSlices(bytes: seq<Byte>, blocks: seq<Listed>) returns (slices: map<int, Slice>)
    ensures slices == SlicesOf(bytes, blocks)
  {
    hide Boundary, Decode;
    slices := map[];
    for k := 0 to |blocks|
      invariant slices == SlicesOf(bytes, blocks[..k])
    {
      assert blocks[..k + 1][..k] == blocks[..k];
      var (id, start, end) := blocks[k];
      if id >= 1 {
        var text := SliceUtf8(bytes, start, end);
        if text.Some? { slices := slices[id := Slice(start, text.value)]; }
      }
    }
    assert blocks[..|blocks|] == blocks;
  }

  /** Block `k` is the last one with this id that can be read. */
  ghost predicate LastReadable(bytes: seq<Byte>, blocks: seq<Listed>, k: nat, id: int) {
    && k < |blocks| && blocks[k].0 == id && Readable(bytes, blocks[k])
    && forall j :: k < j < |blocks| && Readable(bytes, blocks[j]) ==> blocks[j].0 != id
  }

  lemma {:induction false} SliceIsBlock(bytes: seq<Byte>, blocks: seq<Listed>, k: nat, id: int)
    requires LastReadable(bytes, blocks, k, id)
    ensures k < |blocks| && Readable(bytes, blocks[k])
    ensures id in SlicesOf(bytes, blocks) && SlicesOf(bytes, blocks)[id] == SliceAt(bytes, blocks[k])
    decreases |blocks|
  {
    hide Readable, SliceAt;
    var n := |blocks| - 1;
    if k < n { SliceIsBlock(bytes, blocks[..n], k, id); }
  }

  lemma {:induction false} SliceHasBlock(bytes: seq<Byte>, blocks: seq<Listed>, id: int) returns (k: nat)
    requires id in SlicesOf(bytes, blocks)
    ensures LastReadable(bytes, blocks, k, id)
    decreases |blocks|
  {
    hide Readable, SliceAt;
    var n := |blocks| - 1;
    if Readable(bytes, blocks[n]) && blocks[n].0 == id { return n; }
    k := SliceHasBlock(bytes, blocks[..n], id);
  }

  lemma {:induction false} ReadableIsLoaded(bytes: seq<Byte>, blocks: seq<Listed>, k: nat)
    requires k < |blocks| && Readable(bytes, blocks[k])
    ensures blocks[k].0 in SlicesOf(bytes, blocks)
    decreases |blocks|
  {
    hide Readable, SliceAt;
    var n := |blocks| - 1;
    if k < n { ReadableIsLoaded(bytes, blocks[..n], k); }
  }

  /** Exactly the ids of blocks that can be read have a slice: the place and the text of the last such block. */
  lemma {:induction false} SlicesAreTheBlocks(bytes: seq<Byte>, blocks: seq<Listed>, id: int)
    ensures id in SlicesOf(bytes, blocks) <==> exists k :: 0 <= k < |blocks| && blocks[k].0 == id && Readable(bytes, blocks[k])
    ensures id in SlicesOf(bytes, blocks) ==>
              exists k: nat :: LastReadable(bytes, blocks, k, id) && Readable(bytes, blocks[k]) && SlicesOf(bytes, blocks)[id] == SliceAt(bytes, blocks[k])
  {
    hide Readable, SliceAt, SlicesOf;
    forall k | 0 <= k < |blocks| && Readable(bytes, blocks[k]) ensures blocks[k].0 in SlicesOf(bytes, blocks) { ReadableIsLoaded(bytes, blocks, k); }
    if id in SlicesOf(bytes, blocks) {
      var k := SliceHasBlock(bytes, blocks, id);
      SliceIsBlock(bytes, blocks, k, id);
    }
  }

  lemma {:induction false} SlicesAreOk(bytes: seq<Byte>, blocks: seq<Listed>)
    ensures SlicesOk(bytes, SlicesOf(bytes, blocks))
    decreases |blocks|
  {
    hide SliceOk, Boundary, Decode;
    if blocks != [] {
      SlicesAreOk(bytes, blocks[..|blocks| - 1]);
      var b := blocks[|blocks| - 1];
      if Readable(bytes, b) { ReadSlice(bytes, b.1, b.2, Decode(bytes[b.1..b.2]).value); }
    }
  }

  lemma {:induction false} ReadSlice(bytes: seq<Byte>, start: nat, end: nat, text: Text)
    requires start <= end <= |bytes| && Decode(bytes[start..end]) == Some(text) && Boundary(bytes, start) && Boundary(bytes, end)
    ensures SliceOk(bytes, Slice(start, text))
  {
    EncodesBack(bytes[start..end]);
  }

  // ---------------------------------------------------------------- occurrences

  predicate OccursAt(h: Text, q: Text, at: nat) { at + |q| <= |h| && h[at..at + |q|] == q }

  function Occurrences(h: Text, q: Text, from: nat): (r: seq<nat>)
    ensures forall k :: 0 <= k < |r| ==> OccursAt(h, q, r[k])
    decreases |h| + 1 - from
  {
    if from + |q| > |h| then []
    else if OccursAt(h, q, from) then [from] + Occurrences(h, q, from + 1)
    else Occurrences(h, q, from + 1)
  }

  /** The list holds exactly the occurrences, in order. */
  lemma {:induction false} OccurrencesExact(h: Text, q: Text, from: nat, at: nat)
    ensures at in Occurrences(h, q, from) <==> from <= at && OccursAt(h, q, at)
    decreases |h| + 1 - from
  {
    if from + |q| <= |h| { OccurrencesExact(h, q, from + 1, at); }
  }

  method IndexOf(h: Text, q: Text, from: nat) returns (at: Option<nat>)
    ensures at.None? ==> Occurrences(h, q, from) == []
    ensures at.Some? ==> OccursAt(h, q, at.value) && Occurrences(h, q, from) == [at.value] + Occurrences(h, q, at.value + 1)
  {
    hide OccursAt;
    var k := from;
    while k + |q| <= |h|
      invariant Occurrences(h, q, from) == Occurrences(h, q, k)
    {
      if OccursAt(h, q, k) { return Some(k); }
      k := k + 1;
    }
    at := None;
  }

  // ---------------------------------------------------------------- hits

  datatype Hit = Hit(block: int, start: nat, end: nat)

  function ByteAt(s: Slice, i: nat): nat
    requires i <= |s.text|
  {
    s.base + |Utf8(s.text[..i])|
  }

  /** Bytes before a position, counted code point by code point. */
  method ByteOffset(s: Slice, i: nat) returns (offset: nat)
    requires i <= |s.text|
    ensures offset == ByteAt(s, i)
  {
    hide Utf8, UnitBytes;
    var part := s.text[..i];
    offset := s.base;
    var k := 0;
    assert part[0..] == part;
    while k < |part|
      invariant k <= |part| && offset + |Utf8(part[k..])| == s.base + |Utf8(part)|
    {
      Utf8Step(part[k..]);
      if PairFirst(part[k..]) {
        assert part[k..][2..] == part[k + 2..];
        offset, k := offset + 4, k + 2;
      } else {
        assert part[k..][1..] == part[k + 1..];
        offset := offset + if part[k] <= 0x7F then 1 else if part[k] <= 0x7FF then 2 else 3;
        k := k + 1;
      }
    }
    assert part[k..] == [] && |Utf8([])| == 0 by { NoBytes(); }
  }

  lemma {:induction false} Utf8Step(t: Text)
    requires t != []
    ensures |Utf8(t)| == if PairFirst(t) then 4 + |Utf8(t[2..])|
                         else (if t[0] <= 0x7F then 1 else if t[0] <= 0x7FF then 2 else 3) + |Utf8(t[1..])|
  {
  }

  lemma {:induction false} NoBytes()
    ensures Utf8([]) == []
  {
  }

  function Haystack(s: Slice, folded: bool): Text { if folded then Folded(s.text) else s.text }

  /** The source positions that an occurrence stands for. */
  function SpanStart(s: Slice, folded: bool, at: nat): nat { if folded && at < |Places(s.text, 0)| then Places(s.text, 0)[at] else at }

  function SpanEnd(s: Slice, folded: bool, end: nat): nat {
    if !folded then end else if end < |Places(s.text, 0)| then Places(s.text, 0)[end] else |s.text|
  }

  lemma {:induction false} SpanInside(s: Slice, folded: bool, q: Text, at: nat)
    requires OccursAt(Haystack(s, folded), q, at) && q != []
    ensures SpanStart(s, folded, at) <= SpanEnd(s, folded, at + |q|) <= |s.text|
    ensures if folded then Folded(s.text[SpanStart(s, folded, at)..SpanEnd(s, folded, at + |q|)]) == q
            else s.text[SpanStart(s, folded, at)..SpanEnd(s, folded, at + |q|)] == q
  {
    hide FoldFrom, Places, Folded;
    PlacesLength(s.text);
    if folded { MatchFolds(s.text, at, |q|); }
  }

  lemma {:induction false} PlacesLength(t: Text)
    ensures |Places(t, 0)| == |Folded(t)|
  {
  }

  function HitAt(id: int, s: Slice, folded: bool, q: Text, at: nat): Hit {
    var i, j := SpanStart(s, folded, at), SpanEnd(s, folded, at + |q|);
    if i <= |s.text| && j <= |s.text| then Hit(id, ByteAt(s, i), ByteAt(s, j)) else Hit(id, 0, 0)
  }

  function HitsAt(id: int, s: Slice, folded: bool, q: Text, ats: seq<nat>): (hits: seq<Hit>)
    ensures |hits| == |ats| && forall k :: 0 <= k < |hits| ==> hits[k] == HitAt(id, s, folded, q, ats[k])
  {
    seq(|ats|, k requires 0 <= k < |ats| => HitAt(id, s, folded, q, ats[k]))
  }

  /** All occurrences in the given blocks, in their order. */
  function AllHits(slices: map<int, Slice>, order: seq<int>, q: Text, folded: bool): seq<Hit> {
    if order == [] then []
    else
      var id := order[|order| - 1];
      AllHits(slices, order[..|order| - 1], q, folded)
        + if id in slices then HitsAt(id, slices[id], folded, q, Occurrences(Haystack(slices[id], folded), q, 0)) else []
  }

  function Two(hits: seq<Hit>): seq<Hit> { if |hits| <= 2 then hits else hits[..2] }

  method HitOf(id: int, s: Slice, folded: bool, q: Text, at: nat, places: seq<nat>) returns (hit: Hit)
    requires q != [] && OccursAt(Haystack(s, folded), q, at) && (folded ==> places == Places(s.text, 0))
    ensures hit == HitAt(id, s, folded, q, at)
  {
    hide Places, FoldFrom, ByteAt;
    SpanInside(s, folded, q, at);
    PlacesLength(s.text);
    var i := if folded then places[at] else at;
    var j := if !folded then at + |q| else if at + |q| < |places| then places[at + |q|] else |s.text|;
    assert i == SpanStart(s, folded, at) && j == SpanEnd(s, folded, at + |q|);
    var start := ByteOffset(s, i);
    var end := ByteOffset(s, j);
    hit := Hit(id, start, end);
  }

  lemma {:induction false} HitsPush(id: int, s: Slice, folded: bool, q: Text, at: nat, rest: seq<nat>)
    ensures HitsAt(id, s, folded, q, [at] + rest) == [HitAt(id, s, folded, q, at)] + HitsAt(id, s, folded, q, rest)
  {
    hide HitAt;
  }

  lemma {:induction false} NoHits(id: int, s: Slice, folded: bool, q: Text)
    ensures HitsAt(id, s, folded, q, []) == []
  {
  }

  /** Occurrences of one block, until there are two. */
  method HitsInBlock(id: int, s: Slice, q: Text, folded: bool, before: seq<Hit>) returns (hits: seq<Hit>)
    requires q != [] && |before| < 2
    ensures hits == Two(before + HitsAt(id, s, folded, q, Occurrences(Haystack(s, folded), q, 0)))
  {
    hide Folded, FoldFrom, Places, Occurrences, OccursAt, HitAt, HitsAt;
    var h, places := s.text, [];
    if folded { h, places := FoldText(s.text); }
    assert h == Haystack(s, folded);
    hits := before;
    var from := 0;
    ghost var all := before + HitsAt(id, s, folded, q, Occurrences(h, q, 0));
    while |hits| < 2
      invariant |hits| <= 2 && all == hits + HitsAt(id, s, folded, q, Occurrences(h, q, from))
      decreases |h| + 1 - from, 2 - |hits|
    {
      var at := IndexOf(h, q, from);
      if at.None? {
        NoHits(id, s, folded, q);
        assert all == hits;
        break;
      }
      FromBelow(h, q, from, at.value);
      HitsPush(id, s, folded, q, at.value, Occurrences(h, q, at.value + 1));
      var hit := HitOf(id, s, folded, q, at.value, places);
      hits := hits + [hit];
      from := at.value + 1;
    }
  }

  lemma {:induction false} FromBelow(h: Text, q: Text, from: nat, at: nat)
    requires Occurrences(h, q, from) == [at] + Occurrences(h, q, at + 1)
    ensures from <= at && at + |q| <= |h|
  {
    assert at in Occurrences(h, q, from);
    OccurrencesExact(h, q, from, at);
  }

  /** The first two occurrences over the blocks. */
  method FindHits(slices: map<int, Slice>, order: seq<int>, q: Text, folded: bool) returns (hits: seq<Hit>)
    requires q != []
    ensures hits == Two(AllHits(slices, order, q, folded))
  {
    hits := [];
    for k := 0 to |order|
      invariant hits == Two(AllHits(slices, order[..k], q, folded)) && |hits| < 2
    {
      assert order[..k + 1][..k] == order[..k];
      var id := order[k];
      if id in slices {
        hits := HitsInBlock(id, slices[id], q, folded, hits);
      }
      if |hits| >= 2 {
        MoreHits(slices, order, k + 1, q, folded);
        return;
      }
    }
    assert order[..|order|] == order;
  }

  lemma {:induction false} MoreHits(slices: map<int, Slice>, order: seq<int>, k: nat, q: Text, folded: bool)
    requires k <= |order|
    ensures AllHits(slices, order[..k], q, folded) <= AllHits(slices, order, q, folded)
    decreases |order| - k
  {
    if k < |order| {
      MoreHits(slices, order, k + 1, q, folded);
      assert order[..k + 1][..k] == order[..k];
    } else {
      assert order[..k] == order;
    }
  }

  // ---------------------------------------------------------------- positions between characters

  /** A well-formed text occurs only between characters. */
  lemma {:induction false} ExactBetween(h: Text, q: Text, at: nat)
    requires Wellformed(h) && Wellformed(q) && q != [] && OccursAt(h, q, at)
    ensures Between(h, at) && Between(h, at + |q|)
  {
    hide Wellformed;
    assert h[at..at + |q|][0] == h[at] && h[at..at + |q|][|q| - 1] == h[at + |q| - 1];
    Paired(q, 0);
    Paired(q, |q| - 1);
  }

  /** A well-formed folded text maps to positions between characters. */
  lemma {:induction false} FoldedBetween(s: Slice, q: Text, at: nat)
    requires Wellformed(s.text) && Wellformed(q) && q != [] && OccursAt(Folded(s.text), q, at)
    ensures SpanStart(s, true, at) <= |s.text| && Between(s.text, SpanStart(s, true, at))
    ensures SpanEnd(s, true, at + |q|) <= |s.text| && Between(s.text, SpanEnd(s, true, at + |q|))
  {
    hide Wellformed, FoldFrom, Places;
    var t, n := s.text, |q|;
    PlacesLength(t);
    var f := Folded(t);
    assert f[at..at + n][0] == f[at] && f[at..at + n][n - 1] == f[at + n - 1];
    Paired(q, 0);
    Paired(q, n - 1);
    SpanInside(s, true, q, at);
    var i, j := SpanStart(s, true, at), SpanEnd(s, true, at + n);
    assert i == EndPlace(t, 0, at) && j == EndPlace(t, 0, at + n);
    PlaceIs(t, at);
    SurrogateFolds(t[i]);
    if j < |t| && j > 0 && IsHigh(t[j - 1]) {
      PlaceBefore(t, 0, at + n);
    }
  }

  /** A folded unit comes from the unit at its place. */
  lemma {:induction false} PlaceIs(t: Text, at: nat)
    requires at < |Folded(t)| && |Places(t, 0)| == |Folded(t)|
    ensures Places(t, 0)[at] < |t| && Folded(t)[at] == FoldOne(t[Places(t, 0)[at]])
  {
    hide FoldOne;
    FoldDrop(t, 0, at);
    var i := Places(t, 0)[at];
    assert FoldFrom(t, i)[0] == Folded(t)[at..][0];
    FirstPlace(t, i);
  }

  lemma {:induction false} FirstPlace(t: Text, i: nat)
    requires i < |t| && Places(t, i) != [] && Places(t, i)[0] == i
    ensures FoldFrom(t, i)[0] == FoldOne(t[i])
  {
    hide FoldOne;
  }

  // ---------------------------------------------------------------- verification

  datatype Verdict = EmptyQuote | UnknownBlock | Unmatched | Match(block: int, start: nat, end: nat, quote: Text, ambiguous: bool)

  /** The stated block first, then its neighbours. */
  function ScopeOrder(slices: map<int, Slice>, id: int): seq<int> {
    [id] + (if id - 1 in slices then [id - 1] else []) + (if id + 1 in slices then [id + 1] else [])
  }

  /** The stage that decides: exact occurrences, or folded ones when there is none. */
  function Folds(slices: map<int, Slice>, order: seq<int>, q: Text): bool { AllHits(slices, order, q, false) == [] }

  function Deciding(slices: map<int, Slice>, order: seq<int>, q: Text): seq<Hit> {
    if !Folds(slices, order, q) then AllHits(slices, order, q, false)
    else if Folded(q) == [] then [] else AllHits(slices, order, Folded(q), true)
  }

  /** The bytes from `start` to `end` lie in block `id`. */
  predicate WithinBlock(slices: map<int, Slice>, id: int, start: nat, end: nat) {
    id in slices && slices[id].base <= start <= end <= slices[id].base + |Utf8(slices[id].text)|
  }

  /** The bytes from `start` to `end` are the part of block `id` from `i` to `j`, and `part` is that text. */
  predicate PartOf(bytes: seq<Byte>, slices: map<int, Slice>, id: int, i: nat, j: nat, start: nat, end: nat, part: Text) {
    && id in slices && i <= j <= |slices[id].text| && part == slices[id].text[i..j]
    && start == ByteAt(slices[id], i) && end == ByteAt(slices[id], j) && WithinBlock(slices, id, start, end)
    && start <= end <= |bytes| && Boundary(bytes, start) && Boundary(bytes, end)
    && bytes[start..end] == Utf8(part) && Decode(bytes[start..end]) == Some(part)
  }

  lemma {:induction false} CutBoundary(t: Text, i: nat)
    requires Wellformed(t) && Between(t, i)
    ensures |Utf8(t[..i])| <= |Utf8(t)| && Boundary(Utf8(t), |Utf8(t[..i])|)
  {
    hide Utf8, Encoded;
    WellformedParts(t, i);
    Utf8IsEncoded(t[i..]);
  }

  lemma {:induction false} BoundaryInside(bytes: seq<Byte>, s: Slice, i: nat)
    requires SliceOk(bytes, s) && Between(s.text, i)
    ensures ByteAt(s, i) <= |bytes| && Boundary(bytes, ByteAt(s, i))
  {
    hide Utf8;
    CutBoundary(s.text, i);
    var all, off := Utf8(s.text), |Utf8(s.text[..i])|;
    if off < |all| { assert bytes[s.base..s.base + |all|][off] == bytes[s.base + off]; }
  }

  lemma {:induction false} SubSlice(bytes: seq<Byte>, base: nat, n: nat, a: nat, b: nat)
    requires base + n <= |bytes| && a <= b <= n
    ensures bytes[base..base + n][a..b] == bytes[base + a..base + b]
  {
    var l, r := bytes[base..base + n][a..b], bytes[base + a..base + b];
    assert |l| == |r| && forall k :: 0 <= k < |l| ==> l[k] == bytes[base + a + k] == r[k];
  }

  lemma {:induction false} PartIsExact(bytes: seq<Byte>, slices: map<int, Slice>, id: int, i: nat, j: nat)
    requires id in slices && SliceOk(bytes, slices[id]) && i <= j && Between(slices[id].text, i) && Between(slices[id].text, j)
    ensures PartOf(bytes, slices, id, i, j, ByteAt(slices[id], i), ByteAt(slices[id], j), slices[id].text[i..j])
  {
    hide Utf8, Wellformed, Decode, Boundary;
    var s := slices[id];
    BoundaryInside(bytes, s, i);
    BoundaryInside(bytes, s, j);
    PartBytes(s.text, i, j);
    DecodesBack(s.text[i..j]);
    var all, a, b := Utf8(s.text), |Utf8(s.text[..i])|, |Utf8(s.text[..j])|;
    SubSlice(bytes, s.base, |all|, a, b);
    assert bytes[s.base..s.base + |all|] == all;
    assert bytes[s.base + a..s.base + b] == Utf8(s.text[i..j]);
    assert ByteAt(s, i) == s.base + a && ByteAt(s, j) == s.base + b;
  }

  /** Every hit is a part of its block: the quote itself, or what folds to the folded quote. */
  ghost predicate Quoted(bytes: seq<Byte>, slices: map<int, Slice>, hit: Hit, q: Text, folded: bool) {
    exists i: nat, j: nat ::
      && hit.block in slices && i <= j <= |slices[hit.block].text|
      && PartOf(bytes, slices, hit.block, i, j, hit.start, hit.end, slices[hit.block].text[i..j])
      && (if folded then Folded(slices[hit.block].text[i..j]) == q else slices[hit.block].text[i..j] == q)
  }

  lemma {:induction false} HitIsQuoted(bytes: seq<Byte>, slices: map<int, Slice>, id: int, q: Text, folded: bool, at: nat)
    requires id in slices && SliceOk(bytes, slices[id]) && Wellformed(q) && q != [] && OccursAt(Haystack(slices[id], folded), q, at)
    ensures Quoted(bytes, slices, HitAt(id, slices[id], folded, q, at), q, folded)
  {
    hide Utf8, Wellformed, Decode, FoldFrom, Places, PartOf, ByteAt;
    var s := slices[id];
    SpanInside(s, folded, q, at);
    if folded { FoldedBetween(s, q, at); } else { ExactBetween(s.text, q, at); }
    var i, j := SpanStart(s, folded, at), SpanEnd(s, folded, at + |q|);
    PartIsExact(bytes, slices, id, i, j);
  }

  lemma {:induction false} HitsAreQuoted(bytes: seq<Byte>, slices: map<int, Slice>, order: seq<int>, q: Text, folded: bool, k: nat)
    requires SlicesOk(bytes, slices) && Wellformed(q) && q != [] && k < |AllHits(slices, order, q, folded)|
    ensures Quoted(bytes, slices, AllHits(slices, order, q, folded)[k], q, folded) && AllHits(slices, order, q, folded)[k].block in order
    decreases |order|
  {
    hide Quoted, SliceOk, Wellformed, HitAt, Haystack, OccursAt;
    var n := |order| - 1;
    var before := AllHits(slices, order[..n], q, folded);
    if k < |before| {
      HitsAreQuoted(bytes, slices, order[..n], q, folded, k);
      assert order[..n] <= order;
    } else {
      var id := order[n];
      var ats := Occurrences(Haystack(slices[id], folded), q, 0);
      HitIsQuoted(bytes, slices, id, q, folded, ats[k - |before|]);
      assert HitAt(id, slices[id], folded, q, ats[k - |before|]).block == id by { HitBlock(id, slices[id], folded, q, ats[k - |before|]); }
    }
  }

  lemma {:induction false} HitBlock(id: int, s: Slice, folded: bool, q: Text, at: nat)
    ensures HitAt(id, s, folded, q, at).block == id
  {
  }

  predicate Empty(q: Text) { forall k :: 0 <= k < |q| ==> IsSpace(q[k]) || q[k] == SOFT_HYPHEN }

  /** What the bytes of a hit read as. */
  function TextOf(bytes: seq<Byte>, hit: Hit): Text {
    if hit.start <= hit.end <= |bytes| && Decode(bytes[hit.start..hit.end]).Some? then Decode(bytes[hit.start..hit.end]).value else []
  }

  function MatchOf(bytes: seq<Byte>, hits: seq<Hit>): Verdict {
    if hits == [] then Unmatched else Match(hits[0].block, hits[0].start, hits[0].end, TextOf(bytes, hits[0]), |hits| >= 2)
  }

  /** The verdict over all occurrences, of which the search needs only the first two. */
  function Judged(bytes: seq<Byte>, slices: map<int, Slice>, q: Text, block: int): Verdict {
    if Empty(q) then EmptyQuote
    else if block < 1 || block !in slices then UnknownBlock
    else MatchOf(bytes, Deciding(slices, ScopeOrder(slices, block), q))
  }

  method IsEmpty(q: Text) returns (blank: bool)
    ensures blank <==> Empty(q)
  {
    blank := true;
    var k := 0;
    while k < |q| && blank
      invariant k <= |q| && (blank <==> forall j :: 0 <= j < k ==> IsSpace(q[j]) || q[j] == SOFT_HYPHEN)
    {
      blank := IsSpace(q[k]) || q[k] == SOFT_HYPHEN;
      k := k + 1;
    }
  }

  /** The first two occurrences of the stage that decides. */
  method DecidingHits(slices: map<int, Slice>, order: seq<int>, q: Text) returns (hits: seq<Hit>)
    requires q != []
    ensures hits == Two(Deciding(slices, order, q))
  {
    hide AllHits, FoldFrom, Places;
    hits := FindHits(slices, order, q, false);
    if hits == [] {
      var needle, places := FoldText(q);
      assert needle == Folded(q);
      if needle != [] { hits := FindHits(slices, order, needle, true); }
    }
  }

  method VerifyQuote(bytes: seq<Byte>, slices: map<int, Slice>, q: Text, block: int) returns (v: Verdict)
    requires SlicesOk(bytes, slices) && Wellformed(q)
    ensures v == Judged(bytes, slices, q, block)
  {
    hide Wellformed, Decode, Deciding, SlicesOk, ScopeOrder, Quoted, Boundary, Folds, Folded;
    var blank := IsEmpty(q);
    if blank { return EmptyQuote; }
    if block < 1 || block !in slices { return UnknownBlock; }
    var order := ScopeOrder(slices, block);
    var hits := DecidingHits(slices, order, q);
    if hits == [] { return Unmatched; }
    DecidingIsQuoted(bytes, slices, order, q);
    QuotedReads(bytes, slices, hits[0], if Folds(slices, order, q) then Folded(q) else q, Folds(slices, order, q));
    var text := SliceUtf8(bytes, hits[0].start, hits[0].end);
    v := Match(hits[0].block, hits[0].start, hits[0].end, text.value, |hits| > 1);
  }

  lemma {:induction false} DecidingIsQuoted(bytes: seq<Byte>, slices: map<int, Slice>, order: seq<int>, q: Text)
    requires SlicesOk(bytes, slices) && Wellformed(q) && q != [] && Deciding(slices, order, q) != []
    ensures var hit := Deciding(slices, order, q)[0];
            && Quoted(bytes, slices, hit, if Folds(slices, order, q) then Folded(q) else q, Folds(slices, order, q))
            && hit.block in order
  {
    hide AllHits, FoldFrom, SlicesOk, Wellformed, Quoted;
    FoldWellformed(q);
    if Folds(slices, order, q) {
      HitsAreQuoted(bytes, slices, order, Folded(q), true, 0);
    } else {
      HitsAreQuoted(bytes, slices, order, q, false, 0);
    }
  }

  lemma {:induction false} VerdictIsExact(bytes: seq<Byte>, slices: map<int, Slice>, q: Text, block: int)
    requires SlicesOk(bytes, slices) && Wellformed(q) && Judged(bytes, slices, q, block).Match?
    ensures var v, order := Judged(bytes, slices, q, block), ScopeOrder(slices, block);
            && v.block in order && v.start <= v.end <= |bytes| && Utf8(v.quote) == bytes[v.start..v.end]
            && WithinBlock(slices, v.block, v.start, v.end)
            && (if Folds(slices, order, q) then Folded(v.quote) == Folded(q) else v.quote == q)
            && (v.ambiguous <==> |Deciding(slices, order, q)| >= 2)
  {
    hide Wellformed, Decode, Deciding, SlicesOk, ScopeOrder, Quoted, Boundary, Folds, Folded, Utf8, WithinBlock;
    var order := ScopeOrder(slices, block);
    assert q != [];
    DecidingIsQuoted(bytes, slices, order, q);
    var hit := Deciding(slices, order, q)[0];
    QuotedReads(bytes, slices, hit, if Folds(slices, order, q) then Folded(q) else q, Folds(slices, order, q));
  }

  /** The bytes from `start` to `end` lie in the listed block that stands for `id`. */
  ghost predicate InListed(bytes: seq<Byte>, blocks: seq<Listed>, id: int, start: nat, end: nat) {
    exists k: nat :: LastReadable(bytes, blocks, k, id) && blocks[k].1 <= start <= end <= blocks[k].2
  }

  lemma {:induction false} WithinIsListed(bytes: seq<Byte>, blocks: seq<Listed>, id: int, start: nat, end: nat)
    requires WithinBlock(SlicesOf(bytes, blocks), id, start, end)
    ensures InListed(bytes, blocks, id, start, end)
  {
    hide Boundary, Decode, Utf8;
    var k := SliceHasBlock(bytes, blocks, id);
    SliceIsBlock(bytes, blocks, k, id);
    EncodesBack(bytes[blocks[k].1..blocks[k].2]);
  }

  /**
   * A well-formed quote that is matched is stored as the exact text of its bytes, which lie between the start and the
   * end of the stated block, or of a neighbour, in the list: the quote itself, or a passage that folds to the same.
   * It is ambiguous exactly when the stage that decides finds it twice.
   */
  lemma {:induction false} VerifiedIsExact(bytes: seq<Byte>, blocks: seq<Listed>, q: Text, block: int)
    requires Wellformed(q) && Judged(bytes, SlicesOf(bytes, blocks), q, block).Match?
    ensures var slices := SlicesOf(bytes, blocks);
            var v, order := Judged(bytes, slices, q, block), ScopeOrder(slices, block);
            && v.block in {block, block - 1, block + 1} && InListed(bytes, blocks, v.block, v.start, v.end)
            && v.start <= v.end <= |bytes| && Utf8(v.quote) == bytes[v.start..v.end]
            && (if Folds(slices, order, q) then Folded(v.quote) == Folded(q) else v.quote == q)
            && (v.ambiguous <==> |Deciding(slices, order, q)| >= 2)
  {
    hide Wellformed, Decode, Deciding, Folds, Folded, Utf8, WithinBlock, Judged, InListed, SlicesOk;
    var slices := SlicesOf(bytes, blocks);
    SlicesAreOk(bytes, blocks);
    VerdictIsExact(bytes, slices, q, block);
    var v := Judged(bytes, slices, q, block);
    WithinIsListed(bytes, blocks, v.block, v.start, v.end);
  }

  // ---------------------------------------------------------------- candidates

  datatype Candidate = Candidate(isResult: bool, statement: Text, quote: Text, block: int, valueText: Option<Text>, unit: Option<Text>, conditions: Option<Text>)
  datatype Claim = Claim(candidate: Candidate, quote: Text, block: int, start: nat, end: nat, ambiguous: bool, valueText: Option<Text>, unit: Option<Text>)
  datatype Reason = NonResultFields | CompoundMeasurement | NoQuote | NoSuchBlock | NotFound | StatementNumbers | ConditionNumbers | SplitConflict
  datatype Outcome = Kept(claim: Claim, cleared: bool) | Dropped(reason: Reason)

  /** The text heuristics: whether a quote supports a text's numbers, whether a measurement is compound, whether a split contradicts. */
  datatype Checks = Checks(supported: (Text, Text) -> bool, compound: Text -> bool, conflict: (Candidate, Text, bool) -> bool)

  function RoleFailure(checks: Checks, c: Candidate): Option<Reason> {
    if !c.isResult && (c.valueText.Some? || c.unit.Some?) then Some(NonResultFields)
    else if (c.valueText.Some? && checks.compound(c.valueText.value)) || (c.unit.Some? && checks.compound(c.unit.value)) then Some(CompoundMeasurement)
    else None
  }

  function OutcomeOf(checks: Checks, c: Candidate, v: Verdict): Outcome {
    match v
    case EmptyQuote => Dropped(NoQuote)
    case UnknownBlock => Dropped(NoSuchBlock)
    case Unmatched => Dropped(NotFound)
    case Match(block, start, end, quote, ambiguous) =>
      if !checks.supported(c.statement, quote) then Dropped(StatementNumbers)
      else if c.conditions.Some? && !checks.supported(c.conditions.value, quote) then Dropped(ConditionNumbers)
      else if checks.conflict(c, quote, ambiguous) then Dropped(SplitConflict)
      else if c.valueText.Some? && !checks.supported(c.valueText.value, quote) then Kept(Claim(c, quote, block, start, end, ambiguous, None, None), true)
      else Kept(Claim(c, quote, block, start, end, ambiguous, c.valueText, c.unit), false)
  }

  function Outcomes(checks: Checks, bytes: seq<Byte>, slices: map<int, Slice>, c: Candidate): Outcome {
    var role := RoleFailure(checks, c);
    if role.Some? then Dropped(role.value) else OutcomeOf(checks, c, Judged(bytes, slices, c.quote, c.block))
  }

  function KeptFrom(checks: Checks, bytes: seq<Byte>, slices: map<int, Slice>, cs: seq<Candidate>): seq<Claim> {
    if cs == [] then []
    else
      var o := Outcomes(checks, bytes, slices, cs[|cs| - 1]);
      KeptFrom(checks, bytes, slices, cs[..|cs| - 1]) + if o.Kept? then [o.claim] else []
  }

  function DroppedFrom(checks: Checks, bytes: seq<Byte>, slices: map<int, Slice>, cs: seq<Candidate>): seq<(nat, Reason)> {
    if cs == [] then []
    else
      var o := Outcomes(checks, bytes, slices, cs[|cs| - 1]);
      DroppedFrom(checks, bytes, slices, cs[..|cs| - 1]) + if o.Kept? then [] else [(|cs| - 1, o.reason)]
  }

  function ClearedFrom(checks: Checks, bytes: seq<Byte>, slices: map<int, Slice>, cs: seq<Candidate>): nat {
    if cs == [] then 0
    else
      var o := Outcomes(checks, bytes, slices, cs[|cs| - 1]);
      ClearedFrom(checks, bytes, slices, cs[..|cs| - 1]) + if o.Kept? && o.cleared then 1 else 0
  }

  method VerifyClaims(checks: Checks, bytes: seq<Byte>, blocks: seq<Listed>, cs: seq<Candidate>)
      returns (claims: seq<Claim>, dropped: seq<(nat, Reason)>, cleared: nat)
    requires forall k :: 0 <= k < |cs| ==> Wellformed(cs[k].quote)
    ensures claims == KeptFrom(checks, bytes, SlicesOf(bytes, blocks), cs)
    ensures dropped == DroppedFrom(checks, bytes, SlicesOf(bytes, blocks), cs)
    ensures cleared == ClearedFrom(checks, bytes, SlicesOf(bytes, blocks), cs)
  {
    hide Wellformed, SlicesOk, Judged, SlicesOf;
    var slices := LoadSlices(bytes, blocks);
    SlicesAreOk(bytes, blocks);
    claims, dropped, cleared := [], [], 0;
    for k := 0 to |cs|
      invariant claims == KeptFrom(checks, bytes, slices, cs[..k])
      invariant dropped == DroppedFrom(checks, bytes, slices, cs[..k])
      invariant cleared == ClearedFrom(checks, bytes, slices, cs[..k])
    {
      assert cs[..k + 1][..k] == cs[..k];
      var c := cs[k];
      var role := RoleFailure(checks, c);
      if role.Some? {
        dropped := dropped + [(k, role.value)];
        continue;
      }
      var v := VerifyQuote(bytes, slices, c.quote, c.block);
      match OutcomeOf(checks, c, v)
      case Dropped(reason) => dropped := dropped + [(k, reason)];
      case Kept(claim, clears) => claims, cleared := claims + [claim], cleared + if clears then 1 else 0;
    }
    assert cs[..|cs|] == cs;
  }

  /**
   * A claim keeps the exact bytes of its quote, inside a listed block, and every number text that it keeps is
   * supported by them.
   */
  ghost predicate Sound(checks: Checks, bytes: seq<Byte>, blocks: seq<Listed>, claim: Claim) {
    var c, slices := claim.candidate, SlicesOf(bytes, blocks);
    var order := ScopeOrder(slices, c.block);
    && claim.block in {c.block, c.block - 1, c.block + 1} && InListed(bytes, blocks, claim.block, claim.start, claim.end)
    && claim.start <= claim.end <= |bytes| && Utf8(claim.quote) == bytes[claim.start..claim.end]
    && (if Folds(slices, order, c.quote) then Folded(claim.quote) == Folded(c.quote) else claim.quote == c.quote)
    && (claim.ambiguous <==> |Deciding(slices, order, c.quote)| >= 2)
    && checks.supported(c.statement, claim.quote)
    && (c.conditions.Some? ==> checks.supported(c.conditions.value, claim.quote))
    && (claim.valueText.Some? ==> checks.supported(claim.valueText.value, claim.quote))
    && (!c.isResult ==> claim.valueText.None? && claim.unit.None?)
  }

  lemma {:induction false} KeptIsSound(checks: Checks, bytes: seq<Byte>, blocks: seq<Listed>, c: Candidate)
    requires Wellformed(c.quote) && Outcomes(checks, bytes, SlicesOf(bytes, blocks), c).Kept?
    ensures Sound(checks, bytes, blocks, Outcomes(checks, bytes, SlicesOf(bytes, blocks), c).claim)
  {
    hide Judged, Wellformed, SlicesOf, Deciding, Folds, ScopeOrder, Utf8, InListed, Folded;
    VerifiedIsExact(bytes, blocks, c.quote, c.block);
  }

  /** Every claim is sound. */
  lemma {:induction false} ClaimsAreSound(checks: Checks, bytes: seq<Byte>, blocks: seq<Listed>, cs: seq<Candidate>)
    requires forall k :: 0 <= k < |cs| ==> Wellformed(cs[k].quote)
    ensures var claims := KeptFrom(checks, bytes, SlicesOf(bytes, blocks), cs);
            forall k :: 0 <= k < |claims| ==> Sound(checks, bytes, blocks, claims[k])
    decreases |cs|
  {
    hide Outcomes, Sound, Wellformed, SlicesOf, DroppedFrom;
    if cs != [] {
      ClaimsAreSound(checks, bytes, blocks, cs[..|cs| - 1]);
      LastOutcome(checks, bytes, SlicesOf(bytes, blocks), cs);
      if Outcomes(checks, bytes, SlicesOf(bytes, blocks), cs[|cs| - 1]).Kept? { KeptIsSound(checks, bytes, blocks, cs[|cs| - 1]); }
    }
  }

  /** Every candidate is either kept as one claim or dropped once with its index. */
  lemma {:induction false} EveryCandidateOnce(checks: Checks, bytes: seq<Byte>, slices: map<int, Slice>, cs: seq<Candidate>)
    ensures multiset(Owners(KeptFrom(checks, bytes, slices, cs))) + multiset(Rejected(cs, DroppedFrom(checks, bytes, slices, cs))) == multiset(cs)
    decreases |cs|
  {
    hide Outcomes, Owners, Rejected, KeptFrom, DroppedFrom;
    if cs == [] {
      NoOwners(checks, bytes, slices);
    } else {
      var n := |cs| - 1;
      var claims, dropped := KeptFrom(checks, bytes, slices, cs[..n]), DroppedFrom(checks, bytes, slices, cs[..n]);
      EveryCandidateOnce(checks, bytes, slices, cs[..n]);
      assert cs == cs[..n] + [cs[n]];
      DroppedBelow(checks, bytes, slices, cs[..n]);
      RejectedPrefix(cs, n, dropped);
      LastOutcome(checks, bytes, slices, cs);
      var o := Outcomes(checks, bytes, slices, cs[n]);
      if o.Kept? {
        KeptOwner(checks, bytes, slices, cs[n]);
        assert DroppedFrom(checks, bytes, slices, cs) == dropped;
        OneOwner(claims, o.claim);
      } else {
        assert KeptFrom(checks, bytes, slices, cs) == claims;
        OneRejected(cs, n, dropped, o.reason);
      }
    }
  }

  lemma {:induction false} KeptOwner(checks: Checks, bytes: seq<Byte>, slices: map<int, Slice>, c: Candidate)
    requires Outcomes(checks, bytes, slices, c).Kept?
    ensures Outcomes(checks, bytes, slices, c).claim.candidate == c
  {
    hide Judged;
  }

  lemma {:induction false} NoOwners(checks: Checks, bytes: seq<Byte>, slices: map<int, Slice>)
    ensures Owners(KeptFrom(checks, bytes, slices, [])) == [] && Rejected([], DroppedFrom(checks, bytes, slices, [])) == []
  {
  }

  lemma {:induction false} LastOutcome(checks: Checks, bytes: seq<Byte>, slices: map<int, Slice>, cs: seq<Candidate>)
    requires cs != []
    ensures var n := |cs| - 1;
            var o := Outcomes(checks, bytes, slices, cs[n]);
            && KeptFrom(checks, bytes, slices, cs) == KeptFrom(checks, bytes, slices, cs[..n]) + (if o.Kept? then [o.claim] else [])
            && DroppedFrom(checks, bytes, slices, cs) == DroppedFrom(checks, bytes, slices, cs[..n]) + (if o.Kept? then [] else [(n, o.reason)])
  {
    hide Outcomes;
  }

  lemma {:induction false} OneOwner(claims: seq<Claim>, claim: Claim)
    ensures Owners(claims + [claim]) == Owners(claims) + [claim.candidate]
  {
  }

  lemma {:induction false} OneRejected(cs: seq<Candidate>, n: nat, dropped: seq<(nat, Reason)>, reason: Reason)
    requires n < |cs|
    ensures Rejected(cs, dropped + [(n, reason)]) == Rejected(cs, dropped) + [cs[n]]
  {
    var more := dropped + [(n, reason)];
    assert more[..|more| - 1] == dropped;
  }

  lemma {:induction false} DroppedBelow(checks: Checks, bytes: seq<Byte>, slices: map<int, Slice>, cs: seq<Candidate>)
    ensures forall k :: 0 <= k < |DroppedFrom(checks, bytes, slices, cs)| ==> DroppedFrom(checks, bytes, slices, cs)[k].0 < |cs|
  {
    hide Outcomes;
    if cs != [] { DroppedBelow(checks, bytes, slices, cs[..|cs| - 1]); }
  }

  lemma {:induction false} RejectedPrefix(cs: seq<Candidate>, n: nat, dropped: seq<(nat, Reason)>)
    requires n <= |cs| && forall k :: 0 <= k < |dropped| ==> dropped[k].0 < n
    ensures Rejected(cs, dropped) == Rejected(cs[..n], dropped)
  {
    if dropped != [] { RejectedPrefix(cs, n, dropped[..|dropped| - 1]); }
  }

  function Owners(claims: seq<Claim>): seq<Candidate> { seq(|claims|, k requires 0 <= k < |claims| => claims[k].candidate) }

  function Rejected(cs: seq<Candidate>, dropped: seq<(nat, Reason)>): seq<Candidate> {
    if dropped == [] then []
    else Rejected(cs, dropped[..|dropped| - 1]) + if dropped[|dropped| - 1].0 < |cs| then [cs[dropped[|dropped| - 1].0]] else []
  }

  lemma {:induction false} FoldWellformed(q: Text)
    requires Wellformed(q)
    ensures Wellformed(Folded(q))
  {
    assert q[0..] == q;
    FoldIsWellformed(q, 0);
  }

  lemma {:induction false} QuotedReads(bytes: seq<Byte>, slices: map<int, Slice>, hit: Hit, q: Text, folded: bool)
    requires Quoted(bytes, slices, hit, q, folded)
    ensures hit.start <= hit.end <= |bytes| && Boundary(bytes, hit.start) && Boundary(bytes, hit.end) && WithinBlock(slices, hit.block, hit.start, hit.end)
    ensures var text := Decode(bytes[hit.start..hit.end]);
            text.Some? && Utf8(text.value) == bytes[hit.start..hit.end] && (if folded then Folded(text.value) == q else text.value == q)
  {
    hide Utf8, Decode, Folded, ByteAt;
  }
}
