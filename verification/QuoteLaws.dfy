/** When a quote is found, where, and how it is judged, over the texts of the listed blocks (src/quotes.ts). */
module QuoteLaws {
  import opened Text
  import opened Json
  import opened Blocks
  import opened Decoding
  import opened Fold
  import opened FoldLaws
  import opened Quotes

  ghost predicate ReadsAt(bytes: seq<Byte>, blocks: seq<Listed>, k: nat, id: int, t: Text) {
    LastReadable(bytes, blocks, k, id) && Decode(bytes[blocks[k].1..blocks[k].2]) == Some(t)
  }

  /** The last readable block with this id has this text. */
  ghost predicate Reads(bytes: seq<Byte>, blocks: seq<Listed>, id: int, t: Text) {
    exists k: nat :: ReadsAt(bytes, blocks, k, id, t)
  }

  ghost predicate Known(bytes: seq<Byte>, blocks: seq<Listed>, id: int) { exists t :: Reads(bytes, blocks, id, t) }

  /** The quote stands in the block as it is. */
  ghost predicate Contains(bytes: seq<Byte>, blocks: seq<Listed>, id: int, q: Text) {
    exists t, at: nat :: Reads(bytes, blocks, id, t) && OccursAt(t, q, at)
  }

  predicate PartIsAlike(t: Text, i: nat, j: nat, q: Text) { i <= j <= |t| && Alike(t[i..j], q) }

  /** A part of the block differs from the quote only in marks, dashes, white space and soft hyphens. */
  ghost predicate ContainsAlike(bytes: seq<Byte>, blocks: seq<Listed>, id: int, q: Text) {
    exists t, i: nat, j: nat :: Reads(bytes, blocks, id, t) && PartIsAlike(t, i, j, q)
  }

  /** White space and soft hyphens only. */
  predicate Blank(q: Text) { forall k :: 0 <= k < |q| ==> White(q[k]) || q[k] == 0xAD }

  // ---------------------------------------------------------------- slices and texts

  lemma {:induction false} SliceIsText(bytes: seq<Byte>, blocks: seq<Listed>, id: int)
    ensures id in SlicesOf(bytes, blocks) ==> Reads(bytes, blocks, id, SlicesOf(bytes, blocks)[id].text)
    ensures forall t :: Reads(bytes, blocks, id, t) ==> id in SlicesOf(bytes, blocks) && SlicesOf(bytes, blocks)[id].text == t
  {
    hide Boundary, Decode, SlicesOf, LastReadable, ReadsAt;
    if id in SlicesOf(bytes, blocks) {
      var k := SliceHasBlock(bytes, blocks, id);
      SliceReads(bytes, blocks, k, id);
    }
    forall t | Reads(bytes, blocks, id, t) ensures id in SlicesOf(bytes, blocks) && SlicesOf(bytes, blocks)[id].text == t {
      var k: nat :| ReadsAt(bytes, blocks, k, id, t);
      ReadsSlice(bytes, blocks, k, id, t);
    }
  }

  lemma {:induction false} SliceReads(bytes: seq<Byte>, blocks: seq<Listed>, k: nat, id: int)
    requires LastReadable(bytes, blocks, k, id)
    ensures id in SlicesOf(bytes, blocks) && ReadsAt(bytes, blocks, k, id, SlicesOf(bytes, blocks)[id].text)
  {
    hide Boundary, Decode, SlicesOf;
    SliceIsBlock(bytes, blocks, k, id);
  }

  lemma {:induction false} ReadsSlice(bytes: seq<Byte>, blocks: seq<Listed>, k: nat, id: int, t: Text)
    requires ReadsAt(bytes, blocks, k, id, t)
    ensures id in SlicesOf(bytes, blocks) && SlicesOf(bytes, blocks)[id].text == t
  {
    hide Boundary, Decode, SlicesOf;
    SliceIsBlock(bytes, blocks, k, id);
  }

  /** Each part of a text has its folding in the folded text. */
  lemma {:induction false} PartFolds(t: Text, i: nat, j: nat)
    requires i <= j <= |t|
    ensures exists at: nat :: OccursAt(Folded(t), Folded(t[i..j]), at)
  {
    hide Folded;
    assert t[..i] + t[i..] == t && t[i..j] + t[j..] == t[i..];
    FoldSuffix(t[..i], t[i..]);
    FoldPrefix(t[i..j], t[j..]);
    var at :| 0 <= at <= |Folded(t)| && Folded(t)[at..] == Folded(t[i..]);
    var n := |Folded(t[i..j])|;
    assert Folded(t)[at..at + n] == Folded(t)[at..][..n];
    assert OccursAt(Folded(t), Folded(t[i..j]), at);
  }

  /** Folded search finds something in a text exactly when a part of it is alike. */
  lemma {:induction false} FoldedSearch(t: Text, q: Text)
    requires Folded(q) != []
    ensures Occurrences(Folded(t), Folded(q), 0) != [] <==> exists i: nat, j: nat :: PartIsAlike(t, i, j, q)
  {
    hide Folded, FoldFrom, Places, Alike, OccursAt;
    var found := Occurrences(Folded(t), Folded(q), 0);
    if found != [] {
      var at := found[0];
      assert OccursAt(Folded(t), Folded(q), at);
      var i, j := AlikePart(t, q, at);
    }
    if i: nat, j: nat :| PartIsAlike(t, i, j, q) {
      FoldsAlike(t[i..j], q);
      PartFolds(t, i, j);
      var at: nat :| OccursAt(Folded(t), Folded(t[i..j]), at);
      OccurrencesExact(Folded(t), Folded(q), 0, at);
    }
  }

  lemma {:induction false} AlikePart(t: Text, q: Text, at: nat) returns (i: nat, j: nat)
    requires Folded(q) != [] && OccursAt(Folded(t), Folded(q), at)
    ensures PartIsAlike(t, i, j, q)
  {
    hide Folded, FoldFrom, Alike, Places;
    var n := |Folded(q)|;
    PlacesLength(t);
    MatchFolds(t, at, n);
    i := Places(t, 0)[at];
    j := if at + n < |Folded(t)| then Places(t, 0)[at + n] else |t|;
    FoldsAlike(t[i..j], q);
  }

  /** A quote that is not blank folds to something. */
  lemma {:induction false} BlankFolds(q: Text)
    ensures Empty(q) <==> Blank(q)
    ensures !Blank(q) ==> Folded(q) != [] && q != []
  {
    hide Folded, White, IsSpace;
    forall k | 0 <= k < |q| ensures White(q[k]) <==> IsSpace(q[k]) { WhiteIs(q[k]); }
    NothingLeft(q);
  }

  // ---------------------------------------------------------------- the first block that has it

  /** The search finds something in this block. */
  predicate Finds(slices: map<int, Slice>, id: int, q: Text, folded: bool) {
    id in slices && Occurrences(Haystack(slices[id], folded), q, 0) != []
  }

  lemma {:induction false} FirstFound(slices: map<int, Slice>, order: seq<int>, q: Text, folded: bool)
    ensures var hits := AllHits(slices, order, q, folded);
            if hits == [] then forall k :: 0 <= k < |order| ==> !Finds(slices, order[k], q, folded)
            else exists k :: 0 <= k < |order| && hits[0].block == order[k] && Finds(slices, order[k], q, folded)
                             && forall j :: 0 <= j < k ==> !Finds(slices, order[j], q, folded)
    decreases |order|
  {
    hide Haystack, Occurrences, HitAt;
    if order != [] {
      var n := |order| - 1;
      var before := AllHits(slices, order[..n], q, folded);
      FirstFound(slices, order[..n], q, folded);
      var id := order[n];
      if before != [] {
        var k :| 0 <= k < |order[..n]| && before[0].block == order[..n][k] && Finds(slices, order[..n][k], q, folded)
                 && forall j :: 0 <= j < k ==> !Finds(slices, order[..n][j], q, folded);
        assert order[k] == order[..n][k];
        assert forall j :: 0 <= j < k ==> order[j] == order[..n][j];
        assert AllHits(slices, order, q, folded)[0] == before[0];
      } else {
        assert forall j :: 0 <= j < n ==> order[j] == order[..n][j];
        if Finds(slices, id, q, folded) {
          var ats := Occurrences(Haystack(slices[id], folded), q, 0);
          HitBlock(id, slices[id], folded, q, ats[0]);
          assert AllHits(slices, order, q, folded)[0].block == order[n];
        }
      }
    }
  }

  /** The stated block comes first, then the one before it, then the one after. */
  ghost predicate FirstOf(v: int, block: int, has: int -> bool) {
    has(v) && (v == block || (v == block - 1 && !has(block)) || (v == block + 1 && !has(block) && !has(block - 1)))
  }

  lemma {:induction false} ScopeFound(slices: map<int, Slice>, block: int, q: Text, folded: bool)
    ensures var hits := AllHits(slices, ScopeOrder(slices, block), q, folded);
            var has := id => Finds(slices, id, q, folded);
            && (hits == [] <==> !has(block) && !has(block - 1) && !has(block + 1))
            && (hits != [] ==> FirstOf(hits[0].block, block, has))
  {
    hide AllHits, Haystack, Occurrences;
    var order := ScopeOrder(slices, block);
    FirstFound(slices, order, q, folded);
    assert order[0] == block;
    if block - 1 in slices { assert order[1] == block - 1; }
    if block + 1 in slices { assert order[|order| - 1] == block + 1; }
  }

  // ---------------------------------------------------------------- the verdict

  /** One of the three blocks has the quote as it is. */
  ghost predicate Exactly(bytes: seq<Byte>, blocks: seq<Listed>, block: int, q: Text) {
    exists id :: block - 1 <= id <= block + 1 && Contains(bytes, blocks, id, q)
  }

  /** The quote stands in the block as the stage that decides reads it. */
  ghost predicate Holds(bytes: seq<Byte>, blocks: seq<Listed>, id: int, q: Text, exact: bool) {
    if exact then Contains(bytes, blocks, id, q) else ContainsAlike(bytes, blocks, id, q)
  }

  lemma {:induction false} FindsIsHolds(bytes: seq<Byte>, blocks: seq<Listed>, id: int, q: Text)
    requires !Blank(q)
    ensures Finds(SlicesOf(bytes, blocks), id, q, false) <==> Holds(bytes, blocks, id, q, true)
    ensures Finds(SlicesOf(bytes, blocks), id, Folded(q), true) <==> Holds(bytes, blocks, id, q, false)
  {
    hide SlicesOf, Reads, Alike, Folded, Blank, OccursAt, PartIsAlike;
    SliceIsText(bytes, blocks, id);
    BlankFolds(q);
    if id in SlicesOf(bytes, blocks) {
      var t := SlicesOf(bytes, blocks)[id].text;
      FoldedSearch(t, q);
      var found := Occurrences(t, q, 0);
      if found != [] { assert OccursAt(t, q, found[0]); }
      if at: nat :| OccursAt(t, q, at) { OccurrencesExact(t, q, 0, at); }
    }
  }

  /**
   * How a quote is judged, for every list of blocks: it is empty exactly when it is blank, its block unknown exactly when
   * no readable block has the id, and unmatched exactly when no part of the stated or of a neighbouring block is alike.
   * The stage that decides asks for the quote itself as soon as one of these blocks has it, and otherwise for alike
   * parts; the match is in the stated block if that has one, then in the one before it, then in the one after.
   */
  lemma {:induction false} VerdictExactly(bytes: seq<Byte>, blocks: seq<Listed>, q: Text, block: int)
    ensures var v := Judged(bytes, SlicesOf(bytes, blocks), q, block);
            var exact := Exactly(bytes, blocks, block, q);
            && (v.EmptyQuote? <==> Blank(q))
            && (v.UnknownBlock? <==> !Blank(q) && !Known(bytes, blocks, block))
            && (v.Unmatched? <==> !Blank(q) && Known(bytes, blocks, block)
                                  && forall id :: block - 1 <= id <= block + 1 ==> !ContainsAlike(bytes, blocks, id, q))
            && (v.Match? ==> && Holds(bytes, blocks, v.block, q, exact)
                             && (v.block == block
                                 || (v.block == block - 1 && !Holds(bytes, blocks, block, q, exact))
                                 || (v.block == block + 1 && !Holds(bytes, blocks, block, q, exact) && !Holds(bytes, blocks, block - 1, q, exact))))
  {
    hide SlicesOf, Reads, Contains, ContainsAlike, Blank, Finds, AllHits, Folded, TextOf, ScopeOrder;
    var slices := SlicesOf(bytes, blocks);
    BlankFolds(q);
    SliceIsText(bytes, blocks, block);
    assert block in slices ==> block >= 1 by { SliceIsListed(bytes, blocks, block); }
    if !Blank(q) {
      forall id ensures Contains(bytes, blocks, id, q) ==> ContainsAlike(bytes, blocks, id, q) { ExactIsAlike(bytes, blocks, id, q); }
      forall id ensures Finds(slices, id, q, false) <==> Holds(bytes, blocks, id, q, true) { FindsIsHolds(bytes, blocks, id, q); }
      forall id ensures Finds(slices, id, Folded(q), true) <==> Holds(bytes, blocks, id, q, false) { FindsIsHolds(bytes, blocks, id, q); }
      ScopeFound(slices, block, q, false);
      ScopeFound(slices, block, Folded(q), true);
    }
  }

  lemma {:induction false} SliceIsListed(bytes: seq<Byte>, blocks: seq<Listed>, id: int)
    ensures id in SlicesOf(bytes, blocks) ==> id >= 1
  {
    hide Boundary, Decode, SlicesOf;
    if id in SlicesOf(bytes, blocks) { var k := SliceHasBlock(bytes, blocks, id); }
  }

  lemma {:induction false} ExactIsAlike(bytes: seq<Byte>, blocks: seq<Listed>, id: int, q: Text)
    ensures Contains(bytes, blocks, id, q) ==> ContainsAlike(bytes, blocks, id, q)
  {
    hide Reads, Alike;
    if t, at: nat :| Reads(bytes, blocks, id, t) && OccursAt(t, q, at) {
      AlikeIsEquivalence(q, q, q);
      assert PartIsAlike(t, at, at + |q|, q);
    }
  }

  // ---------------------------------------------------------------- ambiguity

  predicate Rises(r: seq<nat>, from: nat) { (forall k :: 0 <= k < |r| ==> from <= r[k]) && forall j, k :: 0 <= j < k < |r| ==> r[j] < r[k] }

  lemma {:induction false} OccurrencesRise(h: Text, q: Text, from: nat)
    ensures Rises(Occurrences(h, q, from), from)
    decreases |h| + 1 - from
  {
    hide OccursAt;
    if from + |q| <= |h| {
      OccurrencesRise(h, q, from + 1);
      RisesFrom(Occurrences(h, q, from + 1), from);
    }
  }

  lemma {:induction false} RisesFrom(rest: seq<nat>, from: nat)
    requires Rises(rest, from + 1)
    ensures Rises(rest, from) && Rises([from] + rest, from)
  {
  }

  /** The quote stands at two places of the text. */
  ghost predicate Twice(h: Text, q: Text) { exists a: nat, b: nat :: a < b && OccursAt(h, q, a) && OccursAt(h, q, b) }

  lemma {:induction false} TwiceIs(h: Text, q: Text)
    ensures |Occurrences(h, q, 0)| >= 2 <==> Twice(h, q)
  {
    hide OccursAt;
    var r := Occurrences(h, q, 0);
    OccurrencesRise(h, q, 0);
    if |r| >= 2 { assert r[0] < r[1] && OccursAt(h, q, r[0]) && OccursAt(h, q, r[1]); }
    if a: nat, b: nat :| a < b && OccursAt(h, q, a) && OccursAt(h, q, b) {
      OccurrencesExact(h, q, 0, a);
      OccurrencesExact(h, q, 0, b);
      var i :| 0 <= i < |r| && r[i] == a;
      var j :| 0 <= j < |r| && r[j] == b;
    }
  }

  ghost predicate FindsTwice(slices: map<int, Slice>, id: int, q: Text, folded: bool) { id in slices && Twice(Haystack(slices[id], folded), q) }

  ghost predicate TwoSpots(slices: map<int, Slice>, order: seq<int>, q: Text, folded: bool) {
    || (exists k :: 0 <= k < |order| && FindsTwice(slices, order[k], q, folded))
    || (exists j, k :: 0 <= j < k < |order| && Finds(slices, order[j], q, folded) && Finds(slices, order[k], q, folded))
  }

  lemma {:induction false} TwoHits(slices: map<int, Slice>, order: seq<int>, q: Text, folded: bool)
    ensures |AllHits(slices, order, q, folded)| >= 2 <==> TwoSpots(slices, order, q, folded)
    decreases |order|
  {
    hide Haystack, Occurrences, HitAt, Twice, Finds, FindsTwice, FirstOf, AllHits, TwoSpots;
    if order == [] {
      NoSpots(slices, q, folded);
    } else {
      var n := |order| - 1;
      TwoHits(slices, order[..n], q, folded);
      FirstFound(slices, order[..n], q, folded);
      LastHits(slices, order, q, folded);
      assert forall k :: 0 <= k < n ==> order[..n][k] == order[k];
      SpotsMore(slices, order, q, folded);
    }
  }

  lemma {:induction false} NoSpots(slices: map<int, Slice>, q: Text, folded: bool)
    ensures AllHits(slices, [], q, folded) == [] && !TwoSpots(slices, [], q, folded)
  {
  }

  /** The hits of the last block come after those before. */
  lemma {:induction false} LastHits(slices: map<int, Slice>, order: seq<int>, q: Text, folded: bool)
    requires order != []
    ensures var n := |order| - 1;
            var more := |AllHits(slices, order, q, folded)| - |AllHits(slices, order[..n], q, folded)|;
            && more >= 0 && (more >= 1 <==> Finds(slices, order[n], q, folded)) && (more >= 2 <==> FindsTwice(slices, order[n], q, folded))
  {
    hide Occurrences, HitAt, Twice;
    var id := order[|order| - 1];
    if id in slices { TwiceIs(Haystack(slices[id], folded), q); }
  }

  lemma {:induction false} SpotsMore(slices: map<int, Slice>, order: seq<int>, q: Text, folded: bool)
    requires order != []
    ensures var n := |order| - 1;
            TwoSpots(slices, order, q, folded) <==>
              || TwoSpots(slices, order[..n], q, folded) || FindsTwice(slices, order[n], q, folded)
              || (Finds(slices, order[n], q, folded) && exists k :: 0 <= k < n && Finds(slices, order[k], q, folded))
  {
    hide Finds, FindsTwice;
    var n := |order| - 1;
    assert forall k :: 0 <= k < n ==> order[..n][k] == order[k];
    if k :| 0 <= k < |order[..n]| && FindsTwice(slices, order[..n][k], q, folded) { assert FindsTwice(slices, order[k], q, folded); }
    if j, k :| 0 <= j < k < |order[..n]| && Finds(slices, order[..n][j], q, folded) && Finds(slices, order[..n][k], q, folded) {
      assert Finds(slices, order[j], q, folded) && Finds(slices, order[k], q, folded);
    }
  }

  /** What the stage that decides compares: the texts and the quote, as they are or folded. */
  function Compared(t: Text, exact: bool): Text { if exact then t else Folded(t) }

  /** The block has the quote at two places. */
  ghost predicate HoldsTwice(bytes: seq<Byte>, blocks: seq<Listed>, id: int, q: Text, exact: bool) {
    exists t :: Reads(bytes, blocks, id, t) && Twice(Compared(t, exact), Compared(q, exact))
  }

  lemma {:induction false} TwiceIsHeld(bytes: seq<Byte>, blocks: seq<Listed>, id: int, q: Text, exact: bool)
    ensures FindsTwice(SlicesOf(bytes, blocks), id, Compared(q, exact), !exact) <==> HoldsTwice(bytes, blocks, id, q, exact)
  {
    hide SlicesOf, Reads, Folded, Twice;
    SliceIsText(bytes, blocks, id);
  }

  /** Two of the three blocks hold the quote. */
  ghost predicate HeldByTwo(bytes: seq<Byte>, blocks: seq<Listed>, block: int, q: Text, exact: bool) {
    exists i, j :: block - 1 <= i < j <= block + 1 && Holds(bytes, blocks, i, q, exact) && Holds(bytes, blocks, j, q, exact)
  }

  lemma {:induction false} ScopeSpots(slices: map<int, Slice>, block: int, q: Text, folded: bool)
    requires block in slices
    ensures TwoSpots(slices, ScopeOrder(slices, block), q, folded) <==>
              || (exists id :: block - 1 <= id <= block + 1 && FindsTwice(slices, id, q, folded))
              || (exists i, j :: block - 1 <= i < j <= block + 1 && Finds(slices, i, q, folded) && Finds(slices, j, q, folded))
  {
    hide Twice, Haystack, Occurrences;
    var order := ScopeOrder(slices, block);
    assert order[0] == block;
    if block - 1 in slices { assert order[1] == block - 1; }
    if block + 1 in slices { assert order[|order| - 1] == block + 1; }
    assert forall k :: 0 <= k < |order| ==> block - 1 <= order[k] <= block + 1;
    if i, j :| block - 1 <= i < j <= block + 1 && Finds(slices, i, q, folded) && Finds(slices, j, q, folded) {
      var a :| 0 <= a < |order| && order[a] == i;
      var b :| 0 <= b < |order| && order[b] == j;
      assert a != b;
      if a < b { assert Finds(slices, order[a], q, folded) && Finds(slices, order[b], q, folded); }
    }
    if id :| block - 1 <= id <= block + 1 && FindsTwice(slices, id, q, folded) {
      var a :| 0 <= a < |order| && order[a] == id;
      assert FindsTwice(slices, order[a], q, folded);
    }
    if j, k :| 0 <= j < k < |order| && Finds(slices, order[j], q, folded) && Finds(slices, order[k], q, folded) {
      assert order[j] != order[k];
      if order[j] < order[k] { assert Finds(slices, order[j], q, folded) && Finds(slices, order[k], q, folded); }
    }
  }

  /** The stage that decides. */
  lemma {:induction false} StageIs(bytes: seq<Byte>, blocks: seq<Listed>, q: Text, block: int)
    requires !Blank(q)
    ensures var slices := SlicesOf(bytes, blocks);
            !Folds(slices, ScopeOrder(slices, block), q) <==> Exactly(bytes, blocks, block, q)
  {
    hide SlicesOf, Contains, ContainsAlike, Blank, Finds, AllHits, Folded, ScopeOrder;
    var slices := SlicesOf(bytes, blocks);
    forall id ensures Finds(slices, id, q, false) <==> Contains(bytes, blocks, id, q) { FindsIsHolds(bytes, blocks, id, q); }
    ScopeFound(slices, block, q, false);
  }

  lemma {:induction false} AmbiguousIs(bytes: seq<Byte>, slices: map<int, Slice>, q: Text, block: int)
    requires Judged(bytes, slices, q, block).Match?
    ensures var exact := !Folds(slices, ScopeOrder(slices, block), q);
            && block in slices && !Empty(q)
            && (Judged(bytes, slices, q, block).ambiguous <==> TwoSpots(slices, ScopeOrder(slices, block), Compared(q, exact), !exact))
  {
    hide AllHits, Folded, TextOf, TwoSpots, Empty, ScopeOrder;
    var exact := !Folds(slices, ScopeOrder(slices, block), q);
    TwoHits(slices, ScopeOrder(slices, block), Compared(q, exact), !exact);
  }

  /** A match is ambiguous exactly when the stage that decides finds the quote twice in a block, or in two of the blocks. */
  lemma {:induction false} AmbiguousExactly(bytes: seq<Byte>, blocks: seq<Listed>, q: Text, block: int)
    requires Judged(bytes, SlicesOf(bytes, blocks), q, block).Match?
    ensures var exact := Exactly(bytes, blocks, block, q);
            Judged(bytes, SlicesOf(bytes, blocks), q, block).ambiguous <==>
              || (exists id :: block - 1 <= id <= block + 1 && HoldsTwice(bytes, blocks, id, q, exact))
              || HeldByTwo(bytes, blocks, block, q, exact)
  {
    hide SlicesOf, Contains, ContainsAlike, Blank, Finds, FindsTwice, Folds, Folded, ScopeOrder, TwoSpots, HoldsTwice, Judged, Empty;
    var slices := SlicesOf(bytes, blocks);
    BlankFolds(q);
    AmbiguousIs(bytes, slices, q, block);
    StageIs(bytes, blocks, q, block);
    var exact := !Folds(slices, ScopeOrder(slices, block), q);
    var folded := !exact;
    forall id ensures Finds(slices, id, Compared(q, exact), folded) <==> Holds(bytes, blocks, id, q, exact) { FindsIsHolds(bytes, blocks, id, q); }
    forall id ensures FindsTwice(slices, id, Compared(q, exact), folded) <==> HoldsTwice(bytes, blocks, id, q, exact) { TwiceIsHeld(bytes, blocks, id, q, exact); }
    ScopeSpots(slices, block, Compared(q, exact), folded);
    assert exact == Exactly(bytes, blocks, block, q);
    HeldSpots(bytes, blocks, slices, block, q, exact, folded);
  }

  lemma {:induction false} HeldSpots(bytes: seq<Byte>, blocks: seq<Listed>, slices: map<int, Slice>, block: int, q: Text, exact: bool, folded: bool)
    requires forall id :: Finds(slices, id, Compared(q, exact), folded) <==> Holds(bytes, blocks, id, q, exact)
    requires forall id :: FindsTwice(slices, id, Compared(q, exact), folded) <==> HoldsTwice(bytes, blocks, id, q, exact)
    ensures (exists id :: block - 1 <= id <= block + 1 && FindsTwice(slices, id, Compared(q, exact), folded))
            <==> exists id :: block - 1 <= id <= block + 1 && HoldsTwice(bytes, blocks, id, q, exact)
    ensures (exists i, j :: block - 1 <= i < j <= block + 1 && Finds(slices, i, Compared(q, exact), folded) && Finds(slices, j, Compared(q, exact), folded))
            <==> HeldByTwo(bytes, blocks, block, q, exact)
  {
    hide Finds, FindsTwice, Holds, HoldsTwice, Compared;
  }

  // ---------------------------------------------------------------- the rules

  predicate Unsupported(checks: Checks, part: Option<Text>, quote: Text) { part.Some? && !checks.supported(part.value, quote) }

  predicate Compound(checks: Checks, part: Option<Text>) { part.Some? && checks.compound(part.value) }

  /** The rules for one candidate, in their order: the first that fails is the reason. */
  predicate FollowsRules(checks: Checks, c: Candidate, v: Verdict, o: Outcome) {
    if !c.isResult && (c.valueText.Some? || c.unit.Some?) then o == Dropped(NonResultFields)
    else if Compound(checks, c.valueText) || Compound(checks, c.unit) then o == Dropped(CompoundMeasurement)
    else if v.EmptyQuote? then o == Dropped(NoQuote)
    else if v.UnknownBlock? then o == Dropped(NoSuchBlock)
    else if v.Unmatched? then o == Dropped(NotFound)
    else if !checks.supported(c.statement, v.quote) then o == Dropped(StatementNumbers)
    else if Unsupported(checks, c.conditions, v.quote) then o == Dropped(ConditionNumbers)
    else if checks.conflict(c, v.quote, v.ambiguous) then o == Dropped(SplitConflict)
    else
      && o.Kept? && o.claim.candidate == c && o.claim.quote == v.quote && o.claim.block == v.block && o.claim.start == v.start
      && o.claim.end == v.end && o.claim.ambiguous == v.ambiguous
      && (o.cleared <==> Unsupported(checks, c.valueText, v.quote))
      && (if o.cleared then o.claim.valueText == None && o.claim.unit == None else o.claim.valueText == c.valueText && o.claim.unit == c.unit)
  }

  /**
   * A candidate is kept exactly when no rule fails, with the quote, the place and the values that are supported; the
   * first rule that fails is the reason why it is dropped.
   */
  lemma {:induction false} RulesInOrder(checks: Checks, bytes: seq<Byte>, blocks: seq<Listed>, c: Candidate)
    ensures FollowsRules(checks, c, Judged(bytes, SlicesOf(bytes, blocks), c.quote, c.block), Outcomes(checks, bytes, SlicesOf(bytes, blocks), c))
  {
    hide Judged, SlicesOf;
  }

  /** The claims and the dropped candidates are in the order of the candidates, and each has its own outcome. */
  lemma {:induction false} InOrder(checks: Checks, bytes: seq<Byte>, slices: map<int, Slice>, cs: seq<Candidate>, k: nat)
    requires k < |cs|
    ensures var o := Outcomes(checks, bytes, slices, cs[k]);
            && KeptFrom(checks, bytes, slices, cs[..k]) + (if o.Kept? then [o.claim] else []) <= KeptFrom(checks, bytes, slices, cs)
            && DroppedFrom(checks, bytes, slices, cs[..k]) + (if o.Kept? then [] else [(k, o.reason)]) <= DroppedFrom(checks, bytes, slices, cs)
            && ClearedFrom(checks, bytes, slices, cs[..k]) + (if o.Kept? && o.cleared then 1 else 0) <= ClearedFrom(checks, bytes, slices, cs)
    decreases |cs|
  {
    hide Outcomes;
    var n := |cs| - 1;
    if k < n {
      InOrder(checks, bytes, slices, cs[..n], k);
      assert cs[..n][..k] == cs[..k];
    }
  }
}
