/** Folding of white space, quotes, dashes and soft hyphens, with the way back to the source (foldText in src/quotes.ts). */
module Fold {
  import opened Text
  import opened Json
  import opened Decoding

  const SOFT_HYPHEN: Unit := 0xAD

  function FoldUnit(u: Unit): Unit {
    if u in {0x2018, 0x2019, 0x201A, 0x2039, 0x203A} then 39
    else if u in {0x201C, 0x201D, 0x201E, 0x201F, 0xAB, 0xBB} then 34
    else if u in {0x2010, 0x2011, 0x2012, 0x2013, 0x2014, 0x2212} then 45
    else u
  }

  function RunOfSpace(s: Text, i: nat): (n: nat)
    requires i <= |s|
    ensures i + n <= |s| && (forall k :: i <= k < i + n ==> IsSpace(s[k])) && (i + n < |s| ==> !IsSpace(s[i + n]))
    decreases |s| - i
  {
    if i < |s| && IsSpace(s[i]) then 1 + RunOfSpace(s, i + 1) else 0
  }

  /** Where the scan goes on after the unit at `i`. */
  function Next(s: Text, i: nat): (j: nat)
    requires i < |s|
    ensures i < j <= |s|
  {
    if s[i] != SOFT_HYPHEN && IsSpace(s[i]) then i + RunOfSpace(s, i) else i + 1
  }

  /** What the scan puts out at `i`. */
  function FoldOne(u: Unit): Unit { if IsSpace(u) then SPACE else FoldUnit(u) }

  /** The folded text from `i` on. */
  function FoldFrom(s: Text, i: nat): Text
    requires i <= |s|
    decreases |s| - i
  {
    if i == |s| then []
    else (if s[i] == SOFT_HYPHEN then [] else [FoldOne(s[i])]) + FoldFrom(s, Next(s, i))
  }

  /** Where each folded unit comes from. */
  function Places(s: Text, i: nat): (p: seq<nat>)
    requires i <= |s|
    ensures |p| == |FoldFrom(s, i)|
    ensures forall k :: 0 <= k < |p| ==> i <= p[k] < |s|
    decreases |s| - i
  {
    if i == |s| then []
    else (if s[i] == SOFT_HYPHEN then [] else [i]) + Places(s, Next(s, i))
  }

  function Folded(s: Text): Text { FoldFrom(s, 0) }

  method FoldText(s: Text) returns (folded: Text, places: seq<nat>)
    ensures folded == Folded(s) && places == Places(s, 0)
  {
    hide IsSpace, RunOfSpace, FoldUnit;
    folded, places := [], [];
    var i := 0;
    while i < |s|
      invariant i <= |s| && folded + FoldFrom(s, i) == Folded(s) && places + Places(s, i) == Places(s, 0)
    {
      var next := Next(s, i);
      if s[i] != SOFT_HYPHEN {
        assert FoldFrom(s, i) == [FoldOne(s[i])] + FoldFrom(s, next) && Places(s, i) == [i] + Places(s, next);
        folded, places := folded + [FoldOne(s[i])], places + [i];
      } else {
        assert FoldFrom(s, i) == FoldFrom(s, next) && Places(s, i) == Places(s, next);
      }
      i := next;
    }
  }

  // ---------------------------------------------------------------- parts

  /** Where `n` folded units end. */
  function EndPlace(s: Text, i: nat, n: nat): nat
    requires i <= |s| && n <= |FoldFrom(s, i)|
  {
    if n < |Places(s, i)| then Places(s, i)[n] else |s|
  }

  lemma {:induction false} FoldStep(s: Text, i: nat)
    requires i < |s|
    ensures FoldFrom(s, i) == (if s[i] == SOFT_HYPHEN then [] else [FoldOne(s[i])]) + FoldFrom(s, Next(s, i))
    ensures Places(s, i) == (if s[i] == SOFT_HYPHEN then [] else [i]) + Places(s, Next(s, i))
  {
  }

  /** Scanning on from the place of a folded unit puts out what follows it. */
  lemma {:induction false} FoldDrop(s: Text, i: nat, at: nat)
    requires i <= |s| && at < |FoldFrom(s, i)|
    ensures var j := Places(s, i)[at]; FoldFrom(s, j) == FoldFrom(s, i)[at..] && Places(s, j) == Places(s, i)[at..]
    decreases |s| - i
  {
    hide FoldFrom, Places, Next, IsSpace, FoldUnit;
    if i == |s| {
      NothingFolded(s);
    } else {
      FoldStep(s, i);
      var next := Next(s, i);
      if s[i] == SOFT_HYPHEN {
        assert [] + FoldFrom(s, next) == FoldFrom(s, next) && [] + Places(s, next) == Places(s, next);
        FoldDrop(s, next, at);
      } else if at == 0 {
        assert FoldFrom(s, i)[0..] == FoldFrom(s, i) && Places(s, i)[0..] == Places(s, i);
      } else {
        FoldDrop(s, next, at - 1);
        assert FoldFrom(s, i)[at..] == FoldFrom(s, next)[at - 1..] && Places(s, i)[at..] == Places(s, next)[at - 1..];
      }
    }
  }

  lemma {:induction false} NothingFolded(s: Text)
    ensures FoldFrom(s, |s|) == [] && Places(s, |s|) == []
  {
  }

  /** The scan moves the same way inside a part that ends where the scan stops. */
  lemma {:induction false} NextInside(s: Text, b: nat, i: nat, j: nat)
    requires b <= i < j <= |s| && Next(s, i) <= j
    ensures Next(s[b..j], i - b) == Next(s, i) - b && s[b..j][i - b] == s[i]
  {
    if s[i] != SOFT_HYPHEN && IsSpace(s[i]) {
      RunInside(s, b, i, j);
    }
  }

  lemma {:induction false} RunInside(s: Text, b: nat, i: nat, j: nat)
    requires b <= i <= j <= |s| && i + RunOfSpace(s, i) <= j
    ensures RunOfSpace(s[b..j], i - b) == RunOfSpace(s, i)
    decreases |s| - i
  {
    if i < j && IsSpace(s[i]) { RunInside(s, b, i + 1, j); }
  }

  lemma {:induction false} EndAfter(s: Text, i: nat, n: nat)
    requires i < |s| && n <= |FoldFrom(s, i)|
    ensures s[i] == SOFT_HYPHEN ==> n <= |FoldFrom(s, Next(s, i))| && EndPlace(s, i, n) == EndPlace(s, Next(s, i), n)
    ensures s[i] != SOFT_HYPHEN && n > 0 ==> n - 1 <= |FoldFrom(s, Next(s, i))| && EndPlace(s, i, n) == EndPlace(s, Next(s, i), n - 1)
    ensures s[i] != SOFT_HYPHEN && n == 0 ==> EndPlace(s, i, n) == i
    ensures i <= EndPlace(s, i, n) <= |s|
  {
    hide Next, IsSpace, FoldUnit;
    FoldStep(s, i);
  }

  lemma {:induction false} EndInside(s: Text, i: nat, n: nat)
    requires i <= |s| && n <= |FoldFrom(s, i)|
    ensures i <= EndPlace(s, i, n) <= |s|
  {
  }

  /** The part of the source between two places folds to the folded units between them. */
  lemma {:induction false} FoldTake(s: Text, b: nat, i: nat, n: nat)
    requires b <= i <= |s| && n <= |FoldFrom(s, i)|
    ensures i <= EndPlace(s, i, n) <= |s|
    ensures FoldFrom(s[b..EndPlace(s, i, n)], i - b) == FoldFrom(s, i)[..n]
    decreases |s| - i
  {
    hide FoldFrom, Places, Next, IsSpace, FoldUnit, EndPlace;
    EndInside(s, i, n);
    var j := EndPlace(s, i, n);
    var part := s[b..j];
    if i == |s| {
      NothingFolded(s);
      NothingFolded(part);
    } else {
      EndAfter(s, i, n);
      var next := Next(s, i);
      if s[i] != SOFT_HYPHEN && n == 0 {
        NothingFolded(part);
      } else {
        var m := if s[i] == SOFT_HYPHEN then n else n - 1;
        FoldTake(s, b, next, m);
        EndInside(s, next, m);
        NextInside(s, b, i, j);
        FoldStep(s, i);
        FoldStep(part, i - b);
        if s[i] == SOFT_HYPHEN {
          assert [] + FoldFrom(s, next) == FoldFrom(s, next);
          assert [] + FoldFrom(part, next - b) == FoldFrom(part, next - b);
        } else {
          assert FoldFrom(s, i)[..n] == [FoldOne(s[i])] + FoldFrom(s, next)[..n - 1];
        }
      }
    }
  }

  /** A match of the folded text maps to a part of the source that folds to it. */
  lemma {:induction false} MatchFolds(s: Text, at: nat, n: nat)
    requires at < |Folded(s)| && at + n <= |Folded(s)|
    ensures var i := Places(s, 0)[at];
            var j := if at + n < |Folded(s)| then Places(s, 0)[at + n] else |s|;
            i <= j <= |s| && Folded(s[i..j]) == Folded(s)[at..at + n]
  {
    hide FoldFrom, Places;
    var i := Places(s, 0)[at];
    FoldDrop(s, 0, at);
    FoldTake(s, i, i, n);
    assert FoldFrom(s, i)[..n] == Folded(s)[at..at + n];
    assert EndPlace(s, i, n) == if at + n < |Folded(s)| then Places(s, 0)[at + n] else |s|;
  }

  // ---------------------------------------------------------------- pairs

  predicate Surrogate(u: Unit) { IsHigh(u) || IsLow(u) }

  lemma {:induction false} SurrogateFolds(u: Unit)
    ensures Surrogate(u) ==> u != SOFT_HYPHEN && !IsSpace(u) && FoldOne(u) == u
    ensures !Surrogate(u) ==> !Surrogate(FoldOne(u))
  {
  }

  /** Folding keeps pairs together. */
  lemma {:induction false} FoldIsWellformed(s: Text, i: nat)
    requires i <= |s| && Wellformed(s[i..])
    ensures Wellformed(FoldFrom(s, i))
    decreases |s| - i
  {
    hide FoldFrom, IsSpace, FoldUnit, FoldOne;
    if i == |s| {
      NothingFolded(s);
    } else {
      var t := s[i..];
      FoldStep(s, i);
      SurrogateFolds(s[i]);
      if PairFirst(t) {
        assert s[i + 1] == t[1];
        SurrogateFolds(s[i + 1]);
        FoldStep(s, i + 1);
        assert t[2..] == s[i + 2..];
        FoldIsWellformed(s, i + 2);
        WellformedConcat([s[i], s[i + 1]], FoldFrom(s, i + 2));
        assert [s[i]] + ([s[i + 1]] + FoldFrom(s, i + 2)) == [s[i], s[i + 1]] + FoldFrom(s, i + 2);
      } else {
        var next := Next(s, i);
        SkipIsWellformed(s, i, next);
        FoldIsWellformed(s, next);
        if s[i] == SOFT_HYPHEN {
          assert [] + FoldFrom(s, next) == FoldFrom(s, next);
        } else {
          WellformedConcat([FoldOne(s[i])], FoldFrom(s, next));
        }
      }
    }
  }

  /** Behind a unit that is no surrogate, and behind a run of white space, the rest is well-formed. */
  lemma {:induction false} SkipIsWellformed(s: Text, i: nat, next: nat)
    requires i < |s| && Wellformed(s[i..]) && !PairFirst(s[i..]) && next == Next(s, i)
    ensures Wellformed(s[next..]) && !Surrogate(s[i])
  {
    assert s[i..][1..] == s[i + 1..];
    if next > i + 1 { RunIsWellformed(s, i, next); }
  }

  lemma {:induction false} RunIsWellformed(s: Text, i: nat, next: nat)
    requires i <= next <= |s| && Wellformed(s[i..]) && forall k :: i <= k < next ==> IsSpace(s[k])
    ensures Wellformed(s[next..])
    decreases next - i
  {
    if i < next {
      assert s[i..][1..] == s[i + 1..];
      SurrogateFolds(s[i]);
      RunIsWellformed(s, i + 1, next);
    }
  }

  /** The unit before the place of a later folded unit, when it is a surrogate, is the folded unit before it. */
  lemma {:induction false} PlaceBefore(s: Text, i: nat, k: nat)
    requires i <= |s| && 0 < k <= |FoldFrom(s, i)|
    requires var j := EndPlace(s, i, k); j > 0 && Surrogate(s[j - 1])
    ensures FoldFrom(s, i)[k - 1] == s[EndPlace(s, i, k) - 1]
    decreases |s| - i
  {
    hide FoldFrom, Places, EndPlace, IsSpace, FoldUnit;
    if i < |s| {
      FoldStep(s, i);
      EndAfter(s, i, k);
      var next := Next(s, i);
      var j := EndPlace(s, i, k);
      if s[i] == SOFT_HYPHEN {
        assert [] + FoldFrom(s, next) == FoldFrom(s, next);
        PlaceBefore(s, next, k);
      } else if k > 1 {
        PlaceBefore(s, next, k - 1);
      } else {
        AfterOne(s, i, j);
      }
    } else {
      NothingFolded(s);
    }
  }

  /** After the only folded unit come soft hyphens and nothing else. */
  lemma {:induction false} AfterOne(s: Text, i: nat, j: nat)
    requires i < |s| && s[i] != SOFT_HYPHEN && j == EndPlace(s, Next(s, i), 0) && Surrogate(s[j - 1])
    ensures FoldOne(s[i]) == s[j - 1]
  {
    hide FoldFrom, Places;
    var next := Next(s, i);
    HyphensBetween(s, next, j);
    SurrogateFolds(s[j - 1]);
    SurrogateFolds(s[i]);
  }

  lemma {:induction false} HyphensBetween(s: Text, i: nat, j: nat)
    requires i <= |s| && j == EndPlace(s, i, 0)
    ensures i <= j <= |s| && forall k :: i <= k < j ==> s[k] == SOFT_HYPHEN
    decreases |s| - i
  {
    hide FoldFrom, Places, IsSpace, FoldUnit;
    EndInside(s, i, 0);
    if i < |s| {
      EndAfter(s, i, 0);
      if s[i] == SOFT_HYPHEN { HyphensBetween(s, Next(s, i), j); }
    }
  }
}
