/** Which texts fold to the same: a relation on texts, and what folding keeps of parts (foldText in src/quotes.ts). */
module FoldLaws {
  import opened Text
  import opened Json
  import opened Fold

  // ---------------------------------------------------------------- the relation

  predicate White(u: Unit) {
    u in {0x09, 0x0A, 0x0B, 0x0C, 0x0D, 0x20, 0xA0, 0x1680, 0x2000, 0x2001, 0x2002, 0x2003, 0x2004, 0x2005, 0x2006, 0x2007, 0x2008,
          0x2009, 0x200A, 0x2028, 0x2029, 0x202F, 0x205F, 0x3000, 0xFEFF}
  }

  predicate SingleMark(u: Unit) { u in {0x27, 0x2018, 0x2019, 0x201A, 0x2039, 0x203A} }

  predicate DoubleMark(u: Unit) { u in {0x22, 0x201C, 0x201D, 0x201E, 0x201F, 0xAB, 0xBB} }

  predicate Dash(u: Unit) { u in {0x2D, 0x2010, 0x2011, 0x2012, 0x2013, 0x2014, 0x2212} }

  /** The same character, or two quotation marks of one kind, or two dashes. */
  predicate SameMark(u: Unit, v: Unit) {
    u == v || (SingleMark(u) && SingleMark(v)) || (DoubleMark(u) && DoubleMark(v)) || (Dash(u) && Dash(v))
  }

  /** The text behind its leading white space. */
  function Behind(s: Text): (r: Text)
    ensures |r| <= |s| && (s != [] && White(s[0]) ==> |r| < |s|)
  {
    if s != [] && White(s[0]) then Behind(s[1..]) else s
  }

  /**
   * The texts differ only by the kind of their marks and dashes, by the white space in runs of it, and by soft hyphens.
   * A soft hyphen inside white space makes two runs of it.
   */
  predicate Alike(a: Text, b: Text)
    decreases |a| + |b|
  {
    if a != [] && a[0] == 0xAD then Alike(a[1..], b)
    else if b != [] && b[0] == 0xAD then Alike(a, b[1..])
    else if a == [] || b == [] then a == b
    else if White(a[0]) && White(b[0]) then Alike(Behind(a), Behind(b))
    else !White(a[0]) && !White(b[0]) && SameMark(a[0], b[0]) && Alike(a[1..], b[1..])
  }

  // ---------------------------------------------------------------- folding from the front

  lemma {:induction false} WhiteIs(u: Unit)
    ensures White(u) <==> IsSpace(u)
  {
  }

  /** Folding the rest of a text is the rest of its folding. */
  lemma {:induction false} FoldRest(s: Text, i: nat)
    requires i <= |s|
    ensures FoldFrom(s, i) == Folded(s[i..])
  {
    hide FoldFrom, Places;
    FoldTake(s, i, i, |FoldFrom(s, i)|);
    assert EndPlace(s, i, |FoldFrom(s, i)|) == |s|;
    assert s[i..|s|] == s[i..];
  }

  lemma {:induction false} BehindIs(s: Text, i: nat)
    requires i <= |s|
    ensures Behind(s[i..]) == s[i + RunOfSpace(s, i)..]
    decreases |s| - i
  {
    hide White, IsSpace;
    if i < |s| {
      WhiteIs(s[i]);
      if White(s[i]) {
        BehindIs(s, i + 1);
        assert s[i..][1..] == s[i + 1..];
      }
    }
  }

  /** What folding does with the front of a text. */
  lemma {:induction false} FoldFront(s: Text)
    ensures s == [] ==> Folded(s) == []
    ensures s != [] ==> Folded(s) == if s[0] == 0xAD then Folded(s[1..]) else [FoldOne(s[0])] + Folded(if White(s[0]) then Behind(s) else s[1..])
  {
    hide White, IsSpace, FoldUnit;
    if s != [] {
      WhiteIs(s[0]);
      FoldRest(s, Next(s, 0));
      BehindIs(s, 0);
      assert s[0..] == s;
    }
  }

  lemma {:induction false} SameFold(u: Unit, v: Unit)
    requires u != 0xAD && v != 0xAD
    ensures FoldOne(u) == FoldOne(v) <==> (White(u) && White(v)) || (!White(u) && !White(v) && SameMark(u, v))
  {
  }

  /** Two texts fold to the same exactly when they are alike. */
  lemma {:induction false} FoldsAlike(a: Text, b: Text)
    ensures Folded(a) == Folded(b) <==> Alike(a, b)
    decreases |a| + |b|
  {
    hide White, SameMark, FoldOne, Folded, FoldFrom;
    FoldFront(a);
    FoldFront(b);
    if a != [] && a[0] == 0xAD {
      FoldsAlike(a[1..], b);
    } else if b != [] && b[0] == 0xAD {
      FoldsAlike(a, b[1..]);
    } else if a != [] && b != [] {
      SameFold(a[0], b[0]);
      var x := if White(a[0]) then Behind(a) else a[1..];
      var y := if White(b[0]) then Behind(b) else b[1..];
      if White(a[0]) == White(b[0]) { FoldsAlike(x, y); }
      assert Folded(a)[0] == FoldOne(a[0]) && Folded(a)[1..] == Folded(x);
      assert Folded(b)[0] == FoldOne(b[0]) && Folded(b)[1..] == Folded(y);
    }
  }

  /** So being alike is an equivalence. */
  lemma {:induction false} AlikeIsEquivalence(a: Text, b: Text, c: Text)
    ensures Alike(a, a) && (Alike(a, b) ==> Alike(b, a)) && (Alike(a, b) && Alike(b, c) ==> Alike(a, c))
  {
    hide Alike, Folded;
    FoldsAlike(a, a);
    FoldsAlike(a, b);
    FoldsAlike(b, a);
    FoldsAlike(b, c);
    FoldsAlike(a, c);
  }

  // ---------------------------------------------------------------- parts

  lemma {:induction false} BehindMore(p: Text, y: Text)
    ensures Behind(p) != [] ==> Behind(p + y) == Behind(p) + y
    ensures Behind(p) == [] ==> Behind(p + y) == Behind(y)
    decreases |p|
  {
    hide White;
    if p == [] {
      assert p + y == y;
    } else {
      assert (p + y)[0] == p[0] && (p + y)[1..] == p[1..] + y;
      if White(p[0]) { BehindMore(p[1..], y); }
    }
  }

  /** The folded text begins with its folded beginning. */
  lemma {:induction false} FoldPrefix(p: Text, y: Text)
    ensures Folded(p) <= Folded(p + y)
    decreases |p|
  {
    hide White, FoldOne, Folded, FoldFrom;
    FoldFront(p);
    FoldFront(p + y);
    if p != [] {
      assert (p + y)[0] == p[0] && (p + y)[1..] == p[1..] + y;
      if p[0] == 0xAD || !White(p[0]) {
        FoldPrefix(p[1..], y);
      } else {
        BehindMore(p, y);
        if Behind(p) != [] { FoldPrefix(Behind(p), y); } else { FoldFront([]); }
      }
    }
  }

  /** The folded text ends with its folded end. */
  lemma {:induction false} FoldSuffix(x: Text, p: Text)
    ensures exists at :: 0 <= at <= |Folded(x + p)| && Folded(x + p)[at..] == Folded(p)
    decreases |x|
  {
    hide White, FoldOne, Folded, FoldFrom;
    if x == [] {
      assert x + p == p && Folded(x + p)[0..] == Folded(p);
    } else {
      FoldFront(x + p);
      FoldFront(p);
      assert (x + p)[0] == x[0] && (x + p)[1..] == x[1..] + p;
      var rest := if x[0] != 0xAD && White(x[0]) then Behind(x + p) else x[1..] + p;
      if x[0] == 0xAD {
        FoldSuffix(x[1..], p);
      } else if !White(x[0]) {
        FoldSuffix(x[1..], p);
        LongerSuffix(x + p, rest, p);
      } else {
        BehindMore(x, p);
        if Behind(x) != [] {
          FoldSuffix(Behind(x), p);
          LongerSuffix(x + p, rest, p);
        } else {
          BlankBefore(x, p);
        }
      }
    }
  }

  lemma {:induction false} LongerSuffix(s: Text, rest: Text, p: Text)
    requires s != [] && Folded(s) == [FoldOne(s[0])] + Folded(rest)
    requires exists at :: 0 <= at <= |Folded(rest)| && Folded(rest)[at..] == Folded(p)
    ensures exists at :: 0 <= at <= |Folded(s)| && Folded(s)[at..] == Folded(p)
  {
    hide FoldOne, Folded;
    var at :| 0 <= at <= |Folded(rest)| && Folded(rest)[at..] == Folded(p);
    assert Folded(s)[at + 1..] == Folded(rest)[at..];
  }

  /** White space before a text adds one space to its folding, or none when the text begins with white space. */
  lemma {:induction false} BlankBefore(x: Text, p: Text)
    requires x != [] && x[0] != 0xAD && White(x[0]) && Behind(x) == []
    requires Folded(x + p) == [FoldOne(x[0])] + Folded(Behind(p))
    ensures exists at :: 0 <= at <= |Folded(x + p)| && Folded(x + p)[at..] == Folded(p)
  {
    hide Folded, FoldOne;
    if p != [] && p[0] != 0xAD && White(p[0]) {
      FoldFront(p);
      SameFold(x[0], p[0]);
      assert Folded(x + p)[0..] == Folded(p);
    } else {
      assert Behind(p) == p by { assert p == [] || !White(p[0]); }
      assert Folded(x + p)[1..] == Folded(p);
    }
  }

  /** A text folds to nothing exactly when it is soft hyphens. */
  lemma {:induction false} NothingLeft(s: Text)
    ensures Folded(s) == [] <==> forall k :: 0 <= k < |s| ==> s[k] == 0xAD
    decreases |s|
  {
    hide Folded, FoldFrom, FoldOne, White;
    FoldFront(s);
    if s != [] && s[0] == 0xAD {
      NothingLeft(s[1..]);
      assert s == [s[0]] + s[1..];
    }
  }
}
