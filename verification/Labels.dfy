/** Reference labels of an answer and the pieces that a rewriting of labels works on (src/citations.ts). */
module Labels {
  import opened Text
  import opened CodeRanges
  import opened Splice
  import opened CodeShift

  predicate Stops(u: Unit) { u == CLOSE_BRACKET || u == NEWLINE || u == OPEN_BRACKET }

  /** Where a label body that starts at `p` has to end. */
  function BodyEnd(text: Text, p: nat): (e: nat)
    requires p <= |text|
    ensures p <= e <= |text| && (e < |text| ==> Stops(text[e]))
    ensures forall k :: p <= k < e ==> !Stops(text[k])
    decreases |text| - p
  {
    if p == |text| || Stops(text[p]) then p else BodyEnd(text, p + 1)
  }

  lemma {:induction false} BodyEndUnique(text: Text, p: nat, e: nat)
    requires p <= e < |text| && Stops(text[e]) && forall k :: p <= k < e ==> !Stops(text[k])
    ensures BodyEnd(text, p) == e
  {
  }

  function DigitRun(s: Text, i: nat): (n: nat)
    requires i <= |s|
    ensures i + n <= |s| && (forall k :: i <= k < i + n ==> IsDigit(s[k])) && (i + n < |s| ==> !IsDigit(s[i + n]))
    decreases |s| - i
  {
    if i < |s| && IsDigit(s[i]) then 1 + DigitRun(s, i + 1) else 0
  }

  /** `S` with digits and then nothing or a colon, or `R` with a colon. */
  predicate LabelBody(b: Text) {
    || (|b| > 0 && b[0] == UPPER_S && var n := DigitRun(b, 1); n > 0 && (1 + n == |b| || b[1 + n] == COLON))
    || (|b| > 0 && b[0] == UPPER_R && COLON in b)
  }

  /** Length of the label token at `p`, or 0. */
  function LabelAt(text: Text, p: nat): (n: nat)
    requires p < |text|
    ensures p + n <= |text|
    ensures n > 0 ==> n > 2 && text[p] == OPEN_BRACKET && text[p + n - 1] == CLOSE_BRACKET
    ensures n > 0 ==> forall k :: p < k < p + n - 1 ==> !Stops(text[k])
  {
    if text[p] != OPEN_BRACKET then 0
    else
      var e := BodyEnd(text, p + 1);
      if e < |text| && text[e] == CLOSE_BRACKET && LabelBody(text[p + 1..e]) then e + 1 - p else 0
  }

  datatype Piece = Plain(unit: Unit) | Label(token: Text)

  /** The answer as single units and the label tokens outside code. */
  ghost function PiecesFrom(text: Text, p: nat): seq<Piece>
    requires p <= |text|
    decreases |text| - p
  {
    if p == |text| then []
    else if LabelAt(text, p) > 0 && !InRanges(Code(text), p) then
      [Label(text[p..p + LabelAt(text, p)])] + PiecesFrom(text, p + LabelAt(text, p))
    else [Plain(text[p])] + PiecesFrom(text, p + 1)
  }

  ghost function Pieces(text: Text): seq<Piece> { PiecesFrom(text, 0) }

  function Spelled(x: Piece): Text {
    match x
    case Plain(u) => [u]
    case Label(t) => t
  }

  function Flatten(ps: seq<Piece>): Text {
    if ps == [] then [] else Spelled(ps[0]) + Flatten(ps[1..])
  }

  lemma {:induction false} FlattenCons(x: Piece, ps: seq<Piece>)
    ensures Flatten([x] + ps) == Spelled(x) + Flatten(ps)
  {
    assert ([x] + ps)[1..] == ps;
  }

  lemma PiecesStep(text: Text, p: nat)
    requires p < |text|
    ensures PiecesFrom(text, p) ==
            if LabelAt(text, p) > 0 && !InRanges(Code(text), p)
            then [Label(text[p..p + LabelAt(text, p)])] + PiecesFrom(text, p + LabelAt(text, p))
            else [Plain(text[p])] + PiecesFrom(text, p + 1)
  {
    hide Code, LabelAt, InRanges;
  }

  lemma FlattenNil()
    ensures Flatten([]) == []
  {
  }

  lemma Assoc<T>(x: seq<T>, y: seq<T>, z: seq<T>)
    ensures x + (y + z) == x + y + z
  {
  }

  lemma TakeHere(text: Text, p: nat, n: nat)
    requires p + n <= |text|
    ensures text[p..p + n] + text[p + n..] == text[p..]
  {
  }

  lemma {:induction false} FlattenPieces(text: Text, p: nat)
    requires p <= |text|
    ensures Flatten(PiecesFrom(text, p)) == text[p..]
    decreases |text| - p
  {
    hide Code, LabelAt, InRanges, PiecesFrom, Flatten;
    if p == |text| {
      PiecesEnd(text);
      FlattenNil();
    } else {
      PiecesStep(text, p);
      var n := LabelAt(text, p);
      if n > 0 && !InRanges(Code(text), p) {
        FlattenPieces(text, p + n);
        FlattenCons(Label(text[p..p + n]), PiecesFrom(text, p + n));
        TakeHere(text, p, n);
      } else {
        FlattenPieces(text, p + 1);
        FlattenCons(Plain(text[p]), PiecesFrom(text, p + 1));
        TakeHere(text, p, 1);
      }
    }
  }

  lemma {:induction false} PiecesEnd(text: Text)
    ensures PiecesFrom(text, |text|) == []
  {
  }

  lemma {:induction false} FlattenConcat(a: seq<Piece>, b: seq<Piece>)
    ensures Flatten(a + b) == Flatten(a) + Flatten(b)
  {
    hide Flatten;
    if a == [] {
      FlattenNil();
      assert a + b == b;
    } else {
      FlattenConcat(a[1..], b);
      assert a == [a[0]] + a[1..];
      Assoc([a[0]], a[1..], b);
      FlattenCons(a[0], a[1..] + b);
      FlattenCons(a[0], a[1..]);
      Assoc(Spelled(a[0]), Flatten(a[1..]), Flatten(b));
    }
  }

  lemma FlattenLabel(token: Text)
    ensures Flatten([Label(token)]) == token
  {
    assert Flatten([Label(token)]) == token + Flatten([]);
  }

  /** The pieces are the ones their own text reads as. */
  ghost predicate Canonical(ps: seq<Piece>) { Pieces(Flatten(ps)) == ps }

  lemma PiecesAreCanonical(text: Text)
    ensures Canonical(Pieces(text))
  {
    FlattenPieces(text, 0);
  }

  /** A token that reads as one label and has no newline, backtick or backslash. */
  predicate GoodToken(x: Text) {
    |x| > 2 && LabelAt(x, 0) == |x| && Inert(x, 0, |x|)
  }

  // ---------------------------------------------------------------- label positions in two texts

  lemma {:induction false} BodyEndTail(t: Text, q: nat, u: Text, r: nat)
    requires SameTail(t, q, u, r)
    ensures BodyEnd(u, r) - r == BodyEnd(t, q) - q
    decreases |t| - q
  {
    if q < |t| && !Stops(t[q]) {
      BodyEndTail(t, q + 1, u, r + 1);
    }
  }

  lemma LabelAtTail(t: Text, q: nat, u: Text, r: nat)
    requires SameTail(t, q, u, r) && q < |t|
    ensures r < |u| && t[q] == u[r] && LabelAt(u, r) == LabelAt(t, q)
    ensures t[q..q + LabelAt(t, q)] == u[r..r + LabelAt(t, q)]
  {
    hide LabelBody, BodyEnd;
    assert t[q] == u[r];
    BodyEndTail(t, q + 1, u, r + 1);
    var e := BodyEnd(t, q + 1);
    assert t[q + 1..e] == u[r + 1..BodyEnd(u, r + 1)];
  }

  /** A label that starts before a bracket also ends before it, and only that part decides it. */
  lemma LabelAtHead(t: Text, u: Text, p: nat, q: nat)
    requires SameHead(t, u, p) && q < p < |t| && p < |u| && t[p] == OPEN_BRACKET && u[p] == OPEN_BRACKET
    ensures LabelAt(t, q) == LabelAt(u, q) && q + LabelAt(t, q) <= p
    ensures t[q..q + LabelAt(t, q)] == u[q..q + LabelAt(t, q)]
  {
    hide LabelBody, BodyEnd;
    var e := BodyEnd(t, q + 1);
    assert e <= p;
    BodyEndUnique(u, q + 1, e);
    assert t[q + 1..e] == u[q + 1..e];
  }

  /** A good token keeps its reading inside any text. */
  lemma LabelAtInside(u: Text, r: nat, y: Text)
    requires GoodToken(y) && r + |y| <= |u| && u[r..r + |y|] == y
    ensures LabelAt(u, r) == |y|
  {
    hide LabelBody;
    var n := |y|;
    assert forall k :: 0 <= k < n ==> u[r + k] == y[k];
    BodyEndUnique(u, r + 1, r + n - 1);
    BodyEndUnique(y, 1, n - 1);
    assert u[r + 1..r + n - 1] == y[1..n - 1];
  }

  // ---------------------------------------------------------------- replacing one label

  ghost predicate PlainAt(t: Text, q: nat)
    requires q < |t|
  {
    LabelAt(t, q) == 0 || InRanges(Code(t), q)
  }

  lemma Uncons<T>(x: T, xs: seq<T>, ps: seq<T>, rest: seq<T>)
    requires [x] + xs == ps + rest && ps != []
    ensures ps[0] == x && xs == ps[1..] + rest
  {
    assert ([x] + xs)[0] == x && ([x] + xs)[1..] == xs;
    assert (ps + rest)[0] == ps[0] && (ps + rest)[1..] == ps[1..] + rest;
  }

  /** The first piece of a text, and what follows it. */
  lemma FirstPiece(t: Text, q: nat, ps: seq<Piece>, rest: seq<Piece>)
    requires q <= |t| && PiecesFrom(t, q) == ps + rest && ps != []
    ensures q < |t| && ps[0] == if PlainAt(t, q) then Plain(t[q]) else Label(t[q..q + LabelAt(t, q)])
    ensures 0 < |Spelled(ps[0])| <= |t| - q && PiecesFrom(t, q + |Spelled(ps[0])|) == ps[1..] + rest
    ensures |Flatten(ps)| == |Spelled(ps[0])| + |Flatten(ps[1..])|
  {
    hide Code, LabelAt, InRanges, Flatten, PiecesFrom;
    if q == |t| {
      PiecesEnd(t);
    } else {
      PiecesStep(t, q);
      var n := if PlainAt(t, q) then 1 else LabelAt(t, q);
      Uncons(if PlainAt(t, q) then Plain(t[q]) else Label(t[q..q + n]), PiecesFrom(t, q + n), ps, rest);
      FlattenCons(ps[0], ps[1..]);
      assert ps == [ps[0]] + ps[1..];
    }
  }

  /** Pieces before the replaced label read alike in both texts. */
  lemma {:induction false} PiecesHead(t: Text, u: Text, p: nat, q: nat, ps: seq<Piece>, rest: seq<Piece>)
    requires SameHead(t, u, p) && q <= p < |t| && p < |u| && t[p] == OPEN_BRACKET && u[p] == OPEN_BRACKET
    requires forall k: nat :: k < p ==> (InRanges(Code(t), k) <==> InRanges(Code(u), k))
    requires PiecesFrom(t, q) == ps + rest && q + |Flatten(ps)| == p
    ensures PiecesFrom(u, q) == ps + PiecesFrom(u, p)
    decreases |ps|
  {
    hide Code, LabelAt, InRanges, Flatten, PiecesFrom;
    if ps == [] {
      FlattenNil();
      assert ps + PiecesFrom(u, p) == PiecesFrom(u, p);
    } else {
      FirstPiece(t, q, ps, rest);
      PiecesStep(u, q);
      LabelAtHead(t, u, p, q);
      var n := |Spelled(ps[0])|;
      PiecesHead(t, u, p, q + n, ps[1..], rest);
      assert PiecesFrom(u, q) == [ps[0]] + PiecesFrom(u, q + n);
      Assoc([ps[0]], ps[1..], PiecesFrom(u, p));
      assert ps == [ps[0]] + ps[1..];
    }
  }

  /** Pieces after the replaced label read alike in both texts. */
  lemma {:induction false} PiecesTail(t: Text, u: Text, q: nat, r: nat)
    requires SameTail(t, q, u, r) && SameCodeTail(t, q, u, r)
    ensures PiecesFrom(u, r) == PiecesFrom(t, q)
    decreases |t| - q
  {
    hide Code, LabelAt, InRanges, PiecesFrom, SameCodeTail;
    if q == |t| {
      PiecesEnd(t);
      PiecesEnd(u);
    } else {
      PiecesStep(t, q);
      PiecesStep(u, r);
      LabelAtTail(t, q, u, r);
      var n := if LabelAt(t, q) > 0 && !InRanges(Code(t), q) then LabelAt(t, q) else 1;
      CoverTail(t, u, q, r, n);
      PiecesTail(t, u, q + n, r + n);
    }
  }

  ghost predicate SameCodeTail(t: Text, q: nat, u: Text, r: nat) {
    forall k: nat :: q <= k < |t| ==> (InRanges(Code(t), k) <==> InRanges(Code(u), k - q + r))
  }

  lemma CoverTail(t: Text, u: Text, q: nat, r: nat, n: nat)
    requires SameTail(t, q, u, r) && q < |t| && q + n <= |t| && SameCodeTail(t, q, u, r)
    ensures InRanges(Code(t), q) <==> InRanges(Code(u), r)
    ensures SameCodeTail(t, q + n, u, r + n)
  {
    hide Code, InRanges;
    assert q - q + r == r;
    forall k: nat | q + n <= k < |t| ensures InRanges(Code(t), k) <==> InRanges(Code(u), k - (q + n) + (r + n)) {
      assert k - (q + n) + (r + n) == k - q + r;
    }
  }

  predicate GoodLabels(ps: seq<Piece>) {
    forall x :: x in ps ==> x.Label? && GoodToken(x.token)
  }

  /** The text at `r` spells the pieces. */
  predicate SpellsAt(u: Text, r: nat, ps: seq<Piece>) {
    r + |Flatten(ps)| <= |u| && u[r..r + |Flatten(ps)|] == Flatten(ps)
  }

  lemma {:induction false} SpellsRest(u: Text, r: nat, ps: seq<Piece>)
    requires SpellsAt(u, r, ps) && ps != []
    ensures var y := Spelled(ps[0]);
            && r + |y| <= |u| && u[r..r + |y|] == y && SpellsAt(u, r + |y|, ps[1..])
            && |Flatten(ps)| == |y| + |Flatten(ps[1..])|
  {
    hide Flatten;
    var y := Spelled(ps[0]);
    FlattenCons(ps[0], ps[1..]);
    assert ps == [ps[0]] + ps[1..];
    var whole := u[r..r + |Flatten(ps)|];
    assert whole[..|y|] == u[r..r + |y|];
    assert whole[|y|..] == u[r + |y|..r + |y| + |Flatten(ps[1..])|];
  }

  lemma MiddleStep(u: Text, r: nat, y: Text)
    requires GoodToken(y) && r + |y| <= |u| && u[r..r + |y|] == y && !InRanges(Code(u), r)
    ensures PiecesFrom(u, r) == [Label(y)] + PiecesFrom(u, r + |y|)
  {
    hide Code, LabelAt, InRanges, PiecesFrom, Inert;
    LabelAtInside(u, r, y);
    PiecesStep(u, r);
  }

  /** The new labels read as themselves in the new text. */
  lemma {:induction false} PiecesMiddle(u: Text, r: nat, end: nat, ps: seq<Piece>)
    requires end == r + |Flatten(ps)| <= |u| && GoodLabels(ps) && SpellsAt(u, r, ps)
    requires forall k: nat :: r <= k < end ==> !InRanges(Code(u), k)
    ensures PiecesFrom(u, r) == ps + PiecesFrom(u, end)
    decreases |ps|
  {
    hide Code, LabelAt, InRanges, Flatten, PiecesFrom, GoodToken, SpellsAt;
    if ps == [] {
      FlattenNil();
      assert ps + PiecesFrom(u, r) == PiecesFrom(u, r);
    } else {
      assert ps[0] in ps;
      SpellsRest(u, r, ps);
      var y := ps[0].token;
      assert |y| > 0 by { GoodTokenLength(y); }
      MiddleStep(u, r, y);
      PiecesMiddle(u, r + |y|, end, ps[1..]);
      assert ps == [ps[0]] + ps[1..];
      Assoc([ps[0]], ps[1..], PiecesFrom(u, end));
    }
  }

  lemma GoodTokenLength(y: Text)
    requires GoodToken(y)
    ensures |y| > 2
  {
  }

  lemma SameTailAfter(head: Text, x: Text, y: Text, post: Text)
    ensures SameTail(head + x + post, |head| + |x|, head + y + post, |head| + |y|)
    ensures SameHead(head + x + post, head + y + post, |head|)
  {
  }

  lemma InertInside(head: Text, x: Text, post: Text)
    requires Inert(x, 0, |x|)
    ensures Inert(head + x + post, |head|, |x|)
  {
    var t := head + x + post;
    assert forall k :: 0 <= k < |x| ==> t[|head| + k] == x[k];
    forall k | |head| <= k < |head| + |x| ensures t[k] == x[k - |head|] {
    }
  }

  lemma {:induction false} GoodLabelsInert(ps: seq<Piece>)
    requires GoodLabels(ps) && ps != []
    ensures Inert(Flatten(ps), 0, |Flatten(ps)|)
  {
    hide LabelAt, Flatten;
    assert ps[0] in ps;
    FlattenCons(ps[0], ps[1..]);
    assert ps == [ps[0]] + ps[1..];
    var y := ps[0].token;
    if ps[1..] == [] {
      FlattenNil();
    } else {
      GoodLabelsInert(ps[1..]);
      var z := Flatten(ps[1..]);
      forall k | 0 <= k < |y + z| ensures (y + z)[k] == if k < |y| then y[k] else z[k - |y|] {
      }
    }
  }

  lemma {:induction false} PiecesSkip(t: Text, q: nat, ps: seq<Piece>, rest: seq<Piece>)
    requires q <= |t| && PiecesFrom(t, q) == ps + rest
    ensures q + |Flatten(ps)| <= |t| && PiecesFrom(t, q + |Flatten(ps)|) == rest
    decreases |ps|
  {
    hide Code, LabelAt, InRanges, Flatten, PiecesFrom;
    if ps == [] {
      FlattenNil();
      assert ps + rest == rest;
    } else {
      FirstPiece(t, q, ps, rest);
      PiecesSkip(t, q + |Spelled(ps[0])|, ps[1..], rest);
    }
  }

  /** The text of a list with one piece in the middle. */
  lemma {:induction false} FlattenThree(a: seq<Piece>, m: seq<Piece>, b: seq<Piece>)
    ensures Flatten(a + m + b) == Flatten(a) + Flatten(m) + Flatten(b)
  {
    FlattenConcat(a + m, b);
    FlattenConcat(a, m);
  }

  /** A label piece of a canonical list starts outside code, and the list goes on after it. */
  lemma LabelPiece(t: Text, p: nat, x: Text, b: seq<Piece>)
    requires p <= |t| && PiecesFrom(t, p) == [Label(x)] + b
    ensures p + |x| <= |t| && !InRanges(Code(t), p) && PiecesFrom(t, p + |x|) == b
  {
    hide Code, LabelAt, InRanges, PiecesFrom;
    var one := [Label(x)];
    FirstPiece(t, p, one, b);
    assert one[1..] + b == b;
  }

  lemma CoverUses(t: Text, u: Text, p: nat, a: nat, b: nat)
    requires SameCover(Code(t), Code(u), p, a, b) && p + a <= |t|
    ensures forall k: nat :: k < p ==> (InRanges(Code(t), k) <==> InRanges(Code(u), k))
    ensures forall k: nat :: p <= k < p + b ==> !InRanges(Code(u), k)
    ensures SameCodeTail(t, p + a, u, p + b)
  {
    hide Code, InRanges;
    forall k: nat | p + a <= k < |t| ensures InRanges(Code(t), k) <==> InRanges(Code(u), k - (p + a) + (p + b)) {
      assert k - (p + a) + (p + b) == k - a + b;
    }
  }

  /** What replacing the label `x` by good labels does to the two texts. */
  lemma ReplacedTexts(head: Text, x: Text, y: Text, post: Text)
    requires Inert(x, 0, |x|) && Inert(y, 0, |y|)
    requires !InRanges(Code(head + x + post), |head|)
    ensures var t, u, p := head + x + post, head + y + post, |head|;
            && SameHead(t, u, p) && SameTail(t, p + |x|, u, p + |y|)
            && SameCover(Code(t), Code(u), p, |x|, |y|)
  {
    hide Code, InRanges, SameCover, Fences;
    InertInside(head, x, post);
    InertInside(head, y, post);
    SameTailAfter(head, x, y, post);
    CodeMoves(head + x + post, head + y + post, |head|, |x|, |y|);
  }

  lemma {:induction false} SpellsInside(head: Text, ps: seq<Piece>, post: Text)
    ensures SpellsAt(head + Flatten(ps) + post, |head|, ps)
  {
    hide Flatten;
    assert (head + Flatten(ps) + post)[|head|..|head| + |Flatten(ps)|] == Flatten(ps);
  }

  lemma BracketStarts(y: Text, head: Text, post: Text)
    requires Inert(y, 0, |y|)
    ensures |head| < |head + y + post| && (head + y + post)[|head|] == OPEN_BRACKET
  {
  }

  /** Pieces of the text in which the label `x` was replaced. */
  lemma {:induction false} ReplacedPieces(t: Text, u: Text, a: seq<Piece>, x: Text, b: seq<Piece>, news: seq<Piece>)
    requires GoodLabels(news) && Inert(x, 0, |x|) && news != []
    requires t == Flatten(a) + x + Flatten(b) && u == Flatten(a) + Flatten(news) + Flatten(b)
    requires PiecesFrom(t, 0) == a + ([Label(x)] + b)
    ensures PiecesFrom(u, 0) == a + (news + b)
  {
    hide Code, LabelAt, InRanges, Flatten, PiecesFrom, GoodLabels, SameCover, SameCodeTail, Inert, SpellsAt, SameTail, SameHead;
    var p, n, m := |Flatten(a)|, |x|, |Flatten(news)|;
    PiecesSkip(t, 0, a, [Label(x)] + b);
    LabelPiece(t, p, x, b);
    GoodLabelsInert(news);
    BracketStarts(x, Flatten(a), Flatten(b));
    BracketStarts(Flatten(news), Flatten(a), Flatten(b));
    ReplacedTexts(Flatten(a), x, Flatten(news), Flatten(b));
    CoverUses(t, u, p, n, m);
    PiecesHead(t, u, p, 0, a, [Label(x)] + b);
    SpellsInside(Flatten(a), news, Flatten(b));
    PiecesMiddle(u, p, p + m, news);
    PiecesTail(t, u, p + n, p + m);
  }

  /** Replacing one label of a canonical list by good labels leaves the list canonical. */
  lemma ReplaceOne(a: seq<Piece>, x: Text, b: seq<Piece>, news: seq<Piece>)
    requires Canonical(a + [Label(x)] + b) && Inert(x, 0, |x|) && GoodLabels(news) && news != []
    ensures Canonical(a + news + b)
  {
    hide Code, LabelAt, InRanges, Flatten, PiecesFrom, GoodLabels, Inert;
    FlattenThree(a, [Label(x)], b);
    FlattenLabel(x);
    FlattenThree(a, news, b);
    Assoc(a, [Label(x)], b);
    Assoc(a, news, b);
    ReplacedPieces(Flatten(a) + x + Flatten(b), Flatten(a) + Flatten(news) + Flatten(b), a, x, b, news);
  }

  // ---------------------------------------------------------------- replacing every label

  function Concat(parts: seq<seq<Piece>>): seq<Piece> {
    if parts == [] then [] else parts[0] + Concat(parts[1..])
  }

  /** Units stay; each label, free of newlines, backticks and backslashes, becomes one or more good labels. */
  predicate Rewriting(ps: seq<Piece>, parts: seq<seq<Piece>>) {
    && |parts| == |ps|
    && forall k :: 0 <= k < |ps| ==>
         match ps[k]
         case Plain(_) => parts[k] == [ps[k]]
         case Label(x) => Inert(x, 0, |x|) && GoodLabels(parts[k]) && parts[k] != []
  }

  lemma {:induction false} RewritingFrom(done: seq<Piece>, ps: seq<Piece>, parts: seq<seq<Piece>>)
    requires Rewriting(ps, parts) && Canonical(done + ps)
    ensures Canonical(done + Concat(parts))
    decreases |ps|
  {
    hide Canonical, Inert, GoodLabels;
    if ps != [] {
      var rest := ps[1..];
      assert ps == [ps[0]] + rest;
      assert Rewriting(rest, parts[1..]);
      Assoc(done, [ps[0]], rest);
      if ps[0].Label? {
        ReplaceOne(done, ps[0].token, rest, parts[0]);
      }
      RewritingFrom(done + parts[0], rest, parts[1..]);
      Assoc(done, parts[0], Concat(parts[1..]));
    }
  }

  /**
   * Rewriting the labels outside code to good labels makes a text whose pieces are exactly the
   * rewritten pieces: code stays code, no label appears and none is lost.
   */
  lemma {:induction false} RewritingIsCanonical(text: Text, parts: seq<seq<Piece>>)
    requires Rewriting(Pieces(text), parts)
    ensures Pieces(Flatten(Concat(parts))) == Concat(parts)
  {
    hide Rewriting, PiecesFrom, Flatten;
    PiecesAreCanonical(text);
    assert [] + Pieces(text) == Pieces(text);
    RewritingFrom([], Pieces(text), parts);
    assert [] + Concat(parts) == Concat(parts);
  }
}
