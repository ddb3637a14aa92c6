/** When resolving an answer twice is the same as resolving it once (src/citations.ts). */
module Idempotence {
  import opened Text
  import opened Labels
  import opened Atoms
  import opened Tokens
  import opened Citations

  /** How many units of a text are one of the two letters that start a reference. */
  function Marks(s: Text): nat {
    if s == [] then 0 else (if s[0] == UPPER_S || s[0] == UPPER_R then 1 else 0) + Marks(s[1..])
  }

  lemma {:induction false} MarksConcat(a: Text, b: Text)
    ensures Marks(a + b) == Marks(a) + Marks(b)
  {
    if a == [] {
      assert a + b == b;
    } else {
      MarksConcat(a[1..], b);
      assert (a + b)[1..] == a[1..] + b;
    }
  }

  lemma {:induction false} NoMarks(s: Text)
    requires forall k :: 0 <= k < |s| ==> s[k] != UPPER_S && s[k] != UPPER_R
    ensures Marks(s) == 0
  {
    if s != [] { NoMarks(s[1..]); }
  }

  lemma MarkOne(u: Unit)
    ensures Marks([u]) == if u == UPPER_S || u == UPPER_R then 1 else 0
  {
    assert [u][1..] == [];
  }

  lemma {:induction false} MarkInside(s: Text, k: nat)
    requires k < |s| && (s[k] == UPPER_S || s[k] == UPPER_R)
    ensures Marks(s) >= 1
  {
    if k > 0 { MarkInside(s[1..], k - 1); }
  }

  lemma SpellMarks(kind: Unit, head: Text, tail: Text)
    requires Digits(tail) && ((kind == UPPER_S && Digits(head)) || (kind == UPPER_R && Uuid(head)))
    ensures Marks(Spell(kind, head, tail)) == 1
  {
    hide Marks;
    forall k | 0 <= k < |head| ensures head[k] != UPPER_S && head[k] != UPPER_R {
      assert kind == UPPER_S ==> IsDigit(head[k]);
    }
    forall k | 0 <= k < |tail| ensures tail[k] != UPPER_S && tail[k] != UPPER_R {
      assert IsDigit(tail[k]);
    }
    NoMarks(head);
    NoMarks(tail);
    MarkOne(OPEN_BRACKET);
    MarkOne(kind);
    MarkOne(COLON);
    MarkOne(CLOSE_BRACKET);
    assert [OPEN_BRACKET, kind] == [OPEN_BRACKET] + [kind];
    MarksConcat([OPEN_BRACKET], [kind]);
    MarksConcat([OPEN_BRACKET, kind], head);
    MarksConcat([OPEN_BRACKET, kind] + head, [COLON]);
    MarksConcat([OPEN_BRACKET, kind] + head + [COLON], tail);
    MarksConcat([OPEN_BRACKET, kind] + head + [COLON] + tail, [CLOSE_BRACKET]);
  }

  lemma ReadableMarks(c: Cited, scope: Scope)
    requires Readable(c, scope)
    ensures Marks(c.atom) == 1
  {
    hide ParseToken, Marks;
    var kind, head, tail := ParsedIsSpelled(c.atom, scope.maps);
    SpellMarks(kind, head, tail);
  }

  // ---------------------------------------------------------------- groups and pairs

  function AllMarks(parts: seq<Text>): nat {
    if parts == [] then 0 else Marks(parts[0]) + AllMarks(parts[1..])
  }

  lemma {:induction false} SplitMarks(s: Text)
    ensures AllMarks(SplitCommas(s)) == Marks(s)
  {
    if s != [] {
      var rest := SplitCommas(s[1..]);
      SplitMarks(s[1..]);
      if s[0] == COMMA {
        assert ([[]] + rest)[1..] == rest;
      } else {
        assert ([[s[0]] + rest[0]] + rest[1..])[1..] == rest[1..];
        MarksConcat([s[0]], rest[0]);
        MarkOne(s[0]);
      }
    }
  }

  lemma {:induction false} ManyMarks(parts: seq<Text>)
    requires forall k :: 0 <= k < |parts| ==> Marks(parts[k]) >= 1
    ensures AllMarks(parts) >= |parts|
  {
    hide Marks;
    if parts != [] { ManyMarks(parts[1..]); }
  }

  lemma {:induction false} TrimMarks(s: Text)
    ensures Marks(Trim(s)) <= Marks(s)
  {
    hide Marks, TrimStart, TrimEnd;
    var a := TrimStart(s);
    var b := TrimEnd(a);
    assert s == s[..|s| - |a|] + a;
    MarksConcat(s[..|s| - |a|], a);
    assert a == b + a[|b|..];
    MarksConcat(b, a[|b|..]);
  }

  lemma {:induction false} WrapMarks(part: Text)
    ensures Marks(Wrap(part)) == Marks(part)
  {
    hide Marks;
    MarkOne(OPEN_BRACKET);
    MarkOne(CLOSE_BRACKET);
    MarksConcat([OPEN_BRACKET], part);
    MarksConcat([OPEN_BRACKET] + part, [CLOSE_BRACKET]);
  }

  lemma {:induction false} InnerMarks(token: Text)
    requires Bracketed(token)
    ensures Marks(Inner(token)) == Marks(token)
  {
    assert token == Wrap(Inner(token));
    WrapMarks(Inner(token));
  }

  lemma {:induction false} GroupMarks(token: Text, scope: Scope)
    requires Bracketed(token) && COMMA in Inner(token) && Judge(token, scope).Some?
    ensures |Judge(token, scope).value| <= Marks(token)
  {
    hide Marks, ParseToken, Trim;
    var parts := SplitCommas(Inner(token));
    JudgedIsReadable(token, scope);
    var cited := Judge(token, scope).value;
    forall k | 0 <= k < |parts| ensures Marks(parts[k]) >= 1 {
      assert AtomsOf(token).atoms[k] == Wrap(Trim(parts[k]));
      assert cited[k] in cited && cited[k].atom == Wrap(Trim(parts[k]));
      ReadableMarks(cited[k], scope);
      WrapMarks(Trim(parts[k]));
      TrimMarks(parts[k]);
    }
    ManyMarks(parts);
    SplitMarks(Inner(token));
    InnerMarks(token);
  }

  lemma PairShape(s: Text) returns (j: nat)
    requires AdjacentPair(s).Some?
    ensures 0 < j < |s| && s[0] == UPPER_S && s[j] == UPPER_S
  {
    hide DigitRun, SpaceRun, IsDash;
    var n := Compact(s, 0);
    var i := n + SpaceRun(s, n);
    j := i + 1 + SpaceRun(s, i + 1);
  }

  lemma {:induction false} TwoMarks(s: Text, j: nat)
    requires 0 < j < |s| && s[0] == UPPER_S && s[j] == UPPER_S
    ensures Marks(s) >= 2
  {
    hide Marks;
    MarkInside(s[..j], 0);
    MarkInside(s[j..], 0);
    assert s == s[..j] + s[j..];
    MarksConcat(s[..j], s[j..]);
  }

  lemma {:induction false} PairMarks(token: Text, scope: Scope)
    requires Bracketed(token) && AtomsOf(token).pair && Judge(token, scope).Some?
    ensures |Judge(token, scope).value| <= Marks(token)
  {
    hide Marks, ParseToken, AdjacentPair;
    var j := PairShape(Inner(token));
    TwoMarks(Inner(token), j);
    InnerMarks(token);
  }

  /** An accepted token has a reference letter for each passage it cites. */
  lemma {:induction false} AcceptedMarks(token: Text, scope: Scope)
    requires Judge(token, scope).Some?
    ensures |Judge(token, scope).value| <= Marks(token)
  {
    hide Marks, ParseToken, AdjacentPair, SplitCommas;
    if COMMA in Inner(token) {
      GroupMarks(token, scope);
    } else if AtomsOf(token).pair {
      PairMarks(token, scope);
    } else {
      JudgedIsReadable(token, scope);
      var cited := Judge(token, scope).value;
      assert |cited| == 1 && cited[0] in cited && cited[0].atom == token;
      ReadableMarks(cited[0], scope);
    }
  }

  // ---------------------------------------------------------------- the whole answer

  lemma {:induction false} LabelsMarks(tokens: seq<Text>)
    requires forall t :: t in tokens ==> Marks(t) == 1
    ensures Marks(Flatten(AsLabels(tokens))) == |tokens|
  {
    hide Marks, Flatten;
    if tokens == [] {
      FlattenNil();
      assert Marks([]) == 0 by { NoMarks([]); }
      assert AsLabels(tokens) == [];
    } else {
      assert tokens[0] in tokens;
      LabelsMarks(tokens[1..]);
      assert AsLabels(tokens) == [Label(tokens[0])] + AsLabels(tokens[1..]);
      FlattenCons(Label(tokens[0]), AsLabels(tokens[1..]));
      MarksConcat(tokens[0], Flatten(AsLabels(tokens[1..])));
    }
  }

  lemma EmitMarks(c: Cited, scope: Scope, cs: seq<Citation>)
    requires Readable(c, scope) && Backed(cs, scope)
    ensures Marks(Emit(c, scope, cs).0) == 1
  {
    hide Marks, ParseToken, Seen;
    var key := KeyOf(Cite(c, scope.sources[c.at.source]));
    SeenIsCited(cs, key);
    if key in Seen(cs) {
      var d :| d in cs && KeyOf(d) == key && d.token == Seen(cs)[key];
      var at :| Backs(d, at, scope);
      ReadableMarks(Cited(at, d.token), scope);
    } else {
      ReadableMarks(c, scope);
    }
  }

  lemma {:induction false} EmitAllMarks(cited: seq<Cited>, scope: Scope, cs: seq<Citation>)
    requires AllReadable(cited, scope) && Backed(cs, scope)
    ensures var (tokens, next) := EmitAll(cited, scope, cs);
            |tokens| == |cited| && Backed(next, scope) && forall t :: t in tokens ==> Marks(t) == 1
  {
    hide Marks, ParseToken, Emit, Backed, Readable;
    if cited != [] {
      assert cited[0] in cited;
      ReadableScopes(cited, scope);
      EmitMarks(cited[0], scope, cs);
      EmitBacked(cited[0], scope, cs);
      EmitAllMarks(cited[1..], scope, Emit(cited[0], scope, cs).1);
    }
  }

  lemma PlaceMarks(x: Piece, scope: Scope, cs: seq<Citation>)
    requires Backed(cs, scope) && (x.Label? ==> Marks(x.token) >= 1)
    ensures var out := Place(x, scope, cs);
            Backed(out.citations, scope) && Marks(Flatten(out.parts[0])) + out.invalid <= Marks(Spelled(x))
  {
    hide Marks, Flatten, Judge, EmitAll, Backed, Readable;
    match x {
      case Plain(u) =>
        FlattenNil();
        FlattenCons(x, []);
        assert [x] + [] == [x] && Spelled(x) + [] == Spelled(x);
      case Label(token) =>
        if Judge(token, scope).None? {
          FlattenNil();
          NoMarks([]);
        } else {
          JudgedIsReadable(token, scope);
          AcceptedMarks(token, scope);
          EmitAllMarks(Judge(token, scope).value, scope, cs);
          LabelsMarks(EmitAll(Judge(token, scope).value, scope, cs).0);
        }
    }
  }

  predicate AllMarked(ps: seq<Piece>) { forall x :: x in ps && x.Label? ==> Marks(x.token) >= 1 }

  lemma {:induction false} RunMarks(ps: seq<Piece>, scope: Scope, cs: seq<Citation>)
    requires Backed(cs, scope) && AllMarked(ps)
    ensures Marks(Flatten(Concat(Run(ps, scope, cs).parts))) + Run(ps, scope, cs).invalid <= Marks(Flatten(ps))
  {
    hide Marks, Flatten, Place, Backed, Concat;
    if ps == [] {
      NoParts();
    } else {
      assert ps[0] in ps;
      var first := Place(ps[0], scope, cs);
      PlaceMarks(ps[0], scope, cs);
      var rest := Run(ps[1..], scope, first.citations);
      RunMarks(ps[1..], scope, first.citations);
      assert first.parts == [first.parts[0]];
      ConcatCons(first.parts[0], rest.parts);
      FlattenConcat(first.parts[0], Concat(rest.parts));
      MarksConcat(Flatten(first.parts[0]), Flatten(Concat(rest.parts)));
      assert ps == [ps[0]] + ps[1..];
      FlattenCons(ps[0], ps[1..]);
      MarksConcat(Spelled(ps[0]), Flatten(ps[1..]));
    }
  }

  lemma LabelMarks(text: Text, q: nat)
    requires q < |text| && LabelAt(text, q) > 0
    ensures Marks(text[q..q + LabelAt(text, q)]) >= 1
  {
    hide Marks;
    var token := text[q..q + LabelAt(text, q)];
    assert token[1] == text[q + 1..BodyEnd(text, q + 1)][0];
    MarkInside(token, 1);
  }

  lemma TextIsMarked(text: Text)
    ensures AllMarked(Pieces(text))
  {
    hide PiecesFrom, LabelAt, Marks;
    forall x | x in Pieces(text) && x.Label? ensures Marks(x.token) >= 1 {
      LabelsOfText(text, 0, x);
      var q: nat :| q < |text| && LabelAt(text, q) > 0 && x.token == text[q..q + LabelAt(text, q)];
      LabelMarks(text, q);
    }
  }

  /** Each rejected label takes a reference letter out of the text, and no label puts one in. */
  lemma {:induction false} RejectedLabelsShrink(answer: Text, scope: Scope)
    ensures Marks(Resolve(answer, scope).text) + Resolve(answer, scope).invalid <= Marks(answer)
  {
    hide PiecesFrom, Run, Marks, Flatten, Concat;
    TextIsMarked(answer);
    RunMarks(Pieces(answer), scope, []);
    FlattenPieces(answer, 0);
    assert answer[0..] == answer;
  }

  /** A text that resolving does not change has no rejected label. */
  lemma FixedTextHasNoRejectedLabel(answer: Text, scope: Scope)
    requires Resolve(answer, scope).text == answer
    ensures Resolve(answer, scope).invalid == 0
  {
    hide Resolve;
    RejectedLabelsShrink(answer, scope);
  }

  /** Every label outside code names passages of the frozen sources. */
  ghost predicate AllAccepted(ps: seq<Piece>, scope: Scope) {
    forall k :: 0 <= k < |ps| && ps[k].Label? ==> Judge(ps[k].token, scope).Some?
  }

  lemma {:induction false} InvalidIsRejected(ps: seq<Piece>, scope: Scope, cs: seq<Citation>)
    ensures Run(ps, scope, cs).invalid == 0 <==> AllAccepted(ps, scope)
  {
    hide Judge, EmitAll;
    if ps != [] {
      InvalidIsRejected(ps[1..], scope, Place(ps[0], scope, cs).citations);
      assert forall k :: 1 <= k < |ps| ==> ps[k] == ps[1..][k - 1];
    }
  }

  /** Resolving is idempotent on an answer exactly when every label outside code names passages of the sources. */
  lemma {:induction false} IdempotentExactly(answer: Text, scope: Scope)
    ensures Resolve(Resolve(answer, scope).text, scope) == Resolve(answer, scope) <==> AllAccepted(Pieces(answer), scope)
  {
    hide Resolve, Run, PiecesFrom, AllAccepted;
    CountsRejected(answer, scope);
    if Resolve(answer, scope).invalid == 0 {
      ResolvesOnce(answer, scope);
    }
    if Resolve(Resolve(answer, scope).text, scope) == Resolve(answer, scope) {
      FixedTextHasNoRejectedLabel(Resolve(answer, scope).text, scope);
    }
  }

  /** The number of invalid labels that is reported is zero exactly when none was rejected. */
  lemma {:induction false} CountsRejected(answer: Text, scope: Scope)
    ensures Resolve(answer, scope).invalid == 0 <==> AllAccepted(Pieces(answer), scope)
  {
    hide Run, PiecesFrom, AllAccepted;
    InvalidIsRejected(Pieces(answer), scope, []);
  }
}
