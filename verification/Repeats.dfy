/** When resolving a resolved answer again changes neither its text nor its citations (src/citations.ts). */
module Repeats {
  import opened Text
  import opened Labels
  import opened Atoms
  import opened Tokens
  import opened Citations
  import opened Persist
  import opened Mentions
  import opened Idempotence

  /** The label tokens of a text after those of `done`, each at its first occurrence. */
  function Firsts(ps: seq<Piece>, done: seq<Text>): seq<Text>
    decreases |ps|
  {
    if ps == [] then done
    else Firsts(ps[1..], if ps[0].Label? && ps[0].token !in done then done + [ps[0].token] else done)
  }

  /** The labels of the citations, in their order. */
  function TokensOf(cs: seq<Citation>): (r: seq<Text>)
    ensures |r| == |cs| && forall k :: 0 <= k < |r| ==> r[k] == cs[k].token
  {
    seq(|cs|, k requires 0 <= k < |cs| => cs[k].token)
  }

  lemma {:induction false} FirstsGrow(ps: seq<Piece>, done: seq<Text>)
    ensures done <= Firsts(ps, done)
    decreases |ps|
  {
    if ps != [] { FirstsGrow(ps[1..], if ps[0].Label? && ps[0].token !in done then done + [ps[0].token] else done); }
  }

  // ---------------------------------------------------------------- labels of the citations stay

  lemma {:induction false} SeenOwn(cs: seq<Citation>, j: nat)
    requires OneEach(cs) && j < |cs|
    ensures KeyOf(cs[j]) in Seen(cs) && Seen(cs)[KeyOf(cs[j])] == cs[j].token
  {
    SeenIsCited(cs, KeyOf(cs[j]));
    assert cs[j] in cs;
    var d :| d in cs && KeyOf(d) == KeyOf(cs[j]) && d.token == Seen(cs)[KeyOf(cs[j])];
    var i :| 0 <= i < |cs| && cs[i] == d;
  }

  /** A label that a citation carries is put out as itself. */
  lemma {:induction false} CarriedStays(all: seq<Citation>, m: nat, j: nat, scope: Scope)
    requires Backed(all, scope) && OneEach(all) && j <= m <= |all| && j < |all|
    ensures Place(Label(all[j].token), scope, all[..m]) == Out([[Label(all[j].token)]], if j < m then all[..m] else all[..m] + [all[j]], 0)
  {
    hide ParseToken, Place, Seen;
    var cs, c := all[..m], all[j];
    assert c in all;
    var at :| Backs(c, at, scope);
    PlaceAtom(Cited(at, c.token), scope, cs);
    if j < m {
      assert cs[j] == c;
      SeenOwn(cs, j);
    } else {
      SeenIsCited(cs, KeyOf(c));
      forall d | d in cs ensures KeyOf(d) != KeyOf(c) { var i :| 0 <= i < m && cs[i] == d; }
    }
  }

  lemma {:induction false} FollowingIsStable(ps: seq<Piece>, all: seq<Citation>, m: nat, scope: Scope)
    requires Backed(all, scope) && OneEach(all) && m <= |all| && Firsts(ps, TokensOf(all[..m])) == TokensOf(all)
    ensures Stable(ps, scope, all[..m], all)
    decreases |ps|
  {
    hide Backed, OneEach, Place;
    var done := TokensOf(all[..m]);
    if ps == [] {
      assert |done| == |all|;
      assert all[..m] == all;
      StableNil(scope, all);
    } else {
      assert ps == [ps[0]] + ps[1..];
      match ps[0] {
        case Plain(u) =>
          PlainStays(u, scope, all[..m]);
          FollowingIsStable(ps[1..], all, m, scope);
          StableCons(ps[0], ps[1..], scope, all[..m], all[..m], all);
        case Label(t) =>
          if t in done {
            var j :| 0 <= j < m && done[j] == t;
            CarriedStays(all, m, j, scope);
            FollowingIsStable(ps[1..], all, m, scope);
            StableCons(ps[0], ps[1..], scope, all[..m], all[..m], all);
          } else {
            FirstsGrow(ps[1..], done + [t]);
            assert (done + [t])[m] == TokensOf(all)[m];
            CarriedStays(all, m, m, scope);
            assert all[..m + 1] == all[..m] + [all[m]];
            assert TokensOf(all[..m + 1]) == done + [t];
            FollowingIsStable(ps[1..], all, m + 1, scope);
            StableCons(ps[0], ps[1..], scope, all[..m], all[..m + 1], all);
          }
      }
    }
  }

  lemma {:induction false} PlainStays(u: Unit, scope: Scope, cs: seq<Citation>)
    ensures Place(Plain(u), scope, cs) == Out([[Plain(u)]], cs, 0)
  {
  }

  // ---------------------------------------------------------------- and only those

  /** A label that is put out as itself is carried by a citation, a new one when it is the first. */
  lemma {:induction false} StableLabel(t: Text, scope: Scope, cs: seq<Citation>)
    requires Backed(cs, scope) && Place(Label(t), scope, cs).parts == [[Label(t)]] && Place(Label(t), scope, cs).invalid == 0
    ensures var next := Place(Label(t), scope, cs).citations;
            && Backed(next, scope)
            && TokensOf(next) == if t in TokensOf(cs) then TokensOf(cs) else TokensOf(cs) + [t]
  {
    hide ParseToken, Judge, Seen, GoodToken, Emit;
    PlaceIsStable(Label(t), scope, cs);
    JudgedIsReadable(t, scope);
    var cited := Judge(t, scope).value;
    EmitAllIsStable(cited, scope, cs);
    var (tokens, next) := EmitAll(cited, scope, cs);
    assert AsLabels(tokens) == [Label(t)];
    assert |cited| == 1 && tokens[0] == t by { assert AsLabels(tokens)[0] == Label(t); }
    assert cited[1..] == [];
    EmittedOnce(cited[0], t, scope, cs);
  }

  lemma {:induction false} EmittedOnce(c: Cited, t: Text, scope: Scope, cs: seq<Citation>)
    requires Readable(c, scope) && Backed(cs, scope) && Emit(c, scope, cs).0 == t
    ensures TokensOf(Emit(c, scope, cs).1) == if t in TokensOf(cs) then TokensOf(cs) else TokensOf(cs) + [t]
  {
    hide ParseToken, Seen;
    var cite := Cite(c, scope.sources[c.at.source]);
    SeenIsCited(cs, KeyOf(cite));
    if KeyOf(cite) in Seen(cs) {
      var d :| d in cs && KeyOf(d) == KeyOf(cite) && d.token == t;
      var j :| 0 <= j < |cs| && cs[j] == d;
      assert TokensOf(cs)[j] == t;
    } else {
      forall j | 0 <= j < |cs| ensures cs[j].token != t { SameTokenSameKey(c, scope, cs, j); }
    }
  }

  lemma {:induction false} SameTokenSameKey(c: Cited, scope: Scope, cs: seq<Citation>, j: nat)
    requires Readable(c, scope) && Backed(cs, scope) && j < |cs|
    ensures cs[j].token == c.atom ==> KeyOf(cs[j]) == KeyOf(Cite(c, scope.sources[c.at.source]))
  {
    hide ParseToken;
    assert cs[j] in cs;
  }

  lemma {:induction false} StableIsFollowing(ps: seq<Piece>, scope: Scope, cs: seq<Citation>, next: seq<Citation>)
    requires Backed(cs, scope) && Stable(ps, scope, cs, next)
    ensures Firsts(ps, TokensOf(cs)) == TokensOf(next)
    decreases |ps|
  {
    hide Backed, Place, TokensOf;
    if ps != [] {
      match ps[0] {
        case Plain(u) =>
          PlainStays(u, scope, cs);
          StableIsFollowing(ps[1..], scope, cs, next);
        case Label(t) =>
          StableLabel(t, scope, cs);
          StableIsFollowing(ps[1..], scope, Place(ps[0], scope, cs).citations, next);
      }
    }
  }

  // ---------------------------------------------------------------- answers with rejected labels

  /** Whatever was rejected, what was put out stays when it is resolved again. */
  lemma {:induction false} OutputIsStable(ps: seq<Piece>, scope: Scope, cs: seq<Citation>)
    requires Backed(cs, scope)
    ensures var out := Run(ps, scope, cs);
            Stable(Concat(out.parts), scope, cs, out.citations) && Backed(out.citations, scope)
    decreases |ps|
  {
    hide Backed, Concat, Judge, EmitAll, GoodLabels, Stable;
    if ps == [] {
      NoParts();
      StableNil(scope, cs);
    } else {
      var first := Place(ps[0], scope, cs);
      if first.invalid == 0 { PlaceIsStable(ps[0], scope, cs); } else { StableNil(scope, cs); }
      var rest := Run(ps[1..], scope, first.citations);
      OutputIsStable(ps[1..], scope, first.citations);
      assert first.parts == [first.parts[0]];
      ConcatCons(first.parts[0], rest.parts);
      StableAppend(first.parts[0], Concat(rest.parts), scope, cs, first.citations, rest.citations);
    }
  }

  lemma NothingCited(scope: Scope)
    ensures Backed([], scope) && OneEach([]) && TokensOf([]) == []
  {
  }

  lemma {:induction false} ResolvedIsBacked(answer: Text, scope: Scope)
    ensures Backed(Resolve(answer, scope).citations, scope) && OneEach(Resolve(answer, scope).citations)
  {
    hide Run, PiecesFrom, Backed, OneEach;
    NothingCited(scope);
    OutputIsStable(Pieces(answer), scope, []);
    RunOneEach(Pieces(answer), scope, []);
  }

  /** Resolving again leaves text and citations as they are. */
  ghost predicate SameAgain(answer: Text, scope: Scope) {
    var r := Resolve(answer, scope);
    var again := Resolve(r.text, scope);
    again.text == r.text && again.citations == r.citations
  }

  lemma {:induction false} StableRepeats(answer: Text, scope: Scope)
    ensures Stable(Pieces(Resolve(answer, scope).text), scope, [], Resolve(answer, scope).citations) ==> SameAgain(answer, scope)
  {
    hide Run, PiecesFrom, Stable, Concat, Flatten;
    var r := Resolve(answer, scope);
    if Stable(Pieces(r.text), scope, [], r.citations) {
      StableRuns(Pieces(r.text), scope, [], r.citations);
      FlattenPieces(r.text, 0);
      assert r.text[0..] == r.text;
    }
  }

  /**
   * Resolving an answer again leaves its text and citations as they are exactly when the labels of the resolved
   * text, each at its first occurrence, are the labels of the citations in their order.
   */
  lemma {:induction false} RepeatsExactly(answer: Text, scope: Scope)
    ensures SameAgain(answer, scope) <==> Firsts(Pieces(Resolve(answer, scope).text), []) == TokensOf(Resolve(answer, scope).citations)
  {
    hide Run, PiecesFrom, Stable, Concat, Flatten, Backed, OneEach, Firsts;
    var r := Resolve(answer, scope);
    NothingCited(scope);
    if Firsts(Pieces(r.text), []) == TokensOf(r.citations) {
      ResolvedIsBacked(answer, scope);
      assert r.citations[..0] == [];
      FollowingIsStable(Pieces(r.text), r.citations, 0, scope);
      StableRepeats(answer, scope);
    }
    if SameAgain(answer, scope) {
      FixedTextHasNoRejectedLabel(r.text, scope);
      ResolvedPieces(r.text, scope);
      RunIsStable(Pieces(r.text), scope, []);
      StableIsFollowing(Pieces(r.text), scope, [], r.citations);
    }
  }

  /** So it does when removing the rejected labels neither uncovers nor hides a label. */
  lemma {:induction false} UncoveringNoneRepeats(answer: Text, scope: Scope)
    requires Pieces(Resolve(answer, scope).text) == Concat(Run(Pieces(answer), scope, []).parts)
    ensures SameAgain(answer, scope)
  {
    hide Run, PiecesFrom, Stable, Concat, Flatten, Backed;
    NothingCited(scope);
    OutputIsStable(Pieces(answer), scope, []);
    StableRepeats(answer, scope);
  }

  // ---------------------------------------------------------------- their persistent form

  /**
   * The persistent form of an answer that repeats, whatever was rejected in it, resolves to itself: same text, the
   * same citations under their lasting tokens, no rejected label, and the same mentions as the resolved text.
   */
  lemma {:induction false} PersistentFormOfRepeating(answer: Text, scope: Scope)
    requires Distinct(scope)
    requires Firsts(Pieces(Resolve(answer, scope).text), []) == TokensOf(Resolve(answer, scope).citations)
    ensures var r := Resolve(answer, scope);
            var p := PersistentAnswer(r.text, r.citations);
            && Resolve(p.text, scope) == p
            && p.citations == Renamed(r.citations)
            && Mentioned(Pieces(p.text), scope) == Mentioned(Pieces(r.text), scope)
  {
    hide Run, PiecesFrom, Distinct, Mentioned, Resolve, PersistentAnswer, Renamed, Firsts;
    var r := Resolve(answer, scope);
    RepeatsExactly(answer, scope);
    FixedTextHasNoRejectedLabel(r.text, scope);
    PersistentFormResolves(r.text, scope);
  }

  /** When removing the rejected labels changes no piece that is read, its mentions are those of the answer. */
  lemma {:induction false} PersistentFormKeepsMentions(answer: Text, scope: Scope)
    requires Distinct(scope)
    requires Pieces(Resolve(answer, scope).text) == Concat(Run(Pieces(answer), scope, []).parts)
    ensures var r := Resolve(answer, scope);
            var p := PersistentAnswer(r.text, r.citations);
            && Resolve(p.text, scope) == p
            && Mentioned(Pieces(p.text), scope) == Mentioned(Pieces(answer), scope)
  {
    hide PiecesFrom, Distinct, Mentioned, Run, Concat, Flatten, PersistentAnswer, Renamed, Firsts;
    NothingCited(scope);
    UncoveringNoneRepeats(answer, scope);
    RepeatsExactly(answer, scope);
    PersistentFormOfRepeating(answer, scope);
    RunMentions(Pieces(answer), scope, []);
  }
}
