/** The passages an answer mentions, through resolving and through its persistent form (src/citations.ts). */
module Mentions {
  import opened Text
  import opened Splice
  import opened Labels
  import opened Atoms
  import opened Tokens
  import opened Citations
  import opened Persist

  function Keys(cited: seq<Cited>, scope: Scope): (keys: seq<Key>)
    requires forall c :: c in cited ==> c.at.source < |scope.sources|
  {
    if cited == [] then []
    else
      assert cited[0] in cited;
      [KeyOf(Cite(cited[0], scope.sources[cited[0].at.source]))] + Keys(cited[1..], scope)
  }

  function MentionsOf(x: Piece, scope: Scope): seq<Key> {
    if x.Label? && Judge(x.token, scope).Some? then Keys(Judge(x.token, scope).value, scope) else []
  }

  /** Every mention of a passage, in the order of the text. */
  function Mentioned(ps: seq<Piece>, scope: Scope): seq<Key> {
    if ps == [] then [] else MentionsOf(ps[0], scope) + Mentioned(ps[1..], scope)
  }

  lemma {:induction false} MentionedCons(x: Piece, ps: seq<Piece>, scope: Scope)
    ensures Mentioned([x] + ps, scope) == MentionsOf(x, scope) + Mentioned(ps, scope)
  {
    hide MentionsOf;
    assert ([x] + ps)[1..] == ps;
  }

  lemma {:induction false} NothingMentioned(scope: Scope)
    ensures Mentioned([], scope) == []
  {
  }

  lemma {:induction false} MentionedConcat(ps: seq<Piece>, qs: seq<Piece>, scope: Scope)
    ensures Mentioned(ps + qs, scope) == Mentioned(ps, scope) + Mentioned(qs, scope)
  {
    hide Mentioned;
    if ps == [] {
      NothingMentioned(scope);
      assert ps + qs == qs;
    } else {
      MentionedConcat(ps[1..], qs, scope);
      MentionedCons(ps[0], ps[1..] + qs, scope);
      MentionedCons(ps[0], ps[1..], scope);
      assert ps == [ps[0]] + ps[1..];
      assert ps + qs == [ps[0]] + (ps[1..] + qs);
    }
  }

  lemma MentionOne(c: Cited, scope: Scope)
    requires Readable(c, scope)
    ensures MentionsOf(Label(c.atom), scope) == [KeyOf(Cite(c, scope.sources[c.at.source]))]
  {
    hide ParseToken, Judge;
    JudgeAtom(c, scope);
    assert [c][1..] == [];
    assert Keys([c][1..], scope) == [];
  }

  /** The token put out for a mention, and its lasting token, mention the same passage. */
  lemma EmitMentions(c: Cited, scope: Scope, cs: seq<Citation>)
    requires Readable(c, scope) && Backed(cs, scope)
    ensures MentionsOf(Label(Emit(c, scope, cs).0), scope) == [KeyOf(Cite(c, scope.sources[c.at.source]))]
  {
    hide ParseToken, Seen, MentionsOf;
    var key := KeyOf(Cite(c, scope.sources[c.at.source]));
    SeenIsCited(cs, key);
    if key in Seen(cs) {
      var d :| d in cs && KeyOf(d) == key && d.token == Seen(cs)[key];
      var at :| Backs(d, at, scope);
      MentionOne(Cited(at, d.token), scope);
    } else {
      MentionOne(c, scope);
    }
  }

  lemma LastingMentions(c: Cited, scope: Scope)
    requires Distinct(scope) && Readable(c, scope)
    ensures var cite := Cite(c, scope.sources[c.at.source]);
            MentionsOf(Label(Lasting(cite)), scope) == [KeyOf(cite)]
  {
    hide ParseToken, Lasting, MentionsOf, Distinct;
    var cite := Cite(c, scope.sources[c.at.source]);
    assert Backs(cite, c.at, scope);
    LastingNames(cite, c.at, scope);
    MentionOne(Cited(c.at, Lasting(cite)), scope);
  }

  lemma {:induction false} KeysStep(cited: seq<Cited>, scope: Scope)
    requires cited != [] && forall c :: c in cited ==> c.at.source < |scope.sources|
    ensures cited[0] in cited
    ensures Keys(cited, scope) == [KeyOf(Cite(cited[0], scope.sources[cited[0].at.source]))] + Keys(cited[1..], scope)
  {
  }

  lemma {:induction false} EmitAllMentions(cited: seq<Cited>, scope: Scope, cs: seq<Citation>)
    requires AllReadable(cited, scope) && Backed(cs, scope) && forall c :: c in cited ==> c.at.source < |scope.sources|
    ensures Mentioned(AsLabels(EmitAll(cited, scope, cs).0), scope) == Keys(cited, scope)
  {
    hide ParseToken, Emit, Backed, Readable, EmitAll, MentionsOf, Mentioned, Keys;
    if cited == [] {
      NoTokens(scope, cs);
      NothingMentioned(scope);
      assert AsLabels([]) == [];
      assert Keys(cited, scope) == [] by { NoKeys(scope); }
    } else {
      EmitAllStep(cited, scope, cs);
      KeysStep(cited, scope);
      var (token, mid) := Emit(cited[0], scope, cs);
      EmitBacked(cited[0], scope, cs);
      EmitMentions(cited[0], scope, cs);
      EmitAllMentions(cited[1..], scope, mid);
      MentionedCons(Label(token), AsLabels(EmitAll(cited[1..], scope, mid).0), scope);
    }
  }

  lemma {:induction false} NoKeys(scope: Scope)
    ensures Keys([], scope) == []
  {
  }

  lemma {:induction false} EmitAllLastingMentions(cited: seq<Cited>, scope: Scope, cs: seq<Citation>, tokens: map<Text, Text>)
    requires Distinct(scope) && AllReadable(cited, scope) && Backed(cs, scope)
    requires forall c :: c in cited ==> c.at.source < |scope.sources|
    requires Covers(tokens, EmitAll(cited, scope, cs).1)
    ensures Mentioned(ReplaceAll(AsLabels(EmitAll(cited, scope, cs).0), tokens), scope) == Keys(cited, scope)
  {
    hide ParseToken, Emit, Backed, Readable, EmitAll, MentionsOf, Mentioned, Keys, Distinct, Covers, Lasting, Extends, Replace;
    if cited == [] {
      NoTokens(scope, cs);
      NothingMentioned(scope);
      assert ReplaceAll(AsLabels([]), tokens) == [];
      NoKeys(scope);
    } else {
      EmitAllStep(cited, scope, cs);
      KeysStep(cited, scope);
      var (token, mid) := Emit(cited[0], scope, cs);
      EmitBacked(cited[0], scope, cs);
      EmitAllExtends(cited[1..], scope, mid);
      var (rest, next) := EmitAll(cited[1..], scope, mid);
      CoversPrefix(tokens, mid, next);
      ReplacedToken(cited[0], scope, cs, tokens);
      LastingMentions(cited[0], scope);
      EmitAllLastingMentions(cited[1..], scope, mid, tokens);
      ReplaceCons(Label(token), AsLabels(rest), tokens);
      MentionedCons(Replace(Label(token), tokens), ReplaceAll(AsLabels(rest), tokens), scope);
    }
  }

  lemma {:induction false} OnePiece(x: Piece, scope: Scope)
    ensures Mentioned([x], scope) == MentionsOf(x, scope)
  {
    hide Mentioned, MentionsOf;
    MentionedCons(x, [], scope);
    NothingMentioned(scope);
    assert [x] + [] == [x];
  }

  lemma {:induction false} PlaceMentions(x: Piece, scope: Scope, cs: seq<Citation>)
    requires Backed(cs, scope)
    ensures Mentioned(Place(x, scope, cs).parts[0], scope) == MentionsOf(x, scope)
  {
    hide ParseToken, Judge, EmitAll, Backed, AllReadable, Mentioned, Keys;
    match x {
      case Plain(_) => OnePiece(x, scope);
      case Label(token) =>
        if Judge(token, scope).None? {
          NothingMentioned(scope);
        } else {
          JudgedIsReadable(token, scope);
          EmitAllMentions(Judge(token, scope).value, scope, cs);
        }
    }
  }

  lemma {:induction false} PlaceLastingMentions(x: Piece, scope: Scope, cs: seq<Citation>, tokens: map<Text, Text>)
    requires Distinct(scope) && Backed(cs, scope) && Place(x, scope, cs).invalid == 0
    requires Covers(tokens, Place(x, scope, cs).citations)
    ensures Mentioned(ReplaceAll(Place(x, scope, cs).parts[0], tokens), scope) == MentionsOf(x, scope)
  {
    hide ParseToken, Judge, EmitAll, Backed, AllReadable, Mentioned, Keys, Distinct, Covers;
    match x {
      case Plain(_) =>
        assert ReplaceAll([x], tokens) == [x];
        OnePiece(x, scope);
      case Label(token) =>
        JudgedIsReadable(token, scope);
        EmitAllLastingMentions(Judge(token, scope).value, scope, cs, tokens);
    }
  }

  lemma {:induction false} RejectedCitesNothing(x: Piece, scope: Scope, cs: seq<Citation>)
    requires Place(x, scope, cs).invalid != 0
    ensures Place(x, scope, cs).citations == cs
  {
    hide Judge, EmitAll;
  }

  lemma {:induction false} RunMentions(ps: seq<Piece>, scope: Scope, cs: seq<Citation>)
    requires Backed(cs, scope)
    ensures Mentioned(Concat(Run(ps, scope, cs).parts), scope) == Mentioned(ps, scope)
  {
    hide Backed, Concat, Place, MentionsOf, GoodLabels, Stable;
    if ps == [] {
      NoParts();
    } else {
      var first := Place(ps[0], scope, cs);
      var rest := Run(ps[1..], scope, first.citations);
      if first.invalid == 0 { PlaceIsStable(ps[0], scope, cs); } else { RejectedCitesNothing(ps[0], scope, cs); }
      PlaceMentions(ps[0], scope, cs);
      RunMentions(ps[1..], scope, first.citations);
      assert first.parts == [first.parts[0]];
      ConcatCons(first.parts[0], rest.parts);
      MentionedConcat(first.parts[0], Concat(rest.parts), scope);
    }
  }

  lemma {:induction false} RunLastingMentions(ps: seq<Piece>, scope: Scope, cs: seq<Citation>, tokens: map<Text, Text>)
    requires Distinct(scope) && Backed(cs, scope) && Run(ps, scope, cs).invalid == 0
    requires Covers(tokens, Run(ps, scope, cs).citations)
    ensures Mentioned(ReplaceAll(Concat(Run(ps, scope, cs).parts), tokens), scope) == Mentioned(ps, scope)
  {
    hide Backed, Concat, Place, MentionsOf, GoodLabels, Stable, Distinct, Covers, Extends, ReplaceAll;
    if ps == [] {
      NoParts();
      assert ReplaceAll([], tokens) == [] by { assert |ReplaceAll([], tokens)| == 0; }
    } else {
      var first := Place(ps[0], scope, cs);
      var rest := Run(ps[1..], scope, first.citations);
      RunExtends(ps[1..], scope, first.citations);
      CoversPrefix(tokens, first.citations, rest.citations);
      PlaceIsStable(ps[0], scope, cs);
      PlaceLastingMentions(ps[0], scope, cs, tokens);
      RunLastingMentions(ps[1..], scope, first.citations, tokens);
      assert first.parts == [first.parts[0]];
      ConcatCons(first.parts[0], rest.parts);
      ReplaceConcat(first.parts[0], Concat(rest.parts), tokens);
      MentionedConcat(ReplaceAll(first.parts[0], tokens), ReplaceAll(Concat(rest.parts), tokens), scope);
    }
  }

  // ---------------------------------------------------------------- one citation per passage

  lemma EmitOneEach(c: Cited, scope: Scope, cs: seq<Citation>)
    requires c.at.source < |scope.sources| && OneEach(cs)
    ensures OneEach(Emit(c, scope, cs).1)
  {
    hide Seen, KeyOf;
    var cite := Cite(c, scope.sources[c.at.source]);
    SeenIsCited(cs, KeyOf(cite));
    if KeyOf(cite) !in Seen(cs) {
      forall k | 0 <= k < |cs| ensures KeyOf(cs[k]) != KeyOf(cite) { assert cs[k] in cs; }
    }
  }

  lemma {:induction false} EmitAllOneEach(cited: seq<Cited>, scope: Scope, cs: seq<Citation>)
    requires OneEach(cs) && forall c :: c in cited ==> c.at.source < |scope.sources|
    ensures OneEach(EmitAll(cited, scope, cs).1)
  {
    hide Emit, OneEach;
    if cited != [] {
      EmitAllStep(cited, scope, cs);
      EmitOneEach(cited[0], scope, cs);
      EmitAllOneEach(cited[1..], scope, Emit(cited[0], scope, cs).1);
    }
  }

  /** Each passage gets one citation, at its first mention. */
  lemma {:induction false} RunOneEach(ps: seq<Piece>, scope: Scope, cs: seq<Citation>)
    requires OneEach(cs)
    ensures OneEach(Run(ps, scope, cs).citations)
  {
    hide OneEach, EmitAll, Judge;
    if ps != [] {
      if ps[0].Label? && Judge(ps[0].token, scope).Some? {
        EmitAllOneEach(Judge(ps[0].token, scope).value, scope, cs);
      }
      RunOneEach(ps[1..], scope, Place(ps[0], scope, cs).citations);
    }
  }

  // ---------------------------------------------------------------- main results

  /** Without a rejected label, resolving changes no mention. */
  lemma {:induction false} ResolvingKeepsMentions(answer: Text, scope: Scope)
    requires Resolve(answer, scope).invalid == 0
    ensures Mentioned(Pieces(Resolve(answer, scope).text), scope) == Mentioned(Pieces(answer), scope)
  {
    hide PiecesFrom, Run, Concat, Flatten, Mentioned;
    ResolvedPieces(answer, scope);
    RunMentions(Pieces(answer), scope, []);
  }

  function ReplaceParts(parts: seq<seq<Piece>>, tokens: map<Text, Text>): (r: seq<seq<Piece>>)
    ensures |r| == |parts| && forall k :: 0 <= k < |r| ==> r[k] == ReplaceAll(parts[k], tokens)
  {
    seq(|parts|, k requires 0 <= k < |parts| => ReplaceAll(parts[k], tokens))
  }

  lemma {:induction false} ReplaceInParts(parts: seq<seq<Piece>>, tokens: map<Text, Text>)
    ensures Concat(ReplaceParts(parts, tokens)) == ReplaceAll(Concat(parts), tokens)
  {
    hide ReplaceAll;
    if parts == [] {
      assert ReplaceAll([], tokens) == [] by { assert |ReplaceAll([], tokens)| == 0; }
    } else {
      ReplaceInParts(parts[1..], tokens);
      ReplaceConcat(parts[0], Concat(parts[1..]), tokens);
      assert ReplaceParts(parts, tokens)[1..] == ReplaceParts(parts[1..], tokens);
    }
  }

  lemma NothingBacked(scope: Scope)
    ensures Backed([], scope)
  {
  }

  /** The persistent text reads as the resolved text with every label made lasting. */
  lemma {:induction false} PersistentPieces(answer: Text, scope: Scope)
    requires Distinct(scope) && Resolve(answer, scope).invalid == 0
    ensures var r := Resolve(answer, scope);
            var p := PersistentAnswer(r.text, r.citations);
            Pieces(p.text) == ReplaceAll(Concat(Run(Pieces(answer), scope, []).parts), LastingTokens(r.citations))
  {
    hide PiecesFrom, Run, Concat, Flatten, GoodLabels, Inert, Stable, Backed, Covers, Distinct, ReplaceAll, LastingTokens;
    var r := Resolve(answer, scope);
    var parts := Run(Pieces(answer), scope, []).parts;
    var tokens := LastingTokens(r.citations);
    var news := ReplaceParts(parts, tokens);
    ResolvingIsRewriting(answer, scope);
    ResolvedPieces(answer, scope);
    BackedCover(r.citations, scope);
    NothingBacked(scope);
    RunLasting(Pieces(answer), scope, [], tokens);
    forall k | 0 <= k < |parts| && Pieces(answer)[k].Plain? ensures news[k] == parts[k] {
      assert ReplaceAll(parts[k], tokens)[0] == parts[k][0];
    }
    assert Rewriting(Pieces(answer), news);
    RewritingIsCanonical(answer, news);
    ReplaceInParts(parts, tokens);
  }

  /**
   * Without a rejected label, the persistent form resolves to itself: same text, the same citations
   * under their lasting tokens, no rejected label, and the same mentions as the answer it came from.
   */
  lemma {:induction false} PersistentFormResolves(answer: Text, scope: Scope)
    requires Distinct(scope) && Resolve(answer, scope).invalid == 0
    ensures var r := Resolve(answer, scope);
            var p := PersistentAnswer(r.text, r.citations);
            && Resolve(p.text, scope) == p
            && p.citations == Renamed(r.citations)
            && Mentioned(Pieces(p.text), scope) == Mentioned(Pieces(answer), scope)
  {
    hide PiecesFrom, Run, Concat, Flatten, Stable, Backed, Covers, Distinct, ReplaceAll, LastingTokens, LastingCitations, Rewriting, Mentioned;
    var r := Resolve(answer, scope);
    var parts := Run(Pieces(answer), scope, []).parts;
    var tokens := LastingTokens(r.citations);
    ResolvingIsRewriting(answer, scope);
    ResolvedPieces(answer, scope);
    PersistentPieces(answer, scope);
    BackedCover(r.citations, scope);
    NothingBacked(scope);
    RunLasting(Pieces(answer), scope, [], tokens);
    RunLastingMentions(Pieces(answer), scope, [], tokens);
    RunOneEach(Pieces(answer), scope, []);
    LastingIsRenamed(r.citations);
    assert Renamed([]) == [];
    StableRuns(ReplaceAll(Concat(parts), tokens), scope, [], Renamed(r.citations));
  }
}
