/** Resolving the labels of an answer against the frozen sources (src/citations.ts). */
module Citations {
  import opened Text
  import opened CodeRanges
  import opened Splice
  import opened Labels
  import opened Atoms
  import opened Tokens

  datatype Scope = Scope(sources: seq<LabelSource>, maps: ScopeMaps)

  ghost predicate Frozen(scope: Scope) { MapsFor(scope.maps, scope.sources) }

  datatype Citation = Citation(revisionId: Text, sourceId: Text, block: nat, start: nat, end: nat, title: Text, deleted: bool, token: Text)

  datatype Key = Key(revisionId: Text, block: nat)

  datatype Resolved = Resolved(text: Text, citations: seq<Citation>, invalid: nat)

  function KeyOf(c: Citation): Key { Key(c.revisionId, c.block) }

  /** The token that stands for each passage cited so far. */
  function Seen(cs: seq<Citation>): map<Key, Text> {
    if cs == [] then map[]
    else
      var c := cs[|cs| - 1];
      Seen(cs[..|cs| - 1])[KeyOf(c) := c.token]
  }

  function Cite(c: Cited, source: LabelSource): Citation {
    Citation(source.revisionId, source.sourceId, c.at.block, c.at.start, c.at.end, source.title, false, c.atom)
  }

  /** What a label cites, or nothing when it is rejected. */
  function Judge(token: Text, scope: Scope): (r: Option<seq<Cited>>)
    ensures r.Some? ==> forall c :: c in r.value ==> c.at.source < |scope.sources|
  {
    if !Bracketed(token) then None
    else
      var accepted := Accept(token, scope.maps);
      if accepted.Some? && forall c :: c in accepted.value ==> c.at.source < |scope.sources| then accepted else None
  }

  /** A passage keeps the token of its first mention. */
  function Emit(c: Cited, scope: Scope, cs: seq<Citation>): (Text, seq<Citation>)
    requires c.at.source < |scope.sources|
  {
    var cite := Cite(c, scope.sources[c.at.source]);
    if KeyOf(cite) in Seen(cs) then (Seen(cs)[KeyOf(cite)], cs) else (c.atom, cs + [cite])
  }

  function EmitAll(cited: seq<Cited>, scope: Scope, cs: seq<Citation>): (seq<Text>, seq<Citation>)
    requires forall c :: c in cited ==> c.at.source < |scope.sources|
  {
    if cited == [] then ([], cs)
    else
      assert cited[0] in cited;
      var (token, next) := Emit(cited[0], scope, cs);
      var (tokens, last) := EmitAll(cited[1..], scope, next);
      ([token] + tokens, last)
  }

  function AsLabels(tokens: seq<Text>): (ps: seq<Piece>)
    ensures |ps| == |tokens| && forall k :: 0 <= k < |ps| ==> ps[k] == Label(tokens[k])
  {
    seq(|tokens|, k requires 0 <= k < |tokens| => Label(tokens[k]))
  }

  datatype Out = Out(parts: seq<seq<Piece>>, citations: seq<Citation>, invalid: nat)

  /** What one piece becomes. */
  function Place(x: Piece, scope: Scope, cs: seq<Citation>): (out: Out)
    ensures |out.parts| == 1
  {
    match x
    case Plain(_) => Out([[x]], cs, 0)
    case Label(token) =>
      var cited := Judge(token, scope);
      if cited.None? then Out([[]], cs, 1)
      else
        var (tokens, next) := EmitAll(cited.value, scope, cs);
        Out([AsLabels(tokens)], next, 0)
  }

  function Run(ps: seq<Piece>, scope: Scope, cs: seq<Citation>): (out: Out)
    ensures |out.parts| == |ps|
  {
    if ps == [] then Out([], cs, 0)
    else
      var first := Place(ps[0], scope, cs);
      var rest := Run(ps[1..], scope, first.citations);
      Out(first.parts + rest.parts, rest.citations, first.invalid + rest.invalid)
  }

  ghost function Resolve(answer: Text, scope: Scope): Resolved {
    var out := Run(Pieces(answer), scope, []);
    Resolved(Flatten(Concat(out.parts)), out.citations, out.invalid)
  }

  // ---------------------------------------------------------------- running over lists of pieces

  lemma {:induction false} RunStep(x: Piece, ps: seq<Piece>, scope: Scope, cs: seq<Citation>)
    ensures var first := Place(x, scope, cs);
            var rest := Run(ps, scope, first.citations);
            Run([x] + ps, scope, cs) == Out(first.parts + rest.parts, rest.citations, first.invalid + rest.invalid)
  {
    hide Place;
    assert ([x] + ps)[0] == x && ([x] + ps)[1..] == ps;
  }

  lemma {:induction false} ConcatCons(part: seq<Piece>, parts: seq<seq<Piece>>)
    ensures Concat([part] + parts) == part + Concat(parts)
  {
    assert ([part] + parts)[1..] == parts;
  }

  /** Resolving leaves every one of these pieces as it is and takes the citations from `cs` to `next`. */
  ghost predicate Stable(ps: seq<Piece>, scope: Scope, cs: seq<Citation>, next: seq<Citation>) {
    if ps == [] then next == cs
    else
      var first := Place(ps[0], scope, cs);
      first.parts == [[ps[0]]] && first.invalid == 0 && Stable(ps[1..], scope, first.citations, next)
  }

  lemma {:induction false} StableCons(x: Piece, ps: seq<Piece>, scope: Scope, cs: seq<Citation>, mid: seq<Citation>, next: seq<Citation>)
    requires Place(x, scope, cs) == Out([[x]], mid, 0) && Stable(ps, scope, mid, next)
    ensures Stable([x] + ps, scope, cs, next)
  {
    hide Place;
    assert ([x] + ps)[0] == x && ([x] + ps)[1..] == ps;
  }

  lemma {:induction false} StableAppend(ps: seq<Piece>, qs: seq<Piece>, scope: Scope, cs: seq<Citation>, mid: seq<Citation>, next: seq<Citation>)
    requires Stable(ps, scope, cs, mid) && Stable(qs, scope, mid, next)
    ensures Stable(ps + qs, scope, cs, next)
    decreases |ps|
  {
    hide Place;
    if ps == [] {
      assert ps + qs == qs;
    } else {
      var c1 := Place(ps[0], scope, cs).citations;
      StableAppend(ps[1..], qs, scope, c1, mid, next);
      StableCons(ps[0], ps[1..] + qs, scope, cs, c1, next);
      assert ps == [ps[0]] + ps[1..];
      Assoc([ps[0]], ps[1..], qs);
    }
  }

  lemma {:induction false} StableRuns(ps: seq<Piece>, scope: Scope, cs: seq<Citation>, next: seq<Citation>)
    requires Stable(ps, scope, cs, next)
    ensures Concat(Run(ps, scope, cs).parts) == ps
    ensures Run(ps, scope, cs).citations == next && Run(ps, scope, cs).invalid == 0
  {
    hide Place, Concat;
    if ps == [] {
      assert Concat([]) == [] by { NoParts(); }
    } else {
      var mid := Place(ps[0], scope, cs).citations;
      StableRuns(ps[1..], scope, mid, next);
      RunStep(ps[0], ps[1..], scope, cs);
      assert ps == [ps[0]] + ps[1..];
      ConcatCons([ps[0]], Run(ps[1..], scope, mid).parts);
    }
  }

  lemma NoParts()
    ensures Concat([]) == []
  {
  }

  // ---------------------------------------------------------------- citations and their labels

  /** The label of a citation names the cited passage. */
  ghost predicate Backs(c: Citation, at: Parsed, scope: Scope) {
    && Bracketed(c.token) && ParseToken(c.token, scope.maps) == Some(at)
    && at.source < |scope.sources| && c == Cite(Cited(at, c.token), scope.sources[at.source])
  }

  ghost predicate Backed(cs: seq<Citation>, scope: Scope) {
    forall c :: c in cs ==> exists at :: Backs(c, at, scope)
  }

  lemma {:induction false} SeenIsCited(cs: seq<Citation>, key: Key)
    ensures key in Seen(cs) ==> exists c :: c in cs && KeyOf(c) == key && c.token == Seen(cs)[key]
    ensures key !in Seen(cs) ==> forall c :: c in cs ==> KeyOf(c) != key
  {
    if cs != [] {
      var n := |cs| - 1;
      SeenIsCited(cs[..n], key);
      assert cs == cs[..n] + [cs[n]];
    }
  }

  lemma {:induction false} SeenGrows(cs: seq<Citation>, c: Citation)
    ensures Seen(cs + [c]) == Seen(cs)[KeyOf(c) := c.token]
  {
    assert (cs + [c])[..|cs|] == cs;
  }

  predicate Readable(c: Cited, scope: Scope) {
    Bracketed(c.atom) && ParseToken(c.atom, scope.maps) == Some(c.at) && c.at.source < |scope.sources|
  }

  /** After a mention, its key is seen under the token that was put out, which a citation carries. */
  lemma EmitKeeps(c: Cited, scope: Scope, cs: seq<Citation>)
    requires Readable(c, scope) && Backed(cs, scope)
    ensures var (token, next) := Emit(c, scope, cs);
            && Backed(next, scope)
            && exists d :: d in next && d.token == token && KeyOf(d) == KeyOf(Cite(c, scope.sources[c.at.source]))
    ensures var (token, next) := Emit(c, scope, cs);
            && KeyOf(Cite(c, scope.sources[c.at.source])) in Seen(next)
            && Seen(next)[KeyOf(Cite(c, scope.sources[c.at.source]))] == token
  {
    hide ParseToken, Seen;
    var cite := Cite(c, scope.sources[c.at.source]);
    SeenIsCited(cs, KeyOf(cite));
    if KeyOf(cite) !in Seen(cs) {
      SeenGrows(cs, cite);
      assert Backs(cite, c.at, scope);
      assert cite in cs + [cite];
    }
  }

  /** A readable token is judged as itself. */
  lemma JudgeAtom(c: Cited, scope: Scope)
    requires Readable(c, scope)
    ensures GoodToken(c.atom) && Judge(c.atom, scope) == Some([c])
  {
    hide ParseToken, Accept, GoodToken;
    ParsedIsGood(c.atom, scope.maps);
  }

  lemma PlaceAtom(c: Cited, scope: Scope, cs: seq<Citation>)
    requires Readable(c, scope)
    ensures var (token, next) := Emit(c, scope, cs);
            Place(Label(c.atom), scope, cs) == Out([[Label(token)]], next, 0)
  {
    hide ParseToken, Judge, Emit, GoodToken;
    JudgeAtom(c, scope);
    var (token, next) := Emit(c, scope, cs);
    assert [c][1..] == [];
    assert EmitAll([c], scope, cs) == ([token] + [], next);
    assert AsLabels([token] + []) == [Label(token)];
  }

  /** What is put out for a mention stays when it is resolved again from the same citations. */
  lemma EmitIsStable(c: Cited, scope: Scope, cs: seq<Citation>)
    requires Readable(c, scope) && Backed(cs, scope)
    ensures var (token, next) := Emit(c, scope, cs);
            GoodToken(token) && Place(Label(token), scope, cs) == Out([[Label(token)]], next, 0)
  {
    hide ParseToken, Seen, Place, GoodToken;
    var cite := Cite(c, scope.sources[c.at.source]);
    if KeyOf(cite) in Seen(cs) {
      SeenIsCited(cs, KeyOf(cite));
      var d :| d in cs && KeyOf(d) == KeyOf(cite) && d.token == Seen(cs)[KeyOf(cite)];
      var at :| Backs(d, at, scope);
      PlaceAtom(Cited(at, d.token), scope, cs);
      JudgeAtom(Cited(at, d.token), scope);
    } else {
      PlaceAtom(c, scope, cs);
      JudgeAtom(c, scope);
    }
  }

  predicate AllReadable(cited: seq<Cited>, scope: Scope) { forall c :: c in cited ==> Readable(c, scope) }

  lemma JudgedIsReadable(token: Text, scope: Scope)
    requires Judge(token, scope).Some?
    ensures Judge(token, scope).value != [] && AllReadable(Judge(token, scope).value, scope)
  {
    hide ParseToken, Accept;
    AcceptedAtoms(token, scope.maps);
  }

  lemma {:induction false} EmitAllStep(cited: seq<Cited>, scope: Scope, cs: seq<Citation>)
    requires cited != [] && forall c :: c in cited ==> c.at.source < |scope.sources|
    ensures cited[0] in cited
    ensures var (token, next) := Emit(cited[0], scope, cs);
            var (tokens, last) := EmitAll(cited[1..], scope, next);
            EmitAll(cited, scope, cs) == ([token] + tokens, last) && AsLabels([token] + tokens) == [Label(token)] + AsLabels(tokens)
  {
    hide Emit;
    assert cited[0] in cited;
  }

  predicate GoodTokens(tokens: seq<Text>) { forall t :: t in tokens ==> GoodToken(t) }

  /** The labels put out for one token stay when they are resolved again. */
  lemma {:induction false} EmitAllIsStable(cited: seq<Cited>, scope: Scope, cs: seq<Citation>)
    requires AllReadable(cited, scope) && Backed(cs, scope)
    ensures var (tokens, next) := EmitAll(cited, scope, cs);
            && |tokens| == |cited| && GoodTokens(tokens) && Backed(next, scope)
            && Stable(AsLabels(tokens), scope, cs, next)
  {
    hide ParseToken, Emit, Place, GoodToken, Backed, Readable, EmitAll;
    if cited == [] {
      assert EmitAll(cited, scope, cs) == ([], cs) by { NoTokens(scope, cs); }
    } else {
      assert cited[0] in cited;
      ReadableScope(cited[0], scope);
      ReadableScopes(cited, scope);
      EmitAllStep(cited, scope, cs);
      EmitIsStable(cited[0], scope, cs);
      EmitBacked(cited[0], scope, cs);
      var (token, mid) := Emit(cited[0], scope, cs);
      EmitAllIsStable(cited[1..], scope, mid);
      var (tokens, next) := EmitAll(cited[1..], scope, mid);
      StableCons(Label(token), AsLabels(tokens), scope, cs, mid, next);
    }
  }

  lemma {:induction false} NoTokens(scope: Scope, cs: seq<Citation>)
    ensures EmitAll([], scope, cs) == ([], cs)
  {
  }

  lemma ReadableScope(c: Cited, scope: Scope)
    requires Readable(c, scope)
    ensures c.at.source < |scope.sources|
  {
  }

  lemma ReadableScopes(cited: seq<Cited>, scope: Scope)
    requires AllReadable(cited, scope)
    ensures forall c :: c in cited ==> c.at.source < |scope.sources|
  {
  }

  lemma EmitBacked(c: Cited, scope: Scope, cs: seq<Citation>)
    requires Readable(c, scope) && Backed(cs, scope)
    ensures Backed(Emit(c, scope, cs).1, scope)
  {
    hide ParseToken, Seen, Readable, Backed;
    ReadableScope(c, scope);
    EmitKeeps(c, scope, cs);
  }

  /** The pieces put out for one accepted piece stay when they are resolved again. */
  lemma {:induction false} PlaceIsStable(x: Piece, scope: Scope, cs: seq<Citation>)
    requires Backed(cs, scope) && Place(x, scope, cs).invalid == 0
    ensures var out := Place(x, scope, cs);
            Stable(out.parts[0], scope, cs, out.citations) && Backed(out.citations, scope)
    ensures x.Label? ==> GoodLabels(Place(x, scope, cs).parts[0]) && Place(x, scope, cs).parts[0] != []
  {
    hide ParseToken, Judge, EmitAll, GoodToken, Backed, AllReadable;
    match x {
      case Plain(_) =>
        assert Place(x, scope, cs) == Out([[x]], cs, 0);
        assert Stable([], scope, cs, cs);
        StableCons(x, [], scope, cs, cs, cs);
      case Label(token) =>
        JudgedIsReadable(token, scope);
        var cited := Judge(token, scope).value;
        EmitAllIsStable(cited, scope, cs);
    }
  }

  lemma {:induction false} RunIsStable(ps: seq<Piece>, scope: Scope, cs: seq<Citation>)
    requires Backed(cs, scope) && Run(ps, scope, cs).invalid == 0
    ensures var out := Run(ps, scope, cs);
            Stable(Concat(out.parts), scope, cs, out.citations) && Backed(out.citations, scope)
    ensures forall k :: 0 <= k < |ps| && ps[k].Label? ==> GoodLabels(Run(ps, scope, cs).parts[k]) && Run(ps, scope, cs).parts[k] != []
    ensures forall k :: 0 <= k < |ps| && ps[k].Plain? ==> Run(ps, scope, cs).parts[k] == [ps[k]]
    ensures forall k :: 0 <= k < |ps| && ps[k].Label? ==> Judge(ps[k].token, scope).Some?
  {
    hide Backed, Concat, Judge, EmitAll, GoodLabels, Stable;
    if ps == [] {
      NoParts();
      assert Stable([], scope, cs, cs) by { StableNil(scope, cs); }
    } else {
      var first := Place(ps[0], scope, cs);
      PlaceIsStable(ps[0], scope, cs);
      var rest := Run(ps[1..], scope, first.citations);
      RunIsStable(ps[1..], scope, first.citations);
      assert first.parts == [first.parts[0]];
      ConcatCons(first.parts[0], rest.parts);
      StableAppend(first.parts[0], Concat(rest.parts), scope, cs, first.citations, rest.citations);
    }
  }

  lemma {:induction false} StableNil(scope: Scope, cs: seq<Citation>)
    ensures Stable([], scope, cs, cs)
  {
  }

  lemma {:induction false} LabelsOfText(text: Text, p: nat, x: Piece)
    requires p <= |text| && x in PiecesFrom(text, p) && x.Label?
    ensures exists q: nat :: q < |text| && LabelAt(text, q) > 0 && x.token == text[q..q + LabelAt(text, q)]
    decreases |text| - p
  {
    hide Code, LabelAt, InRanges, PiecesFrom;
    if p == |text| {
      PiecesEnd(text);
    } else {
      PiecesStep(text, p);
      var n := LabelAt(text, p);
      var whole := PiecesFrom(text, p);
      if whole[0] != x {
        assert x in whole[1..];
        if n > 0 && !InRanges(Code(text), p) { LabelsOfText(text, p + n, x); } else { LabelsOfText(text, p + 1, x); }
      }
    }
  }

  lemma {:induction false} ResolvingIsRewriting(answer: Text, scope: Scope)
    requires Resolve(answer, scope).invalid == 0
    ensures Rewriting(Pieces(answer), Run(Pieces(answer), scope, []).parts)
    ensures Backed(Resolve(answer, scope).citations, scope)
    ensures Stable(Concat(Run(Pieces(answer), scope, []).parts), scope, [], Resolve(answer, scope).citations)
  {
    hide PiecesFrom, Run, GoodLabels, Concat, LabelAt, Inert, Flatten, Stable, Judge;
    var ps := Pieces(answer);
    RunIsStable(ps, scope, []);
    forall k | 0 <= k < |ps| && ps[k].Label? ensures Inert(ps[k].token, 0, |ps[k].token|) {
      LabelsOfText(answer, 0, ps[k]);
      var q: nat :| q < |answer| && LabelAt(answer, q) > 0 && ps[k].token == answer[q..q + LabelAt(answer, q)];
      InertWhenJudged(answer, q, scope);
    }
  }

  lemma InertWhenJudged(text: Text, q: nat, scope: Scope)
    requires q < |text| && LabelAt(text, q) > 0 && Judge(text[q..q + LabelAt(text, q)], scope).Some?
    ensures Inert(text[q..q + LabelAt(text, q)], 0, LabelAt(text, q))
  {
    hide Accept, LabelAt, Inert;
    AcceptedIsInert(text, q, scope.maps);
  }

  /** Without a rejected label, the resolved text reads as exactly the labels that were put out. */
  lemma {:induction false} ResolvedPieces(answer: Text, scope: Scope)
    requires Resolve(answer, scope).invalid == 0
    ensures Pieces(Resolve(answer, scope).text) == Concat(Run(Pieces(answer), scope, []).parts)
  {
    hide PiecesFrom, Run, Concat, Flatten, Rewriting, Stable, Backed;
    ResolvingIsRewriting(answer, scope);
    RewritingIsCanonical(answer, Run(Pieces(answer), scope, []).parts);
  }

  /** Without a rejected label, resolving the resolved text changes nothing. */
  lemma ResolvesOnce(answer: Text, scope: Scope)
    requires Resolve(answer, scope).invalid == 0
    ensures Resolve(Resolve(answer, scope).text, scope) == Resolve(answer, scope)
  {
    hide PiecesFrom, Run, Concat, Flatten, Rewriting, Stable, Backed;
    ResolvingIsRewriting(answer, scope);
    ResolvedPieces(answer, scope);
    var qs := Concat(Run(Pieces(answer), scope, []).parts);
    StableRuns(qs, scope, [], Resolve(answer, scope).citations);
  }
}
