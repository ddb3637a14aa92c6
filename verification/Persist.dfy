/** The persistent form of a resolved answer, and resolving it again (src/citations.ts). */
module Persist {
  import opened Text
  import opened Labels
  import opened Atoms
  import opened Tokens
  import opened Citations

  /** The label that names a citation by its revision. */
  function Lasting(c: Citation): Text { Spell(UPPER_R, c.revisionId, Decimal(c.block)) }

  function LastingTokens(cs: seq<Citation>): map<Text, Text> {
    if cs == [] then map[]
    else
      var c := cs[|cs| - 1];
      LastingTokens(cs[..|cs| - 1])[c.token := Lasting(c)]
  }

  predicate HasToken(cs: seq<Citation>, token: Text) { exists c :: c in cs && c.token == token }

  /** One citation for each lasting token, in order of first use. */
  function LastingCitations(cs: seq<Citation>): seq<Citation> {
    if cs == [] then []
    else
      var c := cs[|cs| - 1];
      var before := LastingCitations(cs[..|cs| - 1]);
      if HasToken(before, Lasting(c)) then before else before + [c.(token := Lasting(c))]
  }

  function Replace(x: Piece, tokens: map<Text, Text>): Piece {
    if x.Label? && x.token in tokens then Label(tokens[x.token]) else x
  }

  function ReplaceAll(ps: seq<Piece>, tokens: map<Text, Text>): (qs: seq<Piece>)
    ensures |qs| == |ps| && forall k :: 0 <= k < |ps| ==> qs[k] == Replace(ps[k], tokens)
  {
    seq(|ps|, k requires 0 <= k < |ps| => Replace(ps[k], tokens))
  }

  ghost function PersistentAnswer(text: Text, cs: seq<Citation>): Resolved {
    Resolved(Flatten(ReplaceAll(Pieces(text), LastingTokens(cs))), LastingCitations(cs), 0)
  }

  // ---------------------------------------------------------------- citations with one token each

  /** Every revision id is a UUID that belongs to one source. */
  ghost predicate Distinct(scope: Scope) {
    && Frozen(scope)
    && forall i :: 0 <= i < |scope.sources| ==>
         Uuid(scope.sources[i].revisionId) && Only(RevisionNames(scope.sources), scope.sources[i].revisionId, i)
  }

  predicate OneEach(cs: seq<Citation>) {
    forall j, k :: 0 <= j < k < |cs| ==> KeyOf(cs[j]) != KeyOf(cs[k])
  }

  function Renamed(cs: seq<Citation>): (r: seq<Citation>)
    ensures |r| == |cs| && forall k :: 0 <= k < |cs| ==> r[k] == cs[k].(token := Lasting(cs[k]))
  {
    seq(|cs|, k requires 0 <= k < |cs| => cs[k].(token := Lasting(cs[k])))
  }

  lemma RenamedPush(cs: seq<Citation>, c: Citation)
    ensures Renamed(cs + [c]) == Renamed(cs) + [c.(token := Lasting(c))]
  {
  }

  lemma SpellInjective(head: Text, tail: Text, head': Text, tail': Text)
    requires Digits(tail) && Digits(tail') && Spell(UPPER_R, head, tail) == Spell(UPPER_R, head', tail')
    ensures head == head' && tail == tail'
  {
    hide Spell, Digits, LastColon;
    SpellParts(UPPER_R, head, tail);
    SpellParts(UPPER_R, head', tail');
  }

  lemma LastingIsKey(c: Citation, d: Citation)
    requires Lasting(c) == Lasting(d)
    ensures KeyOf(c) == KeyOf(d)
  {
    hide Decimal, Digits, Spell;
    SpellInjective(c.revisionId, Decimal(c.block), d.revisionId, Decimal(d.block));
    DecimalReads(c.block);
    DecimalReads(d.block);
  }

  lemma NewLasting(cs: seq<Citation>, c: Citation)
    requires forall d :: d in cs ==> KeyOf(d) != KeyOf(c)
    ensures !HasToken(Renamed(cs), Lasting(c))
  {
    hide Lasting, KeyOf;
    forall d | d in Renamed(cs) ensures d.token != Lasting(c) {
      var k :| 0 <= k < |cs| && Renamed(cs)[k] == d;
      assert cs[k] in cs;
      if Lasting(cs[k]) == Lasting(c) { LastingIsKey(cs[k], c); }
    }
  }

  lemma OneEachInit(cs: seq<Citation>, n: nat)
    requires OneEach(cs) && |cs| == n + 1
    ensures OneEach(cs[..n]) && cs == cs[..n] + [cs[n]]
    ensures forall d :: d in cs[..n] ==> KeyOf(d) != KeyOf(cs[n])
  {
    hide KeyOf;
  }

  lemma {:induction false} LastingIsRenamed(cs: seq<Citation>)
    requires OneEach(cs)
    ensures LastingCitations(cs) == Renamed(cs)
  {
    hide Lasting, KeyOf, OneEach, HasToken;
    if cs != [] {
      var n := |cs| - 1;
      OneEachInit(cs, n);
      LastingIsRenamed(cs[..n]);
      RenamedPush(cs[..n], cs[n]);
      NewLasting(cs[..n], cs[n]);
    }
  }

  lemma {:induction false} SeenRenamed(cs: seq<Citation>)
    ensures Seen(Renamed(cs)).Keys == Seen(cs).Keys
    ensures forall c: Citation :: KeyOf(c) in Seen(cs) ==> Seen(Renamed(cs))[KeyOf(c)] == Lasting(c)
  {
    hide Lasting;
    if cs != [] {
      var n := |cs| - 1;
      SeenRenamed(cs[..n]);
      assert cs == cs[..n] + [cs[n]];
      RenamedPush(cs[..n], cs[n]);
      SeenGrows(cs[..n], cs[n]);
      SeenGrows(Renamed(cs[..n]), cs[n].(token := Lasting(cs[n])));
      forall c: Citation | KeyOf(c) in Seen(cs) ensures Seen(Renamed(cs))[KeyOf(c)] == Lasting(c) {
        if KeyOf(c) == KeyOf(cs[n]) { SameKeyLasting(c, cs[n]); }
      }
    }
  }

  lemma SameKeyLasting(c: Citation, d: Citation)
    requires KeyOf(c) == KeyOf(d)
    ensures Lasting(c) == Lasting(d)
  {
  }

  /** The lasting token of a citation. */
  lemma {:induction false} LastingToken(cs: seq<Citation>, c: Citation)
    requires c in cs && forall d :: d in cs && d.token == c.token ==> d == c
    ensures c.token in LastingTokens(cs) && LastingTokens(cs)[c.token] == Lasting(c)
  {
    hide Lasting;
    var n := |cs| - 1;
    assert cs == cs[..n] + [cs[n]];
    if cs[n].token != c.token {
      LastingToken(cs[..n], c);
    }
  }

  // ---------------------------------------------------------------- lasting tokens name the same passages

  lemma BackedToken(c: Citation, at: Parsed, d: Citation, at': Parsed, scope: Scope)
    requires Backs(c, at, scope) && Backs(d, at', scope) && c.token == d.token
    ensures c == d
  {
  }

  /** The lasting token of a backed citation names the very passage that its own token names. */
  lemma LastingNames(c: Citation, at: Parsed, scope: Scope)
    requires Distinct(scope) && Backs(c, at, scope)
    ensures Readable(Cited(at, Lasting(c)), scope)
  {
    hide ParseToken, Only, Uuid, LastBlock, Decimal, DecimalValue, Digits, MapsFor, Spell;
    ParseTokenExact(c.token, at, scope.maps, scope.sources);
    var tail := Decimal(c.block);
    DecimalReads(c.block);
    assert Names(UPPER_R, c.revisionId, tail, at, scope.sources);
    SpelledIsParsed(UPPER_R, c.revisionId, tail, at, scope.maps, scope.sources);
    SpellParts(UPPER_R, c.revisionId, tail);
  }

  /** The first run mentions a passage; the second mentions its lasting token at the same place. */
  lemma EmitLasting(c: Cited, scope: Scope, cs: seq<Citation>)
    requires Distinct(scope) && Readable(c, scope) && Backed(cs, scope)
    ensures var (token, next) := Emit(c, scope, cs);
            var lasting := Lasting(Cite(c, scope.sources[c.at.source]));
            && GoodToken(lasting)
            && Place(Label(lasting), scope, Renamed(cs)) == Out([[Label(lasting)]], Renamed(next), 0)
  {
    hide ParseToken, Lasting, Seen, GoodToken, Place, Distinct, Backed;
    var cite := Cite(c, scope.sources[c.at.source]);
    assert Backs(cite, c.at, scope);
    LastingNames(cite, c.at, scope);
    var again := Cited(c.at, Lasting(cite));
    PlaceAtom(again, scope, Renamed(cs));
    JudgeAtom(again, scope);
    SeenRenamed(cs);
    RenamedPush(cs, cite);
    assert KeyOf(Cite(again, scope.sources[c.at.source])) == KeyOf(cite);
  }

  /** Every token of the citations is replaced by the lasting token of its own citation. */
  ghost predicate Covers(tokens: map<Text, Text>, cs: seq<Citation>) {
    forall c :: c in cs ==> c.token in tokens && tokens[c.token] == Lasting(c)
  }

  lemma {:induction false} BackedCover(cs: seq<Citation>, scope: Scope)
    requires Backed(cs, scope)
    ensures Covers(LastingTokens(cs), cs)
  {
    hide Lasting, Backs;
    forall c | c in cs ensures c.token in LastingTokens(cs) && LastingTokens(cs)[c.token] == Lasting(c) {
      var at :| Backs(c, at, scope);
      forall d | d in cs && d.token == c.token ensures d == c {
        var at' :| Backs(d, at', scope);
        BackedToken(c, at, d, at', scope);
      }
      LastingToken(cs, c);
    }
  }

  predicate Extends(cs: seq<Citation>, next: seq<Citation>) { cs <= next }

  lemma EmitExtends(c: Cited, scope: Scope, cs: seq<Citation>)
    requires c.at.source < |scope.sources|
    ensures Extends(cs, Emit(c, scope, cs).1)
  {
    hide Seen;
  }

  lemma {:induction false} EmitAllExtends(cited: seq<Cited>, scope: Scope, cs: seq<Citation>)
    requires forall c :: c in cited ==> c.at.source < |scope.sources|
    ensures Extends(cs, EmitAll(cited, scope, cs).1)
  {
    hide Emit;
    if cited != [] {
      EmitAllStep(cited, scope, cs);
      EmitExtends(cited[0], scope, cs);
      EmitAllExtends(cited[1..], scope, Emit(cited[0], scope, cs).1);
    }
  }

  lemma PlaceExtends(x: Piece, scope: Scope, cs: seq<Citation>)
    ensures Extends(cs, Place(x, scope, cs).citations)
  {
    hide Judge, EmitAll, Extends;
    assert Extends(cs, cs) by { Same(cs); }
    if x.Label? && Judge(x.token, scope).Some? {
      EmitAllExtends(Judge(x.token, scope).value, scope, cs);
    }
  }

  lemma Same(cs: seq<Citation>)
    ensures Extends(cs, cs)
  {
  }

  lemma {:induction false} RunExtends(ps: seq<Piece>, scope: Scope, cs: seq<Citation>)
    ensures Extends(cs, Run(ps, scope, cs).citations)
  {
    hide Place;
    if ps != [] {
      PlaceExtends(ps[0], scope, cs);
      RunExtends(ps[1..], scope, Place(ps[0], scope, cs).citations);
    }
  }

  lemma CoversPrefix(tokens: map<Text, Text>, cs: seq<Citation>, next: seq<Citation>)
    requires Extends(cs, next) && Covers(tokens, next)
    ensures Covers(tokens, cs)
  {
    hide Lasting;
    forall c | c in cs ensures c in next {
      var k :| 0 <= k < |cs| && cs[k] == c;
      assert next[k] == c;
    }
  }

  lemma ReplacedToken(c: Cited, scope: Scope, cs: seq<Citation>, tokens: map<Text, Text>)
    requires Readable(c, scope) && Backed(cs, scope) && Covers(tokens, Emit(c, scope, cs).1)
    ensures Replace(Label(Emit(c, scope, cs).0), tokens) == Label(Lasting(Cite(c, scope.sources[c.at.source])))
  {
    hide ParseToken, Lasting, Emit, Seen, Readable, Backed;
    ReadableScope(c, scope);
    EmitKeeps(c, scope, cs);
    var cite := Cite(c, scope.sources[c.at.source]);
    var (token, next) := Emit(c, scope, cs);
    var d :| d in next && d.token == token && KeyOf(d) == KeyOf(cite);
    SameKeyLasting(d, cite);
  }

  lemma ReplaceCons(x: Piece, ps: seq<Piece>, tokens: map<Text, Text>)
    ensures ReplaceAll([x] + ps, tokens) == [Replace(x, tokens)] + ReplaceAll(ps, tokens)
  {
  }

  lemma ReplaceConcat(ps: seq<Piece>, qs: seq<Piece>, tokens: map<Text, Text>)
    ensures ReplaceAll(ps + qs, tokens) == ReplaceAll(ps, tokens) + ReplaceAll(qs, tokens)
  {
  }

  /** The labels put out for one token, made lasting, resolve to the same passages and stay. */
  lemma {:induction false} EmitAllLasting(cited: seq<Cited>, scope: Scope, cs: seq<Citation>, tokens: map<Text, Text>)
    requires Distinct(scope) && AllReadable(cited, scope) && Backed(cs, scope)
    requires forall c :: c in cited ==> c.at.source < |scope.sources|
    requires Covers(tokens, EmitAll(cited, scope, cs).1)
    ensures var (out, next) := EmitAll(cited, scope, cs);
            && Stable(ReplaceAll(AsLabels(out), tokens), scope, Renamed(cs), Renamed(next))
            && GoodLabels(ReplaceAll(AsLabels(out), tokens))
  {
    hide ParseToken, Emit, Place, GoodToken, Backed, Readable, EmitAll, Distinct, Covers, Lasting, Extends, Replace;
    if cited == [] {
      NoTokens(scope, cs);
      StableNil(scope, Renamed(cs));
      assert ReplaceAll(AsLabels([]), tokens) == [];
    } else {
      assert cited[0] in cited;
      EmitAllStep(cited, scope, cs);
      var (token, mid) := Emit(cited[0], scope, cs);
      EmitBacked(cited[0], scope, cs);
      EmitAllExtends(cited[1..], scope, mid);
      var (rest, next) := EmitAll(cited[1..], scope, mid);
      CoversPrefix(tokens, mid, next);
      EmitAllLasting(cited[1..], scope, mid, tokens);
      EmitLasting(cited[0], scope, cs);
      ReplacedToken(cited[0], scope, cs, tokens);
      ReplaceCons(Label(token), AsLabels(rest), tokens);
      StableCons(Replace(Label(token), tokens), ReplaceAll(AsLabels(rest), tokens), scope, Renamed(cs), Renamed(mid), Renamed(next));
    }
  }

  lemma {:induction false} PlaceLasting(x: Piece, scope: Scope, cs: seq<Citation>, tokens: map<Text, Text>)
    requires Distinct(scope) && Backed(cs, scope) && Place(x, scope, cs).invalid == 0
    requires Covers(tokens, Place(x, scope, cs).citations)
    ensures var out := Place(x, scope, cs);
            Stable(ReplaceAll(out.parts[0], tokens), scope, Renamed(cs), Renamed(out.citations))
    ensures x.Label? ==> GoodLabels(ReplaceAll(Place(x, scope, cs).parts[0], tokens))
  {
    hide ParseToken, Judge, EmitAll, GoodToken, Backed, AllReadable, Distinct, Covers;
    match x {
      case Plain(_) =>
        assert ReplaceAll([x], tokens) == [x];
        assert Place(x, scope, Renamed(cs)) == Out([[x]], Renamed(cs), 0);
        StableNil(scope, Renamed(cs));
        StableCons(x, [], scope, Renamed(cs), Renamed(cs), Renamed(cs));
      case Label(token) =>
        JudgedIsReadable(token, scope);
        EmitAllLasting(Judge(token, scope).value, scope, cs, tokens);
    }
  }

  lemma {:induction false} RunLasting(ps: seq<Piece>, scope: Scope, cs: seq<Citation>, tokens: map<Text, Text>)
    requires Distinct(scope) && Backed(cs, scope) && Run(ps, scope, cs).invalid == 0
    requires Covers(tokens, Run(ps, scope, cs).citations)
    ensures var out := Run(ps, scope, cs);
            Stable(ReplaceAll(Concat(out.parts), tokens), scope, Renamed(cs), Renamed(out.citations))
    ensures forall k :: 0 <= k < |ps| && ps[k].Label? ==> GoodLabels(ReplaceAll(Run(ps, scope, cs).parts[k], tokens))
  {
    hide Backed, Concat, Place, GoodLabels, Stable, Distinct, Covers, Extends, ReplaceAll;
    if ps == [] {
      NoParts();
      StableNil(scope, Renamed(cs));
      assert ReplaceAll([], tokens) == [] by { assert |ReplaceAll([], tokens)| == 0; }
    } else {
      var first := Place(ps[0], scope, cs);
      var rest := Run(ps[1..], scope, first.citations);
      RunExtends(ps[1..], scope, first.citations);
      CoversPrefix(tokens, first.citations, rest.citations);
      PlaceLasting(ps[0], scope, cs, tokens);
      PlaceIsStable(ps[0], scope, cs);
      RunLasting(ps[1..], scope, first.citations, tokens);
      assert first.parts == [first.parts[0]];
      ConcatCons(first.parts[0], rest.parts);
      ReplaceConcat(first.parts[0], Concat(rest.parts), tokens);
      StableAppend(ReplaceAll(first.parts[0], tokens), ReplaceAll(Concat(rest.parts), tokens), scope,
                   Renamed(cs), Renamed(first.citations), Renamed(rest.citations));
    }
  }
}
