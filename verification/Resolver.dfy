/** The one-pass loops that resolve an answer and write its persistent form (src/citations.ts). */
module Resolver {
  import opened Text
  import opened CodeRanges
  import opened Labels
  import opened Atoms
  import opened Tokens
  import opened Citations
  import opened Persist

  function Plains(s: Text): (ps: seq<Piece>)
    ensures |ps| == |s| && forall k :: 0 <= k < |ps| ==> ps[k] == Plain(s[k])
  {
    seq(|s|, k requires 0 <= k < |s| => Plain(s[k]))
  }

  /** From `p` to `q` no label starts outside code. */
  ghost predicate NoLabel(text: Text, p: nat, q: nat) {
    q <= |text| && forall k :: p <= k < q ==> LabelAt(text, k) == 0 || InRanges(Code(text), k)
  }

  lemma {:induction false} PlainStretch(text: Text, p: nat, q: nat)
    requires p <= q && NoLabel(text, p, q)
    ensures PiecesFrom(text, p) == Plains(text[p..q]) + PiecesFrom(text, q)
    decreases q - p
  {
    hide Code, LabelAt, InRanges, PiecesFrom;
    if p == q {
      assert Plains(text[p..q]) == [];
      assert [] + PiecesFrom(text, q) == PiecesFrom(text, q);
    } else {
      PiecesStep(text, p);
      PlainStretch(text, p + 1, q);
      assert Plains(text[p..q]) == [Plain(text[p])] + Plains(text[p + 1..q]);
      Assoc([Plain(text[p])], Plains(text[p + 1..q]), PiecesFrom(text, q));
    }
  }

  lemma PlacePlain(u: Unit, scope: Scope, cs: seq<Citation>)
    ensures Place(Plain(u), scope, cs) == Out([[Plain(u)]], cs, 0)
  {
  }

  function Spoken(out: Out): Resolved { Resolved(Flatten(Concat(out.parts)), out.citations, out.invalid) }

  lemma {:induction false} SpokenStep(x: Piece, ps: seq<Piece>, scope: Scope, cs: seq<Citation>)
    ensures var first := Place(x, scope, cs);
            var rest := Spoken(Run(ps, scope, first.citations));
            Spoken(Run([x] + ps, scope, cs)) == Resolved(Flatten(first.parts[0]) + rest.text, rest.citations, first.invalid + rest.invalid)
  {
    hide Place, Run, Concat, Flatten;
    var first := Place(x, scope, cs);
    RunStep(x, ps, scope, cs);
    assert first.parts == [first.parts[0]];
    var rest := Run(ps, scope, first.citations);
    ConcatCons(first.parts[0], rest.parts);
    FlattenConcat(first.parts[0], Concat(rest.parts));
  }

  lemma FlattenOne(u: Unit)
    ensures Flatten([Plain(u)]) == [u]
  {
    assert [Plain(u)][1..] == [];
    assert Flatten([Plain(u)]) == [u] + Flatten([]);
  }

  lemma {:induction false} RunPlains(s: Text, ps: seq<Piece>, scope: Scope, cs: seq<Citation>)
    ensures var rest := Spoken(Run(ps, scope, cs));
            Spoken(Run(Plains(s) + ps, scope, cs)) == Resolved(s + rest.text, rest.citations, rest.invalid)
  {
    hide Place, Run, Spoken, Flatten;
    if s == [] {
      assert Plains(s) + ps == ps;
    } else {
      RunPlains(s[1..], ps, scope, cs);
      assert Plains(s) + ps == [Plain(s[0])] + (Plains(s[1..]) + ps);
      PlacePlain(s[0], scope, cs);
      SpokenStep(Plain(s[0]), Plains(s[1..]) + ps, scope, cs);
      FlattenOne(s[0]);
      assert s == [s[0]] + s[1..];
      Assoc([s[0]], s[1..], Spoken(Run(ps, scope, cs)).text);
    }
  }

  /** What resolving from `p` on still contributes. */
  ghost function Ahead(answer: Text, p: nat, scope: Scope, cs: seq<Citation>): Resolved
    requires p <= |answer|
  {
    Spoken(Run(PiecesFrom(answer, p), scope, cs))
  }

  lemma AheadPlain(answer: Text, p: nat, q: nat, scope: Scope, cs: seq<Citation>)
    requires p <= q && NoLabel(answer, p, q)
    ensures var rest := Ahead(answer, q, scope, cs);
            Ahead(answer, p, scope, cs) == Resolved(answer[p..q] + rest.text, rest.citations, rest.invalid)
  {
    hide Run, Spoken, PiecesFrom;
    PlainStretch(answer, p, q);
    RunPlains(answer[p..q], PiecesFrom(answer, q), scope, cs);
  }

  lemma AheadLabel(answer: Text, p: nat, n: nat, scope: Scope, cs: seq<Citation>)
    requires p < |answer| && n == LabelAt(answer, p) > 0 && !InRanges(Code(answer), p)
    ensures var first := Place(Label(answer[p..p + n]), scope, cs);
            var rest := Ahead(answer, p + n, scope, first.citations);
            Ahead(answer, p, scope, cs) == Resolved(Flatten(first.parts[0]) + rest.text, rest.citations, first.invalid + rest.invalid)
  {
    hide Run, Spoken, PiecesFrom, Place, Flatten, LabelAt, Code, InRanges;
    PiecesStep(answer, p);
    SpokenStep(Label(answer[p..p + n]), PiecesFrom(answer, p + n), scope, cs);
  }

  lemma AheadNothing(answer: Text, scope: Scope, cs: seq<Citation>)
    ensures Ahead(answer, |answer|, scope, cs) == Resolved([], cs, 0)
  {
    hide PiecesFrom;
    PiecesEnd(answer);
  }

  // ---------------------------------------------------------------- matches in order

  /** The next label token at or after `from`; its length is 0 when there is none. */
  method NextMatch(text: Text, from: nat) returns (at: nat, n: nat)
    requires from <= |text|
    ensures from <= at <= |text| && (n == 0 <==> at == |text|)
    ensures at < |text| ==> n == LabelAt(text, at)
    ensures forall k :: from <= k < at ==> LabelAt(text, k) == 0
  {
    hide LabelAt;
    at := from;
    while at < |text|
      invariant from <= at <= |text|
      invariant forall k :: from <= k < at ==> LabelAt(text, k) == 0
    {
      n := LabelAt(text, at);
      if n > 0 { return; }
      at := at + 1;
    }
    n := 0;
  }

  /** No label starts inside another. */
  lemma InsideLabel(text: Text, at: nat)
    requires at < |text| && LabelAt(text, at) > 0
    ensures forall k :: at < k < at + LabelAt(text, at) ==> LabelAt(text, k) == 0
  {
    hide BodyEnd, LabelBody;
    forall k | at < k < at + LabelAt(text, at) ensures text[k] != OPEN_BRACKET {
      assert k < at + LabelAt(text, at) - 1 ==> !Stops(text[k]);
    }
  }

  lemma SkipInCode(text: Text, last: nat, pos: nat, at: nat, n: nat)
    requires pos <= at < |text| && n == LabelAt(text, at) > 0 && InRanges(Code(text), at)
    requires NoLabel(text, last, pos) && forall k :: pos <= k < at ==> LabelAt(text, k) == 0
    ensures NoLabel(text, last, at + n)
  {
    hide LabelAt, Code, InRanges;
    InsideLabel(text, at);
  }

  /** A label outside code puts out the tokens of its passages; the map of seen tokens keeps up. */
  method EmitTokens(cited: seq<Cited>, scope: Scope, seen: map<Key, Text>, citations: seq<Citation>)
    returns (spoken: Text, seen': map<Key, Text>, citations': seq<Citation>)
    requires seen == Seen(citations) && forall c :: c in cited ==> c.at.source < |scope.sources|
    ensures spoken == Flatten(AsLabels(EmitAll(cited, scope, citations).0))
    ensures citations' == EmitAll(cited, scope, citations).1 && seen' == Seen(citations')
  {
    hide Seen, Flatten, EmitAll;
    spoken, seen', citations' := [], seen, citations;
    var n := 0;
    FlattenNil();
    assert cited[0..] == cited;
    ghost var whole := EmitAll(cited, scope, citations);
    assert [] + Flatten(AsLabels(whole.0)) == Flatten(AsLabels(whole.0));
    while n < |cited|
      invariant n <= |cited| && seen' == Seen(citations')
      invariant forall c :: c in cited[n..] ==> c.at.source < |scope.sources|
      invariant var rest := EmitAll(cited[n..], scope, citations');
                whole.1 == rest.1 && Flatten(AsLabels(whole.0)) == spoken + Flatten(AsLabels(rest.0))
    {
      var c := cited[n];
      assert cited[n..][1..] == cited[n + 1..] && cited[n..][0] == c;
      EmitAllStep(cited[n..], scope, citations');
      var source := scope.sources[c.at.source];
      var cite := Cite(c, source);
      ghost var mid := Emit(c, scope, citations');
      var token := if KeyOf(cite) in seen' then seen'[KeyOf(cite)] else c.atom;
      if KeyOf(cite) !in seen' {
        SeenGrows(citations', cite);
        seen' := seen'[KeyOf(cite) := token];
        citations' := citations' + [cite];
      }
      assert mid == (token, citations');
      ghost var rest := EmitAll(cited[n + 1..], scope, citations');
      FlattenCons(Label(token), AsLabels(rest.0));
      Assoc(spoken, token, Flatten(AsLabels(rest.0)));
      spoken := spoken + token;
      n := n + 1;
    }
    assert cited[n..] == [];
    NoTokens(scope, citations');
    assert AsLabels([]) == [];
  }

  lemma JudgeFrozen(token: Text, scope: Scope)
    requires Frozen(scope) && Bracketed(token)
    ensures Judge(token, scope) == Accept(token, scope.maps)
  {
    hide Accept, ParseToken, Groups, BlocksById;
    if Accept(token, scope.maps).Some? {
      AcceptedAtoms(token, scope.maps);
      forall c | c in Accept(token, scope.maps).value ensures c.at.source < |scope.sources| {
        assert Bracketed(c.atom) && ParseToken(c.atom, scope.maps) == Some(c.at);
        ParseTokenExact(c.atom, c.at, scope.maps, scope.sources);
      }
    }
  }

  lemma {:induction false} GroupsUnique(a: map<Text, seq<nat>>, b: map<Text, seq<nat>>, names: seq<Text>)
    requires Groups(a, names) && Groups(b, names)
    ensures a == b
  {
  }

  lemma BlocksUnique(a: map<int, Block>, b: map<int, Block>, blocks: seq<Block>)
    requires BlocksById(a, blocks) && BlocksById(b, blocks)
    ensures a == b
  {
    forall id ensures (id in a <==> id in b) && (id in a && id in b ==> a[id] == b[id]) {
      if id in a { assert LastBlock(blocks, id, a[id]); }
      if id in b { assert LastBlock(blocks, id, b[id]); }
    }
  }

  /** The frozen maps follow from the sources. */
  lemma FrozenUnique(a: Scope, b: Scope)
    requires Frozen(a) && Frozen(b) && a.sources == b.sources
    ensures a == b
  {
    hide Groups, BlocksById;
    GroupsUnique(a.maps.aliases, b.maps.aliases, AliasNames(a.sources));
    GroupsUnique(a.maps.revisions, b.maps.revisions, RevisionNames(a.sources));
    forall i | 0 <= i < |a.sources| ensures a.maps.blocks[i] == b.maps.blocks[i] {
      BlocksUnique(a.maps.blocks[i], b.maps.blocks[i], a.sources[i].blocks);
    }
  }

  method CodeOf(text: Text) returns (code: seq<Range>)
    ensures code == Code(text) && Ordered(code)
  {
    var fences := FencedCodeRanges(text);
    FencesAreOrdered(text);
    var inline := InlineCodeRanges(text, Outers(fences));
    CodeIsOrdered(text);
    code := SortByStart(Outers(fences) + inline);
  }

  /** Text from `last` on, with everything up to `pos` known to be plain. */
  ghost predicate Pending(answer: Text, whole: Resolved, out: Text, last: nat, pos: nat, scope: Scope, cs: seq<Citation>, invalid: nat)
  {
    && last <= pos && NoLabel(answer, last, pos)
    && var rest := Ahead(answer, last, scope, cs);
       whole == Resolved(out + rest.text, rest.citations, invalid + rest.invalid)
  }

  lemma PendingFlush(answer: Text, whole: Resolved, out: Text, last: nat, pos: nat, at: nat, scope: Scope, cs: seq<Citation>, invalid: nat)
    requires Pending(answer, whole, out, last, pos, scope, cs, invalid)
    requires pos <= at <= |answer| && forall k :: pos <= k < at ==> LabelAt(answer, k) == 0
    ensures NoLabel(answer, last, at) && last <= at
    ensures Pending(answer, whole, out + answer[last..at], at, at, scope, cs, invalid)
  {
    hide LabelAt, Code, InRanges, Ahead;
    AheadPlain(answer, last, at, scope, cs);
    Assoc(out, answer[last..at], Ahead(answer, at, scope, cs).text);
  }

  lemma PendingLabel(answer: Text, whole: Resolved, out: Text, at: nat, n: nat, scope: Scope, cs: seq<Citation>, invalid: nat)
    requires at < |answer| && Pending(answer, whole, out, at, at, scope, cs, invalid)
    requires n == LabelAt(answer, at) > 0 && !InRanges(Code(answer), at)
    ensures var first := Place(Label(answer[at..at + n]), scope, cs);
            Pending(answer, whole, out + Flatten(first.parts[0]), at + n, at + n, scope, first.citations, invalid + first.invalid)
  {
    hide LabelAt, Code, InRanges, Ahead, Place, Flatten;
    AheadLabel(answer, at, n, scope, cs);
    var first := Place(Label(answer[at..at + n]), scope, cs);
    Assoc(out, Flatten(first.parts[0]), Ahead(answer, at + n, scope, first.citations).text);
  }

  lemma PendingStart(answer: Text, scope: Scope)
    ensures Pending(answer, Resolve(answer, scope), [], 0, 0, scope, [], 0)
  {
    hide PiecesFrom, Run, Spoken;
    var whole := Ahead(answer, 0, scope, []);
    assert [] + whole.text == whole.text;
    assert whole == Resolve(answer, scope) by { SpokenResolve(answer, scope); }
  }

  lemma {:induction false} SpokenResolve(answer: Text, scope: Scope)
    ensures Spoken(Run(Pieces(answer), scope, [])) == Resolve(answer, scope)
  {
    hide PiecesFrom, Run;
  }

  lemma PendingEnd(answer: Text, whole: Resolved, out: Text, scope: Scope, cs: seq<Citation>, invalid: nat)
    requires Pending(answer, whole, out, |answer|, |answer|, scope, cs, invalid)
    ensures whole == Resolved(out, cs, invalid)
  {
    hide Ahead;
    AheadNothing(answer, scope, cs);
    assert out + [] == out;
  }

  lemma PendingSkip(answer: Text, whole: Resolved, out: Text, last: nat, pos: nat, at: nat, n: nat, scope: Scope, cs: seq<Citation>, invalid: nat)
    requires Pending(answer, whole, out, last, pos, scope, cs, invalid)
    requires pos <= at < |answer| && n == LabelAt(answer, at) > 0 && InRanges(Code(answer), at)
    requires forall k :: pos <= k < at ==> LabelAt(answer, k) == 0
    ensures Pending(answer, whole, out, last, at + n, scope, cs, invalid)
  {
    hide LabelAt, Code, InRanges, Ahead;
    SkipInCode(answer, last, pos, at, n);
  }

  lemma MatchIsBracketed(answer: Text, at: nat)
    requires at < |answer| && LabelAt(answer, at) > 0
    ensures Bracketed(answer[at..at + LabelAt(answer, at)])
  {
  }

  lemma PlaceRejected(token: Text, scope: Scope, cs: seq<Citation>)
    requires Judge(token, scope).None?
    ensures Place(Label(token), scope, cs) == Out([[]], cs, 1) && Flatten([]) == []
  {
    hide Judge;
  }

  lemma {:induction false} PlaceAccepted(token: Text, scope: Scope, cs: seq<Citation>)
    requires Judge(token, scope).Some?
    ensures var (tokens, next) := EmitAll(Judge(token, scope).value, scope, cs);
            Place(Label(token), scope, cs) == Out([AsLabels(tokens)], next, 0)
  {
    hide Judge, EmitAll;
  }

  /** One pass over the labels computes the resolution of the answer piece by piece. */
  method ResolveCitations(answer: Text, sources: seq<LabelSource>) returns (r: Resolved)
    ensures forall scope: Scope :: Frozen(scope) && scope.sources == sources ==> r == Resolve(answer, scope)
  {
    hide LabelAt, Code, InRanges, Pending, Place, Judge, Accept, EmitAll, Flatten, Seen, MapsFor, Resolve;
    var maps := BuildScopeMaps(sources);
    var scope := Scope(sources, maps);
    var code := CodeOf(answer);
    ghost var whole := Resolve(answer, scope);
    var codeIndex: nat, pos: nat, last: nat, invalid: nat := 0, 0, 0, 0;
    var parts: Text, seen: map<Key, Text>, citations: seq<Citation> := [], map[], [];
    PendingStart(answer, scope);
    assert Seen([]) == map[] by { NothingSeen(); }
    var more := true;
    while more
      invariant pos <= |answer| && codeIndex <= |code| && seen == Seen(citations)
      invariant forall k :: 0 <= k < codeIndex ==> code[k].end <= pos
      invariant Pending(answer, whole, parts, last, pos, scope, citations, invalid)
      invariant !more ==> forall k :: pos <= k < |answer| ==> LabelAt(answer, k) == 0
      decreases |answer| - pos, more
    {
      var at, n := NextMatch(answer, pos);
      if n == 0 { more := false; continue; }
      var inside;
      inside, codeIndex := Inside(code, codeIndex, at);
      if inside {
        PendingSkip(answer, whole, parts, last, pos, at, n, scope, citations, invalid);
        pos := at + n;
        continue;
      }
      PendingFlush(answer, whole, parts, last, pos, at, scope, citations, invalid);
      parts := parts + answer[last..at];
      var token := answer[at..at + n];
      MatchIsBracketed(answer, at);
      JudgeFrozen(token, scope);
      PendingLabel(answer, whole, parts, at, n, scope, citations, invalid);
      var cited := AcceptToken(token, maps);
      if cited.None? {
        PlaceRejected(token, scope, citations);
        assert parts + [] == parts;
        invalid := invalid + 1;
      } else {
        PlaceAccepted(token, scope, citations);
        var spoken;
        spoken, seen, citations := EmitTokens(cited.value, scope, seen, citations);
        parts := parts + spoken;
      }
      last, pos := at + n, at + n;
    }
    PendingFlush(answer, whole, parts, last, pos, |answer|, scope, citations, invalid);
    assert answer[last..] == answer[last..|answer|];
    parts := parts + answer[last..];
    PendingEnd(answer, whole, parts, scope, citations, invalid);
    r := Resolved(parts, citations, invalid);
    forall other: Scope | Frozen(other) && other.sources == sources ensures r == Resolve(answer, other) {
      FrozenUnique(other, scope);
    }
  }

  lemma NothingSeen()
    ensures Seen([]) == map[]
  {
  }

  // ---------------------------------------------------------------- the persistent form

  lemma FlattenPlains(s: Text, tokens: map<Text, Text>)
    ensures ReplaceAll(Plains(s), tokens) == Plains(s) && Flatten(Plains(s)) == s
  {
    hide Flatten;
    if s == [] {
      FlattenNil();
      assert Plains(s) == [];
    } else {
      FlattenPlains(s[1..], tokens);
      assert Plains(s) == [Plain(s[0])] + Plains(s[1..]);
      FlattenCons(Plain(s[0]), Plains(s[1..]));
    }
  }

  ghost function Left(text: Text, p: nat, tokens: map<Text, Text>): Text
    requires p <= |text|
  {
    Flatten(ReplaceAll(PiecesFrom(text, p), tokens))
  }

  lemma LeftPlain(text: Text, p: nat, q: nat, tokens: map<Text, Text>)
    requires p <= q && NoLabel(text, p, q)
    ensures Left(text, p, tokens) == text[p..q] + Left(text, q, tokens)
  {
    hide PiecesFrom, Flatten, ReplaceAll;
    PlainStretch(text, p, q);
    ReplaceConcat(Plains(text[p..q]), PiecesFrom(text, q), tokens);
    FlattenPlains(text[p..q], tokens);
    FlattenConcat(ReplaceAll(Plains(text[p..q]), tokens), ReplaceAll(PiecesFrom(text, q), tokens));
  }

  lemma LeftLabel(text: Text, p: nat, n: nat, tokens: map<Text, Text>)
    requires p < |text| && n == LabelAt(text, p) > 0 && !InRanges(Code(text), p)
    ensures var token := text[p..p + n];
            Left(text, p, tokens) == (if token in tokens then tokens[token] else token) + Left(text, p + n, tokens)
  {
    hide PiecesFrom, Flatten, ReplaceAll, LabelAt, Code, InRanges;
    PiecesStep(text, p);
    ReplaceCons(Label(text[p..p + n]), PiecesFrom(text, p + n), tokens);
    FlattenCons(Replace(Label(text[p..p + n]), tokens), ReplaceAll(PiecesFrom(text, p + n), tokens));
  }

  lemma LeftNothing(text: Text, tokens: map<Text, Text>)
    ensures Left(text, |text|, tokens) == []
  {
    hide PiecesFrom, Flatten;
    PiecesEnd(text);
    FlattenNil();
    assert ReplaceAll([], tokens) == [] by { assert |ReplaceAll([], tokens)| == 0; }
  }

  ghost predicate Rest(text: Text, whole: Text, out: Text, last: nat, pos: nat, tokens: map<Text, Text>) {
    last <= pos && NoLabel(text, last, pos) && whole == out + Left(text, last, tokens)
  }

  lemma RestSkip(text: Text, whole: Text, out: Text, last: nat, pos: nat, at: nat, n: nat, tokens: map<Text, Text>)
    requires Rest(text, whole, out, last, pos, tokens)
    requires pos <= at < |text| && n == LabelAt(text, at) > 0 && InRanges(Code(text), at)
    requires forall k :: pos <= k < at ==> LabelAt(text, k) == 0
    ensures Rest(text, whole, out, last, at + n, tokens)
  {
    hide LabelAt, Code, InRanges, Left;
    SkipInCode(text, last, pos, at, n);
  }

  lemma RestFlush(text: Text, whole: Text, out: Text, last: nat, pos: nat, at: nat, tokens: map<Text, Text>)
    requires Rest(text, whole, out, last, pos, tokens)
    requires pos <= at <= |text| && forall k :: pos <= k < at ==> LabelAt(text, k) == 0
    ensures last <= at && Rest(text, whole, out + text[last..at], at, at, tokens)
  {
    hide LabelAt, Code, InRanges, Left;
    LeftPlain(text, last, at, tokens);
    Assoc(out, text[last..at], Left(text, at, tokens));
  }

  /** A label goes out as `spoken`, its lasting token or itself. */
  lemma RestLabel(text: Text, whole: Text, out: Text, at: nat, n: nat, tokens: map<Text, Text>, spoken: Text)
    requires at < |text| && Rest(text, whole, out, at, at, tokens)
    requires n == LabelAt(text, at) > 0 && !InRanges(Code(text), at)
    requires spoken == if text[at..at + n] in tokens then tokens[text[at..at + n]] else text[at..at + n]
    ensures Rest(text, whole, out + spoken, at + n, at + n, tokens)
  {
    hide LabelAt, Code, InRanges, Left;
    LeftLabel(text, at, n, tokens);
    Assoc(out, spoken, Left(text, at + n, tokens));
  }

  /** A label that no citation carries stays in the text that is copied later. */
  lemma RestKeep(text: Text, whole: Text, out: Text, last: nat, pos: nat, at: nat, n: nat, tokens: map<Text, Text>)
    requires Rest(text, whole, out, last, pos, tokens)
    requires pos <= at < |text| && n == LabelAt(text, at) > 0 && !InRanges(Code(text), at)
    requires text[at..at + n] !in tokens && forall k :: pos <= k < at ==> LabelAt(text, k) == 0
    ensures last <= at && Rest(text, whole, out + text[last..at + n], at + n, at + n, tokens)
  {
    hide LabelAt, Code, InRanges, Left, Rest;
    RestFlush(text, whole, out, last, pos, at, tokens);
    RestOrder(text, whole, out, last, pos, tokens);
    RestLabel(text, whole, out + text[last..at], at, n, tokens, text[at..at + n]);
    assert text[last..at] + text[at..at + n] == text[last..at + n];
    Assoc(out, text[last..at], text[at..at + n]);
  }

  lemma RestOrder(text: Text, whole: Text, out: Text, last: nat, pos: nat, tokens: map<Text, Text>)
    requires Rest(text, whole, out, last, pos, tokens)
    ensures last <= pos
  {
  }

  lemma RestStart(text: Text, tokens: map<Text, Text>)
    ensures Rest(text, Flatten(ReplaceAll(Pieces(text), tokens)), [], 0, 0, tokens)
  {
    hide PiecesFrom, Flatten, ReplaceAll;
    assert [] + Left(text, 0, tokens) == Left(text, 0, tokens);
  }

  lemma RestEnd(text: Text, whole: Text, out: Text, tokens: map<Text, Text>)
    requires Rest(text, whole, out, |text|, |text|, tokens)
    ensures whole == out
  {
    hide Left;
    LeftNothing(text, tokens);
    assert out + [] == out;
  }

  lemma {:induction false} LastingPush(cs: seq<Citation>, c: Citation)
    ensures LastingTokens(cs + [c]) == LastingTokens(cs)[c.token := Lasting(c)]
    ensures LastingCitations(cs + [c]) ==
            if HasToken(LastingCitations(cs), Lasting(c)) then LastingCitations(cs)
            else LastingCitations(cs) + [c.(token := Lasting(c))]
  {
    hide Lasting;
    assert (cs + [c])[..|cs|] == cs;
  }

  method LastingMap(citations: seq<Citation>) returns (tokens: map<Text, Text>, resolved: seq<Citation>)
    ensures tokens == LastingTokens(citations) && resolved == LastingCitations(citations)
  {
    hide Lasting, LastingTokens, LastingCitations;
    tokens, resolved := map[], [];
    var seen: set<Text> := {};
    assert citations[..0] == [];
    assert LastingTokens([]) == map[] && LastingCitations([]) == [] by { NothingLasting(); }
    for k := 0 to |citations|
      invariant tokens == LastingTokens(citations[..k]) && resolved == LastingCitations(citations[..k])
      invariant forall t :: t in seen <==> HasToken(resolved, t)
    {
      var c := citations[k];
      var token := Lasting(c);
      assert citations[..k + 1] == citations[..k] + [c];
      LastingPush(citations[..k], c);
      tokens := tokens[c.token := token];
      if token !in seen {
        ghost var before := resolved;
        resolved := resolved + [c.(token := token)];
        forall t ensures HasToken(resolved, t) <==> HasToken(before, t) || t == token {
          HasTokenPush(before, c.(token := token), t);
        }
        seen := seen + {token};
      }
    }
    assert citations[..|citations|] == citations;
  }

  lemma HasTokenPush(cs: seq<Citation>, c: Citation, t: Text)
    ensures HasToken(cs + [c], t) <==> HasToken(cs, t) || t == c.token
  {
    if HasToken(cs, t) {
      var d :| d in cs && d.token == t;
      assert d in cs + [c];
    }
    if t == c.token { assert c in cs + [c]; }
  }

  lemma NothingLasting()
    ensures LastingTokens([]) == map[] && LastingCitations([]) == []
  {
  }

  /** One pass over the labels computes the persistent answer; code and every other unit stay. */
  method PersistentResolvedAnswer(text: Text, citations: seq<Citation>) returns (r: Resolved)
    ensures r == PersistentAnswer(text, citations)
  {
    hide LabelAt, Code, InRanges, Rest, Flatten, ReplaceAll, LastingTokens, LastingCitations, PiecesFrom;
    var tokens, resolved := LastingMap(citations);
    var code := CodeOf(text);
    ghost var whole := Flatten(ReplaceAll(Pieces(text), tokens));
    var pos: nat, last: nat, parts: Text := 0, 0, [];
    ghost var kept: nat, done: Text := 0, [];
    RestStart(text, tokens);
    var more := true;
    while more
      invariant pos <= |text| && last <= kept <= pos && done == parts + text[last..kept]
      invariant Rest(text, whole, done, kept, pos, tokens)
      invariant !more ==> forall k :: pos <= k < |text| ==> LabelAt(text, k) == 0
      decreases |text| - pos, more
    {
      var at, n := NextMatch(text, pos);
      if n == 0 { more := false; continue; }
      var inside := InCode(code, at);
      if inside {
        RestSkip(text, whole, done, kept, pos, at, n, tokens);
        pos := at + n;
        continue;
      }
      var token := text[at..at + n];
      if token !in tokens {
        RestKeep(text, whole, done, kept, pos, at, n, tokens);
        JoinSlices(text, last, kept, at + n);
        Assoc(parts, text[last..kept], text[kept..at + n]);
        done := done + text[kept..at + n];
        pos, kept := at + n, at + n;
        continue;
      }
      RestFlush(text, whole, done, kept, pos, at, tokens);
      JoinSlices(text, last, kept, at);
      Assoc(parts, text[last..kept], text[kept..at]);
      RestLabel(text, whole, done + text[kept..at], at, n, tokens, tokens[token]);
      parts := parts + text[last..at] + tokens[token];
      last, pos := at + n, at + n;
      kept, done := last, parts;
      assert parts + text[last..kept] == parts;
    }
    RestFlush(text, whole, done, kept, pos, |text|, tokens);
    JoinSlices(text, last, kept, |text|);
    Assoc(parts, text[last..kept], text[kept..]);
    assert text[last..] == text[last..|text|] && text[kept..] == text[kept..|text|];
    parts := parts + text[last..];
    RestEnd(text, whole, parts, tokens);
    r := Resolved(parts, resolved, 0);
  }

  lemma JoinSlices(text: Text, a: nat, b: nat, c: nat)
    requires a <= b <= c <= |text|
    ensures text[a..b] + text[b..c] == text[a..c]
  {
  }

  /** Containment decided range by range. */
  method InCode(code: seq<Range>, at: nat) returns (inside: bool)
    ensures inside <==> InRanges(code, at)
  {
    for k := 0 to |code|
      invariant forall j :: 0 <= j < k ==> !(code[j].start <= at < code[j].end)
    {
      if code[k].start <= at < code[k].end {
        assert code[k] in code;
        return true;
      }
    }
    inside := false;
  }
}
