/** A rejected label whose removal uncovers a label that the answer did not have (src/citations.ts). */
module Uncovered {
  import opened Text
  import opened CodeRanges
  import opened Labels
  import opened Atoms
  import opened Tokens
  import opened Citations
  import opened Resolver

  predicate NoMarks(text: Text) { forall k :: 0 <= k < |text| ==> text[k] != TICK && text[k] != TILDE }

  lemma NoOpener(line: Text)
    requires NoMarks(line)
    ensures FenceOpener(line) == None
  {
  }

  lemma {:induction false} NoFences(text: Text, pos: nat)
    requires NoMarks(text) && pos <= |text|
    ensures FencesFrom(text, pos, None) == []
    decreases |text| - pos
  {
    hide LineEnd, FencesFrom;
    FencesFromStep(text, pos, None);
    NoOpener(text[pos..LineEnd(text, pos)]);
    if LineEnd(text, pos) < |text| {
      NoFences(text, LineEnd(text, pos) + 1);
    }
  }

  lemma {:induction false} NoSpans(text: Text, i: nat)
    requires NoMarks(text)
    ensures InlineFrom(text, [], i) == []
    decreases |text| + 1 - i
  {
    if i < |text| {
      NoSpans(text, if text[i] == BACKSLASH then i + 2 else i + 1);
    }
  }

  lemma NoCode(text: Text)
    requires NoMarks(text)
    ensures Code(text) == []
  {
    hide FencesFrom, InlineFrom;
    NoFences(text, 0);
    NoSpans(text, 0);
    assert Outers([]) == [];
  }

  const ONE: Unit := 49
  const FIVE: Unit := 53
  const NINE: Unit := 57

  /** `[S1:[S9]5]` */
  function Nested(): Text {
    [OPEN_BRACKET, UPPER_S, ONE, COLON, OPEN_BRACKET, UPPER_S, NINE, CLOSE_BRACKET, FIVE, CLOSE_BRACKET]
  }

  /** `[S1:5]` */
  function Plain5(): Text { [OPEN_BRACKET, UPPER_S, ONE, COLON, FIVE, CLOSE_BRACKET] }

  lemma BareIsRejected(scope: Scope)
    ensures Judge([OPEN_BRACKET, UPPER_S, NINE, CLOSE_BRACKET], scope) == None
  {
    var token: Text := [OPEN_BRACKET, UPPER_S, NINE, CLOSE_BRACKET];
    assert Inner(token) == [UPPER_S, NINE];
    assert COMMA !in Inner(token);
    DigitRunUnique(Inner(token), 1, 1);
    assert Compact(Inner(token), 0) == 0;
    assert AtomsOf(token).atoms[0] == token;
    assert token[2..|token| - 1] == [NINE];
    assert LastColon([NINE]) == -1 by { assert [NINE][..0] == []; }
    assert ParseToken(token, scope.maps).None?;
  }

  lemma NestedLabels()
    ensures LabelAt(Nested(), 4) == 4
    ensures forall k :: 0 <= k < 10 && k != 4 ==> LabelAt(Nested(), k) == 0
  {
    var t := Nested();
    BodyEndUnique(t, 1, 4);
    BodyEndUnique(t, 5, 7);
    assert t[5..7] == [UPPER_S, NINE];
    DigitRunUnique([UPPER_S, NINE], 1, 1);
  }

  lemma NestedPlain()
    ensures Code(Nested()) == []
  {
    assert NoMarks(Nested());
    NoCode(Nested());
  }

  lemma FivePlain()
    ensures Code(Plain5()) == []
  {
    assert NoMarks(Plain5());
    NoCode(Plain5());
  }

  lemma ResolveAhead(t: Text, scope: Scope)
    ensures Resolve(t, scope) == Ahead(t, 0, scope, [])
  {
    SpokenResolve(t, scope);
  }

  lemma NestedLength()
    ensures |Nested()| == 10
  {
  }

  lemma NestedSlices()
    ensures Nested()[4..8] == [OPEN_BRACKET, UPPER_S, NINE, CLOSE_BRACKET]
    ensures Nested()[0..4] + ([] + (Nested()[8..10] + [])) == Plain5()
  {
  }

  lemma NestedResolves(scope: Scope)
    ensures Resolve(Nested(), scope) == Resolved(Plain5(), [], 1)
  {
    hide LabelAt, Code, Ahead, Judge, Flatten, Spoken, Nested, Plain5;
    var t := Nested();
    assert |t| == 10 by { NestedLength(); }
    NestedLabels();
    NestedPlain();
    ResolveAhead(t, scope);
    AheadPlain(t, 0, 4, scope, []);
    NestedSlices();
    BareIsRejected(scope);
    PlaceRejected(t[4..8], scope, []);
    AheadLabel(t, 4, 4, scope, []);
    AheadPlain(t, 8, 10, scope, []);
    AheadNothing(t, scope, []);
  }

  /** S1 names one source, and that source has a block 5. */
  ghost predicate NamesFive(scope: Scope, at: Parsed) { Frozen(scope) && Names(UPPER_S, [ONE], [FIVE], at, scope.sources) }

  lemma FiveIsNamed(scope: Scope, at: Parsed)
    requires NamesFive(scope, at)
    ensures Readable(Cited(at, Plain5()), scope)
  {
    hide ParseToken, Names, MapsFor;
    assert Plain5() == Spell(UPPER_S, [ONE], [FIVE]);
    SpelledIsParsed(UPPER_S, [ONE], [FIVE], at, scope.maps, scope.sources);
    assert at.source < |scope.sources| by { NamedSource(scope, at); }
  }

  lemma NamedSource(scope: Scope, at: Parsed)
    requires NamesFive(scope, at)
    ensures at.source < |scope.sources|
  {
  }

  lemma FiveResolves(scope: Scope, at: Parsed)
    requires NamesFive(scope, at)
    ensures at.source < |scope.sources| && Resolve(Plain5(), scope).citations == [Cite(Cited(at, Plain5()), scope.sources[at.source])]
  {
    hide LabelAt, Code, Ahead, Judge, Flatten, Spoken, NamesFive, Place, GoodToken, Cite, ParseToken;
    var t := Plain5();
    var c := Cited(at, t);
    FiveIsNamed(scope, at);
    JudgeAtom(c, scope);
    assert LabelAt(t, 0) == 6 by { GoodLength(t); }
    FivePlain();
    ResolveAhead(t, scope);
    assert t[0..6] == t;
    AheadLabel(t, 0, 6, scope, []);
    PlaceAtom(c, scope, []);
    assert Seen([]) == map[] by { NothingSeen(); }
    assert [] + [Cite(c, scope.sources[at.source])] == [Cite(c, scope.sources[at.source])];
    AheadNothing(t, scope, Emit(c, scope, []).1);
  }

  lemma GoodLength(t: Text)
    requires GoodToken(t)
    ensures LabelAt(t, 0) == |t|
  {
  }

  /** Whenever S1 names one source with a block 5, resolving twice cites that block, which resolving once does not. */
  lemma RemovalUncoversALabel(scope: Scope, at: Parsed)
    requires NamesFive(scope, at)
    ensures Resolve(Nested(), scope).citations == []
    ensures at.source < |scope.sources|
            && Resolve(Resolve(Nested(), scope).text, scope).citations == [Cite(Cited(at, Plain5()), scope.sources[at.source])]
  {
    hide Resolve, NamesFive;
    NestedResolves(scope);
    FiveResolves(scope, at);
  }
}
