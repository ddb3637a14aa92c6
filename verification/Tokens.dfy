/** Which label tokens are accepted, and what an accepted token is made of (src/citations.ts). */
module Tokens {
  import opened Text
  import opened Splice
  import opened Labels
  import opened Atoms

  // ---------------------------------------------------------------- groups and pairs

  function SplitCommas(s: Text): (parts: seq<Text>)
    ensures |parts| > 0
  {
    if s == [] then [[]]
    else
      var rest := SplitCommas(s[1..]);
      if s[0] == COMMA then [[]] + rest else [[s[0]] + rest[0]] + rest[1..]
  }

  function JoinCommas(parts: seq<Text>): Text
    requires |parts| > 0
  {
    if |parts| == 1 then parts[0] else parts[0] + [COMMA] + JoinCommas(parts[1..])
  }

  /** Splitting loses nothing and leaves no comma inside a part. */
  lemma {:induction false} SplitJoins(s: Text)
    ensures JoinCommas(SplitCommas(s)) == s
    ensures forall part :: part in SplitCommas(s) ==> COMMA !in part
  {
    if s != [] {
      var rest := SplitCommas(s[1..]);
      SplitJoins(s[1..]);
      assert s == [s[0]] + s[1..];
      if s[0] == COMMA {
        assert ([[]] + rest)[1..] == rest;
      } else {
        assert ([[s[0]] + rest[0]] + rest[1..])[1..] == rest[1..];
        assert rest[0] in rest;
        if |rest| > 1 {
          assert [s[0]] + rest[0] + [COMMA] + JoinCommas(rest[1..]) == [s[0]] + (rest[0] + [COMMA] + JoinCommas(rest[1..]));
        }
      }
    }
  }

  function Wrap(part: Text): (atom: Text)
    ensures Bracketed(atom)
  {
    [OPEN_BRACKET] + part + [CLOSE_BRACKET]
  }

  function WrapAll(parts: seq<Text>): (atoms: seq<Text>)
    ensures |atoms| == |parts| && forall k :: 0 <= k < |atoms| ==> atoms[k] == Wrap(Trim(parts[k]))
  {
    seq(|parts|, k requires 0 <= k < |parts| => Wrap(Trim(parts[k])))
  }

  /** Length of a compact `S<digits>:<digits>` at `i`, or 0. */
  function Compact(s: Text, i: nat): (n: nat)
    requires i <= |s|
    ensures i + n <= |s|
    ensures forall k :: i <= k < i + n ==> IsDigit(s[k]) || s[k] == UPPER_S || s[k] == COLON
  {
    if i == |s| || s[i] != UPPER_S then 0
    else
      var d := DigitRun(s, i + 1);
      var j := i + 1 + d;
      if d == 0 || j == |s| || s[j] != COLON then 0
      else
        var e := DigitRun(s, j + 1);
        if e == 0 then 0 else j + 1 + e - i
  }

  function SpaceRun(s: Text, i: nat): (n: nat)
    requires i <= |s|
    ensures i + n <= |s| && forall k :: i <= k < i + n ==> IsSpace(s[k])
    decreases |s| - i
  {
    if i < |s| && IsSpace(s[i]) then 1 + SpaceRun(s, i + 1) else 0
  }

  predicate IsDash(u: Unit) { u == DASH || u == 0x2013 || u == 0x2014 }

  /** Two compact labels joined by one dash. */
  function AdjacentPair(s: Text): (r: Option<(Text, Text)>)
    ensures r.Some? ==> forall k :: 0 <= k < |s| ==> IsDigit(s[k]) || s[k] == UPPER_S || s[k] == COLON || IsSpace(s[k]) || IsDash(s[k])
  {
    var n := Compact(s, 0);
    var i := n + SpaceRun(s, n);
    if n == 0 || i == |s| || !IsDash(s[i]) then None
    else
      var j := i + 1 + SpaceRun(s, i + 1);
      var m := Compact(s, j);
      if m > 0 && j + m == |s| then Some((s[..n], s[j..])) else None
  }

  function Inner(token: Text): Text
    requires Bracketed(token)
  {
    token[1..|token| - 1]
  }

  datatype Reading = Reading(atoms: seq<Text>, pair: bool)

  function AtomsOf(token: Text): (r: Reading)
    requires Bracketed(token)
    ensures |r.atoms| > 0 && forall k :: 0 <= k < |r.atoms| ==> Bracketed(r.atoms[k])
    ensures r.pair ==> |r.atoms| == 2
  {
    if COMMA in Inner(token) then Reading(WrapAll(SplitCommas(Inner(token))), false)
    else
      match AdjacentPair(Inner(token))
      case Some(pair) => Reading([Wrap(pair.0), Wrap(pair.1)], true)
      case None => Reading([token], false)
  }

  // ---------------------------------------------------------------- acceptance

  datatype Cited = Cited(at: Parsed, atom: Text)

  predicate AllBracketed(atoms: seq<Text>) { forall k :: 0 <= k < |atoms| ==> Bracketed(atoms[k]) }

  function CitedAtom(atom: Text, maps: ScopeMaps): Option<Cited>
    requires Bracketed(atom)
  {
    var at := ParseToken(atom, maps);
    if at.None? then None else Some(Cited(at.value, atom))
  }

  /** All atoms, when every one of them names a passage. */
  function CiteAll(atoms: seq<Text>, maps: ScopeMaps): (r: Option<seq<Cited>>)
    requires AllBracketed(atoms)
    ensures r.Some? <==> forall k :: 0 <= k < |atoms| ==> ParseToken(atoms[k], maps).Some?
    ensures r.Some? ==> |r.value| == |atoms| && forall k :: 0 <= k < |atoms| ==> CitedAtom(atoms[k], maps) == Some(r.value[k])
  {
    if forall k :: 0 <= k < |atoms| ==> ParseToken(atoms[k], maps).Some?
    then Some(seq(|atoms|, k requires 0 <= k < |atoms| => Cited(ParseToken(atoms[k], maps).value, atoms[k])))
    else None
  }

  predicate Consecutive(cited: seq<Cited>)
    requires |cited| == 2
  {
    cited[0].at.source == cited[1].at.source && cited[1].at.block == cited[0].at.block + 1
  }

  /** What an accepted token cites; nothing for a rejected one. */
  function Accept(token: Text, maps: ScopeMaps): Option<seq<Cited>>
    requires Bracketed(token)
  {
    var reading := AtomsOf(token);
    var cited := CiteAll(reading.atoms, maps);
    if cited.Some? && (reading.pair ==> Consecutive(cited.value)) then cited else None
  }

  method AcceptToken(token: Text, maps: ScopeMaps) returns (accepted: Option<seq<Cited>>)
    requires Bracketed(token)
    ensures accepted == Accept(token, maps)
  {
    hide ParseToken, AtomsOf;
    var reading := AtomsOf(token);
    var resolved: seq<Cited> := [];
    for k := 0 to |reading.atoms|
      invariant |resolved| == k
      invariant forall j :: 0 <= j < k ==> CitedAtom(reading.atoms[j], maps) == Some(resolved[j])
    {
      var at := ParseToken(reading.atoms[k], maps);
      if at.None? {
        return None;
      }
      resolved := resolved + [Cited(at.value, reading.atoms[k])];
    }
    if reading.pair && (resolved[0].at.source != resolved[1].at.source || resolved[1].at.block != resolved[0].at.block + 1) {
      return None;
    }
    assert CiteAll(reading.atoms, maps).Some? && CiteAll(reading.atoms, maps).value == resolved by {
      assert forall j :: 0 <= j < |reading.atoms| ==> CitedAtom(reading.atoms[j], maps) == Some(resolved[j]);
    }
    accepted := Some(resolved);
  }

  // ---------------------------------------------------------------- what accepted tokens are made of

  predicate Safe(u: Unit) { IsHex(u) || u == COLON || u == DASH || u == UPPER_S || u == UPPER_R }

  lemma SpelledUnits(kind: Unit, head: Text, tail: Text)
    requires Digits(tail) && ((kind == UPPER_S && Digits(head)) || (kind == UPPER_R && Uuid(head)))
    ensures forall k :: 1 <= k < |Spell(kind, head, tail)| - 1 ==> Safe(Spell(kind, head, tail)[k])
  {
    forall k | 0 <= k < |head| ensures Safe(head[k]) {
      assert kind == UPPER_S ==> IsDigit(head[k]);
    }
    forall k | 0 <= k < |tail| ensures Safe(tail[k]) {
      assert IsDigit(tail[k]);
    }
  }

  lemma ParsedUnits(token: Text, maps: ScopeMaps)
    requires Bracketed(token) && ParseToken(token, maps).Some?
    ensures |token| > 3 && forall k :: 1 <= k < |token| - 1 ==> Safe(token[k])
  {
    var kind, head, tail := ParsedIsSpelled(token, maps);
    SpelledUnits(kind, head, tail);
  }

  lemma {:induction false} DigitRunUnique(s: Text, i: nat, n: nat)
    requires i + n <= |s| && (forall k :: i <= k < i + n ==> IsDigit(s[k])) && (i + n < |s| ==> !IsDigit(s[i + n]))
    ensures DigitRun(s, i) == n
  {
  }

  lemma CompactSpelled(head: Text, tail: Text)
    requires Digits(head) && Digits(tail)
    ensures var s := [UPPER_S] + head + [COLON] + tail;
            && DigitRun(s, 1) == |head| && s[1 + |head|] == COLON && Compact(s, 0) == |s|
  {
    var s := [UPPER_S] + head + [COLON] + tail;
    forall k | 1 <= k < 1 + |head| ensures IsDigit(s[k]) { assert s[k] == head[k - 1]; }
    DigitRunUnique(s, 1, |head|);
    forall k | 2 + |head| <= k < |s| ensures IsDigit(s[k]) { assert s[k] == tail[k - 2 - |head|]; }
    DigitRunUnique(s, 2 + |head|, |tail|);
  }

  lemma SpelledInner(kind: Unit, head: Text, tail: Text)
    ensures Bracketed(Spell(kind, head, tail)) && Inner(Spell(kind, head, tail)) == [kind] + head + [COLON] + tail
  {
  }

  lemma SpelledBody(kind: Unit, head: Text, tail: Text)
    requires Digits(tail) && ((kind == UPPER_S && Digits(head)) || (kind == UPPER_R && Uuid(head)))
    ensures LabelBody([kind] + head + [COLON] + tail)
    ensures AdjacentPair([kind] + head + [COLON] + tail) == None
  {
    hide Uuid;
    var b := [kind] + head + [COLON] + tail;
    if kind == UPPER_S {
      CompactSpelled(head, tail);
      assert SpaceRun(b, |b|) == 0;
    } else {
      assert b[1 + |head|] == COLON;
    }
  }

  lemma {:induction false} SafeIsInert(token: Text)
    requires Bracketed(token) && forall k :: 1 <= k < |token| - 1 ==> Safe(token[k])
    ensures Inert(token, 0, |token|) && COMMA !in Inner(token)
    ensures BodyEnd(token, 1) == |token| - 1
  {
    forall k | 1 <= k < |token| - 1 ensures !Stops(token[k]) { assert Safe(token[k]); }
    BodyEndUnique(token, 1, |token| - 1);
    forall k | 0 <= k < |Inner(token)| ensures Inner(token)[k] != COMMA { assert Safe(token[k + 1]); }
    forall k | 0 <= k < |token| ensures token[k] != NEWLINE && token[k] != TICK && token[k] != BACKSLASH {
      if 1 <= k < |token| - 1 { assert Safe(token[k]); }
    }
  }

  /** A token that names a passage is one good label and is accepted as itself. */
  lemma ParsedIsGood(token: Text, maps: ScopeMaps)
    requires Bracketed(token) && ParseToken(token, maps).Some?
    ensures GoodToken(token)
    ensures Accept(token, maps) == Some([Cited(ParseToken(token, maps).value, token)])
  {
    hide ParseToken, Safe, Inert, BodyEnd, LabelBody, AdjacentPair, Uuid, Digits;
    ParsedUnits(token, maps);
    SafeIsInert(token);
    var kind, head, tail := ParsedIsSpelled(token, maps);
    SpelledInner(kind, head, tail);
    SpelledBody(kind, head, tail);
    assert AtomsOf(token) == Reading([token], false);
    assert CiteAll([token], maps).value == [Cited(ParseToken(token, maps).value, token)];
  }

  // ---------------------------------------------------------------- units of accepted groups

  lemma {:induction false} SplitUnits(s: Text, u: Unit)
    requires u in s && u != COMMA
    ensures exists part :: part in SplitCommas(s) && u in part
  {
    var rest := SplitCommas(s[1..]);
    assert s == [s[0]] + s[1..];
    if s[0] == u {
      assert u in [s[0]] + rest[0];
      assert [s[0]] + rest[0] in SplitCommas(s);
    } else {
      SplitUnits(s[1..], u);
      var part :| part in rest && u in part;
      if s[0] == COMMA || part != rest[0] {
        var k :| 0 <= k < |rest| && rest[k] == part;
        if s[0] == COMMA { assert SplitCommas(s)[k + 1] == part; } else { assert SplitCommas(s)[k] == part; }
      } else {
        assert u in [s[0]] + rest[0];
        assert [s[0]] + rest[0] in SplitCommas(s);
      }
    }
  }

  lemma TrimUnits(s: Text, u: Unit)
    requires u in s && !IsSpace(u)
    ensures u in Trim(s)
  {
    var k :| 0 <= k < |s| && s[k] == u;
    var a := TrimStart(s);
    assert a[k - (|s| - |a|)] == u;
    var b := TrimEnd(a);
    assert b[k - (|s| - |a|)] == u;
  }

  lemma GroupUnits(token: Text, maps: ScopeMaps, u: Unit)
    requires Bracketed(token) && COMMA in Inner(token) && Accept(token, maps).Some? && u in Inner(token)
    ensures Safe(u) || u == COMMA || IsSpace(u)
  {
    hide ParseToken, Safe, Trim;
    if u != COMMA && !IsSpace(u) {
      var s := Inner(token);
      SplitUnits(s, u);
      var part :| part in SplitCommas(s) && u in part;
      var k :| 0 <= k < |SplitCommas(s)| && SplitCommas(s)[k] == part;
      TrimUnits(part, u);
      var atom := AtomsOf(token).atoms[k];
      assert atom == Wrap(Trim(part)) && ParseToken(atom, maps).Some?;
      ParsedUnits(atom, maps);
      var j :| 0 <= j < |Trim(part)| && Trim(part)[j] == u;
      assert atom[j + 1] == u;
    }
  }

  lemma AcceptedUnits(token: Text, maps: ScopeMaps, u: Unit)
    requires Bracketed(token) && Accept(token, maps).Some? && u in Inner(token)
    ensures Safe(u) || u == COMMA || IsSpace(u) || IsDash(u)
  {
    hide ParseToken;
    if COMMA in Inner(token) {
      GroupUnits(token, maps, u);
    } else if AdjacentPair(Inner(token)).None? {
      assert AtomsOf(token).atoms[0] == token;
      ParsedUnits(token, maps);
      var j :| 0 <= j < |Inner(token)| && Inner(token)[j] == u;
      assert token[j + 1] == u;
    }
  }

  /** An accepted label of a text has no newline, backtick or backslash. */
  lemma AcceptedIsInert(text: Text, p: nat, maps: ScopeMaps)
    requires p < |text| && LabelAt(text, p) > 0
    requires var token := text[p..p + LabelAt(text, p)]; Bracketed(token) && Accept(token, maps).Some?
    ensures var token := text[p..p + LabelAt(text, p)]; Inert(token, 0, |token|)
  {
    hide Accept, LabelAt;
    var token := text[p..p + LabelAt(text, p)];
    forall k | 0 <= k < |token| ensures token[k] != NEWLINE && token[k] != TICK && token[k] != BACKSLASH {
      if 1 <= k < |token| - 1 {
        assert Inner(token)[k - 1] == token[k] == text[p + k];
        assert !Stops(text[p + k]);
        AcceptedUnits(token, maps, token[k]);
      }
    }
  }

  /** Every atom of an accepted token names the passage it is cited for. */
  lemma AcceptedAtoms(token: Text, maps: ScopeMaps)
    requires Bracketed(token) && Accept(token, maps).Some?
    ensures Accept(token, maps).value != []
    ensures forall c :: c in Accept(token, maps).value ==> Bracketed(c.atom) && ParseToken(c.atom, maps) == Some(c.at)
  {
    hide ParseToken, AtomsOf;
    var cited := Accept(token, maps).value;
    forall c | c in cited ensures Bracketed(c.atom) && ParseToken(c.atom, maps) == Some(c.at) {
      var k :| 0 <= k < |cited| && cited[k] == c;
      assert CitedAtom(AtomsOf(token).atoms[k], maps) == Some(c);
    }
  }
}
