/** Evidence records: their reserved length, their JSON reading and their only bracketed token (src/context.ts). */
module Evidence {
  import opened Text
  import opened Json

  // ---------------------------------------------------------------- reading a literal

  function HexValue(u: Unit): Option<nat> {
    if 48 <= u <= 57 then Some(u - 48)
    else if 97 <= u <= 102 then Some(u - 87)
    else if 65 <= u <= 70 then Some(u - 55)
    else None
  }

  function ReadHex(s: Text): Option<Unit>
    requires |s| == 4
  {
    var a, b, c, d := HexValue(s[0]), HexValue(s[1]), HexValue(s[2]), HexValue(s[3]);
    if a.None? || b.None? || c.None? || d.None? || a.value >= 16 || b.value >= 16 || c.value >= 16 || d.value >= 16 then None
    else Some(a.value * 0x1000 + b.value * 0x100 + c.value * 0x10 + d.value)
  }

  function ReadShort(u: Unit): Option<Unit> {
    if u == QUOTE || u == BACKSLASH || u == 47 then Some(u)
    else if u == 98 then Some(8)
    else if u == 102 then Some(12)
    else if u == 110 then Some(10)
    else if u == 114 then Some(13)
    else if u == 116 then Some(9)
    else None
  }

  /** The first unit that a literal's body denotes and how many units write it. */
  function ReadUnit(s: Text): Option<(Unit, nat)>
    requires s != []
  {
    if s[0] == QUOTE || s[0] < 32 then None
    else if s[0] != BACKSLASH then Some((s[0], 1))
    else if |s| >= 2 && ReadShort(s[1]).Some? then Some((ReadShort(s[1]).value, 2))
    else if |s| >= 6 && s[1] == 117 && ReadHex(s[2..6]).Some? then Some((ReadHex(s[2..6]).value, 6))
    else None
  }

  /** The string that the body of a literal denotes (section 7 of RFC 8259). */
  function Read(s: Text): Option<Text>
    decreases |s|
  {
    if s == [] then Some([])
    else
      var first := ReadUnit(s);
      if first.None? || first.value.1 == 0 || first.value.1 > |s| then None
      else
        var rest := Read(s[first.value.1..]);
        if rest.None? then None else Some([first.value.0] + rest.value)
  }

  function ReadLiteral(s: Text): Option<Text> {
    if |s| >= 2 && s[0] == QUOTE && s[|s| - 1] == QUOTE then Read(s[1..|s| - 1]) else None
  }

  lemma {:induction false} ReadStep(e: Text, u: Unit, rest: Text)
    requires e != [] && ReadUnit(e + rest) == Some((u, |e|)) && Read(rest).Some?
    ensures Read(e + rest) == Some([u] + Read(rest).value)
  {
    assert (e + rest)[|e|..] == rest;
  }

  lemma Sum16(u: Unit)
    ensures u / 0x1000 < 16
    ensures u / 0x1000 * 0x1000 + u / 0x100 % 16 * 0x100 + u / 0x10 % 16 * 0x10 + u % 16 == u
  {
    assert u / 0x100 == u / 0x1000 * 16 + u / 0x100 % 16;
    assert u / 0x10 == u / 0x100 * 16 + u / 0x10 % 16;
  }

  lemma HexReads(u: Unit)
    ensures ReadHex([Hex(u / 0x1000), Hex(u / 0x100 % 16), Hex(u / 0x10 % 16), Hex(u % 16)]) == Some(u)
  {
    hide Hex, HexValue;
    Sum16(u);
    HexDigit(u / 0x1000);
    HexDigit(u / 0x100 % 16);
    HexDigit(u / 0x10 % 16);
    HexDigit(u % 16);
  }

  lemma HexDigit(n: nat)
    requires n < 16
    ensures HexValue(Hex(n)) == Some(n) && Hex(n) != OPEN_BRACKET && Hex(n) != CLOSE_BRACKET
  {
  }

  lemma HexEscapeReads(u: Unit, rest: Text)
    ensures ReadUnit(HexEscape(u) + rest) == Some((u, 6))
  {
    hide Hex, ReadHex;
    HexReads(u);
    var s := HexEscape(u) + rest;
    assert s[2..6] == [Hex(u / 0x1000), Hex(u / 0x100 % 16), Hex(u / 0x10 % 16), Hex(u % 16)];
  }

  lemma EscapeUnitReads(u: Unit, rest: Text)
    ensures ReadUnit(EscapeUnit(u) + rest) == Some((u, |EscapeUnit(u)|))
  {
    hide HexEscape;
    if !(u == QUOTE || u == BACKSLASH || u == 8 || u == 9 || u == 10 || u == 12 || u == 13) && (u < 32 || IsHigh(u) || IsLow(u)) {
      HexEscapeReads(u, rest);
      assert |HexEscape(u)| == 6 by { HexLength(u); }
    }
  }

  lemma HexLength(u: Unit)
    ensures |HexEscape(u)| == 6
  {
  }

  // ---------------------------------------------------------------- brackets

  function EvidenceUnit(u: Unit): Text {
    if u == OPEN_BRACKET || u == CLOSE_BRACKET then HexEscape(u) else EscapeUnit(u)
  }

  /** The body of the literal with its brackets escaped. */
  function EvidenceBody(t: Text): Text {
    if t == [] then []
    else if PairFirst(t) then [t[0], t[1]] + EvidenceBody(t[2..])
    else EvidenceUnit(t[0]) + EvidenceBody(t[1..])
  }

  /** Replacing every bracket of a serialized text. */
  function ReplaceBrackets(s: Text): Text {
    if s == [] then []
    else (if s[0] == OPEN_BRACKET || s[0] == CLOSE_BRACKET then HexEscape(s[0]) else [s[0]]) + ReplaceBrackets(s[1..])
  }

  lemma {:induction false} ReplaceConcat(a: Text, b: Text)
    ensures ReplaceBrackets(a + b) == ReplaceBrackets(a) + ReplaceBrackets(b)
  {
    hide HexEscape;
    if a == [] {
      assert a + b == b;
    } else {
      assert (a + b)[1..] == a[1..] + b;
      ReplaceConcat(a[1..], b);
    }
  }

  lemma {:induction false} ReplaceNone(a: Text)
    requires forall k :: 0 <= k < |a| ==> a[k] != OPEN_BRACKET && a[k] != CLOSE_BRACKET
    ensures ReplaceBrackets(a) == a
  {
    if a != [] {
      ReplaceNone(a[1..]);
      assert a == [a[0]] + a[1..];
    }
  }

  lemma HexEscapeUnits(u: Unit)
    ensures forall k :: 0 <= k < |HexEscape(u)| ==> HexEscape(u)[k] != OPEN_BRACKET && HexEscape(u)[k] != CLOSE_BRACKET
  {
    hide Hex;
    HexDigit(u / 0x1000);
    HexDigit(u / 0x100 % 16);
    HexDigit(u / 0x10 % 16);
    HexDigit(u % 16);
  }

  lemma EscapeUnitBrackets(u: Unit)
    requires u != OPEN_BRACKET && u != CLOSE_BRACKET
    ensures forall k :: 0 <= k < |EscapeUnit(u)| ==> EscapeUnit(u)[k] != OPEN_BRACKET && EscapeUnit(u)[k] != CLOSE_BRACKET
  {
    hide HexEscape;
    HexEscapeUnits(u);
  }

  lemma EvidenceUnitIs(u: Unit)
    ensures ReplaceBrackets(EscapeUnit(u)) == EvidenceUnit(u)
    ensures forall k :: 0 <= k < |EvidenceUnit(u)| ==> EvidenceUnit(u)[k] != OPEN_BRACKET && EvidenceUnit(u)[k] != CLOSE_BRACKET
  {
    hide HexEscape;
    HexEscapeUnits(u);
    if u == OPEN_BRACKET || u == CLOSE_BRACKET {
      assert EscapeUnit(u) == [u] && [u][1..] == [];
      assert ReplaceBrackets([]) == [];
      assert ReplaceBrackets([u]) == HexEscape(u) + [];
    } else {
      EscapeUnitBrackets(u);
      ReplaceNone(EscapeUnit(u));
    }
  }

  /** Serializing and then replacing the brackets writes each unit as the record does. */
  lemma {:induction false} BodyIsReplaced(t: Text)
    ensures ReplaceBrackets(Escape(t)) == EvidenceBody(t)
    ensures forall k :: 0 <= k < |EvidenceBody(t)| ==> EvidenceBody(t)[k] != OPEN_BRACKET && EvidenceBody(t)[k] != CLOSE_BRACKET
    decreases |t|
  {
    hide EscapeUnit, EvidenceUnit, HexEscape;
    if t == [] {
      assert ReplaceBrackets([]) == [];
    } else if PairFirst(t) {
      BodyIsReplaced(t[2..]);
      ReplaceConcat([t[0], t[1]], Escape(t[2..]));
      ReplaceNone([t[0], t[1]]);
    } else {
      BodyIsReplaced(t[1..]);
      ReplaceConcat(EscapeUnit(t[0]), Escape(t[1..]));
      EvidenceUnitIs(t[0]);
    }
  }

  lemma EvidenceUnitReads(u: Unit, rest: Text)
    ensures ReadUnit(EvidenceUnit(u) + rest) == Some((u, |EvidenceUnit(u)|)) && EvidenceUnit(u) != []
  {
    hide HexEscape, EscapeUnit;
    HexEscapeReads(u, rest);
    HexLength(u);
    EscapeUnitReads(u, rest);
    assert EscapeUnit(u) != [] by { EscapeUnitCost(u); }
  }

  lemma {:induction false} BodyReads(t: Text)
    ensures Read(EvidenceBody(t)) == Some(t)
    decreases |t|
  {
    hide EvidenceUnit, Read, ReadUnit;
    if t == [] {
      assert Read([]) == Some([]) by { ReadNothing(); }
    } else if PairFirst(t) {
      BodyReads(t[2..]);
      var rest := EvidenceBody(t[2..]);
      PlainReads(t[1], rest);
      ReadStep([t[1]], t[1], rest);
      PlainReads(t[0], [t[1]] + rest);
      ReadStep([t[0]], t[0], [t[1]] + rest);
      assert [t[0], t[1]] + rest == [t[0]] + ([t[1]] + rest);
      assert t == [t[0]] + ([t[1]] + t[2..]);
    } else {
      BodyReads(t[1..]);
      EvidenceUnitReads(t[0], EvidenceBody(t[1..]));
      ReadStep(EvidenceUnit(t[0]), t[0], EvidenceBody(t[1..]));
      assert t == [t[0]] + t[1..];
    }
  }

  lemma ReadNothing()
    ensures Read([]) == Some([])
  {
  }

  lemma PlainReads(u: Unit, rest: Text)
    requires IsHigh(u) || IsLow(u)
    ensures ReadUnit([u] + rest) == Some((u, 1))
  {
  }

  // ---------------------------------------------------------------- the reserved length

  function UnitExtra(u: Unit): nat {
    if u == OPEN_BRACKET || u == CLOSE_BRACKET then 5
    else if u == QUOTE || u == BACKSLASH then 1
    else if u < 32 then if u == 8 || u == 9 || u == 10 || u == 12 || u == 13 then 1 else 5
    else if IsHigh(u) || IsLow(u) then 5 else 0
  }

  function Extra(t: Text): nat {
    if t == [] then 0
    else if PairFirst(t) then Extra(t[2..])
    else UnitExtra(t[0]) + Extra(t[1..])
  }

  lemma {:induction false} BodyLength(t: Text)
    ensures |EvidenceBody(t)| == |t| + Extra(t)
    decreases |t|
  {
    if t != [] {
      if PairFirst(t) { BodyLength(t[2..]); } else { BodyLength(t[1..]); }
    }
  }

  /** The length of the encoded text, counted code point by code point before anything is serialized. */
  method EvidenceJsonLength(text: Text) returns (length: nat)
    ensures length == |[QUOTE] + EvidenceBody(text) + [QUOTE]|
  {
    hide EvidenceBody;
    length := |text| + 2;
    var i := 0;
    while i < |text|
      invariant i <= |text| && length + Extra(text[i..]) == |text| + 2 + Extra(text)
    {
      var rest := text[i..];
      assert rest[0] == text[i] && rest[1..] == text[i + 1..];
      if PairFirst(rest) {
        assert rest[2..] == text[i + 2..];
        i := i + 2;
      } else {
        var code := text[i];
        if code == OPEN_BRACKET || code == CLOSE_BRACKET { length := length + 5; }
        else if code == QUOTE || code == BACKSLASH { length := length + 1; }
        else if code < 32 { length := length + if code == 8 || code == 9 || code == 10 || code == 12 || code == 13 then 1 else 5; }
        else if IsHigh(code) || IsLow(code) { length := length + 5; }
        i := i + 1;
      }
    }
    assert text[i..] == [];
    BodyLength(text);
  }

  // ---------------------------------------------------------------- the record

  /** `{"label":"` */
  function Opening(): Text { [123, QUOTE, 108, 97, 98, 101, 108, QUOTE, COLON, QUOTE] }

  /** `","text":"` */
  function Between(): Text { [QUOTE, COMMA, QUOTE, 116, 101, 120, 116, QUOTE, COLON, QUOTE] }

  function Record(label_: Text, text: Text): Text { Opening() + Escape(label_) + Between() + EvidenceBody(text) + [QUOTE, 125] }

  predicate PlainLabel(name: Text) { |name| >= 2 && name[0] == OPEN_BRACKET && name[|name| - 1] == CLOSE_BRACKET && forall k :: 1 <= k < |name| - 1 ==> IsDigit(name[k]) || name[k] == UPPER_S || name[k] == COLON }

  lemma {:induction false} PlainEscape(t: Text)
    requires forall k :: 0 <= k < |t| ==> 32 <= t[k] < 0x80 && t[k] != QUOTE && t[k] != BACKSLASH
    ensures Escape(t) == t
  {
    if t != [] {
      PlainEscape(t[1..]);
      assert EscapeUnit(t[0]) == [t[0]];
      assert t == [t[0]] + t[1..];
    }
  }

  // ---------------------------------------------------------------- reading the whole record

  /** The string up to the closing quote, and what follows it. */
  function TakeBody(s: Text): Option<(Text, Text)>
    decreases |s|
  {
    if s == [] then None
    else if s[0] == QUOTE then Some(([], s[1..]))
    else
      var first := ReadUnit(s);
      if first.None? || first.value.1 == 0 || first.value.1 > |s| then None
      else
        var rest := TakeBody(s[first.value.1..]);
        if rest.None? then None else Some(([first.value.0] + rest.value.0, rest.value.1))
  }

  function TakeLiteral(s: Text): Option<(Text, Text)> { if s != [] && s[0] == QUOTE then TakeBody(s[1..]) else None }

  /** One member of an object: its name, its string and what follows. */
  function TakeMember(s: Text): Option<(Text, Text, Text)> {
    var name := TakeLiteral(s);
    if name.None? || name.value.1 == [] || name.value.1[0] != COLON then None
    else
      var value := TakeLiteral(name.value.1[1..]);
      if value.None? then None else Some((name.value.0, value.value.0, value.value.1))
  }

  /** The members of a JSON object with two string members (section 4 of RFC 8259). */
  function ReadObject(s: Text): Option<((Text, Text), (Text, Text))> {
    if s == [] || s[0] != 123 then None
    else
      var first := TakeMember(s[1..]);
      if first.None? || first.value.2 == [] || first.value.2[0] != COMMA then None
      else
        var second := TakeMember(first.value.2[1..]);
        if second.None? || second.value.2 != [125] then None
        else Some(((first.value.0, first.value.1), (second.value.0, second.value.1)))
  }

  function LabelName(): Text { [108, 97, 98, 101, 108] }

  function TextName(): Text { [116, 101, 120, 116] }

  lemma {:induction false} TakeStep(e: Text, u: Unit, rest: Text)
    requires e != [] && ReadUnit(e + rest) == Some((u, |e|)) && TakeBody(rest).Some?
    ensures TakeBody(e + rest) == Some(([u] + TakeBody(rest).value.0, TakeBody(rest).value.1))
  {
    assert (e + rest)[|e|..] == rest;
  }

  lemma {:induction false} TakeEnd(rest: Text)
    ensures TakeBody([QUOTE] + rest) == Some(([], rest))
  {
    assert ([QUOTE] + rest)[1..] == rest;
  }

  lemma {:induction false} TakeEvidence(t: Text, rest: Text)
    ensures TakeBody(EvidenceBody(t) + ([QUOTE] + rest)) == Some((t, rest))
    decreases |t|
  {
    hide EvidenceUnit, ReadUnit, TakeBody;
    var tail := [QUOTE] + rest;
    if t == [] {
      TakeEnd(rest);
      assert [] + tail == tail;
    } else if PairFirst(t) {
      TakeEvidence(t[2..], rest);
      TakePair(t[0], t[1], EvidenceBody(t[2..]) + tail, t[2..], rest);
      Assoc([t[0], t[1]], EvidenceBody(t[2..]), tail);
      assert t == [t[0], t[1]] + t[2..];
    } else {
      TakeEvidence(t[1..], rest);
      EvidenceUnitReads(t[0], EvidenceBody(t[1..]) + tail);
      TakeStep(EvidenceUnit(t[0]), t[0], EvidenceBody(t[1..]) + tail);
      Assoc(EvidenceUnit(t[0]), EvidenceBody(t[1..]), tail);
      assert t == [t[0]] + t[1..];
    }
  }

  lemma {:induction false} Assoc(a: Text, b: Text, c: Text)
    ensures a + b + c == a + (b + c)
  {
  }

  lemma {:induction false} TakePair(high: Unit, low: Unit, after: Text, t: Text, rest: Text)
    requires IsHigh(high) && IsLow(low) && TakeBody(after) == Some((t, rest))
    ensures TakeBody([high, low] + after) == Some(([high, low] + t, rest))
  {
    hide ReadUnit, TakeBody;
    PlainReads(low, after);
    TakeStep([low], low, after);
    PlainReads(high, [low] + after);
    TakeStep([high], high, [low] + after);
    assert [high, low] + after == [high] + ([low] + after) && [high, low] + t == [high] + ([low] + t);
  }

  predicate IsPlain(t: Text) { forall k :: 0 <= k < |t| ==> 32 <= t[k] < 0x80 && t[k] != QUOTE && t[k] != BACKSLASH }

  lemma {:induction false} TakePlain(t: Text, rest: Text)
    requires IsPlain(t)
    ensures TakeLiteral([QUOTE] + (t + ([QUOTE] + rest))) == Some((t, rest))
  {
    hide TakeBody;
    PlainBody(t, rest);
    assert ([QUOTE] + (t + ([QUOTE] + rest)))[1..] == t + ([QUOTE] + rest);
  }

  lemma {:induction false} PlainBody(t: Text, rest: Text)
    requires IsPlain(t)
    ensures TakeBody(t + ([QUOTE] + rest)) == Some((t, rest))
  {
    hide TakeBody;
    var tail := [QUOTE] + rest;
    if t == [] {
      TakeEnd(rest);
      assert [] + tail == tail;
    } else {
      PlainBody(t[1..], rest);
      assert t + tail == [t[0]] + (t[1..] + tail);
      TakeStep([t[0]], t[0], t[1..] + tail);
      assert t == [t[0]] + t[1..];
    }
  }

  lemma {:induction false} TakeNamed(name: Text, value: Text, rest: Text, s: Text)
    requires IsPlain(name) && s != [] && s[0] == QUOTE && TakeLiteral(s) == Some((value, rest))
    ensures TakeMember([QUOTE] + (name + ([QUOTE] + ([COLON] + s)))) == Some((name, value, rest))
  {
    hide TakeLiteral, IsPlain;
    TakePlain(name, [COLON] + s);
    assert ([COLON] + s)[1..] == s;
  }

  /** The record is a JSON object whose label and text read as what was written. */
  lemma {:induction false} RecordReads(name: Text, text: Text)
    requires PlainLabel(name)
    ensures ReadObject(Record(name, text)) == Some(((LabelName(), name), (TextName(), text)))
  {
    hide TakeMember, TakeLiteral, EvidenceBody, Escape, IsPlain;
    LabelEscape(name);
    NamesArePlain(name);
    var last := [QUOTE] + (EvidenceBody(text) + ([QUOTE] + [125]));
    assert TakeLiteral(last) == Some((text, [125])) by { LastReads(text); }
    var second := [QUOTE] + (TextName() + ([QUOTE] + ([COLON] + last)));
    TakeNamed(TextName(), text, [125], last);
    var value := [QUOTE] + (name + ([QUOTE] + ([COMMA] + second)));
    TakePlain(name, [COMMA] + second);
    TakeNamed(LabelName(), name, [COMMA] + second, value);
    var first := [QUOTE] + (LabelName() + ([QUOTE] + ([COLON] + value)));
    assert ([COMMA] + second)[1..] == second;
    RecordSplits(name, EvidenceBody(text), last, second, value, first);
    assert ([123] + first)[1..] == first;
  }

  lemma {:induction false} NamesArePlain(name: Text)
    requires PlainLabel(name)
    ensures IsPlain(name) && IsPlain(LabelName()) && IsPlain(TextName())
  {
  }

  lemma {:induction false} LastReads(text: Text)
    ensures TakeLiteral([QUOTE] + (EvidenceBody(text) + ([QUOTE] + [125]))) == Some((text, [125]))
  {
    hide TakeBody, EvidenceBody;
    TakeEvidence(text, [125]);
    assert ([QUOTE] + (EvidenceBody(text) + ([QUOTE] + [125])))[1..] == EvidenceBody(text) + ([QUOTE] + [125]);
  }

  lemma {:induction false} RecordSplits(name: Text, body: Text, last: Text, second: Text, value: Text, first: Text)
    requires last == [QUOTE] + (body + ([QUOTE] + [125])) && second == [QUOTE] + (TextName() + ([QUOTE] + ([COLON] + last)))
    requires value == [QUOTE] + (name + ([QUOTE] + ([COMMA] + second))) && first == [QUOTE] + (LabelName() + ([QUOTE] + ([COLON] + value)))
    ensures Opening() + name + Between() + body + [QUOTE, 125] == [123] + first
  {
    var tail := body + [QUOTE, 125];
    SecondIs(body, last, second);
    FirstIs(name, second, tail, value, first);
    assert Opening() + name + Between() + tail == Opening() + name + Between() + body + [QUOTE, 125];
  }

  lemma {:induction false} SecondIs(body: Text, last: Text, second: Text)
    requires last == [QUOTE] + (body + ([QUOTE] + [125])) && second == [QUOTE] + (TextName() + ([QUOTE] + ([COLON] + last)))
    ensures [QUOTE, COMMA] + second == Between() + (body + [QUOTE, 125])
  {
    assert [QUOTE] + [125] == [QUOTE, 125];
  }

  lemma {:induction false} FirstIs(name: Text, second: Text, tail: Text, value: Text, first: Text)
    requires [QUOTE, COMMA] + second == Between() + tail
    requires value == [QUOTE] + (name + ([QUOTE] + ([COMMA] + second))) && first == [QUOTE] + (LabelName() + ([QUOTE] + ([COLON] + value)))
    ensures [123] + first == Opening() + name + Between() + tail
  {
    hide Between;
    assert [QUOTE] + ([COMMA] + second) == [QUOTE, COMMA] + second;
    assert value == [QUOTE] + (name + (Between() + tail));
  }

  /**
   * A record is as long as was reserved for it, it is a JSON object whose label and text read as the originals for
   * every string, and its only brackets are the two of its own label.
   */
  lemma {:induction false} RecordIsExact(name: Text, text: Text)
    requires PlainLabel(name)
    ensures |Record(name, text)| == |name| + 19 + (|text| + 2 + Extra(text)) + 1
    ensures ReadObject(Record(name, text)) == Some(((LabelName(), name), (TextName(), text)))
    ensures var at := |Opening()| + |name| + |Between()|;
            ReadLiteral(Record(name, text)[at - 1..|Record(name, text)| - 1]) == Some(text)
    ensures forall k :: 0 <= k < |Record(name, text)| && (Record(name, text)[k] == OPEN_BRACKET || Record(name, text)[k] == CLOSE_BRACKET)
                        ==> k == |Opening()| || k == |Opening()| + |name| - 1
  {
    hide EvidenceBody, Extra, Escape, ReadLiteral, ReadObject;
    RecordReads(name, text);
    assert Escape(name) == name by { LabelEscape(name); }
    BodyLength(text);
    BodyIsReplaced(text);
    TextReads(name, text);
    RecordBrackets(name, text);
  }

  lemma {:induction false} LabelEscape(name: Text)
    requires PlainLabel(name)
    ensures Escape(name) == name
  {
    PlainEscape(name);
  }

  lemma {:induction false} TextReads(name: Text, text: Text)
    requires Escape(name) == name
    ensures var at := |Opening()| + |name| + |Between()|;
            ReadLiteral(Record(name, text)[at - 1..|Record(name, text)| - 1]) == Some(text)
  {
    hide EvidenceBody, Read, Escape;
    BodyReads(text);
    var r := Record(name, text);
    var at := |Opening()| + |name| + |Between()|;
    var tail := r[at - 1..|r| - 1];
    assert tail == [QUOTE] + EvidenceBody(text) + [QUOTE];
    assert tail[1..|tail| - 1] == EvidenceBody(text);
  }

  lemma {:induction false} RecordBrackets(name: Text, text: Text)
    requires PlainLabel(name) && Escape(name) == name
    requires forall k :: 0 <= k < |EvidenceBody(text)| ==> EvidenceBody(text)[k] != OPEN_BRACKET && EvidenceBody(text)[k] != CLOSE_BRACKET
    ensures forall k :: 0 <= k < |Record(name, text)| && (Record(name, text)[k] == OPEN_BRACKET || Record(name, text)[k] == CLOSE_BRACKET)
                        ==> k == |Opening()| || k == |Opening()| + |name| - 1
  {
    hide EvidenceBody, Escape;
    var head := Opening() + name + Between();
    assert Record(name, text) == head + EvidenceBody(text) + [QUOTE, 125];
    forall k | 0 <= k < |head| && (head[k] == OPEN_BRACKET || head[k] == CLOSE_BRACKET) ensures k == |Opening()| || k == |Opening()| + |name| - 1 {
      if |Opening()| <= k < |Opening()| + |name| { assert head[k] == name[k - |Opening()|]; }
    }
  }
}
