/** What a request to the model says: its instructions, its turns and its notices (src/model-input.ts, src/context.ts). */
module RequestLaws {
  import opened Text
  import opened Json
  import opened ModelInput
  import opened Budget
  import opened History

  // ---------------------------------------------------------------- turns

  /** Texts in their order with a blank line between them. */
  ghost predicate BlankLines(parts: seq<Text>, whole: Text) {
    parts != [] && if |parts| == 1 then whole == parts[0] else exists rest :: BlankLines(parts[1..], rest) && whole == parts[0] + [10, 10] + rest
  }

  /** The turns from place `a` to place `b`, said by one message. */
  ghost predicate OneTurn(spoken: seq<Message>, a: nat, b: nat, m: Message) {
    && a < b <= |spoken| && (forall k :: a <= k < b ==> spoken[k].role == m.role) && (b - a > 1 ==> m.role == User)
    && BlankLines(Contents(spoken[a..b]), m.content)
  }

  function Contents(ms: seq<Message>): (ts: seq<Text>)
    ensures |ts| == |ms| && forall k :: 0 <= k < |ms| ==> ts[k] == ms[k].content
  {
    seq(|ms|, k requires 0 <= k < |ms| => ms[k].content)
  }

  /** Message `j` says the turns from `cuts[j]` to `cuts[j + 1]`. */
  ghost predicate Turns(spoken: seq<Message>, joined: seq<Message>, cuts: seq<nat>) {
    && |cuts| == |joined| + 1 && cuts[0] == 0 && cuts[|joined|] == |spoken|
    && forall j :: 0 <= j < |joined| ==> OneTurn(spoken, cuts[j], cuts[j + 1], joined[j])
  }

  /** No two user messages follow each other. */
  predicate Alternates(ms: seq<Message>) { forall j :: 0 < j < |ms| ==> ms[j - 1].role != User || ms[j].role != User }

  lemma {:induction false} OneMoreLine(parts: seq<Text>, whole: Text, t: Text)
    requires BlankLines(parts, whole)
    ensures BlankLines(parts + [t], whole + [10, 10] + t)
    decreases |parts|
  {
    var all := parts + [t];
    if |parts| == 1 {
      assert all[1..] == [t];
      assert BlankLines([t], t);
      assert whole + [10, 10] + t == all[0] + [10, 10] + t;
    } else {
      var rest :| BlankLines(parts[1..], rest) && whole == parts[0] + [10, 10] + rest;
      OneMoreLine(parts[1..], rest, t);
      assert all[1..] == parts[1..] + [t];
      assert whole + [10, 10] + t == all[0] + [10, 10] + (rest + [10, 10] + t);
    }
  }

  lemma {:induction false} KeepTurn(spoken: seq<Message>, m: Message, a: nat, b: nat, x: Message)
    requires OneTurn(spoken, a, b, x)
    ensures OneTurn(spoken + [m], a, b, x)
  {
    hide BlankLines;
    assert (spoken + [m])[a..b] == spoken[a..b];
  }

  lemma {:induction false} GrowTurn(spoken: seq<Message>, m: Message, a: nat, x: Message)
    requires OneTurn(spoken, a, |spoken|, x) && x.role == User && m.role == User
    ensures OneTurn(spoken + [m], a, |spoken| + 1, x.(content := x.content + [10, 10] + m.content))
  {
    hide BlankLines;
    assert spoken[a..|spoken|] == spoken[a..];
    OneMoreLine(Contents(spoken[a..]), x.content, m.content);
    assert Contents((spoken + [m])[a..|spoken| + 1]) == Contents(spoken[a..]) + [m.content];
  }

  lemma {:induction false} NewTurnIs(spoken: seq<Message>, m: Message)
    ensures OneTurn(spoken + [m], |spoken|, |spoken| + 1, m)
  {
    assert (spoken + [m])[|spoken|..|spoken| + 1] == [m];
    assert Contents([m]) == [m.content];
  }

  lemma {:induction false} PushTurn(spoken: seq<Message>, m: Message, done: seq<Message>, cuts: seq<nat>)
    requires Turns(spoken, done, cuts)
    ensures Turns(spoken + [m], done + [m], cuts + [|spoken| + 1])
  {
    hide OneTurn;
    var all, ends := done + [m], cuts + [|spoken| + 1];
    forall j | 0 <= j < |all| ensures OneTurn(spoken + [m], ends[j], ends[j + 1], all[j]) {
      if j < |done| { KeepTurn(spoken, m, cuts[j], cuts[j + 1], done[j]); } else { NewTurnIs(spoken, m); }
    }
  }

  lemma {:induction false} ExtendTurn(spoken: seq<Message>, m: Message, done: seq<Message>, cuts: seq<nat>)
    requires Turns(spoken, done, cuts) && done != [] && done[|done| - 1].role == User && m.role == User
    ensures var n, x := |done| - 1, done[|done| - 1];
            Turns(spoken + [m], done[..n] + [x.(content := x.content + [10, 10] + m.content)], cuts[..n + 1] + [|spoken| + 1])
  {
    hide OneTurn;
    var n, x := |done| - 1, done[|done| - 1];
    var all, ends := done[..n] + [x.(content := x.content + [10, 10] + m.content)], cuts[..n + 1] + [|spoken| + 1];
    forall j | 0 <= j < |all| ensures OneTurn(spoken + [m], ends[j], ends[j + 1], all[j]) {
      if j < n { KeepTurn(spoken, m, cuts[j], cuts[j + 1], done[j]); } else { GrowTurn(spoken, m, cuts[n], x); }
    }
  }

  lemma {:induction false} OntoAlternates(done: seq<Message>, m: Message)
    requires Alternates(done)
    ensures Alternates(JoinOnto(done, m))
  {
  }

  /** Joining merges exactly the runs of user messages, in order, with a blank line between their texts. */
  lemma {:induction false} JoinedTurns(spoken: seq<Message>) returns (cuts: seq<nat>)
    ensures Turns(spoken, Joined(spoken), cuts) && Alternates(Joined(spoken))
    decreases |spoken|
  {
    hide OneTurn, Turns, Alternates, Joined;
    if spoken == [] {
      cuts := [0];
      NoTurns();
    } else {
      var n := |spoken| - 1;
      var before, m := spoken[..n], spoken[n];
      cuts := JoinedTurns(before);
      var done := Joined(before);
      assert spoken == before + [m];
      JoinedPush(before, m);
      OntoAlternates(done, m);
      assert |cuts| == |done| + 1 by { TurnsCuts(before, done, cuts); }
      if m.role == User && done != [] && done[|done| - 1].role == User {
        ExtendTurn(before, m, done, cuts);
        cuts := cuts[..|done|] + [n + 1];
      } else {
        PushTurn(before, m, done, cuts);
        cuts := cuts + [n + 1];
      }
    }
  }

  lemma {:induction false} NoTurns()
    ensures Turns([], [], [0]) && Alternates([]) && Joined([]) == []
  {
  }

  lemma {:induction false} TurnsCuts(spoken: seq<Message>, joined: seq<Message>, cuts: seq<nat>)
    requires Turns(spoken, joined, cuts)
    ensures |cuts| == |joined| + 1
  {
    hide OneTurn;
  }

  /** What is spoken: every message that is no system message, in order. */
  lemma {:induction false} SpokenAre(ms: seq<Message>, m: Message)
    ensures Spoken([]) == [] && Spoken(ms + [m]) == Spoken(ms) + if m.role != System then [m] else []
  {
    assert (ms + [m])[..|ms|] == ms;
  }

  /**
   * The messages that are sent say what is spoken and then the question: adjacent user messages are one turn, the
   * question ends the last one, and nothing else is joined, dropped or moved.
   */
  lemma {:induction false} SentTurns(ms: seq<Message>, question: Text) returns (cuts: seq<nat>)
    ensures var spoken := Spoken(ms) + [Message(User, question)];
            var sent := Joined(WithQuestion(ms, question));
            && Turns(spoken, sent, cuts) && Alternates(sent) && sent != [] && sent[|sent| - 1].role == User
            && (forall j :: 0 <= j < |sent| ==> sent[j].role != System)
  {
    hide BlankLines, Joined;
    var spoken := Spoken(ms) + [Message(User, question)];
    cuts := JoinedTurns(spoken);
    var sent := Joined(spoken);
    NoneIsSystem(ms);
    assert cuts[0] == 0 && cuts[|sent|] == |spoken|;
    assert sent != [];
    forall j | 0 <= j < |sent| ensures sent[j].role != System { assert OneTurn(spoken, cuts[j], cuts[j + 1], sent[j]); assert spoken[cuts[j]].role == sent[j].role; }
    assert OneTurn(spoken, cuts[|sent| - 1], |spoken|, sent[|sent| - 1]);
    assert spoken[|spoken| - 1].role == sent[|sent| - 1].role;
  }

  lemma {:induction false} NoneIsSystem(ms: seq<Message>)
    ensures forall k :: 0 <= k < |Spoken(ms)| ==> Spoken(ms)[k].role != System
  {
    if ms != [] { NoneIsSystem(ms[..|ms| - 1]); }
  }

  // ---------------------------------------------------------------- instructions

  /** The system messages that say something. */
  lemma {:induction false} SystemPartsAre(ms: seq<Message>, m: Message)
    ensures SystemParts([]) == [] && SystemParts(ms + [m]) == SystemParts(ms) + if m.role == System && m.content != [] then [m.content] else []
  {
    assert (ms + [m])[..|ms|] == ms;
  }

  /**
   * The instructions are the texts of the system messages that say something, in order, and then the instructions of the
   * project, with blank lines between them.
   */
  lemma {:induction false} InstructionsSay(ms: seq<Message>, caller: Caller)
    ensures var parts := SystemParts(ms) + if caller.instructions == [] then [] else [caller.instructions];
            if parts == [] then Instructions(ms, caller) == [] else BlankLines(parts, Instructions(ms, caller))
  {
    var parts := SystemParts(ms) + if caller.instructions == [] then [] else [caller.instructions];
    if parts != [] { PartsJoin(parts); }
  }

  lemma {:induction false} PartsJoin(parts: seq<Text>)
    requires parts != []
    ensures BlankLines(parts, JoinParts(parts))
    decreases |parts|
  {
    hide BlankLines;
    var n := |parts| - 1;
    if n == 0 {
      OneLine(parts);
    } else {
      PartsJoin(parts[..n]);
      OneMoreLine(parts[..n], JoinParts(parts[..n]), parts[n]);
      assert parts[..n] + [parts[n]] == parts;
    }
  }

  lemma {:induction false} OneLine(parts: seq<Text>)
    requires |parts| == 1
    ensures BlankLines(parts, parts[0])
  {
  }

  // ---------------------------------------------------------------- notices

  /**
   * A fitted history begins with the notice about omitted exchanges exactly when some are omitted, then with the one
   * about unfinished answers exactly when one is kept, and goes on with the kept exchanges as they are.
   */
  lemma {:induction false} FittedSays(e: seq<Message>, all: Selected, f: Fitted, caller: Caller, cap: nat)
    requires Fits(e, all, f, caller, cap)
    ensures var kept := all.messages[f.start..];
            var omitted, partial := all.omitted || f.start > 0, exists k :: 0 <= k < |kept| && kept[k].partial;
            var n := (if omitted then 1 else 0) + if partial then 1 else 0;
            && f.notice == omitted && |f.messages| == n + |kept|
            && (omitted ==> f.messages[0] == Message(System, caller.omission))
            && (partial ==> f.messages[n - 1] == Message(System, caller.partial))
            && forall k :: 0 <= k < |kept| ==> f.messages[n + k] == kept[k].message
  {
    hide RequestTokens, NoneEarlier, FitTokens, Whole, LatestStart;
    var kept := all.messages[f.start..];
    SomePartial(kept);
  }

  lemma {:induction false} SomePartial(h: seq<Turn>)
    ensures Partials(h) > 0 <==> exists k :: 0 <= k < |h| && h[k].partial
  {
    if h != [] {
      SomePartial(h[1..]);
      if k :| 0 <= k < |h[1..]| && h[1..][k].partial { assert h[k + 1].partial; }
      if k :| 0 <= k < |h| && h[k].partial { assert k > 0 ==> h[1..][k - 1].partial; }
    }
  }
}
