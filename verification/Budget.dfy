/** The request estimate of an assembled context, and what history adds to it (src/context.ts, src/model-input.ts). */
module Budget {
  import opened Text
  import opened Json
  import opened ModelInput

  /** The question and instructions of a request, and the wording of the notices about its history. */
  datatype Caller = Caller(question: Text, instructions: Text, omission: Text, partial: Text)

  // ---------------------------------------------------------------- instructions

  /** The system messages that say something, in order. */
  function SystemParts(ms: seq<Message>): seq<Text> {
    if ms == [] then []
    else
      var m := ms[|ms| - 1];
      SystemParts(ms[..|ms| - 1]) + if m.role == System && m.content != [] then [m.content] else []
  }

  function JoinParts(parts: seq<Text>): Text {
    if parts == [] then []
    else if |parts| == 1 then parts[0]
    else JoinParts(parts[..|parts| - 1]) + Break() + parts[|parts| - 1]
  }

  function Instructions(ms: seq<Message>, caller: Caller): Text {
    JoinParts(SystemParts(ms) + if caller.instructions != [] then [caller.instructions] else [])
  }

  /** The estimate of the request that the chat will send for these messages. */
  function RequestTokens(ms: seq<Message>, caller: Caller): nat {
    Ceil3(RequestSum(ms, caller)) + |Joined(WithQuestion(ms, caller.question))| * 32 + 1024
  }

  function RequestSum(ms: seq<Message>, caller: Caller): nat {
    RequestBytes(Instructions(ms, caller), Joined(WithQuestion(ms, caller.question)))
  }

  /** It is counted from exactly the bytes of the request's JSON text. */
  lemma {:induction false} TokensAreTheEstimate(ms: seq<Message>, caller: Caller)
    ensures RequestTokens(ms, caller) == Estimate(Instructions(ms, caller), Joined(WithQuestion(ms, caller.question)))
  {
    hide RequestJson, Utf8, RequestBytes, Joined, Spoken;
    RequestSize(Instructions(ms, caller), Joined(WithQuestion(ms, caller.question)));
  }

  // ---------------------------------------------------------------- planning and dispatch

  method CollectInstructions(ms: seq<Message>, caller: Caller) returns (text: Text)
    ensures text == Instructions(ms, caller)
  {
    var parts: seq<Text> := [];
    assert ms[..0] == [];
    for k := 0 to |ms|
      invariant parts == SystemParts(ms[..k])
    {
      assert ms[..k + 1][..k] == ms[..k];
      if ms[k].role == System && ms[k].content != [] { parts := parts + [ms[k].content]; }
    }
    assert ms[..|ms|] == ms;
    if caller.instructions != [] { parts := parts + [caller.instructions]; } else { assert parts == parts + []; }
    text := JoinParts(parts);
  }

  method CollectSpoken(ms: seq<Message>) returns (spoken: seq<Message>)
    ensures spoken == Spoken(ms)
  {
    spoken := [];
    assert ms[..0] == [];
    for k := 0 to |ms|
      invariant spoken == Spoken(ms[..k])
    {
      assert ms[..k + 1][..k] == ms[..k];
      if ms[k].role != System { spoken := spoken + [ms[k]]; }
    }
    assert ms[..|ms|] == ms;
  }

  /** What context assembly plans with: nothing is joined or copied. */
  method PlannedTokens(ms: seq<Message>, caller: Caller) returns (tokens: nat)
    ensures tokens == RequestTokens(ms, caller) == Estimate(Instructions(ms, caller), Joined(WithQuestion(ms, caller.question)))
  {
    hide Estimate, Joined, Spoken, RequestTokens;
    TokensAreTheEstimate(ms, caller);
    var instructions := CollectInstructions(ms, caller);
    var spoken := CollectSpoken(ms);
    tokens := EstimateModelInput(instructions, spoken + [Message(User, caller.question)], true);
  }

  /** What the chat checks just before it sends: the estimate of the joined messages themselves. */
  method DispatchedTokens(ms: seq<Message>, caller: Caller) returns (tokens: nat)
    ensures tokens == RequestTokens(ms, caller) == Estimate(Instructions(ms, caller), Joined(WithQuestion(ms, caller.question)))
  {
    hide Estimate, Joined, Spoken, RequestTokens;
    TokensAreTheEstimate(ms, caller);
    var instructions := CollectInstructions(ms, caller);
    var messages := ChatModelMessages(ms, caller.question);
    tokens := EstimateModelInput(instructions, messages, false);
  }

  // ---------------------------------------------------------------- sizes of joined messages

  /** Bytes and number of the messages that a list is joined to. */
  function JoinedBytes(ms: seq<Message>): nat { MessagesBytes(Joined(ms)) }

  predicate EndsUser(ms: seq<Message>) { ms != [] && ms[|ms| - 1].role == User }

  /** What one more message in the array costs, with the comma before it. */
  function Entry(m: Message): nat { 21 + StringBytes(RoleText(m.role)) + StringBytes(m.content) }

  lemma {:induction false} JoinedEnds(ms: seq<Message>)
    ensures (Joined(ms) == [] <==> ms == []) && EndsUser(Joined(ms)) == EndsUser(ms)
    ensures ms != [] ==> Joined(ms)[|Joined(ms)| - 1].role == ms[|ms| - 1].role
  {
    if ms != [] { JoinedEnds(ms[..|ms| - 1]); }
  }

  lemma {:induction false} OntoBytes(r: seq<Message>, m: Message)
    ensures var onto := JoinOnto(r, m);
            && MessagesBytes(onto) == (if m.role == User && EndsUser(r) then MessagesBytes(r) + 4 + Cost(m.content)
                                       else if r == [] then Entry(m) - 1 else MessagesBytes(r) + Entry(m))
            && |onto| == |r| + if m.role == User && EndsUser(r) then 0 else 1
  {
    hide Cost, RoleText;
    var onto := JoinOnto(r, m);
    if m.role == User && EndsUser(r) {
      JoinedCost(r[|r| - 1].content, m.content);
      assert onto[..|onto| - 1] == r[..|r| - 1];
    } else {
      assert onto[..|onto| - 1] == r;
    }
  }

  /** One more message, joined to a user message before it or set apart. */
  lemma {:induction false} PushBytes(ms: seq<Message>, m: Message)
    ensures JoinedBytes(ms + [m]) == (if m.role == User && EndsUser(ms) then JoinedBytes(ms) + 4 + Cost(m.content)
                                      else if ms == [] then Entry(m) - 1 else JoinedBytes(ms) + Entry(m))
    ensures |Joined(ms + [m])| == |Joined(ms)| + if m.role == User && EndsUser(ms) then 0 else 1
  {
    hide Cost, RoleText, JoinOnto, Joined, MessagesBytes;
    JoinedPush(ms, m);
    JoinedEnds(ms);
    OntoBytes(Joined(ms), m);
  }

  // ---------------------------------------------------------------- inserting exchanges

  /** Exchanges: a user message, alone or followed by an assistant message. */
  predicate Whole(h: seq<Message>) {
    h == []
    || (h[|h| - 1].role == User && Whole(h[..|h| - 1]))
    || (|h| >= 2 && h[|h| - 1].role == Assistant && h[|h| - 2].role == User && Whole(h[..|h| - 2]))
  }

  function Entries(h: seq<Message>): nat {
    if h == [] then 0 else Entries(h[..|h| - 1]) + Entry(h[|h| - 1])
  }

  lemma {:induction false} UserInserted(x: seq<Message>, u: Message, q: Message)
    requires u.role == User && q.role == User
    ensures JoinedBytes(x + [u] + [q]) <= JoinedBytes(x + [q]) + Entry(u)
    ensures |Joined(x + [u] + [q])| <= |Joined(x + [q])| + 1
  {
    hide Cost, Joined, MessagesBytes, JoinedBytes;
    PushBytes(x, u);
    PushBytes(x + [u], q);
    PushBytes(x, q);
    UserEntry(u);
    UserEntry(q);
  }

  lemma UserEntry(m: Message)
    requires m.role == User
    ensures Entry(m) == 29 + Cost(m.content)
  {
    assert Cost(Ascii("user")) == 4 by { AsciiCost(Ascii("user")); }
  }

  lemma {:induction false} AsciiCost(t: Text)
    requires forall k :: 0 <= k < |t| ==> 97 <= t[k] < 123
    ensures Cost(t) == |t|
  {
    if t != [] { AsciiCost(t[1..]); }
  }

  lemma {:induction false} PairInserted(x: seq<Message>, u: Message, a: Message, q: Message)
    requires u.role == User && a.role == Assistant && q.role == User
    ensures JoinedBytes(x + [u] + [a] + [q]) <= JoinedBytes(x + [q]) + Entry(u) + Entry(a)
    ensures |Joined(x + [u] + [a] + [q])| <= |Joined(x + [q])| + 2
  {
    hide Cost, Joined, MessagesBytes, JoinedBytes;
    PushBytes(x, u);
    PushBytes(x + [u], a);
    PushBytes(x + [u] + [a], q);
    PushBytes(x, q);
    UserEntry(u);
    UserEntry(q);
  }

  lemma {:induction false} Inserted(e: seq<Message>, h: seq<Message>, q: Message)
    requires Whole(h) && q.role == User
    ensures JoinedBytes(e + h + [q]) <= JoinedBytes(e + [q]) + Entries(h)
    ensures |Joined(e + h + [q])| <= |Joined(e + [q])| + |h|
    decreases |h|
  {
    hide Joined, JoinedBytes, Entry;
    if h == [] {
      assert e + h == e;
    } else {
      var n := |h|;
      if h[n - 1].role == User && Whole(h[..n - 1]) {
        Inserted(e, h[..n - 1], q);
        UserInserted(e + h[..n - 1], h[n - 1], q);
        assert e + h == e + h[..n - 1] + [h[n - 1]];
      } else {
        Inserted(e, h[..n - 2], q);
        PairInserted(e + h[..n - 2], h[n - 2], h[n - 1], q);
        assert e + h == e + h[..n - 2] + [h[n - 2]] + [h[n - 1]];
        assert h[..n - 1][..n - 2] == h[..n - 2];
        assert h[..n - 1][n - 2] == h[n - 2];
      }
    }
  }

  // ---------------------------------------------------------------- the bound in tokens

  function MessageTokens(m: Message): nat { Ceil3(Entry(m)) + 32 }

  function HistoryTokens(h: seq<Message>): nat {
    if h == [] then 0 else HistoryTokens(h[..|h| - 1]) + MessageTokens(h[|h| - 1])
  }

  lemma {:induction false} EntriesRoundUp(h: seq<Message>)
    ensures Ceil3(Entries(h)) + 32 * |h| <= HistoryTokens(h)
  {
    hide Entry;
    if h != [] {
      EntriesRoundUp(h[..|h| - 1]);
    }
  }

  lemma {:induction false} SpokenConcat(a: seq<Message>, b: seq<Message>)
    ensures Spoken(a + b) == Spoken(a) + Spoken(b) && SystemParts(a + b) == SystemParts(a) + SystemParts(b)
    decreases |b|
  {
    if b == [] {
      assert a + b == a;
    } else {
      assert (a + b)[..|a + b| - 1] == a + b[..|b| - 1];
      SpokenConcat(a, b[..|b| - 1]);
    }
  }

  predicate NoSystem(h: seq<Message>) { forall k :: 0 <= k < |h| ==> h[k].role != System }

  lemma {:induction false} AllSpoken(h: seq<Message>)
    requires NoSystem(h)
    ensures Spoken(h) == h && SystemParts(h) == []
  {
    if h != [] {
      AllSpoken(h[..|h| - 1]);
      assert h == h[..|h| - 1] + [h[|h| - 1]];
    }
  }

  lemma {:induction false} WholeIsSpoken(h: seq<Message>)
    requires Whole(h)
    ensures NoSystem(h)
  {
    if h != [] {
      if h[|h| - 1].role == User && Whole(h[..|h| - 1]) { WholeIsSpoken(h[..|h| - 1]); } else { WholeIsSpoken(h[..|h| - 2]); }
    }
  }

  /** Inserting whole exchanges before the question raises the estimate by at most the sum of their bounds. */
  lemma {:induction false} InsertionBound(e: seq<Message>, h: seq<Message>, caller: Caller)
    requires Whole(h)
    ensures RequestTokens(e + h, caller) <= RequestTokens(e, caller) + HistoryTokens(h)
  {
    hide Joined, MessagesBytes, Whole, HistoryTokens, Entries, StringBytes, JoinParts;
    WholeIsSpoken(h);
    SpokenConcat(e, h);
    AllSpoken(h);
    assert SystemParts(e) + [] == SystemParts(e);
    Inserted(Spoken(e), h, Message(User, caller.question));
    EntriesRoundUp(h);
  }

  // ---------------------------------------------------------------- notices

  function PartsCost(parts: seq<Text>): nat {
    if parts == [] then 0
    else if |parts| == 1 then Cost(parts[0])
    else PartsCost(parts[..|parts| - 1]) + 4 + Cost(parts[|parts| - 1])
  }

  lemma {:induction false} JoinPartsCost(parts: seq<Text>)
    ensures Cost(JoinParts(parts)) == PartsCost(parts)
  {
    hide Cost;
    if parts == [] {
      NoCost();
    } else if |parts| > 1 {
      JoinPartsCost(parts[..|parts| - 1]);
      JoinedCost(JoinParts(parts[..|parts| - 1]), parts[|parts| - 1]);
    }
  }

  lemma {:induction false} PartsGrow(a: seq<Text>, p: Text, b: seq<Text>)
    ensures PartsCost(a + b) <= PartsCost(a + [p] + b)
    decreases |b|
  {
    hide Cost;
    if b == [] {
      assert a + b == a && a + [p] + b == a + [p] && (a + [p])[..|a|] == a;
    } else {
      var c := b[..|b| - 1];
      PartsGrow(a, p, c);
      assert (a + b)[..|a + b| - 1] == a + c && (a + [p] + b)[..|a + [p] + b| - 1] == a + [p] + c;
      if |a + b| == 1 { assert a + c == []; }
    }
  }

  lemma NoticeSpoken(e: seq<Message>, notice: Text, h: seq<Message>)
    ensures var s := [Message(System, notice)];
            && Spoken(e + s + h) == Spoken(e + h)
            && SystemParts(e + h) == SystemParts(e) + SystemParts(h)
            && SystemParts(e + s + h) == SystemParts(e) + (if notice != [] then [notice] else []) + SystemParts(h)
  {
    hide Spoken, SystemParts;
    var s := [Message(System, notice)];
    SpokenConcat(e, h);
    SpokenConcat(e + s, h);
    SpokenConcat(e, s);
    OneNotice(notice);
  }

  lemma NoticeInstructions(e: seq<Message>, notice: Text, h: seq<Message>, caller: Caller)
    ensures Cost(Instructions(e + h, caller)) <= Cost(Instructions(e + [Message(System, notice)] + h, caller))
  {
    hide Spoken, SystemParts, Cost, JoinParts, PartsCost;
    NoticeSpoken(e, notice, h);
    var last := if caller.instructions != [] then [caller.instructions] else [];
    var a, b := SystemParts(e), SystemParts(h) + last;
    assert SystemParts(e) + SystemParts(h) + last == a + b;
    JoinPartsCost(SystemParts(e + h) + last);
    JoinPartsCost(SystemParts(e + [Message(System, notice)] + h) + last);
    if notice == [] {
      assert a + [] + SystemParts(h) == a + SystemParts(h);
    } else {
      assert a + [notice] + SystemParts(h) + last == a + [notice] + b;
      PartsGrow(a, notice, b);
    }
  }

  /** A system message more never makes the request smaller. */
  lemma NoticeGrows(e: seq<Message>, notice: Text, h: seq<Message>, caller: Caller)
    ensures RequestTokens(e + h, caller) <= RequestTokens(e + [Message(System, notice)] + h, caller)
  {
    hide Joined, MessagesBytes, Cost, Spoken, Instructions;
    NoticeSpoken(e, notice, h);
    NoticeInstructions(e, notice, h, caller);
  }

  lemma OneNotice(notice: Text)
    ensures var s := [Message(System, notice)]; Spoken(s) == [] && SystemParts(s) == if notice != [] then [notice] else []
  {
    var s := [Message(System, notice)];
    assert s[..0] == [];
  }
}
