/** The model request and its estimate, with and without building it (src/model-input.ts). */
module ModelInput {
  import opened Text
  import opened Json

  datatype Role = System | User | Assistant

  datatype Message = Message(role: Role, content: Text)

  /** ASCII spelled as text. */
  function RoleText(role: Role): Text {
    match role
    case System => Ascii("system")
    case User => Ascii("user")
    case Assistant => Ascii("assistant")
  }

  // ---------------------------------------------------------------- the request

  function JoinOnto(result: seq<Message>, m: Message): seq<Message> {
    if m.role == User && result != [] && result[|result| - 1].role == User
    then result[..|result| - 1] + [result[|result| - 1].(content := result[|result| - 1].content + Break() + m.content)]
    else result + [m]
  }

  /** Adjacent user messages are parts of one user turn. */
  function Joined(ms: seq<Message>): seq<Message> {
    if ms == [] then [] else JoinOnto(Joined(ms[..|ms| - 1]), ms[|ms| - 1])
  }

  function Spoken(ms: seq<Message>): seq<Message> {
    if ms == [] then []
    else if ms[|ms| - 1].role == System then Spoken(ms[..|ms| - 1])
    else Spoken(ms[..|ms| - 1]) + [ms[|ms| - 1]]
  }

  function WithQuestion(ms: seq<Message>, question: Text): seq<Message> { Spoken(ms) + [Message(User, question)] }

  /** The messages that are sent: no system message, adjacent user messages joined, the question last. */
  method ChatModelMessages(messages: seq<Message>, question: Text) returns (result: seq<Message>)
    ensures result == Joined(WithQuestion(messages, question))
  {
    hide Joined, JoinOnto;
    result := [];
    var all := messages + [Message(User, question)];
    assert Spoken(all) == WithQuestion(messages, question) by { assert all[..|messages|] == messages; }
    assert all[..0] == [] && Joined([]) == [] && Spoken([]) == [] by { NothingJoined(); }
    for k := 0 to |all|
      invariant result == Joined(Spoken(all[..k]))
    {
      var m := all[k];
      assert all[..k + 1][..k] == all[..k];
      if m.role != System {
        JoinedPush(Spoken(all[..k]), m);
        if m.role == User && result != [] && result[|result| - 1].role == User {
          var previous := result[|result| - 1];
          result := result[..|result| - 1] + [previous.(content := previous.content + Break() + m.content)];
        } else {
          result := result + [m];
        }
        assert result == JoinOnto(Joined(Spoken(all[..k])), m) by { OntoIs(Joined(Spoken(all[..k])), m); }
      }
    }
    assert all[..|all|] == all;
  }

  lemma OntoIs(result: seq<Message>, m: Message)
    ensures JoinOnto(result, m) ==
            if m.role == User && result != [] && result[|result| - 1].role == User
            then result[..|result| - 1] + [result[|result| - 1].(content := result[|result| - 1].content + Break() + m.content)]
            else result + [m]
  {
  }

  lemma NothingJoined()
    ensures Joined([]) == [] && Spoken([]) == []
  {
  }

  lemma {:induction false} JoinedPush(ms: seq<Message>, m: Message)
    ensures Joined(ms + [m]) == JoinOnto(Joined(ms), m)
  {
    assert (ms + [m])[..|ms|] == ms;
  }

  // ---------------------------------------------------------------- the request as JSON

  function MessageJson(m: Message): Text {
    Ascii("{\"role\":") + Literal(RoleText(m.role)) + Ascii(",\"content\":") + Literal(m.content) + Ascii("}")
  }

  function MessagesJson(ms: seq<Message>): Text {
    if ms == [] then []
    else if |ms| == 1 then MessageJson(ms[0])
    else MessagesJson(ms[..|ms| - 1]) + [COMMA] + MessageJson(ms[|ms| - 1])
  }

  function RequestJson(instructions: Text, ms: seq<Message>): Text {
    Ascii("{\"instructions\":") + Literal(instructions) + Ascii(",\"messages\":[") + MessagesJson(ms) + Ascii("]}")
  }

  /** Texts that begin and end with ASCII can be put anywhere. */
  predicate Closed(t: Text) { t != [] && t[0] < 0x80 && t[|t| - 1] < 0x80 }

  lemma {:induction false} ClosedConcat(a: Text, b: Text)
    requires Closed(a) && Closed(b)
    ensures Closed(a + b) && |Utf8(a + b)| == |Utf8(a)| + |Utf8(b)|
  {
    hide Utf8;
    Utf8Concat(a, b);
  }

  lemma LiteralClosed(t: Text)
    ensures Closed(Literal(t)) && |Utf8(Literal(t))| == StringBytes(t)
  {
    hide Utf8, Escape;
    StringBytesIsSize(t);
  }

  lemma AsciiClosed(s: string)
    requires s != []
    ensures Closed(Ascii(s)) && |Utf8(Ascii(s))| == |s|
  {
    AsciiBytes(Ascii(s));
  }

  function MessageBytes(m: Message): nat { 20 + StringBytes(RoleText(m.role)) + StringBytes(m.content) }

  lemma MessageSize(m: Message)
    ensures Closed(MessageJson(m)) && |Utf8(MessageJson(m))| == MessageBytes(m)
  {
    hide Utf8, Literal, StringBytes, Ascii, RoleText;
    var a, b, c, d, e := Ascii("{\"role\":"), Literal(RoleText(m.role)), Ascii(",\"content\":"), Literal(m.content), Ascii("}");
    AsciiClosed("{\"role\":");
    AsciiClosed(",\"content\":");
    AsciiClosed("}");
    LiteralClosed(RoleText(m.role));
    LiteralClosed(m.content);
    ClosedConcat(a, b);
    ClosedConcat(a + b, c);
    ClosedConcat(a + b + c, d);
    ClosedConcat(a + b + c + d, e);
  }

  function MessagesBytes(ms: seq<Message>): nat {
    if ms == [] then 0
    else if |ms| == 1 then MessageBytes(ms[0])
    else MessagesBytes(ms[..|ms| - 1]) + 1 + MessageBytes(ms[|ms| - 1])
  }

  lemma {:induction false} MessagesSize(ms: seq<Message>)
    ensures |Utf8(MessagesJson(ms))| == MessagesBytes(ms) && (ms != [] ==> Closed(MessagesJson(ms)))
  {
    hide Utf8, MessageJson, MessageBytes;
    if ms == [] {
      assert Utf8([]) == [] by { NoBytes(); }
    } else if |ms| == 1 {
      MessageSize(ms[0]);
    } else {
      MessagesSize(ms[..|ms| - 1]);
      MessageSize(ms[|ms| - 1]);
      AsciiBytes([COMMA]);
      ClosedConcat(MessagesJson(ms[..|ms| - 1]), [COMMA]);
      ClosedConcat(MessagesJson(ms[..|ms| - 1]) + [COMMA], MessageJson(ms[|ms| - 1]));
    }
  }

  lemma NoBytes()
    ensures Utf8([]) == []
  {
  }

  function RequestBytes(instructions: Text, ms: seq<Message>): nat { 16 + StringBytes(instructions) + 13 + MessagesBytes(ms) + 2 }

  lemma RequestSize(instructions: Text, ms: seq<Message>)
    ensures |Utf8(RequestJson(instructions, ms))| == RequestBytes(instructions, ms)
  {
    hide Utf8, Literal, StringBytes, Ascii, MessagesJson, MessagesBytes;
    var a, b, c, d, e := Ascii("{\"instructions\":"), Literal(instructions), Ascii(",\"messages\":["), MessagesJson(ms), Ascii("]}");
    AsciiClosed("{\"instructions\":");
    AsciiClosed(",\"messages\":[");
    AsciiClosed("]}");
    LiteralClosed(instructions);
    MessagesSize(ms);
    ClosedConcat(a, b);
    ClosedConcat(a + b, c);
    if ms == [] {
      assert d == [] by { NoMessages(); }
      assert a + b + c + d == a + b + c;
      NoBytes();
    } else {
      ClosedConcat(a + b + c, d);
    }
    ClosedConcat(a + b + c + d, e);
  }

  lemma NoMessages()
    ensures MessagesJson([]) == []
  {
  }

  // ---------------------------------------------------------------- the estimate

  function Ceil3(n: nat): nat { (n + 2) / 3 }

  /** Tokens are estimated from the bytes of the request's JSON text and the number of its messages. */
  function Estimate(instructions: Text, ms: seq<Message>): nat {
    Ceil3(|Utf8(RequestJson(instructions, ms))|) + |ms| * 32 + 1024
  }

  function Blank(ms: seq<Message>): (r: seq<Message>)
    ensures |r| == |ms| && forall k :: 0 <= k < |r| ==> r[k] == ms[k].(content := [])
  {
    seq(|ms|, k requires 0 <= k < |ms| => ms[k].(content := []))
  }

  function ContentCost(ms: seq<Message>): nat {
    if ms == [] then 0 else ContentCost(ms[..|ms| - 1]) + Cost(ms[|ms| - 1].content)
  }

  lemma {:induction false} BlankBytes(ms: seq<Message>)
    ensures MessagesBytes(ms) == MessagesBytes(Blank(ms)) + ContentCost(ms)
  {
    hide Cost;
    if ms != [] {
      BlankBytes(ms[..|ms| - 1]);
      assert Blank(ms)[..|ms| - 1] == Blank(ms[..|ms| - 1]);
      assert Cost([]) == 0 by { NoCost(); }
      if |ms| == 1 { assert ms[..0] == []; }
    }
  }

  lemma NoCost()
    ensures Cost([]) == 0
  {
  }

  /** One more message adds its content, and a blank message unless it joins the last one. */
  predicate Grown(before: seq<Message>, after: seq<Message>, m: Message, joins: bool) {
    && ContentCost(after) == ContentCost(before) + Cost(m.content) + (if joins then 4 else 0)
    && Blank(after) == (if joins then Blank(before) else Blank(before) + [Message(m.role, [])])
  }

  lemma {:induction false} JoinedContent(ms: seq<Message>, m: Message)
    ensures var onto := JoinOnto(Joined(ms), m);
            var joins := m.role == User && Joined(ms) != [] && Joined(ms)[|Joined(ms)| - 1].role == User;
            Grown(Joined(ms), onto, m, joins)
  {
    hide Joined, Grown;
    var r := Joined(ms);
    if m.role == User && r != [] && r[|r| - 1].role == User {
      JoinedLast(r[..|r| - 1], r[|r| - 1], m);
      assert r == r[..|r| - 1] + [r[|r| - 1]];
    } else {
      PlainContent(r, m);
    }
  }

  lemma {:induction false} JoinedLast(front: seq<Message>, last: Message, m: Message)
    ensures Grown(front + [last], front + [last.(content := last.content + Break() + m.content)], m, true)
  {
    hide Cost, Break;
    JoinedCost(last.content, m.content);
    assert (front + [last])[..|front|] == front;
    var joined := last.(content := last.content + Break() + m.content);
    assert (front + [joined])[..|front|] == front;
  }

  lemma {:induction false} PlainContent(ms: seq<Message>, m: Message)
    ensures Grown(ms, ms + [m], m, false)
  {
    hide Cost;
    assert (ms + [m])[..|ms|] == ms;
  }

  /** The messages that the estimate is about. */
  function Built(ms: seq<Message>, joinUsers: bool): seq<Message> { if joinUsers then Joined(ms) else ms }

  lemma {:induction false} BuiltPush(ms: seq<Message>, m: Message, joinUsers: bool)
    ensures var before, after := Built(ms, joinUsers), Built(ms + [m], joinUsers);
            var joins := joinUsers && m.role == User && before != [] && before[|before| - 1].role == User;
            Grown(before, after, m, joins)
  {
    hide Joined, JoinOnto, Grown;
    if joinUsers {
      JoinedPush(ms, m);
      JoinedContent(ms, m);
    } else {
      PlainContent(ms, m);
    }
  }

  /** The skeleton's bytes, the instructions and the contents make up the request's bytes. */
  lemma {:induction false} SkeletonEstimate(instructions: Text, ms: seq<Message>)
    ensures |Utf8(RequestJson([], Blank(ms)))| + (StringBytes(instructions) - 2) + ContentCost(ms) == |Utf8(RequestJson(instructions, ms))|
  {
    hide Cost, MessagesBytes, RequestJson, Utf8;
    RequestSize([], Blank(ms));
    RequestSize(instructions, ms);
    BlankBytes(ms);
    NoCost();
  }

  /**
   * The estimate that is counted message by message over a skeleton without contents is the estimate
   * of the request itself; with joining, of the request whose adjacent user messages are joined.
   */
  method EstimateModelInput(instructions: Text, messages: seq<Message>, joinUsers: bool) returns (tokens: nat)
    ensures tokens == Estimate(instructions, Built(messages, joinUsers))
  {
    hide Built, Cost, RequestJson, Utf8, Literal;
    var skeleton: seq<Message> := [];
    var contentBytes := 0;
    assert messages[..0] == [] && Built([], joinUsers) == [] by { NothingBuilt(joinUsers); }
    assert Blank([]) == [];
    for k := 0 to |messages|
      invariant skeleton == Blank(Built(messages[..k], joinUsers)) && contentBytes == ContentCost(Built(messages[..k], joinUsers))
    {
      var m := messages[k];
      assert messages[..k + 1] == messages[..k] + [m];
      BuiltPush(messages[..k], m, joinUsers);
      if joinUsers && m.role == User && skeleton != [] && skeleton[|skeleton| - 1].role == User {
        contentBytes := contentBytes + 4;
      } else {
        skeleton := skeleton + [Message(m.role, [])];
      }
      var size := CountStringBytes(m.content);
      StringBytesIsSize(m.content);
      contentBytes := contentBytes + (size - 2);
    }
    assert messages[..|messages|] == messages;
    var size := CountStringBytes(instructions);
    StringBytesIsSize(instructions);
    SkeletonEstimate(instructions, Built(messages, joinUsers));
    tokens := Ceil3(|Utf8(RequestJson([], skeleton))| + (size - 2) + contentBytes) + |skeleton| * 32 + 1024;
  }

  lemma NothingBuilt(joinUsers: bool)
    ensures Built([], joinUsers) == []
  {
    NothingJoined();
  }
}
