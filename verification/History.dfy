/** Which exchanges of the conversation go into a request (fitHistory and selectHistory in src/context.ts). */
module History {
  import opened Text
  import opened ModelInput
  import opened Budget

  datatype Turn = Turn(message: Message, partial: bool)

  function Texts(h: seq<Turn>): (ms: seq<Message>)
    ensures |ms| == |h| && forall k :: 0 <= k < |ms| ==> ms[k] == h[k].message
  {
    seq(|h|, k requires 0 <= k < |h| => h[k].message)
  }

  function OmissionNotice(caller: Caller): Message { Message(System, caller.omission) }

  function PartialNotice(caller: Caller): Message { Message(System, caller.partial) }

  function Notices(caller: Caller, omitted: bool, partial: bool): seq<Message> {
    (if omitted then [OmissionNotice(caller)] else []) + (if partial then [PartialNotice(caller)] else [])
  }

  function Partials(h: seq<Turn>): nat {
    if h == [] then 0 else (if h[0].partial then 1 else 0) + Partials(h[1..])
  }

  /** The request with these exchanges and the notices that describe them. */
  function FitTokens(e: seq<Message>, h: seq<Turn>, omitted: bool, caller: Caller): nat {
    RequestTokens(e + (Notices(caller, omitted, Partials(h) > 0) + Texts(h)), caller)
  }

  /** Where the newest exchange starts. */
  function LatestStart(h: seq<Turn>): nat {
    if h == [] then 0
    else if h[|h| - 1].message.role == Assistant then if |h| >= 2 then |h| - 2 else 0
    else |h| - 1
  }

  datatype Selected = Selected(messages: seq<Turn>, omitted: bool, latestUnfit: bool)

  datatype Fitted = Fitted(messages: seq<Message>, notice: bool, start: nat)

  // ---------------------------------------------------------------- whole exchanges from the front

  function FirstExchange(ms: seq<Message>): nat
    requires ms != []
  {
    if |ms| >= 2 && ms[1].role == Assistant then 2 else 1
  }

  lemma {:induction false} WholeFront(ms: seq<Message>)
    requires Whole(ms) && ms != []
    ensures ms[0].role == User && FirstExchange(ms) <= |ms| && Whole(ms[FirstExchange(ms)..])
    decreases |ms|
  {
    var n := |ms|;
    var back := if ms[n - 1].role == User && Whole(ms[..n - 1]) then 1 else 2;
    var rest := ms[..n - back];
    var k := FirstExchange(ms);
    if rest == [] {
      assert ms[k..] == [];
    } else {
      WholeFront(rest);
      FrontStays(ms, back);
      CutTwice(ms, k, back);
    }
  }

  lemma {:induction false} CutTwice(ms: seq<Message>, k: nat, back: nat)
    requires k + back <= |ms|
    ensures ms[k..][..|ms[k..]| - back] == ms[..|ms| - back][k..]
  {
  }

  lemma FrontStays(ms: seq<Message>, back: nat)
    requires 1 <= back <= 2 && |ms| > back && ms[|ms| - back].role == User
    ensures FirstExchange(ms) == FirstExchange(ms[..|ms| - back])
  {
    var rest := ms[..|ms| - back];
    if |rest| == 1 { assert ms[1].role == User; } else { assert rest[1] == ms[1]; }
  }

  lemma {:induction false} TokensConcat(a: seq<Message>, b: seq<Message>)
    ensures HistoryTokens(a + b) == HistoryTokens(a) + HistoryTokens(b)
    decreases |b|
  {
    hide MessageTokens;
    if b == [] {
      assert a + b == a;
    } else {
      assert (a + b)[..|a + b| - 1] == a + b[..|b| - 1];
      TokensConcat(a, b[..|b| - 1]);
    }
  }

  lemma {:induction false} OneMessage(m: Message, rest: seq<Message>)
    ensures HistoryTokens([m] + rest) == MessageTokens(m) + HistoryTokens(rest)
  {
    hide MessageTokens;
    TokensConcat([m], rest);
    assert [m][..0] == [];
    assert HistoryTokens([m]) == HistoryTokens([m][..0]) + MessageTokens(m);
    assert HistoryTokens([m][..0]) == 0;
  }

  lemma {:induction false} PartialsConcat(a: seq<Turn>, b: seq<Turn>)
    ensures Partials(a + b) == Partials(a) + Partials(b)
  {
    if a == [] { assert a + b == b; } else { PartialsConcat(a[1..], b); assert (a + b)[1..] == a[1..] + b; }
  }

  lemma LatestIsUser(h: seq<Turn>)
    requires Whole(Texts(h)) && h != []
    ensures LatestStart(h) < |h| && h[LatestStart(h)].message.role == User && Whole(Texts(h)[LatestStart(h)..])
  {
    var ms := Texts(h);
    var s := LatestStart(h);
    var latest := ms[s..];
    if h[|h| - 1].message.role == Assistant {
      assert latest[..0] == [];
      assert latest[1].role == Assistant && latest[0].role == User;
    } else {
      assert latest[..0] == [];
    }
  }

  // ---------------------------------------------------------------- why the loop may stop

  lemma NoticesSplit(caller: Caller, omitted: bool, partial: bool)
    ensures Notices(caller, true, partial) == [OmissionNotice(caller)] + Notices(caller, false, partial)
    ensures Notices(caller, omitted, true) == Notices(caller, omitted, false) + [PartialNotice(caller)]
  {
    hide OmissionNotice, PartialNotice;
  }

  /** Below the budget the kept exchanges fit, by the bound. */
  lemma {:induction false} BelowBudget(e: seq<Message>, h: seq<Turn>, caller: Caller, cap: nat)
    requires Whole(Texts(h)) && RequestTokens(e + Notices(caller, true, Partials(h) > 0), caller) + HistoryTokens(Texts(h)) <= cap
    ensures FitTokens(e, h, true, caller) <= cap
  {
    hide RequestTokens, Whole, Texts, Notices;
    var n := Notices(caller, true, Partials(h) > 0);
    InsertionBound(e + n, Texts(h), caller);
    assert e + n + Texts(h) == e + (n + Texts(h));
  }

  lemma {:induction false} FewerTokens(h: seq<Turn>, k: nat)
    requires k <= |h|
    ensures Partials(h[k..]) <= Partials(h) && HistoryTokens(Texts(h[k..])) <= HistoryTokens(Texts(h))
  {
    hide HistoryTokens, Partials;
    PartialsConcat(h[..k], h[k..]);
    assert h == h[..k] + h[k..];
    assert Texts(h) == Texts(h[..k]) + Texts(h[k..]);
    TokensConcat(Texts(h[..k]), Texts(h[k..]));
  }

  /** The partial notice only adds to the request. */
  lemma {:induction false} PartialOnlyAdds(e: seq<Message>, caller: Caller)
    ensures RequestTokens(e + Notices(caller, true, false), caller) <= RequestTokens(e + Notices(caller, true, true), caller)
  {
    hide RequestTokens, Notices;
    NoticesSplit(caller, true, true);
    NoticeGrows(e + Notices(caller, true, false), caller.partial, [], caller);
    assert e + Notices(caller, true, false) + [] == e + Notices(caller, true, false);
    assert e + Notices(caller, true, false) + [PartialNotice(caller)] + [] == e + Notices(caller, true, true);
  }

  /** Keeping fewer exchanges never needs a larger budget. */
  lemma {:induction false} FewerFits(e: seq<Message>, h: seq<Turn>, k: nat, caller: Caller, cap: nat)
    requires k <= |h| && RequestTokens(e + Notices(caller, true, Partials(h) > 0), caller) + HistoryTokens(Texts(h)) <= cap
    ensures RequestTokens(e + Notices(caller, true, Partials(h[k..]) > 0), caller) + HistoryTokens(Texts(h[k..])) <= cap
  {
    hide RequestTokens, Notices, Partials, HistoryTokens, Texts;
    FewerTokens(h, k);
    PartialOnlyAdds(e, caller);
  }

  /** When the omission notice fits as well, it would have fitted without it. */
  lemma NoticeOnlyAdds(e: seq<Message>, h: seq<Turn>, omitted: bool, caller: Caller)
    ensures FitTokens(e, h, omitted, caller) <= FitTokens(e, h, true, caller)
  {
    hide RequestTokens, Notices;
    if !omitted {
      var p := Partials(h) > 0;
      NoticesSplit(caller, false, p);
      var rest := Notices(caller, false, p) + Texts(h);
      NoticeGrows(e, OmissionNotice(caller).content, rest, caller);
      assert OmissionNotice(caller) == Message(System, OmissionNotice(caller).content);
      assert e + [OmissionNotice(caller)] + rest == e + (Notices(caller, true, p) + Texts(h));
    }
  }

  // ---------------------------------------------------------------- fitting

  predicate BoundFits(h: seq<Turn>, e: seq<Message>, caller: Caller, cap: nat, start: nat, partials: nat) {
    start <= |h| && RequestTokens(e + Notices(caller, true, partials > 0), caller) + HistoryTokens(Texts(h[start..])) <= cap
  }

  /** With an exchange more at the front, the bound of what is kept is over the budget. */
  ghost predicate NoneEarlier(h: seq<Turn>, e: seq<Message>, caller: Caller, cap: nat, start: nat) {
    forall s: nat :: s < start && s < |h| && h[s].message.role == User ==> !BoundFits(h, e, caller, cap, s, Partials(h[s..]))
  }

  /** What a fitted history is: a suffix of whole exchanges under the cap, and notices that describe it. */
  ghost predicate Fits(e: seq<Message>, all: Selected, f: Fitted, caller: Caller, cap: nat) {
    && f.start <= |all.messages|
    && (f.start > 0 ==> f.start <= LatestStart(all.messages))
    && (f.start == 0 <==> FitTokens(e, all.messages, all.omitted, caller) <= cap)
    && NoneEarlier(all.messages, e, caller, cap, f.start)
    && var kept := all.messages[f.start..];
       && Whole(Texts(kept))
       && f.notice == (all.omitted || f.start > 0)
       && f.messages == Notices(caller, f.notice, Partials(kept) > 0) + Texts(kept)
       && RequestTokens(e + f.messages, caller) <= cap
  }

  function Latest(h: seq<Turn>): seq<Turn>
  {
    if LatestStart(h) <= |h| then h[LatestStart(h)..] else []
  }

  /** Neither everything nor even the newest exchange alone, with the notices they need, is under the cap. */
  predicate NothingFits(e: seq<Message>, all: Selected, caller: Caller, cap: nat) {
    FitTokens(e, all.messages, all.omitted, caller) > cap && FitTokens(e, Latest(all.messages), true, caller) > cap
  }

  lemma DropFirst(h: seq<Turn>, s: nat)
    requires s < |h|
    ensures h[s..][1..] == h[s + 1..] && h[s..][0] == h[s]
    ensures HistoryTokens(Texts(h[s..])) == MessageTokens(h[s].message) + HistoryTokens(Texts(h[s + 1..]))
    ensures Partials(h[s..]) == (if h[s].partial then 1 else 0) + Partials(h[s + 1..])
  {
    hide MessageTokens, HistoryTokens;
    assert Texts(h[s..]) == [h[s].message] + Texts(h[s + 1..]);
    OneMessage(h[s].message, Texts(h[s + 1..]));
  }

  lemma NextExchange(h: seq<Turn>, s: nat)
    requires Whole(Texts(h)) && s < LatestStart(h) && Whole(Texts(h[s..]))
    ensures var end := s + (if s + 1 < |h| && h[s + 1].message.role == Assistant then 2 else 1);
            end <= LatestStart(h) && LatestStart(h) < |h| && Whole(Texts(h[end..]))
  {
    hide Whole, Texts;
    LatestIsUser(h);
    var ms := Texts(h[s..]);
    FirstTexts(h, s);
    WholeFront(ms);
    TailTexts(h, s, FirstExchange(ms));
  }

  lemma {:induction false} FirstTexts(h: seq<Turn>, s: nat)
    requires s < |h|
    ensures |Texts(h[s..])| == |h| - s
    ensures s + 1 < |h| ==> Texts(h[s..])[1].role == h[s + 1].message.role
  {
  }

  lemma {:induction false} TailTexts(h: seq<Turn>, s: nat, k: nat)
    requires s + k <= |h|
    ensures Texts(h[s..])[k..] == Texts(h[s + k..])
  {
  }

  /** Whole exchanges are left from `start` on, the newest among them, and so many of their answers are partial. */
  predicate LeavesExchanges(h: seq<Turn>, start: nat, partials: nat) {
    start <= LatestStart(h) <= |h| && Whole(Texts(h[start..])) && partials == Partials(h[start..])
  }

  /** Drops exchanges from the front until the bound of the rest is within the budget, or only the newest is left. */
  method DropOlder(h: seq<Turn>, e: seq<Message>, caller: Caller, cap: nat, all: nat) returns (start: nat, partials: nat)
    requires Whole(Texts(h)) && all == Partials(h)
    ensures LeavesExchanges(h, start, partials)
    ensures start == LatestStart(h) || BoundFits(h, e, caller, cap, start, partials)
    ensures NoneEarlier(h, e, caller, cap, start)
  {
    hide RequestTokens, Notices, Texts, HistoryTokens, Partials, NoneEarlier, LatestStart, LeavesExchanges, BoundFits, Dropping;
    var latest := LatestStart(h);
    var cost := CountTokens(h);
    start, partials := 0, all;
    var budgets: map<bool, int> := map[];
    StartsDropping(h, e, caller, cap, all, cost);
    while start < latest
      invariant start <= latest && Dropping(h, e, caller, cap, start, partials, cost)
      invariant forall p :: p in budgets ==> budgets[p] == cap - RequestTokens(e + Notices(caller, true, p), caller)
    {
      var key := partials > 0;
      if key !in budgets {
        var fixed := PlannedTokens(e + Notices(caller, true, key), caller);
        budgets := budgets[key := cap - fixed];
      }
      if cost <= budgets[key] {
        StopsDropping(h, e, caller, cap, start, partials, cost);
        return;
      }
      KeepsDropping(h, e, caller, cap, start, partials, cost);
      var end := start + (if start + 1 < |h| && h[start + 1].message.role == Assistant then 2 else 1);
      cost, partials := DropTurns(h, start, end, cost, partials);
      start := end;
      IsDropping(h, e, caller, cap, start, partials, cost);
    }
    IsLeft(h, e, caller, cap, start, partials, cost);
  }

  /** From `start` on whole exchanges are left that include the newest; their bound is `cost`, and with one more it was over. */
  ghost predicate Dropping(h: seq<Turn>, e: seq<Message>, caller: Caller, cap: nat, start: nat, partials: nat, cost: int) {
    LeavesExchanges(h, start, partials) && cost == HistoryTokens(Texts(h[start..])) && NoneEarlier(h, e, caller, cap, start)
  }

  lemma {:induction false} StartsDropping(h: seq<Turn>, e: seq<Message>, caller: Caller, cap: nat, all: nat, cost: int)
    requires Whole(Texts(h)) && all == Partials(h) && cost == HistoryTokens(Texts(h))
    ensures Dropping(h, e, caller, cap, 0, all, cost)
  {
    hide BoundFits, Whole, HistoryTokens, Texts, Partials;
    assert h[0..] == h;
    if h != [] { LatestIsUser(h); }
  }

  lemma {:induction false} StopsDropping(h: seq<Turn>, e: seq<Message>, caller: Caller, cap: nat, start: nat, partials: nat, cost: int)
    requires Dropping(h, e, caller, cap, start, partials, cost) && cost <= cap - RequestTokens(e + Notices(caller, true, partials > 0), caller)
    ensures LeavesExchanges(h, start, partials) && BoundFits(h, e, caller, cap, start, partials) && NoneEarlier(h, e, caller, cap, start)
  {
    hide RequestTokens, Notices, Texts, HistoryTokens, Partials, Whole;
  }

  lemma {:induction false} IsLeft(h: seq<Turn>, e: seq<Message>, caller: Caller, cap: nat, start: nat, partials: nat, cost: int)
    requires Dropping(h, e, caller, cap, start, partials, cost)
    ensures LeavesExchanges(h, start, partials) && NoneEarlier(h, e, caller, cap, start)
  {
    hide LeavesExchanges, NoneEarlier;
  }

  lemma {:induction false} IsDropping(h: seq<Turn>, e: seq<Message>, caller: Caller, cap: nat, start: nat, partials: nat, cost: int)
    requires start <= LatestStart(h) <= |h| && Whole(Texts(h[start..])) && NoneEarlier(h, e, caller, cap, start)
    requires partials == Partials(h[start..]) && cost == HistoryTokens(Texts(h[start..]))
    ensures Dropping(h, e, caller, cap, start, partials, cost)
  {
    hide NoneEarlier, Whole, Texts, HistoryTokens, Partials;
  }

  /** The bound is over the budget at `start`, so the exchange there is dropped. */
  lemma {:induction false} KeepsDropping(h: seq<Turn>, e: seq<Message>, caller: Caller, cap: nat, start: nat, partials: nat, cost: int)
    requires Whole(Texts(h)) && start < LatestStart(h) && Dropping(h, e, caller, cap, start, partials, cost)
    requires cost > cap - RequestTokens(e + Notices(caller, true, partials > 0), caller)
    ensures start < |h| && partials == Partials(h[start..]) && cost == HistoryTokens(Texts(h[start..]))
    ensures var end := start + (if start + 1 < |h| && h[start + 1].message.role == Assistant then 2 else 1);
            end <= LatestStart(h) <= |h| && Whole(Texts(h[end..])) && NoneEarlier(h, e, caller, cap, end)
  {
    hide RequestTokens, Notices, Texts, HistoryTokens, Partials, Whole, LatestStart, NoneEarlier;
    NextExchange(h, start);
    OneMoreGone(h, e, caller, cap, start, start + (if start + 1 < |h| && h[start + 1].message.role == Assistant then 2 else 1), partials, cost);
  }

  lemma {:induction false} OneMoreGone(h: seq<Turn>, e: seq<Message>, caller: Caller, cap: nat, start: nat, end: nat, partials: nat, cost: int)
    requires start < end <= |h| && end == start + (if start + 1 < |h| && h[start + 1].message.role == Assistant then 2 else 1)
    requires partials == Partials(h[start..]) && cost == HistoryTokens(Texts(h[start..]))
    requires cost > cap - RequestTokens(e + Notices(caller, true, partials > 0), caller) && NoneEarlier(h, e, caller, cap, start)
    ensures NoneEarlier(h, e, caller, cap, end)
  {
    hide RequestTokens, Notices, Texts, HistoryTokens, Partials;
    assert !BoundFits(h, e, caller, cap, start, partials);
  }

  method DropTurns(h: seq<Turn>, first: nat, end: nat, cost0: int, partials0: int) returns (cost: int, partials: nat)
    requires first <= end <= |h| && cost0 == HistoryTokens(Texts(h[first..])) && partials0 == Partials(h[first..])
    ensures cost == HistoryTokens(Texts(h[end..])) && partials == Partials(h[end..])
  {
    hide HistoryTokens, MessageTokens, Texts, Partials;
    cost, partials := cost0, partials0;
    var start := first;
    while start < end
      invariant first <= start <= end
      invariant cost == HistoryTokens(Texts(h[start..])) && partials == Partials(h[start..])
    {
      DropFirst(h, start);
      cost := cost - MessageTokens(h[start].message);
      if h[start].partial { partials := partials - 1; }
      start := start + 1;
    }
  }

  /**
   * Older exchanges give way one at a time. It fails exactly when not even the newest exchange fits;
   * otherwise it keeps a suffix of whole exchanges and says that something was omitted exactly when it was.
   */
  method FitHistory(history: Selected, e: seq<Message>, caller: Caller, cap: nat) returns (r: Option<Fitted>)
    requires Whole(Texts(history.messages))
    ensures r.None? <==> history.latestUnfit || NothingFits(e, history, caller, cap)
    ensures r.Some? ==> Fits(e, history, r.value, caller, cap)
  {
    hide RequestTokens, Whole, Notices, Texts, HistoryTokens;
    var h := history.messages;
    if history.latestUnfit { return None; }
    var partials := CountPartials(h);
    var notices := Notices(caller, history.omitted, partials > 0);
    assert h[0..] == h;
    var first := PlannedTokens(e + (notices + Texts(h)), caller);
    if first <= cap {
      return Some(Fitted(notices + Texts(h), history.omitted, 0));
    }
    var start;
    start, partials := DropOlder(h, e, caller, cap, partials);
    var messages := Notices(caller, true, partials > 0) + Texts(h[start..]);
    var total := PlannedTokens(e + messages, caller);
    DroppedFits(e, h, history.omitted, start, caller, cap);
    r := if total <= cap then Some(Fitted(messages, true, start)) else None;
  }

  /** After dropping, what is kept fits exactly when the newest exchange does; and nothing fits without dropping. */
  lemma {:induction false} DroppedFits(e: seq<Message>, h: seq<Turn>, omitted: bool, start: nat, caller: Caller, cap: nat)
    requires Whole(Texts(h)) && start <= LatestStart(h) <= |h| && Whole(Texts(h[start..]))
    requires FitTokens(e, h, omitted, caller) > cap
    requires start == LatestStart(h)
             || RequestTokens(e + Notices(caller, true, Partials(h[start..]) > 0), caller) + HistoryTokens(Texts(h[start..])) <= cap
    ensures FitTokens(e, h[start..], true, caller) <= cap <==> FitTokens(e, Latest(h), true, caller) <= cap
    ensures start == 0 ==> FitTokens(e, h[start..], true, caller) > cap
  {
    hide RequestTokens, Notices, HistoryTokens, Texts, Whole, Partials;
    NoticeOnlyAdds(e, h, omitted, caller);
    assert h[0..] == h;
    if start != LatestStart(h) {
      BelowBudget(e, h[start..], caller, cap);
      LatestToo(e, h, start, caller, cap);
    }
  }

  lemma LatestToo(e: seq<Message>, h: seq<Turn>, start: nat, caller: Caller, cap: nat)
    requires Whole(Texts(h)) && start <= LatestStart(h) <= |h|
    requires RequestTokens(e + Notices(caller, true, Partials(h[start..]) > 0), caller) + HistoryTokens(Texts(h[start..])) <= cap
    ensures FitTokens(e, Latest(h), true, caller) <= cap
  {
    hide RequestTokens, Notices, HistoryTokens, Whole, Texts;
    var s := LatestStart(h);
    FewerFits(e, h[start..], s - start, caller, cap);
    assert h[start..][s - start..] == h[s..];
    LatestWhole(h);
    BelowBudget(e, h[s..], caller, cap);
  }

  lemma LatestWhole(h: seq<Turn>)
    requires Whole(Texts(h)) && LatestStart(h) <= |h|
    ensures Whole(Texts(h[LatestStart(h)..])) && Latest(h) == h[LatestStart(h)..]
  {
    if h == [] {
      assert h[0..] == h;
    } else {
      LatestIsUser(h);
      assert Texts(h)[LatestStart(h)..] == Texts(h[LatestStart(h)..]);
    }
  }

  method CountPartials(h: seq<Turn>) returns (n: nat)
    ensures n == Partials(h)
  {
    n := 0;
    var k: nat := |h|;
    assert h[|h|..] == [];
    while k > 0
      invariant k <= |h| && n == Partials(h[k..])
    {
      k := k - 1;
      assert h[k..][1..] == h[k + 1..];
      if h[k].partial { n := n + 1; }
    }
    assert h[0..] == h;
  }

  method CountTokens(h: seq<Turn>) returns (n: nat)
    ensures n == HistoryTokens(Texts(h))
  {
    hide MessageTokens;
    n := 0;
    assert Texts(h[..0]) == [];
    for k := 0 to |h|
      invariant n == HistoryTokens(Texts(h[..k]))
    {
      assert Texts(h[..k + 1])[..k] == Texts(h[..k]);
      n := n + MessageTokens(h[k].message);
    }
    assert h[..|h|] == h;
  }
}
