/** Capacities of a model, and contexts that stay within them (src/models.ts, src/context.ts). */
module Capacity {
  import opened Text
  import opened ModelInput
  import opened Budget
  import opened History
  import opened HistoryReader

  const SAFE: int := 0x1F_FFFF_FFFF_FFFF

  /** Published capacities; nothing means unknown. */
  datatype Model = Model(contextTokens: Option<int>, windowTokens: Option<int>, maxOutput: Option<int>, outputReserve: Option<int>)

  predicate IsSafe(n: int) { -SAFE <= n <= SAFE }

  function Min(a: int, b: int): int { if a <= b then a else b }

  function OutputReserve(m: Model): int {
    var bound := if m.outputReserve.Some? then m.outputReserve.value else if m.maxOutput.Some? then m.maxOutput.value else 0;
    Min(bound, if m.maxOutput.Some? then m.maxOutput.value else bound)
  }

  /** What a request may hold; nothing when the metadata is unusable. */
  function InputLimit(m: Model): Option<int> {
    var input := if m.contextTokens.Some? then m.contextTokens.value else 0;
    var reserve := OutputReserve(m);
    if !IsSafe(input) || input <= 0 || !IsSafe(reserve) || reserve <= 0
       || (m.windowTokens.Some? && (!IsSafe(m.windowTokens.value) || m.windowTokens.value <= reserve)) then None
    else Some(if m.windowTokens.None? then input else Min(input, m.windowTokens.value - reserve))
  }

  datatype OutputLimit = Unusable | Unlimited | AtMost(tokens: int)

  function MaxOutput(m: Model, estimate: int): OutputLimit {
    var input := if m.contextTokens.Some? then m.contextTokens.value else 0;
    if !IsSafe(input) || input <= 0 || !IsSafe(estimate) || estimate < 0 || estimate > input
       || (m.windowTokens.Some? && (!IsSafe(m.windowTokens.value) || m.windowTokens.value <= estimate)) then Unusable
    else if m.maxOutput.None? then Unlimited
    else if !IsSafe(m.maxOutput.value) || m.maxOutput.value <= 0 then Unusable
    else AtMost(if m.windowTokens.None? then m.maxOutput.value else Min(m.maxOutput.value, m.windowTokens.value - estimate))
  }

  datatype Bound = NoBound | UnknownBound | Declared(tokens: int)

  /** The capacity that admission records. */
  function TokenBound(m: Model): Bound {
    var input := if m.contextTokens.Some? then m.contextTokens.value else 0;
    if !IsSafe(input) || input <= 0 || (m.windowTokens.Some? && (!IsSafe(m.windowTokens.value) || m.windowTokens.value <= 0))
       || (m.maxOutput.Some? && (!IsSafe(m.maxOutput.value) || m.maxOutput.value <= 0 || !IsSafe(input + m.maxOutput.value))) then NoBound
    else if m.maxOutput.None? then UnknownBound
    else Declared(if m.windowTokens.None? then input + m.maxOutput.value else Min(input + m.maxOutput.value, m.windowTokens.value))
  }

  /**
   * A request within the input limit always gets a usable output limit; with it, it stays within the
   * published window and within the bound that admission recorded, and it keeps the planned reserve.
   */
  lemma {:induction false} OutputStaysWithin(m: Model, estimate: nat)
    requires InputLimit(m).Some? && estimate <= InputLimit(m).value && TokenBound(m) != NoBound
    ensures MaxOutput(m, estimate) != Unusable
    ensures m.maxOutput.None? <==> MaxOutput(m, estimate).Unlimited?
    ensures MaxOutput(m, estimate).AtMost? ==>
              && 0 < OutputReserve(m) <= MaxOutput(m, estimate).tokens <= m.maxOutput.value
              && (m.windowTokens.Some? ==> estimate + MaxOutput(m, estimate).tokens <= m.windowTokens.value)
              && TokenBound(m).Declared? && estimate + MaxOutput(m, estimate).tokens <= TokenBound(m).tokens
  {
  }

  // ---------------------------------------------------------------- nothing is given away

  /** A published capacity that can be used. */
  predicate Usable(n: Option<int>) { n.Some? && 0 < n.value <= SAFE }

  /** The answer and the request fit together: the answer into what the model puts out, both into the window. */
  predicate MayAnswer(m: Model, estimate: int, y: int) {
    (m.maxOutput.Some? ==> y <= m.maxOutput.value) && (m.windowTokens.Some? ==> estimate + y <= m.windowTokens.value)
  }

  /** The reserve is kept: for an answer as long as the published reserve, but no longer than the model puts out. */
  predicate Reserves(m: Model, reserve: int) {
    && (m.outputReserve.Some? ==> reserve <= m.outputReserve.value) && (m.maxOutput.Some? ==> reserve <= m.maxOutput.value)
    && (m.outputReserve == Some(reserve) || m.maxOutput == Some(reserve) || (m.outputReserve.None? && m.maxOutput.None? && reserve == 0))
  }

  ghost predicate MayHold(m: Model, n: int) {
    && m.contextTokens.Some? && n <= m.contextTokens.value
    && (m.windowTokens.Some? ==> exists reserve :: Reserves(m, reserve) && n + reserve <= m.windowTokens.value)
  }

  lemma ReserveIs(m: Model, reserve: int)
    ensures Reserves(m, reserve) <==> reserve == OutputReserve(m)
  {
  }

  /**
   * The input limit is the greatest request that fits into the context and, with the reserve, into the window. There is
   * none exactly when the context or the reserve is not a usable number or the window leaves no room.
   */
  lemma {:induction false} InputLimitIsGreatest(m: Model)
    ensures InputLimit(m).Some? ==> MayHold(m, InputLimit(m).value) && forall n :: MayHold(m, n) ==> n <= InputLimit(m).value
    ensures InputLimit(m).Some? <==>
              && Usable(m.contextTokens)
              && (exists reserve :: Reserves(m, reserve) && 0 < reserve <= SAFE && (m.windowTokens.Some? ==> reserve < m.windowTokens.value <= SAFE))
  {
    hide OutputReserve, Reserves;
    ReserveIs(m, OutputReserve(m));
    forall r | Reserves(m, r) ensures r == OutputReserve(m) { ReserveIs(m, r); }
  }

  /**
   * The output limit is the greatest answer that fits: none is stated exactly when the model publishes no maximum, and it
   * is unusable exactly when a capacity is, the request is over the context, or the window has no room left.
   */
  lemma {:induction false} OutputIsGreatest(m: Model, estimate: nat)
    ensures var limit := MaxOutput(m, estimate);
            && (limit.Unusable? <==>
                  !Usable(m.contextTokens) || estimate > m.contextTokens.value
                  || (m.windowTokens.Some? && !(estimate < m.windowTokens.value <= SAFE)) || (m.maxOutput.Some? && !Usable(m.maxOutput)))
            && (limit.Unlimited? ==> m.maxOutput.None?)
            && (limit.AtMost? ==> m.maxOutput.Some? && 0 < limit.tokens && MayAnswer(m, estimate, limit.tokens)
                                  && forall y :: MayAnswer(m, estimate, y) ==> y <= limit.tokens)
  {
  }

  /** The admitted bound is the greatest total of a request in the context and an answer that fits with it. */
  lemma {:induction false} BoundIsGreatest(m: Model)
    requires TokenBound(m).Declared?
    ensures m.contextTokens.Some? && m.maxOutput.Some?
    ensures forall x, y :: x <= m.contextTokens.value && MayAnswer(m, x, y) ==> x + y <= TokenBound(m).tokens
    ensures exists x, y :: x <= m.contextTokens.value && MayAnswer(m, x, y) && x + y == TokenBound(m).tokens
  {
    var x := if TokenBound(m).tokens <= m.contextTokens.value then TokenBound(m).tokens else m.contextTokens.value;
    assert MayAnswer(m, x, TokenBound(m).tokens - x);
  }

  // ---------------------------------------------------------------- contexts under the cap

  datatype Context = Context(messages: seq<Message>, notice: bool, compressed: set<nat>)

  /** A source that has a compact form, and what using it saves. */
  datatype Candidate = Candidate(index: nat, saving: int)

  predicate Covered(candidates: seq<Candidate>, compressed: set<nat>, again: nat -> int) {
    forall k :: 0 <= k < |candidates| ==> candidates[k].index in compressed || again(candidates[k].index) <= 0
  }

  /** Sources that were compressed, the history that was selected for them, why no more, and what was planned then. */
  datatype Try = Try(compressed: set<nat>, selected: Selected, taken: nat, why: Stop, now: Standing)

  /** Compressing these sources does not leave room for the newest exchange either. */
  ghost predicate Hopeless(evidence: set<nat> -> seq<Message>, t: Try, caller: Caller, cap: nat) {
    t.selected.latestUnfit || NothingFits(evidence(t.compressed), t.selected, caller, cap)
  }

  /** The history of a try is what selection takes from the conversation within what the evidence leaves of the cap. */
  ghost predicate FromHistory(evidence: set<nat> -> seq<Message>, readings: set<nat> -> nat -> Option<seq<Turn>>, t: Try, caller: Caller, cap: nat) {
    && t.why != Broken
    && Selects(cap - RequestTokens(evidence(t.compressed), caller), readings(t.compressed), t.selected, t.taken, t.why, t.now)
  }

  lemma {:induction false} FitsUnderCap(e: seq<Message>, all: Selected, f: Fitted, caller: Caller, cap: nat)
    requires Fits(e, all, f, caller, cap)
    ensures RequestTokens(e + f.messages, caller) <= cap
  {
  }

  ghost predicate FittedInto(evidence: seq<Message>, selected: Selected, caller: Caller, cap: nat, c: Context, f: Fitted) {
    Fits(evidence, selected, f, caller, cap) && c.messages == evidence + f.messages && c.notice == f.notice
  }

  /** The evidence and then the fitted history, under the cap. */
  ghost predicate Assembled(evidence: seq<Message>, selected: Selected, caller: Caller, cap: nat, c: Context) {
    RequestTokens(c.messages, caller) <= cap && exists f :: FittedInto(evidence, selected, caller, cap, c, f)
  }

  method Assemble(evidence: seq<Message>, selected: Selected, compressed: set<nat>, caller: Caller, cap: nat) returns (r: Option<Context>)
    requires Whole(Texts(selected.messages))
    ensures r.None? <==> selected.latestUnfit || NothingFits(evidence, selected, caller, cap)
    ensures r.Some? ==> r.value.compressed == compressed && Assembled(evidence, selected, caller, cap, r.value)
  {
    hide RequestTokens, Whole, Texts, NothingFits, Fits;
    var history := FitHistory(selected, evidence, caller, cap);
    if history.None? { return None; }
    FitsUnderCap(evidence, selected, history.value, caller, cap);
    var messages := evidence + history.value.messages;
    var total := PlannedTokens(messages, caller);
    if total > cap { return None; }
    assert FittedInto(evidence, selected, caller, cap, Context(messages, history.value.notice, compressed), history.value);
    r := Some(Context(messages, history.value.notice, compressed));
  }

  /** Saves more, or as much with a lower index. */
  predicate Before(i: nat, j: nat, again: nat -> int) { again(i) > again(j) || (again(i) == again(j) && i <= j) }

  /** The uncompressed candidate that saves most now, the first of them by index. */
  ghost predicate Best(candidates: seq<Candidate>, compressed: set<nat>, again: nat -> int, b: nat) {
    && b in Indexes(candidates) && b !in compressed && again(b) > 0
    && forall k :: 0 <= k < |candidates| && candidates[k].index !in compressed ==> Before(b, candidates[k].index, again)
  }

  method BestRemaining(candidates: seq<Candidate>, compressed: set<nat>, again: nat -> int) returns (best: Option<nat>)
    ensures best.Some? ==> Best(candidates, compressed, again, best.value)
    ensures best.None? ==> Covered(candidates, compressed, again)
  {
    best := None;
    for k := 0 to |candidates|
      invariant best.Some? ==> best.value !in compressed && again(best.value) > 0 && best.value in Indexes(candidates)
      invariant forall j :: 0 <= j < k && candidates[j].index !in compressed ==>
                  if best.Some? then Before(best.value, candidates[j].index, again) else again(candidates[j].index) <= 0
    {
      var index := candidates[k].index;
      if index !in compressed && again(index) > 0 && (best.None? || Before(index, best.value, again)) { best := Some(index); }
    }
  }

  function Indexes(candidates: seq<Candidate>): set<nat> { set k | 0 <= k < |candidates| :: candidates[k].index }

  /** The candidates among the first `n` whose compact form is smaller. */
  function Saving(candidates: seq<Candidate>, n: nat): set<nat>
    requires n <= |candidates|
  {
    set k | 0 <= k < n && candidates[k].saving > 0 :: candidates[k].index
  }

  /** What is projected when those are compressed; `header` is added once. */
  function Projected(candidates: seq<Candidate>, projected: int, header: nat, n: nat): int
    requires n <= |candidates|
  {
    if n == 0 then projected
    else
      var before := Projected(candidates, projected, header, n - 1);
      if candidates[n - 1].saving <= 0 then before
      else before + (if Saving(candidates, n - 1) == {} then header else 0) - candidates[n - 1].saving
  }

  /** The fewest candidates in order that bring the projection under the cap, or all of them. */
  ghost predicate FewestUnder(candidates: seq<Candidate>, projected: int, header: nat, cap: nat, n: nat) {
    && n <= |candidates|
    && (n < |candidates| ==> Projected(candidates, projected, header, n) <= cap)
    && forall k :: 0 <= k < n ==> Projected(candidates, projected, header, k) > cap
  }

  ghost predicate Precompressed(candidates: seq<Candidate>, projected: int, header: nat, cap: nat, compressed: set<nat>) {
    exists n :: FewestUnder(candidates, projected, header, cap, n) && compressed == Saving(candidates, n)
  }

  /** Projected tokens choose what is compressed first. */
  method Precompress(candidates: seq<Candidate>, projected: int, header: nat, cap: nat) returns (compressed: set<nat>)
    ensures Precompressed(candidates, projected, header, cap, compressed) && compressed <= Indexes(candidates)
  {
    compressed := {};
    var tokens, k := projected, 0;
    while k < |candidates| && tokens > cap
      invariant k <= |candidates| && compressed == Saving(candidates, k)
      invariant tokens == Projected(candidates, projected, header, k)
      invariant forall j :: 0 <= j < k ==> Projected(candidates, projected, header, j) > cap
    {
      var candidate := candidates[k];
      if candidate.saving > 0 {
        if compressed == {} { tokens := tokens + header; }
        compressed := compressed + {candidate.index};
        tokens := tokens - candidate.saving;
      }
      k := k + 1;
    }
    assert FewestUnder(candidates, projected, header, cap, k);
  }

  /** Each try compresses one source more than the one before: the one that saves most. */
  ghost predicate Greedy(candidates: seq<Candidate>, again: nat -> int, tries: seq<Try>) {
    forall k :: 0 < k < |tries| ==> OneMore(candidates, again, tries[k - 1].compressed, tries[k].compressed)
  }

  ghost predicate OneMore(candidates: seq<Candidate>, again: nat -> int, before: set<nat>, after: set<nat>) {
    exists b :: Best(candidates, before, again, b) && after == before + {b}
  }

  /** Every try left no room for the newest exchange. */
  ghost predicate AllHopeless(evidence: set<nat> -> seq<Message>, readings: set<nat> -> nat -> Option<seq<Turn>>, tries: seq<Try>, caller: Caller, cap: nat) {
    forall k :: 0 <= k < |tries| ==> Hopeless(evidence, tries[k], caller, cap) && FromHistory(evidence, readings, tries[k], caller, cap)
  }

  ghost predicate Tried(evidence: set<nat> -> seq<Message>, readings: set<nat> -> nat -> Option<seq<Turn>>, candidates: seq<Candidate>, again: nat -> int,
                        tries: seq<Try>, caller: Caller, cap: nat) {
    tries != [] && Greedy(candidates, again, tries) && AllHopeless(evidence, readings, tries[..|tries| - 1], caller, cap)
  }

  /** What a context comes to: one under the cap, none, or an error while the conversation was read. */
  datatype Outcome = Built(context: Context) | NoContext | Unreadable

  /** What every selection leaves of the conversation: nothing planned is lost, and an end stays an end. */
  twostate predicate Continues(plan: Assembly)
    reads plan
  {
    && plan.used >= old(plan.used) && plan.Seen() >= old(plan.Seen()) && SameRows(old(plan.items), plan.items)
    && (old(plan.done) ==> plan.done && plan.limited == old(plan.limited))
  }

  /**
   * The mixed context: sources are compressed one after the other, the best first, and the first context
   * under the cap is taken. It gives up only when no source is left whose compact form is smaller, and is
   * unreadable exactly when a row of the conversation broke.
   */
  method BuildMixed(evidence: set<nat> -> seq<Message>, readings: set<nat> -> nat -> Option<seq<Turn>>, plan: Assembly, candidates: seq<Candidate>,
                    again: nat -> int, projected: int, header: nat, caller: Caller, cap: nat) returns (r: Outcome, ghost tries: seq<Try>, ghost last: Try)
    requires plan.Valid() && forall c: set<nat> :: Readings(readings(c))
    modifies plan
    ensures plan.Valid() && Continues(plan)
    ensures Tried(evidence, readings, candidates, again, tries, caller, cap) && tries != [] && last == tries[|tries| - 1]
    ensures Precompressed(candidates, projected, header, cap, tries[0].compressed)
    ensures r.Built? ==> r.context.compressed == last.compressed && Assembled(evidence(last.compressed), last.selected, caller, cap, r.context)
    ensures r.NoContext? ==> Covered(candidates, last.compressed, again) && Hopeless(evidence, last, caller, cap)
    ensures r.Unreadable? <==> SomeBroke(plan.rows, plan.current, old(plan.Seen()), plan.Seen())
    ensures !r.Unreadable? ==> FromHistory(evidence, readings, last, caller, cap) && last.now == plan.Stands()
  {
    hide Whole, Texts, Assembled, Best, Tried, Hopeless, Covered, FromHistory, Readings, Precompressed, SameRows, SomeBroke, Assembly.Visited, Assembly.Counted, Assembly.Told;
    var compressed := Precompress(candidates, projected, header, cap);
    r, last := AssembleWith(evidence, readings, plan, compressed, caller, cap);
    tries := [last];
    FirstTry(evidence, readings, candidates, again, last, caller, cap);
    while r.NoContext?
      invariant plan.Valid() && Continues(plan)
      invariant compressed <= Indexes(candidates) && tries != [] && tries[|tries| - 1] == last && last.compressed == compressed
      invariant Tried(evidence, readings, candidates, again, tries, caller, cap)
      invariant Precompressed(candidates, projected, header, cap, tries[0].compressed)
      invariant r.NoContext? ==> Hopeless(evidence, last, caller, cap)
      invariant r.Built? ==> r.context.compressed == compressed && Assembled(evidence(compressed), last.selected, caller, cap, r.context)
      invariant r.Unreadable? <==> SomeBroke(plan.rows, plan.current, old(plan.Seen()), plan.Seen())
      invariant !r.Unreadable? ==> FromHistory(evidence, readings, last, caller, cap) && last.now == plan.Stands()
      decreases Indexes(candidates) - compressed, r.NoContext?
    {
      var best := BestRemaining(candidates, compressed, again);
      if best.None? { return; }
      BestIsNew(candidates, compressed, again, best.value);
      ghost var items, seen := plan.items, plan.Seen();
      compressed := compressed + {best.value};
      r, last := AssembleWith(evidence, readings, plan, compressed, caller, cap);
      RowsOn(old(plan.items), items, plan.items);
      BrokeOn(plan.rows, plan.current, old(plan.Seen()), seen, plan.Seen());
      NextTry(evidence, readings, candidates, again, tries, best.value, last, caller, cap);
      tries := tries + [last];
    }
  }

  /** History is selected for these sources, and the context is assembled from it. */
  method AssembleWith(evidence: set<nat> -> seq<Message>, readings: set<nat> -> nat -> Option<seq<Turn>>, plan: Assembly, compressed: set<nat>,
                      caller: Caller, cap: nat) returns (r: Outcome, ghost t: Try)
    requires plan.Valid() && Readings(readings(compressed))
    modifies plan
    ensures plan.Valid() && Continues(plan)
    ensures t.compressed == compressed
    ensures r.NoContext? ==> Hopeless(evidence, t, caller, cap)
    ensures r.Built? ==> r.context.compressed == compressed && Assembled(evidence(compressed), t.selected, caller, cap, r.context)
    ensures r.Unreadable? <==> SomeBroke(plan.rows, plan.current, old(plan.Seen()), plan.Seen())
    ensures !r.Unreadable? ==> FromHistory(evidence, readings, t, caller, cap) && t.now == plan.Stands()
  {
    hide Texts, Assembled, NothingFits, Readings, RequestTokens, Selects, SameRows, SomeBroke, Assembly.Visited, Assembly.Counted, Assembly.Told;
    var fixed := PlannedTokens(evidence(compressed), caller);
    var selected, failed, taken, why := plan.SelectHistory(cap - fixed, readings(compressed));
    t := Try(compressed, selected, taken, why, plan.Stands());
    if failed { return Unreadable, t; }
    SelectedIsWhole(cap - fixed, readings(compressed), selected, taken, why, plan.Stands());
    var context := Assemble(evidence(compressed), selected, compressed, caller, cap);
    r := if context.Some? then Built(context.value) else NoContext;
  }

  lemma {:induction false} SelectedIsWhole(budget: int, reading: nat -> Option<seq<Turn>>, s: Selected, taken: nat, why: Stop, now: Standing)
    requires Selects(budget, reading, s, taken, why, now)
    ensures Whole(Texts(s.messages))
  {
    hide Whole, Texts, Kept, HistoryTokens, NoRoom, SomeBlank;
  }

  lemma {:induction false} FirstTry(evidence: set<nat> -> seq<Message>, readings: set<nat> -> nat -> Option<seq<Turn>>, candidates: seq<Candidate>,
                                    again: nat -> int, t: Try, caller: Caller, cap: nat)
    ensures Tried(evidence, readings, candidates, again, [t], caller, cap)
  {
    hide Hopeless, FromHistory;
  }

  lemma {:induction false} NextTry(evidence: set<nat> -> seq<Message>, readings: set<nat> -> nat -> Option<seq<Turn>>, candidates: seq<Candidate>,
                                   again: nat -> int, tries: seq<Try>, b: nat, t: Try, caller: Caller, cap: nat)
    requires Tried(evidence, readings, candidates, again, tries, caller, cap)
    requires Hopeless(evidence, tries[|tries| - 1], caller, cap) && FromHistory(evidence, readings, tries[|tries| - 1], caller, cap)
    requires Best(candidates, tries[|tries| - 1].compressed, again, b) && t.compressed == tries[|tries| - 1].compressed + {b}
    ensures Tried(evidence, readings, candidates, again, tries + [t], caller, cap)
  {
    hide Hopeless, Best, Greedy, FromHistory;
    var last := tries[|tries| - 1];
    var more := tries + [t];
    assert more[..|more| - 1] == tries && tries == tries[..|tries| - 1] + [last];
    assert OneMore(candidates, again, last.compressed, t.compressed);
    GreedyPush(candidates, again, tries, t);
  }

  lemma {:induction false} GreedyPush(candidates: seq<Candidate>, again: nat -> int, tries: seq<Try>, t: Try)
    requires tries != [] && Greedy(candidates, again, tries) && OneMore(candidates, again, tries[|tries| - 1].compressed, t.compressed)
    ensures Greedy(candidates, again, tries + [t])
  {
    hide OneMore;
  }

  lemma {:induction false} BestIsNew(candidates: seq<Candidate>, compressed: set<nat>, again: nat -> int, b: nat)
    requires Best(candidates, compressed, again, b)
    ensures b in Indexes(candidates) && b !in compressed
  {
  }

  /** The messages with the guide among them. */
  function WithGuide(messages: seq<Message>, guide: Option<Message>, at: nat): seq<Message> {
    if guide.Some? && at <= |messages| then messages[..at] + [guide.value] + messages[at..] else messages
  }

  /** Derived orientation is added exactly when it fits as well. */
  method AddOrientation(messages: seq<Message>, at: nat, guide: Option<Message>, caller: Caller, cap: nat) returns (r: seq<Message>)
    ensures r == if RequestTokens(WithGuide(messages, guide, at), caller) <= cap then WithGuide(messages, guide, at) else messages
  {
    hide RequestTokens;
    var more := WithGuide(messages, guide, at);
    var total := PlannedTokens(more, caller);
    r := if total <= cap then more else messages;
  }

  /** What a context is built from; `whole` says that all sources fit as they are by the first estimate. */
  datatype Input = Input(sources: nat, whole: bool, base: seq<Message>, evidence: set<nat> -> seq<Message>,
                         readings: set<nat> -> nat -> Option<seq<Turn>>, candidates: seq<Candidate>, again: nat -> int, projected: int, header: nat,
                         guide: Option<Message>, guideAt: nat)

  /** Without sources only the base messages are evidence. */
  function Given(input: Input): set<nat> -> seq<Message> { if input.sources == 0 then _ => input.base else input.evidence }

  /** The tries in their order: all sources whole when they may fit, and then mixed contexts. */
  ghost predicate Course(input: Input, tries: seq<Try>, caller: Caller, cap: nat) {
    && tries != [] && AllHopeless(Given(input), input.readings, tries[..|tries| - 1], caller, cap)
    && FromHistory(Given(input), input.readings, tries[|tries| - 1], caller, cap)
    && (input.sources == 0 ==> |tries| == 1)
    && (input.sources == 0 || input.whole ==> tries[0].compressed == {})
    && (input.sources > 0 ==> MixedFrom(input, tries, if input.whole then 1 else 0, cap))
  }

  /** From try `k` on, sources are compressed one by one, after those that the projection chose. */
  ghost predicate MixedFrom(input: Input, tries: seq<Try>, k: nat, cap: nat) {
    k < |tries| ==>
      && Precompressed(input.candidates, input.projected, input.header, cap, tries[k].compressed)
      && Greedy(input.candidates, input.again, tries[k..])
  }

  /** The evidence of the last try and its history; orientation goes only with all sources whole, and where it fits. */
  ghost predicate FromTry(input: Input, tries: seq<Try>, c: Context, caller: Caller, cap: nat) {
    tries != [] &&
    var t := tries[|tries| - 1];
    exists base ::
      && Assembled(Given(input)(t.compressed), t.selected, caller, cap, base) && base.compressed == t.compressed
      && if input.sources > 0 && input.whole && |tries| == 1 then Oriented(input, base, c, caller, cap) else c == base
  }

  ghost predicate Oriented(input: Input, base: Context, c: Context, caller: Caller, cap: nat) {
    var more := WithGuide(base.messages, input.guide, input.guideAt);
    c == base.(messages := if RequestTokens(more, caller) <= cap then more else base.messages)
  }

  /** The last try leaves no room for the newest exchange, and no source is left to compress. */
  ghost predicate GaveUp(input: Input, tries: seq<Try>, caller: Caller, cap: nat) {
    tries != [] &&
    var t := tries[|tries| - 1];
    Hopeless(Given(input), t, caller, cap) && (input.sources > 0 ==> Covered(input.candidates, t.compressed, input.again))
  }

  lemma {:induction false} AssembledFits(evidence: seq<Message>, selected: Selected, caller: Caller, cap: nat, c: Context)
    requires Assembled(evidence, selected, caller, cap, c)
    ensures RequestTokens(c.messages, caller) <= cap
  {
    hide RequestTokens, FittedInto;
  }

  /** All sources as they are, with orientation where it fits. */
  method BuildWhole(input: Input, plan: Assembly, caller: Caller, cap: nat) returns (r: Outcome, ghost t: Try, ghost base: Context)
    requires plan.Valid() && Readings(input.readings({})) && input.sources > 0
    modifies plan
    ensures plan.Valid() && Continues(plan) && t.compressed == {}
    ensures r.Built? ==> Assembled(Given(input)({}), t.selected, caller, cap, base) && base.compressed == {}
    ensures r.Built? ==> Oriented(input, base, r.context, caller, cap) && RequestTokens(r.context.messages, caller) <= cap
    ensures r.NoContext? ==> Hopeless(Given(input), t, caller, cap)
    ensures r.Unreadable? <==> SomeBroke(plan.rows, plan.current, old(plan.Seen()), plan.Seen())
    ensures !r.Unreadable? ==> FromHistory(Given(input), input.readings, t, caller, cap) && t.now == plan.Stands()
  {
    hide RequestTokens, Whole, Texts, Hopeless, Assembled, FromHistory, Readings, Continues, SomeBroke, WithGuide, Assembly.Visited, Assembly.Counted, Assembly.Told;
    r, t := AssembleWith(Given(input), input.readings, plan, {}, caller, cap);
    base := if r.Built? then r.context else Context([], false, {});
    if !r.Built? { return; }
    AssembledFits(Given(input)({}), t.selected, caller, cap, r.context);
    var messages := AddOrientation(r.context.messages, input.guideAt, input.guide, caller, cap);
    r := Built(r.context.(messages := messages));
  }

  /** Looks for the newest exchange, for the first estimate; history that is limited before one is found is refused. */
  method PlanNewest(plan: Assembly) returns (refused: bool)
    requires plan.Valid()
    modifies plan
    ensures plan.Valid() && Continues(plan)
    ensures !refused && plan.items == [] ==> plan.done && !plan.limited
    ensures refused <==> SomeBroke(plan.rows, plan.current, old(plan.Seen()), plan.Seen()) || (plan.items == [] && plan.limited)
  {
    hide SomeBroke, Assembly.Visited, Assembly.Counted, Assembly.Told;
    var found, failed := plan.At(0);
    refused := failed || (!found && plan.limited);
  }

  /**
   * The whole context or a mixed one. It is unreadable exactly when a row of the conversation broke, or reading was
   * limited before an exchange was found; otherwise every try took its history from the conversation.
   */
  method BuildUnder(input: Input, plan: Assembly, caller: Caller, cap: nat) returns (r: Outcome, ghost tries: seq<Try>)
    requires plan.Valid() && forall c: set<nat> :: Readings(input.readings(c))
    requires RequestTokens(input.base, caller) <= cap
    modifies plan
    ensures plan.Valid() && Continues(plan)
    ensures r.Unreadable? <==> SomeBroke(plan.rows, plan.current, old(plan.Seen()), plan.Seen()) || (plan.items == [] && plan.limited)
    ensures !r.Unreadable? ==> Course(input, tries, caller, cap) && tries[|tries| - 1].now == plan.Stands()
    ensures r.Built? ==> FromTry(input, tries, r.context, caller, cap) && RequestTokens(r.context.messages, caller) <= cap
    ensures r.NoContext? ==> GaveUp(input, tries, caller, cap)
  {
    hide RequestTokens, Whole, Texts, NothingFits, Covered, Tried, Hopeless, Assembled, FromHistory, Readings, SomeBroke, SameRows, Precompressed, Greedy, Oriented, AllHopeless, Given, Assembly.Visited, Assembly.Counted, Assembly.Told;
    tries := [];
    var refused := PlanNewest(plan);
    if refused { return Unreadable, tries; }
    ghost var seen, items := plan.Seen(), plan.items;
    if input.sources == 0 {
      ghost var t;
      r, t := AssembleWith(Given(input), input.readings, plan, {}, caller, cap);
      tries := [t];
      Joins(plan.rows, plan.current, old(plan.Seen()), seen, plan.Seen(), old(plan.items), items, plan.items);
      OneTry(input, t, caller, cap);
      if r.Built? { AssembledFits(Given(input)({}), t.selected, caller, cap, r.context); }
      return;
    }
    ghost var first: seq<Try> := [];
    if input.whole {
      ghost var t, base;
      r, t, base := BuildWhole(input, plan, caller, cap);
      Joins(plan.rows, plan.current, old(plan.Seen()), seen, plan.Seen(), old(plan.items), items, plan.items);
      tries := [t];
      OneTry(input, t, caller, cap);
      if !r.NoContext? { return; }
      first := [t];
      seen, items := plan.Seen(), plan.items;
    }
    ghost var mixed, last;
    assert Given(input) == input.evidence by { GivenSources(input); }
    r, mixed, last := BuildMixed(input.evidence, input.readings, plan, input.candidates, input.again, input.projected, input.header, caller, cap);
    Joins(plan.rows, plan.current, old(plan.Seen()), seen, plan.Seen(), old(plan.items), items, plan.items);
    tries := first + mixed;
    if !r.Unreadable? { AfterWhole(input, first, mixed, caller, cap); }
    if r.Built? { AssembledFits(input.evidence(last.compressed), last.selected, caller, cap, r.context); }
  }

  lemma {:induction false} GivenSources(input: Input)
    requires input.sources > 0
    ensures Given(input) == input.evidence
  {
  }

  lemma {:induction false} Joins(rows: seq<Row>, current: int, from: nat, mid: nat, to: nat, a: seq<Item>, b: seq<Item>, c: seq<Item>)
    requires from <= mid <= to && SameRows(a, b) && SameRows(b, c)
    ensures SomeBroke(rows, current, from, to) <==> SomeBroke(rows, current, from, mid) || SomeBroke(rows, current, mid, to)
    ensures SameRows(a, c) && (b != [] ==> c != [])
  {
    hide SomeBroke;
    BrokeOn(rows, current, from, mid, to);
    RowsOn(a, b, c);
  }

  /** The first try, with no source compressed. */
  lemma {:induction false} OneTry(input: Input, t: Try, caller: Caller, cap: nat)
    requires t.compressed == {} && (input.sources == 0 || input.whole)
    ensures FromHistory(Given(input), input.readings, t, caller, cap) ==> Course(input, [t], caller, cap)
  {
    hide FromHistory, Hopeless, Given, Precompressed, Greedy;
  }

  lemma {:induction false} AfterWhole(input: Input, first: seq<Try>, mixed: seq<Try>, caller: Caller, cap: nat)
    requires input.sources > 0 && |first| == (if input.whole then 1 else 0)
    requires first != [] ==> first[0].compressed == {} && Hopeless(Given(input), first[0], caller, cap) && FromHistory(Given(input), input.readings, first[0], caller, cap)
    requires Tried(Given(input), input.readings, input.candidates, input.again, mixed, caller, cap)
    requires mixed != [] && FromHistory(Given(input), input.readings, mixed[|mixed| - 1], caller, cap)
    requires Precompressed(input.candidates, input.projected, input.header, cap, mixed[0].compressed)
    ensures Course(input, first + mixed, caller, cap)
  {
    hide FromHistory, Hopeless, Given, Precompressed, Greedy;
    var tries := first + mixed;
    assert tries[|first|..] == mixed && tries[..|tries| - 1] == first + mixed[..|mixed| - 1];
  }

  /**
   * Whatever branch builds it, a context is the evidence and the selected history of the last try, under the model's
   * input limit; and it fails only when the instructions are too long, no try has room, or the conversation cannot be read.
   */
  method BuildContext(m: Model, input: Input, plan: Assembly, caller: Caller) returns (r: Outcome, ghost tries: seq<Try>)
    requires plan.Valid() && forall c: set<nat> :: Readings(input.readings(c))
    modifies plan
    ensures plan.Valid() && Continues(plan)
    ensures Rejected(m, input, caller) ==> r.NoContext? && tries == []
    ensures !Rejected(m, input, caller) ==>
              && (r.Unreadable? <==> SomeBroke(plan.rows, plan.current, old(plan.Seen()), plan.Seen()) || (plan.items == [] && plan.limited))
              && (!r.Unreadable? ==> Course(input, tries, caller, InputLimit(m).value) && tries[|tries| - 1].now == plan.Stands())
              && (r.Built? ==> FromTry(input, tries, r.context, caller, InputLimit(m).value) && RequestTokens(r.context.messages, caller) <= InputLimit(m).value)
              && (r.NoContext? ==> GaveUp(input, tries, caller, InputLimit(m).value))
  {
    hide RequestTokens, Whole, Texts, InputLimit, Readings, Course, FromTry, GaveUp, SomeBroke, Assembly.Visited, Assembly.Counted, Assembly.Told;
    tries := [];
    RowsStart(plan.items);
    var limit := InputLimit(m);
    if limit.None? { return NoContext, tries; }
    LimitIsPositive(m);
    var fixed := PlannedTokens(input.base, caller);
    if fixed > limit.value { return NoContext, tries; }
    r, tries := BuildUnder(input, plan, caller, limit.value);
  }

  /** The model has no usable input capacity, or the instructions and the question alone are over it. */
  predicate Rejected(m: Model, input: Input, caller: Caller)
    ensures !Rejected(m, input, caller) ==> InputLimit(m).Some? && InputLimit(m).value > 0
  {
    InputLimit(m).None? || InputLimit(m).value <= 0 || RequestTokens(input.base, caller) > InputLimit(m).value
  }

  lemma {:induction false} LimitIsPositive(m: Model)
    requires InputLimit(m).Some?
    ensures InputLimit(m).value > 0
  {
  }

  /** The check before dispatch: it never refuses a context that assembly returned. */
  method CheckBeforeDispatch(m: Model, messages: seq<Message>, caller: Caller) returns (ok: bool, limit: OutputLimit)
    requires InputLimit(m).Some? && RequestTokens(messages, caller) <= InputLimit(m).value && TokenBound(m) != NoBound
    ensures ok && limit != Unusable && (limit.Unlimited? <==> m.maxOutput.None?)
    ensures limit.AtMost? ==> MayAnswer(m, RequestTokens(messages, caller), limit.tokens)
                              && forall y :: MayAnswer(m, RequestTokens(messages, caller), y) ==> y <= limit.tokens
    ensures limit.AtMost? ==> TokenBound(m).Declared? && RequestTokens(messages, caller) + limit.tokens <= TokenBound(m).tokens
    ensures limit.AtMost? && m.windowTokens.Some? ==> RequestTokens(messages, caller) + limit.tokens <= m.windowTokens.value
  {
    hide RequestTokens;
    var tokens := DispatchedTokens(messages, caller);
    ok := tokens <= InputLimit(m).value;
    limit := MaxOutput(m, tokens);
    OutputStaysWithin(m, tokens);
    OutputIsGreatest(m, tokens);
  }
}
