/** Whole runs of one chat object: a question that is answered, and a turn that stays stuck (src/chat.ts, src/cost.ts). */
module ChatScripts {
  import opened Text
  import opened Chat
  import opened ChatInvariant
  import opened ChatPass
  import opened ChatSteps
  import opened ChatGrowth
  import opened ChatTheorems
  import opened ChatConverge

  const Healthy: Id -> Faults := _ => Faults(true, true, true)

  function Acts(events: seq<Event>): (steps: seq<Act>)
    ensures |steps| == |events| && forall k :: 0 <= k < |steps| ==> steps[k] == Act(events[k], 9)
  {
    seq(|events|, k requires 0 <= k < |events| => Act(events[k], 9))
  }

  function Play(c: Chat, events: seq<Event>): Chat { Run(c, Acts(events)) }

  lemma {:induction false} Next(c: Chat, e: Event, events: seq<Event>)
    ensures Play(c, [e] + events) == Play(Step(c, e, 9), events)
  {
    hide Step;
    assert ([e] + events)[1..] == events;
    assert Acts([e] + events)[1..] == Acts(events);
  }

  lemma {:induction false} Last(c: Chat)
    ensures Play(c, []) == c
  {
  }

  lemma {:induction false} Then(c: Chat, a: seq<Event>, b: seq<Event>)
    ensures Play(c, a + b) == Play(Play(c, a), b)
  {
    hide Run;
    assert Acts(a + b) == Acts(a) + Acts(b);
    RunOn(c, Acts(a), Acts(b));
  }

  // ---------------------------------------------------------------- one turn beside those of an idle chat

  /** The chat `b` runs one more turn. */
  predicate Adds(b: Chat, c: Chat, r: Runner, saved: Turn, row: Option<Receipt>) {
    && c.up && c.desk == Desk(Some(r.id), None, false) && c.turns == b.turns[r.id := saved] && c.run == Some(r)
    && c.rows == (if row.Some? then b.rows[r.id := row.value] else b.rows) && r.id !in b.rows
    && c.sent == (if r.phase in {Streaming, Finishing, Settling, Ended} then b.sent + multiset{r.id} else b.sent)
  }

  lemma StepIsRun(c: Chat, e: Event)
    requires c.up && c.run.Some? && !e.Crash? && !e.Booted? && !e.Read? && !e.Recover? && !e.Submitted? && !e.StopAsked?
    ensures Step(c, e, 9) == RunStep(c.(writes := 9), e)
  {
    hide RunStep;
  }

  lemma ChooseAdds(b: Chat, c: Chat, r: Runner, t: Turn, settings: string)
    requires Adds(b, c, r, t, None) && r.phase == Choosing
    ensures var next := Opening(Named(r, settings)); Adds(b, Step(c, Chosen(Some(settings), true, NotSaved), 9), next, next.turn, None)
  {
    hide Step;
    StepIsRun(c, Chosen(Some(settings), true, NotSaved));
  }

  lemma InsertAdds(b: Chat, c: Chat, r: Runner)
    requires Adds(b, c, r, r.turn, None) && r.phase == Inserting
    ensures var next := r.(phase := Admitting); Adds(b, Step(c, Inserted(Committed, NotSaved), 9), next, next.turn, Some(InsertedRow(r.turn)))
  {
    hide Step;
    StepIsRun(c, Inserted(Committed, NotSaved));
  }

  lemma AdmitAdds(b: Chat, c: Chat, r: Runner, row: Receipt, bound: Option<nat>)
    requires Adds(b, c, r, r.turn, Some(row)) && r.phase == Admitting && row.state == Started && row.kind.None? && row.tokenLimit.None?
    ensures var next := Reserving(r, bound); Adds(b, Step(c, Admitted(Committed, bound, NotSaved), 9), next, next.turn, Some(Reserved(row, bound)))
  {
    hide Step;
    StepIsRun(c, Admitted(Committed, bound, NotSaved));
  }

  lemma PrepareAdds(b: Chat, c: Chat, r: Runner, row: Receipt, plan: Plan)
    requires Adds(b, c, r, r.turn, Some(row)) && r.phase == Preparing
    ensures var next := Planned(r, plan).(phase := Freezing); Adds(b, Step(c, Prepared(Some(plan), true, NotSaved), 9), next, next.turn, Some(row))
  {
    hide Step;
    StepIsRun(c, Prepared(Some(plan), true, NotSaved));
  }

  lemma FreezeAdds(b: Chat, c: Chat, r: Runner, row: Receipt)
    requires Adds(b, c, r, r.turn, Some(row)) && r.phase == Freezing && row.state == Started && !r.aborted && !r.dispatched
    ensures var next := r.(phase := Streaming, dispatched := true);
            Adds(b, Step(c, Frozen(Committed, NotSaved), 9), next, next.turn, Some(Scoped(row, r)))
  {
    hide Step;
    StepIsRun(c, Frozen(Committed, NotSaved));
  }

  /** The question is accepted, its first payload saved, and the turn named, admitted, prepared and sent. */
  function Sending(input: Input, settings: string, bound: Option<nat>, plan: Plan): seq<Event> {
    [Submitted(input, false, Healthy)] + ([Validated(true)] + ([Chosen(Some(settings), true, NotSaved)] + ([Inserted(Committed, NotSaved)] +
     ([Admitted(Committed, bound, NotSaved)] + ([Prepared(Some(plan), true, NotSaved)] + ([Frozen(Committed, NotSaved)] + []))))))
  }

  /** The receipt of a turn that was sent. */
  function SentReceipt(input: Input, settings: string, bound: Option<nat>, plan: Plan): Receipt {
    Receipt(if input.model.Some? then input.model.value else settings, input.scopeMode, plan.revisionIds, plan.contextMode, Started,
            None, None, None, bound, Some(if bound.Some? then Published else Unknown), 0, 0, None, None, None)
  }

  function SentTurn(input: Input, settings: string, bound: Option<nat>, plan: Plan): Turn {
    Turn(input.question, None, "", SentReceipt(input, settings, bound, plan), true, None)
  }

  /** A chat that may take a question at once. */
  predicate Free(c: Chat) { c.up && c.desk.active.None? }

  lemma StartAdds(b: Chat, input: Input)
    requires Inv(b) && Free(b) && input.turnId !in b.turns
    ensures var c := Step(Step(b, Submitted(input, false, Healthy), 9), Validated(true), 9);
            Adds(b, c, Begin(input).(phase := Choosing), NewTurn(input), None)
  {
    hide Inv, Step;
    var ready := b.(writes := 9);
    WritesKeep(b, 9);
    GoodAll(b, 0);
    IdlePass(ready, Healthy);
    HandoffIdle(ready);
    GoodAll(b, input.turnId);
    NoRow(b, input.turnId);
    SubmittedHere(b, input);
    var s := Step(b, Submitted(input, false, Healthy), 9);
    StepIsRun(s, Validated(true));
  }

  lemma NoRow(c: Chat, id: Id)
    requires Good(c, id) && id !in c.turns
    ensures id !in c.rows
  {
  }

  lemma SubmittedHere(b: Chat, input: Input)
    requires Free(b) && b.run.None? && RecoverHandoff(b.(writes := 9)) == (b.(writes := 9), true) && Pass(b.(writes := 9), Healthy) == b.(writes := 9)
    requires input.turnId !in b.turns
    ensures var s := Step(b, Submitted(input, false, Healthy), 9);
            && s.up && s.desk == Desk(Some(input.turnId), Some(input), false) && s.turns == b.turns && s.rows == b.rows && s.sent == b.sent
            && s.run == Some(Begin(input))
  {
    hide Pass, RecoverHandoff;
  }

  /** A recovery pass of a free chat changes nothing. */
  lemma IdlePass(c: Chat, faults: Id -> Faults)
    requires Inv(c) && c.run.None? && c.desk.active.None?
    ensures Pass(c, faults) == c
  {
    hide Inv, Rests, Pass, SettleEach, PassIds;
    GoodRests(c);
    ReclaimGrows(c, faults);
    NothingPending(c, PassIds(c, c.desk.active), faults);
  }

  lemma SendingAdds(b: Chat, input: Input, settings: string, bound: Option<nat>, plan: Plan)
    requires Inv(b) && Free(b) && input.turnId !in b.turns
    ensures var t := SentTurn(input, settings, bound, plan);
            Adds(b, Play(b, Sending(input, settings, bound, plan)), Runner(input.turnId, input, Streaming, t, false, true, None), t, Some(t.receipt))
  {
    hide Step, Adds, Inv, Play, Free;
    var s := Step(b, Submitted(input, false, Healthy), 9);
    var c0, r0 := Step(s, Validated(true), 9), Begin(input).(phase := Choosing);
    StartAdds(b, input);
    ChooseAdds(b, c0, r0, NewTurn(input), settings);
    var c1, r1 := Step(c0, Chosen(Some(settings), true, NotSaved), 9), Opening(Named(r0, settings));
    InsertAdds(b, c1, r1);
    var c2, r2, row := Step(c1, Inserted(Committed, NotSaved), 9), r1.(phase := Admitting), InsertedRow(r1.turn);
    AdmitAdds(b, c2, r2, row, bound);
    var c3, r3 := Step(c2, Admitted(Committed, bound, NotSaved), 9), Reserving(r2, bound);
    PrepareAdds(b, c3, r3, Reserved(row, bound), plan);
    var c4, r4 := Step(c3, Prepared(Some(plan), true, NotSaved), 9), Planned(r3, plan).(phase := Freezing);
    FreezeAdds(b, c4, r4, Reserved(row, bound));
    SendingPath(b, input, settings, bound, plan, c0, c3, Step(c4, Frozen(Committed, NotSaved), 9));
  }

  lemma SendingPath(b: Chat, input: Input, settings: string, bound: Option<nat>, plan: Plan, c0: Chat, c3: Chat, c5: Chat)
    requires c0 == Step(Step(b, Submitted(input, false, Healthy), 9), Validated(true), 9)
    requires c3 == Step(Step(Step(c0, Chosen(Some(settings), true, NotSaved), 9), Inserted(Committed, NotSaved), 9), Admitted(Committed, bound, NotSaved), 9)
    requires c5 == Step(Step(c3, Prepared(Some(plan), true, NotSaved), 9), Frozen(Committed, NotSaved), 9)
    ensures Play(b, Sending(input, settings, bound, plan)) == c5
  {
    hide Step, Play;
    var e7 := [Frozen(Committed, NotSaved)] + [];
    var e6 := [Prepared(Some(plan), true, NotSaved)] + e7;
    var e5 := [Admitted(Committed, bound, NotSaved)] + e6;
    var e4 := [Inserted(Committed, NotSaved)] + e5;
    var e3 := [Chosen(Some(settings), true, NotSaved)] + e4;
    var e2 := [Validated(true)] + e3;
    Next(b, Submitted(input, false, Healthy), e2);
    Next(Step(b, Submitted(input, false, Healthy), 9), Validated(true), e3);
    Next(c0, Chosen(Some(settings), true, NotSaved), e4);
    Next(Step(c0, Chosen(Some(settings), true, NotSaved), 9), Inserted(Committed, NotSaved), e5);
    Next(Step(Step(c0, Chosen(Some(settings), true, NotSaved), 9), Inserted(Committed, NotSaved), 9), Admitted(Committed, bound, NotSaved), e6);
    Next(c3, Prepared(Some(plan), true, NotSaved), e7);
    Next(Step(c3, Prepared(Some(plan), true, NotSaved), 9), Frozen(Committed, NotSaved), []);
    Last(c5);
  }

  // ---------------------------------------------------------------- the answer

  predicate Chunks(events: seq<Event>) { forall k :: 0 <= k < |events| ==> events[k].Chunked? }

  /** When the first text arrived. */
  function FirstMs(chunks: seq<Event>): Option<nat>
    requires Chunks(chunks)
  {
    if chunks == [] then None else if chunks[0].ms.Some? then chunks[0].ms else FirstMs(chunks[1..])
  }

  /** The run has heard some text since it was `r`. */
  predicate HeardSince(r: Runner, n: Runner, first: Option<nat>) {
    var ms := r.turn.receipt.firstTokenMs;
    n == r.(turn := r.turn.(answer := n.turn.answer, receipt := r.turn.receipt.(firstTokenMs := if ms.Some? then ms else first)))
  }

  lemma ChunkAdds(b: Chat, c: Chat, r: Runner, t: Turn, row: Receipt, e: Event) returns (n: Runner, saved: Turn)
    requires Adds(b, c, r, t, Some(row)) && r.phase == Streaming && e.Chunked?
    ensures Adds(b, Step(c, e, 9), n, saved, Some(row)) && HeardSince(r, n, e.ms)
  {
    hide Step, Resolve;
    StepIsRun(c, e);
    n := Heard(r, e.text, e.ms);
    saved := if e.checkpoint.Some? && !r.aborted then Resolve(n.turn, e.checkpoint.value) else t;
    if r.id in c.turns { assert c.turns[r.id := saved] == b.turns[r.id := saved]; }
  }

  lemma {:induction false} ChunksAdd(b: Chat, c: Chat, r: Runner, t: Turn, row: Receipt, chunks: seq<Event>) returns (n: Runner, saved: Turn)
    requires Adds(b, c, r, t, Some(row)) && r.phase == Streaming && Chunks(chunks)
    ensures Adds(b, Play(c, chunks), n, saved, Some(row)) && HeardSince(r, n, FirstMs(chunks))
    decreases |chunks|
  {
    hide Step, Play, Adds;
    if chunks == [] {
      Last(c);
      n, saved := r, t;
    } else {
      var m, u := ChunkAdds(b, c, r, t, row, chunks[0]);
      n, saved := ChunksAdd(b, Step(c, chunks[0], 9), m, u, row, chunks[1..]);
      Next(c, chunks[0], chunks[1..]);
      assert [chunks[0]] + chunks[1..] == chunks;
    }
  }

  lemma CompleteAdds(b: Chat, c: Chat, r: Runner, t: Turn, row: Receipt, answer: string, usage: Usage)
    requires Adds(b, c, r, t, Some(row)) && r.phase == Streaming && !r.aborted
    ensures Adds(b, Step(c, Completes(answer, false, None, usage), 9), Graded(Answered(r, answer, usage), false, None), t, Some(row))
  {
    hide Step;
    StepIsRun(c, Completes(answer, false, None, usage));
  }

  lemma FinishAdds(b: Chat, c: Chat, r: Runner, t: Turn, row: Receipt, res: Resolution, totalMs: nat)
    requires Adds(b, c, r, t, Some(row)) && r.phase == Finishing
    ensures var next := Closing(r, res, false, totalMs); Adds(b, Step(c, Finished(res, false, totalMs), 9), next, next.turn, Some(row))
    ensures Closing(r, res, false, totalMs).id == r.id && Closing(r, res, false, totalMs).phase == Settling
  {
    hide Step, Closing;
    ClosingId(r, res, totalMs);
    StepIsRun(c, Finished(res, false, totalMs));
    var next := Closing(r, res, false, totalMs);
    assert c.turns[r.id := next.turn] == b.turns[r.id := next.turn];
  }

  lemma ClosingId(r: Runner, res: Resolution, totalMs: nat)
    ensures var n := Closing(r, res, false, totalMs); n.id == r.id && n.phase == Settling && n.dispatched == r.dispatched
  {
  }

  /** The row took the admission of the turn and nothing else happened to it. */
  predicate Admits(row: Receipt, t: Receipt) {
    && row.state == Started && row.model == t.model && row.scopeMode == t.scopeMode && row.kind == t.kind && row.tokenLimit == t.tokenLimit
    && row.revisionIds == t.revisionIds && NoTokens(row) && row.kind.Some?
  }

  lemma NothingToFill(t: Turn, row: Receipt)
    requires Admits(row, t.receipt)
    ensures Recovered(t, row) == t
  {
  }

  lemma ConcludeAdds(b: Chat, c: Chat, id: Id, t: Turn)
    requires c.up && c.writes >= 1 && id in c.rows && c.rows[id] == t.receipt
    ensures Conclude(c, id, t) == c.(turns := c.turns[id := t.(pending := false, notice := None)], order := if id in c.turns then c.order else c.order + [id], writes := c.writes - 1)
  {
  }

  lemma SettleAdds(b: Chat, c: Chat, r: Runner, row: Receipt)
    requires Adds(b, c, r, r.turn, Some(row)) && r.phase == Settling && r.turn.pending && Terminal(r.turn.receipt) && Admits(row, r.turn.receipt)
    ensures var t := r.turn.(pending := false, notice := None);
            Adds(b, Step(c, Settled(Faults(true, true, true)), 9), r.(phase := Ended), t, Some(t.receipt))
  {
    hide Step, Recovered, Conclude, Admits;
    StepIsRun(c, Settled(Faults(true, true, true)));
    NothingToFill(r.turn, row);
    var ready := c.(writes := 9);
    var saved := Save(ready, r.id, r.turn);
    assert saved.turns == c.turns && saved.order == c.order && saved.up && saved.writes == 8;
    assert MayCharge(row, r.turn.receipt) && row.state == Started && row.kind == r.turn.receipt.kind
           && row.model == r.turn.receipt.model && row.scopeMode == r.turn.receipt.scopeMode by { Charges(row, r.turn.receipt); }
    var charged := Charge(saved, r.id, r.turn.receipt, true);
    assert charged == saved.(rows := saved.rows[r.id := r.turn.receipt]);
    ConcludeAdds(b, charged, r.id, r.turn);
    assert b.rows[r.id := row][r.id := r.turn.receipt] == b.rows[r.id := r.turn.receipt];
  }

  lemma Charges(row: Receipt, t: Receipt)
    requires Admits(row, t)
    ensures MayCharge(row, t) && row.state == Started && row.kind == t.kind && row.model == t.model && row.scopeMode == t.scopeMode
  {
  }

  lemma OverAdds(b: Chat, c: Chat, r: Runner, t: Turn)
    requires Adds(b, c, r, t, Some(t.receipt)) && r.phase == Ended && !t.pending
    ensures var d := Step(c, RunOver, 9);
            Free(d) && d.turns == b.turns[r.id := t] && d.rows == b.rows[r.id := t.receipt] && d.sent == c.sent
  {
    hide Step;
    StepIsRun(c, RunOver);
  }

  /** The answer comes to a normal end, is resolved, and its turn settles. */
  function Answering(chunks: seq<Event>, answer: string, usage: Usage, res: Resolution, totalMs: nat): seq<Event> {
    chunks + ([Completes(answer, false, None, usage)] + ([Finished(res, false, totalMs)] + ([Settled(Faults(true, true, true))] + ([RunOver] + []))))
  }

  /** What is saved of a turn that was answered. */
  function AnsweredReceipt(input: Input, settings: string, bound: Option<nat>, plan: Plan, first: Option<nat>, usage: Usage, res: Resolution, totalMs: nat): Receipt {
    var error := if res.invalidLabels > 0 then Some(Unverified)
                 else if res.citations == 0 && plan.contextMode != NoContext then Some(Uncited) else None;
    Receipt(if input.model.Some? then input.model.value else settings, input.scopeMode, plan.revisionIds, plan.contextMode,
            if error.Some? then Partial else Completed,
            usage.inputTokens, usage.cachedTokens, usage.outputTokens,
            bound, Some(if bound.Some? then Published else Unknown),
            res.citations, res.invalidLabels, first, Some(totalMs), error)
  }

  lemma ClosingIs(input: Input, settings: string, bound: Option<nat>, plan: Plan, n: Runner, first: Option<nat>, answer: string, usage: Usage, res: Resolution, totalMs: nat)
    requires HeardSince(Runner(input.turnId, input, Streaming, SentTurn(input, settings, bound, plan), false, true, None), n, first)
    ensures Closing(Graded(Answered(n, answer, usage), false, None), res, false, totalMs)
            == Runner(input.turnId, input, Settling,
                      Turn(input.question, None, res.answer, AnsweredReceipt(input, settings, bound, plan, first, usage, res, totalMs), true, None),
                      false, true, Some(usage))
  {
  }

  lemma AdmittedRow(input: Input, settings: string, bound: Option<nat>, plan: Plan, first: Option<nat>, usage: Usage, res: Resolution, totalMs: nat)
    ensures Admits(SentReceipt(input, settings, bound, plan), AnsweredReceipt(input, settings, bound, plan, first, usage, res, totalMs))
    ensures Terminal(AnsweredReceipt(input, settings, bound, plan, first, usage, res, totalMs))
  {
  }

  lemma AnsweringPath(c: Chat, chunks: seq<Event>, answer: string, usage: Usage, res: Resolution, totalMs: nat)
    ensures Play(c, Answering(chunks, answer, usage, res, totalMs))
            == Step(Step(Step(Step(Play(c, chunks), Completes(answer, false, None, usage), 9), Finished(res, false, totalMs), 9),
                         Settled(Faults(true, true, true)), 9), RunOver, 9)
  {
    hide Step, Play;
    var e3 := [Settled(Faults(true, true, true))] + ([RunOver] + []);
    var e2 := [Finished(res, false, totalMs)] + e3;
    var d0 := Play(c, chunks);
    var d1 := Step(d0, Completes(answer, false, None, usage), 9);
    var d2 := Step(d1, Finished(res, false, totalMs), 9);
    var d3 := Step(d2, Settled(Faults(true, true, true)), 9);
    Then(c, chunks, [Completes(answer, false, None, usage)] + e2);
    Next(d0, Completes(answer, false, None, usage), e2);
    Next(d1, Finished(res, false, totalMs), e3);
    Next(d2, Settled(Faults(true, true, true)), [RunOver] + []);
    Next(d3, RunOver, []);
    Last(Step(d3, RunOver, 9));
  }

  lemma {:induction false} AnsweringAdds(b: Chat, c: Chat, input: Input, settings: string, bound: Option<nat>, plan: Plan,
                      chunks: seq<Event>, answer: string, usage: Usage, res: Resolution, totalMs: nat)
    requires Chunks(chunks)
    requires var t := SentTurn(input, settings, bound, plan);
             Adds(b, c, Runner(input.turnId, input, Streaming, t, false, true, None), t, Some(t.receipt))
    ensures var d := Play(c, Answering(chunks, answer, usage, res, totalMs));
            var receipt := AnsweredReceipt(input, settings, bound, plan, FirstMs(chunks), usage, res, totalMs);
            && Free(d) && d.turns == b.turns[input.turnId := Turn(input.question, None, res.answer, receipt, false, None)]
            && d.rows == b.rows[input.turnId := receipt] && d.sent == b.sent + multiset{input.turnId}
  {
    hide Step, Play, Adds, Closing, Graded, AnsweredReceipt, SentReceipt, Admits, HeardSince, Answered, Free;
    var t := SentTurn(input, settings, bound, plan);
    var r := Runner(input.turnId, input, Streaming, t, false, true, None);
    var row := t.receipt;
    var n, saved := ChunksAdd(b, c, r, t, row, chunks);
    var first := FirstMs(chunks);
    assert n.phase == Streaming && !n.aborted by { SinceIs(r, n, first); }
    var d0 := Play(c, chunks);
    CompleteAdds(b, d0, n, saved, row, answer, usage);
    var graded := Graded(Answered(n, answer, usage), false, None);
    var d1 := Step(d0, Completes(answer, false, None, usage), 9);
    assert graded.phase == Finishing by { GradedPhase(Answered(n, answer, usage)); }
    FinishAdds(b, d1, graded, saved, row, res, totalMs);
    ClosingIs(input, settings, bound, plan, n, first, answer, usage, res, totalMs);
    var closing := Closing(graded, res, false, totalMs);
    AdmittedRow(input, settings, bound, plan, first, usage, res, totalMs);
    var d2 := Step(d1, Finished(res, false, totalMs), 9);
    SettleAdds(b, d2, closing, row);
    var d3 := Step(d2, Settled(Faults(true, true, true)), 9);
    var ended := closing.(phase := Ended);
    var final := closing.turn.(pending := false, notice := None);
    assert d3.sent == b.sent + multiset{input.turnId} by { AddsSent(b, d3, ended, final, final.receipt); }
    OverAdds(b, d3, ended, final);
    AnsweringPath(c, chunks, answer, usage, res, totalMs);
  }

  lemma SinceIs(r: Runner, n: Runner, first: Option<nat>)
    requires HeardSince(r, n, first)
    ensures n.phase == r.phase && n.aborted == r.aborted
  {
  }

  lemma GradedPhase(r: Runner)
    ensures Graded(r, false, None).phase == Finishing
  {
  }

  lemma AddsSent(b: Chat, c: Chat, r: Runner, t: Turn, row: Receipt)
    requires Adds(b, c, r, t, Some(row)) && r.phase == Ended
    ensures c.sent == b.sent + multiset{r.id}
  {
  }

  /**
   * Whatever happened before, a chat with no active turn answers a new question in one run when nothing fails: the turn
   * has the question and the answer as resolved, its receipt and the row of D1 are the same in every field, it was sent
   * once, no other turn or row changed, and the chat can take the next question.
   */
  lemma {:induction false} AnsweredTurn(steps: seq<Act>, input: Input, settings: string, bound: Option<nat>, plan: Plan,
                     chunks: seq<Event>, answer: string, usage: Usage, res: Resolution, totalMs: nat)
    requires Free(Reached(steps)) && input.turnId !in Reached(steps).turns && Chunks(chunks)
    ensures var c := Reached(steps);
            var d := Reached(steps + Acts(Sending(input, settings, bound, plan) + Answering(chunks, answer, usage, res, totalMs)));
            var receipt := AnsweredReceipt(input, settings, bound, plan, FirstMs(chunks), usage, res, totalMs);
            && Free(d) && d.turns == c.turns[input.turnId := Turn(input.question, None, res.answer, receipt, false, None)]
            && d.rows == c.rows[input.turnId := receipt] && d.sent == c.sent + multiset{input.turnId}
  {
    hide Run, Inv, Adds, AnsweredReceipt, SentTurn, Free, Sending, Answering;
    var c := Reached(steps);
    ReachedIsGood(steps, 0);
    var sending, answering := Sending(input, settings, bound, plan), Answering(chunks, answer, usage, res, totalMs);
    SendingAdds(c, input, settings, bound, plan);
    AnsweringAdds(c, Play(c, sending), input, settings, bound, plan, chunks, answer, usage, res, totalMs);
    RunOn(NewChat(), steps, Acts(sending + answering));
    Then(c, sending, answering);
  }

  // ---------------------------------------------------------------- a run that leaves a stuck turn

  /** The question is sent and answered in part, and then the transport reports the prompt as refused. */
  function Refusing(): seq<Event> {
    [Chunked("a", Some(1), None)] + ([Refused] + ([Breaks(None, NotSaved)] + ([Finished(Resolution("a", 0, 0), false, 2)] +
     ([Settled(Faults(true, true, true))] + ([RunOver] + [])))))
  }

  lemma RefuseAdds(b: Chat, c: Chat, r: Runner, t: Turn, row: Receipt)
    requires Adds(b, c, r, t, Some(row)) && r.phase == Streaming
    ensures Adds(b, Step(c, Refused, 9), r.(dispatched := false), t, Some(row))
  {
    hide Step;
    StepIsRun(c, Refused);
  }

  lemma BreakAdds(b: Chat, c: Chat, r: Runner, t: Turn, row: Receipt)
    requires Adds(b, c, r, t, Some(row)) && r.phase == Streaming && !r.aborted
    ensures Adds(b, Step(c, Breaks(None, NotSaved), 9), Failing(r.(usage := None), false, NotSaved), t, Some(row))
    ensures Failing(r.(usage := None), false, NotSaved).phase == Finishing
  {
    hide Step;
    StepIsRun(c, Breaks(None, NotSaved));
  }

  /** The settlement is refused, and the end of the run leaves the turn pending and active. */
  lemma EndAdds(b: Chat, c: Chat, r: Runner, row: Receipt)
    requires Adds(b, c, r, r.turn, Some(row)) && r.phase == Settling && r.turn.pending && Terminal(r.turn.receipt) && Stuck(r.turn.receipt, Some(row))
    ensures var d := Step(Step(c, Settled(Faults(true, true, true)), 9), RunOver, 9); d.up && d.run.None? && Blocked(d)
  {
    hide Step, Stuck, SettleTurn;
    var f := Faults(true, true, true);
    StepIsRun(c, Settled(f));
    var ready := c.(writes := 9);
    StuckTurn(ready, r.id, r.turn, f);
    SettleKeepsDesk(ready, r.id, r.turn, f);
    var s := SettleTurn(ready, r.id, r.turn, f);
    var ended := Step(c, Settled(f), 9);
    assert ended == s.(run := Some(r.(phase := Ended)));
    EndBlocked(ended, r);
  }

  lemma EndBlocked(c: Chat, r: Runner)
    requires c.up && c.desk == Desk(Some(r.id), None, false) && c.run == Some(r.(phase := Ended))
    requires r.id in c.turns && c.turns[r.id].pending && Stuck(c.turns[r.id].receipt, FindRow(c, r.id))
    ensures var d := Step(c, RunOver, 9); d.up && d.run.None? && Blocked(d)
  {
    hide Step, Stuck;
    StepIsRun(c, RunOver);
  }

  lemma SettleKeepsDesk(c: Chat, id: Id, t: Turn, f: Faults)
    ensures SettleTurn(c, id, t, f).desk == c.desk
  {
    hide Recovered, Charge, Conclude, Unsettled, SameOwner;
    UnsettledDesk(c, id, UsageUnconfirmed);
    UnsettledDesk(c, id, UsageMismatch);
    ConcludeDesk(c, id, t);
    if id in c.rows {
      var next := Recovered(t, c.rows[id]);
      var charged := Charge(Save(c, id, next), id, next.receipt, f.commits);
      assert charged.desk == c.desk by { ChargeDesk(Save(c, id, next), id, next.receipt, f.commits); }
      ConcludeDesk(charged, id, next);
      UnsettledDesk(charged, id, UsageUnconfirmed);
    }
  }

  lemma ChargeDesk(c: Chat, id: Id, next: Receipt, commits: bool)
    ensures Charge(c, id, next, commits).desk == c.desk
  {
    hide MayCharge;
  }

  /** What the last turn of the run says: the known zero, where the row holds the bound. */
  lemma RefusedLate(r: Runner, bound: Option<nat>)
    requires bound != Some(0)
    ensures var late := Failing(Heard(r, "a", Some(1)).(dispatched := false).(usage := None), false, NotSaved);
            var t := Closing(late, Resolution("a", 0, 0), false, 2).turn;
            && Terminal(t.receipt) && t.pending == r.turn.pending
            && forall row: Receipt :: row.state == Started && row.kind.Some? && row.tokenLimit == bound ==> Stuck(t.receipt, Some(row))
  {
  }

  lemma HeardAdds(b: Chat, c: Chat, r: Runner, t: Turn, row: Receipt)
    requires Adds(b, c, r, t, Some(row)) && r.phase == Streaming
    ensures Adds(b, Step(c, Chunked("a", Some(1), None), 9), Heard(r, "a", Some(1)), t, Some(row))
  {
    hide Step;
    StepIsRun(c, Chunked("a", Some(1), None));
  }

  /** Text, a refusal after it, and the end. */
  lemma RefusingBlocks(b: Chat, c: Chat, r: Runner, row: Receipt, bound: Option<nat>)
    requires Adds(b, c, r, r.turn, Some(row)) && r.phase == Streaming && !r.aborted && r.turn.pending && bound != Some(0)
    requires row.state == Started && row.kind.Some? && row.tokenLimit == bound
    ensures var d := Play(c, Refusing()); d.up && d.run.None? && Blocked(d)
  {
    hide Step, Blocked, Adds, Closing, Failing, Stuck, Play;
    HeardAdds(b, c, r, r.turn, row);
    var c1, r1 := Step(c, Chunked("a", Some(1), None), 9), Heard(r, "a", Some(1));
    RefuseAdds(b, c1, r1, r.turn, row);
    var c2, r2 := Step(c1, Refused, 9), r1.(dispatched := false);
    BreakAdds(b, c2, r2, r.turn, row);
    var c3, r3 := Step(c2, Breaks(None, NotSaved), 9), Failing(r2.(usage := None), false, NotSaved);
    FinishAdds(b, c3, r3, r.turn, row, Resolution("a", 0, 0), 2);
    RefusedLate(r, bound);
    var c4 := Step(c3, Finished(Resolution("a", 0, 0), false, 2), 9);
    EndAdds(b, c4, Closing(r3, Resolution("a", 0, 0), false, 2), row);
    RefusingPath(c, c3);
  }

  lemma RefusingPath(c: Chat, c3: Chat)
    requires c3 == Step(Step(Step(c, Chunked("a", Some(1), None), 9), Refused, 9), Breaks(None, NotSaved), 9)
    ensures Play(c, Refusing()) == Step(Step(Step(c3, Finished(Resolution("a", 0, 0), false, 2), 9), Settled(Faults(true, true, true)), 9), RunOver, 9)
  {
    hide Step, Play;
    var e4 := [Settled(Faults(true, true, true))] + ([RunOver] + []);
    var e3 := [Finished(Resolution("a", 0, 0), false, 2)] + e4;
    var e2 := [Breaks(None, NotSaved)] + e3;
    Next(c, Chunked("a", Some(1), None), [Refused] + e2);
    Next(Step(c, Chunked("a", Some(1), None), 9), Refused, e2);
    Next(Step(Step(c, Chunked("a", Some(1), None), 9), Refused, 9), Breaks(None, NotSaved), e3);
    Next(c3, Finished(Resolution("a", 0, 0), false, 2), e4);
    var c4 := Step(c3, Finished(Resolution("a", 0, 0), false, 2), 9);
    Next(c4, Settled(Faults(true, true, true)), [RunOver] + []);
    Next(Step(c4, Settled(Faults(true, true, true)), 9), RunOver, []);
    Last(Step(Step(c4, Settled(Faults(true, true, true)), 9), RunOver, 9));
  }

  /** There are such runs: from every chat with no active turn, whatever is asked and whatever bound is admitted. */
  lemma SomeRunIsStuck(steps: seq<Act>, input: Input, settings: string, bound: Option<nat>, plan: Plan)
    requires Free(Reached(steps)) && input.turnId !in Reached(steps).turns && bound != Some(0)
    ensures var d := Reached(steps + Acts(Sending(input, settings, bound, plan) + Refusing())); d.up && d.run.None? && Blocked(d)
  {
    hide Run, Inv, Adds, Blocked, Free, Sending, Refusing;
    var c := Reached(steps);
    ReachedIsGood(steps, 0);
    var sending := Sending(input, settings, bound, plan);
    var t := SentTurn(input, settings, bound, plan);
    SendingAdds(c, input, settings, bound, plan);
    RefusingBlocks(c, Play(c, sending), Runner(input.turnId, input, Streaming, t, false, true, None), t.receipt, bound);
    RunOn(NewChat(), steps, Acts(sending + Refusing()));
    Then(c, sending, Refusing());
  }

  /** The first restart makes a new chat free. */
  lemma {:induction false} BootIsFree()
    ensures Free(Reached(Acts([Booted(Healthy)])))
  {
    hide Step;
    Next(NewChat(), Booted(Healthy), []);
    assert [Booted(Healthy)] + [] == [Booted(Healthy)];
    Last(Step(NewChat(), Booted(Healthy), 9));
    FirstBoot();
  }

  lemma FirstBoot()
    ensures Free(Step(NewChat(), Booted(Healthy), 9))
  {
  }
}
