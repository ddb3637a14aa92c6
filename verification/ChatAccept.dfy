/** What the chat object does with a question, a stop and the end of a run, in every reached state (src/chat.ts). */
module ChatAccept {
  import opened Text
  import opened Chat
  import opened ChatInvariant
  import opened ChatPass
  import opened ChatSteps
  import opened ChatGrowth
  import opened ChatTheorems
  import opened ChatConverge
  import opened ChatScripts

  function One(e: Event, writes: nat): seq<Act> { [Act(e, writes)] }

  /** The saved turns, their rows and what was sent stay. */
  predicate StoreStays(c: Chat, d: Chat) { d.turns == c.turns && d.order == c.order && d.rows == c.rows && d.sent == c.sent }

  /** A run of the question begins, and the question is retained until its first payload is saved. */
  predicate Starts(c: Chat, d: Chat, input: Input) {
    && d.up && d.desk == Desk(Some(input.turnId), Some(input), false) && StoreStays(c, d)
    && d.run.Some? && d.run.value.id == input.turnId && d.run.value.input == input && d.run.value.phase == Validating
    && input.turnId in d.accepted && d.accepted[input.turnId] == input
  }

  /** Nothing durable changed, and the run goes on as it was. */
  predicate Unchanged(c: Chat, d: Chat) {
    d.up == c.up && d.desk == c.desk && StoreStays(c, d) && d.run == c.run && d.accepted == c.accepted && d.withdrawn == c.withdrawn
  }

  lemma StepFrom(steps: seq<Act>, e: Event, writes: nat)
    ensures Reached(steps + One(e, writes)) == Step(Reached(steps), e, writes)
    ensures Inv(Reached(steps))
  {
    hide Step, Inv;
    RunOn(NewChat(), steps, One(e, writes));
    OneStep(Reached(steps), Act(e, writes));
    ReachedIsGood(steps, 0);
  }

  /** A submit with nothing left to recover is decided at once. */
  lemma Decided(c: Chat, input: Input, wait: bool, faults: Id -> Faults, writes: nat)
    requires Inv(c) && c.up && (c.run.Some? || c.desk.active.None?)
    ensures Step(c, Submitted(input, wait, faults), writes) == Decide(c.(writes := writes), input, wait)
  {
    hide Inv, Pass, RecoverHandoff, Decide;
    var ready := c.(writes := writes);
    WritesKeep(c, writes);
    HandoffIdle(ready);
    GoodAll(c, 0);
    if c.run.Some? { PassWhileRunning(ready, faults); } else { IdlePass(ready, faults); }
  }

  /** A new question to a chat with no active turn starts a run. */
  lemma SubmitStarts(steps: seq<Act>, input: Input, wait: bool, faults: Id -> Faults, writes: nat)
    requires Free(Reached(steps)) && input.turnId !in Reached(steps).turns && writes > 0
    ensures Starts(Reached(steps), Reached(steps + One(Submitted(input, wait, faults), writes)), input)
  {
    hide Inv, Run, Step, Decide;
    var c := Reached(steps);
    StepFrom(steps, Submitted(input, wait, faults), writes);
    Decided(c, input, wait, faults, writes);
    DecidesToStart(c, input, wait, writes);
  }

  lemma DecidesToStart(c: Chat, input: Input, wait: bool, writes: nat)
    requires Free(c) && input.turnId !in c.turns && writes > 0
    ensures Starts(c, Decide(c.(writes := writes), input, wait), input)
  {
  }

  /**
   * While a turn runs, a new question is queued exactly when its caller does not wait for an answer and none is queued
   * yet; any other submit changes nothing.
   */
  lemma SubmitWhileRunning(steps: seq<Act>, input: Input, wait: bool, faults: Id -> Faults, writes: nat)
    requires Reached(steps).run.Some? && writes > 0
    ensures var c, d := Reached(steps), Reached(steps + One(Submitted(input, wait, faults), writes));
            if input.turnId !in c.turns && input.turnId != c.run.value.id && !wait && c.desk.queued.None?
            then d.up && d.desk == c.desk.(queued := Some(input)) && StoreStays(c, d) && d.run == c.run
                 && d.accepted == c.accepted[input.turnId := input]
            else Unchanged(c, d)
  {
    hide Inv, Run, Step, Decide;
    var c := Reached(steps);
    StepFrom(steps, Submitted(input, wait, faults), writes);
    GoodAll(c, 0);
    Decided(c, input, wait, faults, writes);
    DecidesToQueue(c, input, wait, writes);
  }

  lemma DecidesToQueue(c: Chat, input: Input, wait: bool, writes: nat)
    requires Shape(c) && c.run.Some? && writes > 0
    ensures var d := Decide(c.(writes := writes), input, wait);
            if input.turnId !in c.turns && input.turnId != c.run.value.id && !wait && c.desk.queued.None?
            then d.up && d.desk == c.desk.(queued := Some(input)) && StoreStays(c, d) && d.run == c.run
                 && d.accepted == c.accepted[input.turnId := input]
            else Unchanged(c, d)
  {
  }

  /**
   * When the active turn has no run any more, a new question starts a run once that turn is settled: with a working D1
   * this is so exactly when the turn is not stuck; a stuck one keeps the question out.
   */
  lemma SubmitAfterFailure(steps: seq<Act>, input: Input, wait: bool, faults: Id -> Faults, writes: nat)
    requires Reached(steps).up && Reached(steps).run.None? && input.turnId !in Reached(steps).turns && writes >= 4 && forall id :: Works(faults(id))
    ensures var c, d := Reached(steps), Reached(steps + One(Submitted(input, wait, faults), writes));
            if Blocked(c) then d.up && d.run.None? && d.desk.queued.None? && Blocked(d)
            else d.up && d.run.Some? && d.run.value.id == input.turnId && d.run.value.phase == Validating
                 && d.desk == Desk(Some(input.turnId), Some(input), false) && input.turnId in d.accepted && d.accepted[input.turnId] == input
  {
    hide Inv, Run, Step, Decide, Pass, AllLinked, Works, Blocked, Good;
    var c, e := Reached(steps), Submitted(input, wait, faults);
    StepFrom(steps, e, writes);
    var ready := c.(writes := writes);
    WritesKeep(c, writes);
    HandoffIdle(ready);
    EmptyIsGood();
    NewIsLinked(false);
    RunLinks(false, NewChat(), steps);
    SameLinks(false, c, ready);
    assert Blocked(ready) == Blocked(c) by { SameBlock(c, ready); }
    var p := Pass(ready, faults);
    GoodRests(ready);
    GoodAll(c, 0);
    PassKeeps(ready, faults);
    GoodAll(p, 0);
    assert Step(c, e, writes) == Decide(p, input, wait) by { SubmitsAfter(c, input, wait, faults, writes); }
    if Blocked(c) {
      StuckStays(ready, faults);
      BlockedIsActive(p);
      GoodAll(p, p.desk.active.value);
      BlockedRefuses(p, input, wait);
    } else {
      PassSettles(false, ready, faults);
      DecidesNow(p, input, wait);
    }
  }

  lemma SubmitsAfter(c: Chat, input: Input, wait: bool, faults: Id -> Faults, writes: nat)
    requires c.up && RecoverHandoff(c.(writes := writes)) == (c.(writes := writes), true)
    ensures Step(c, Submitted(input, wait, faults), writes) == Decide(Pass(c.(writes := writes), faults), input, wait)
  {
    hide Decide, Pass, RecoverHandoff;
  }

  lemma BlockedIsActive(p: Chat)
    requires Blocked(p)
    ensures p.desk.active.Some?
  {
  }

  lemma BlockedRefuses(p: Chat, input: Input, wait: bool)
    requires p.up && p.run.None? && Blocked(p) && Good(p, p.desk.active.value)
    ensures Decide(p, input, wait) == p
  {
    hide Stuck;
  }

  lemma DecidesNow(p: Chat, input: Input, wait: bool)
    requires Free(p) && input.turnId !in p.turns && p.writes > 0
    ensures Starts(p, Decide(p, input, wait), input)
  {
  }

  // ---------------------------------------------------------------- stop

  /** A stop withdraws a waiting question, and aborts the run of the active turn unless it is still being validated. */
  lemma StopWhileRunning(steps: seq<Act>, id: Id, faults: Id -> Faults, writes: nat)
    requires Reached(steps).run.Some? && writes > 0
    ensures var c, d := Reached(steps), Reached(steps + One(StopAsked(id, faults), writes));
            if c.run.value.id == id then
              && d.up && d.desk == c.desk.(stopRequested := true) && StoreStays(c, d) && d.accepted == c.accepted && d.withdrawn == c.withdrawn
              && d.run == Some(c.run.value.(aborted := c.run.value.aborted || c.run.value.phase != Validating))
            else if Waiting(c, id) then
              && d.up && d.desk == c.desk.(queued := None) && StoreStays(c, d) && d.run == c.run && d.withdrawn == c.withdrawn + {id}
            else Unchanged(c, d)
  {
    hide Inv, Run, Step;
    var c := Reached(steps);
    StepFrom(steps, StopAsked(id, faults), writes);
    GoodAll(c, 0);
    var ready := c.(writes := writes);
    WritesKeep(c, writes);
    HandoffIdle(ready);
    PassWhileRunning(ready, faults);
    StopsHere(c, id, faults, writes);
  }

  lemma StopsHere(c: Chat, id: Id, faults: Id -> Faults, writes: nat)
    requires Shape(c) && c.run.Some? && writes > 0
    requires var ready := c.(writes := writes); RecoverHandoff(ready) == (ready, true) && Pass(ready, faults) == ready
    ensures var d := Step(c, StopAsked(id, faults), writes);
            if c.run.value.id == id then
              && d.up && d.desk == c.desk.(stopRequested := true) && StoreStays(c, d) && d.accepted == c.accepted && d.withdrawn == c.withdrawn
              && d.run == Some(c.run.value.(aborted := c.run.value.aborted || c.run.value.phase != Validating))
            else if Waiting(c, id) then
              && d.up && d.desk == c.desk.(queued := None) && StoreStays(c, d) && d.run == c.run && d.withdrawn == c.withdrawn + {id}
            else Unchanged(c, d)
  {
    hide RecoverHandoff, Pass;
  }

  // ---------------------------------------------------------------- the end of a run

  /** A question that is kept without being sent: its text, and nothing used. */
  predicate KeptUnsent(d: Chat, q: Input) {
    && q.turnId in d.turns && d.turns[q.turnId].question == q.question && d.turns[q.turnId].answer == "" && !d.turns[q.turnId].pending
    && d.turns[q.turnId].receipt.state == Failed && ZeroUsage(d.turns[q.turnId].receipt)
  }

  /**
   * When a run is over: if its turn is settled, the waiting question starts its run, or the chat becomes free; if its
   * turn still awaits settlement, it stays active and the waiting question is kept unsent.
   */
  lemma EndOfRun(steps: seq<Act>, writes: nat)
    requires At(Reached(steps), Ended) && writes >= 2
    ensures var c, d := Reached(steps), Reached(steps + One(RunOver, writes));
            var id, queued := c.run.value.id, c.desk.queued;
            && id in c.turns && d.up && d.rows == c.rows && d.sent == c.sent
            && if c.turns[id].pending then
                 && d.run.None? && d.desk.active == Some(id) && d.desk.queued.None?
                 && (queued.None? ==> d.turns == c.turns) && (queued.Some? ==> KeptUnsent(d, queued.value))
               else
                 && d.turns == c.turns
                 && if queued.None? then d.run.None? && d.desk == Desk(None, None, false)
                    else d.desk == Desk(Some(queued.value.turnId), queued, false) && d.run.Some? && d.run.value.id == queued.value.turnId
                         && d.run.value.input == queued.value && d.run.value.phase == Validating
  {
    hide Inv, Run, Step, Good;
    var c := Reached(steps);
    var r := c.run.value;
    StepFrom(steps, RunOver, writes);
    GoodAll(c, r.id);
    EndedIs(c, r);
    if c.desk.queued.Some? { GoodAll(c, c.desk.queued.value.turnId); WaitingIs(c, c.desk.queued.value); }
    RunOverHere(c, r, writes);
  }

  lemma EndedIs(c: Chat, r: Runner)
    requires Good(c, r.id) && Shape(c) && c.up && c.run == Some(r) && r.phase == Ended
    ensures r.id in c.turns && c.desk.active == Some(r.id) && !Waiting(c, r.id)
  {
  }

  lemma WaitingIs(c: Chat, q: Input)
    requires Good(c, q.turnId) && c.up && c.desk.queued == Some(q) && c.desk.active != Some(q.turnId)
    ensures q.turnId !in c.turns
  {
  }

  lemma RunOverHere(c: Chat, r: Runner, writes: nat)
    requires c.up && c.run == Some(r) && r.phase == Ended && writes >= 2 && r.id in c.turns && c.desk.active == Some(r.id) && !Waiting(c, r.id)
    requires c.desk.queued.Some? ==> c.desk.queued.value.turnId !in c.turns
    ensures var d, id, queued := Step(c, RunOver, writes), r.id, c.desk.queued;
            && d.up && d.rows == c.rows && d.sent == c.sent
            && if c.turns[id].pending then
                 && d.run.None? && d.desk.active == Some(id) && d.desk.queued.None?
                 && (queued.None? ==> d.turns == c.turns) && (queued.Some? ==> KeptUnsent(d, queued.value))
               else
                 && d.turns == c.turns
                 && if queued.None? then d.run.None? && d.desk == Desk(None, None, false)
                    else d.desk == Desk(Some(queued.value.turnId), queued, false) && d.run.Some? && d.run.value.id == queued.value.turnId
                         && d.run.value.input == queued.value && d.run.value.phase == Validating
  {
  }

  // ---------------------------------------------------------------- restart and recovery

  /** The turn was interrupted: it keeps its text, and is partial exactly when it has some. */
  predicate WasInterrupted(before: Turn, after: Turn) {
    && after.question == before.question && after.answer == before.answer
    && after.receipt.state == (if before.answer != "" then Partial else Failed) && after.receipt.error == Some(Interrupted)
  }

  /** A restart ends the turn that was running when the instance was gone, with the text that was saved. */
  lemma RestartInterrupts(steps: seq<Act>, faults: Id -> Faults, writes: nat)
    requires var c := Reached(steps);
             !c.up && c.desk.active.Some? && c.desk.active.value in c.turns && c.turns[c.desk.active.value].receipt.state == Started
             && !Waiting(c, c.desk.active.value)
    requires writes >= 2
    ensures var c, d := Reached(steps), Reached(steps + One(Booted(faults), writes));
            var id := c.desk.active.value;
            id in d.turns && WasInterrupted(c.turns[id], d.turns[id])
  {
    hide Inv, Run, Step, Boot, Good, Grows;
    var c, e := Reached(steps), Booted(faults);
    var id := c.desk.active.value;
    StepFrom(steps, e, writes);
    var ready := c.(writes := writes);
    WritesKeep(c, writes);
    assert Step(c, e, writes) == Boot(ready, faults) by { StepBoots(c, faults, writes); }
    var marked := BootMarks(ready, faults);
    MarkedStays(marked, Boot(ready, faults), id);
  }

  lemma StepBoots(c: Chat, faults: Id -> Faults, writes: nat)
    requires !c.up
    ensures Step(c, Booted(faults), writes) == Boot(c.(writes := writes), faults)
  {
    hide Boot;
  }

  lemma BootMarks(c: Chat, faults: Id -> Faults) returns (marked: Chat)
    requires Inv(c) && !c.up && c.desk.active.Some? && c.desk.active.value in c.turns && c.turns[c.desk.active.value].receipt.state == Started
    requires !Waiting(c, c.desk.active.value) && c.writes >= 2
    ensures Grows(marked, Boot(c, faults)) && c.desk.active.value in marked.turns
    ensures marked.turns[c.desk.active.value] == Interrupt(c.turns[c.desk.active.value]).(pending := true)
  {
    hide FaceOf, Durable, Move, Preserve, Pass, AtRest, Good, Grows, Inv, Interrupt;
    var woken := c.(up := true, run := None);
    var kept := if c.desk.queued.Some? then Preserve(woken, c.desk.queued.value, Restarted) else woken;
    if c.desk.queued.Some? { PreserveLeaves(woken, c.desk.queued.value, c.desk.active.value); }
    marked := Mark(kept);
    var d := Desk(HeldActive(marked), None, false);
    var cleared := Move(marked, d);
    forall j: Id ensures Shape(cleared) && cleared.run.None? && marked.desk == c.desk && AtRest(cleared, j) {
      KeptOnBoot(c, woken, kept, j);
      KeptOnBoot(c, woken, kept, c.desk.active.value);
      MarkKeeps(kept, j);
      ClearKeeps(marked, j);
    }
    assert AtRest(cleared, 0);
    MoveGrows(marked, d);
    PassGrows(cleared, faults);
    GrowsTwice(marked, cleared, Pass(cleared, faults));
  }

  lemma PreserveLeaves(c: Chat, q: Input, id: Id)
    requires c.up && c.writes >= 2 && q.turnId != id && c.desk.queued == Some(q)
    ensures var s := Preserve(c, q, Restarted);
            s.up && s.writes >= 1 && s.desk == c.desk && s.run == c.run && Find(s, id) == Find(c, id)
  {
  }

  lemma MarkedStays(marked: Chat, d: Chat, id: Id)
    requires Grows(marked, d) && id in marked.turns && Terminal(marked.turns[id].receipt)
    ensures id in d.turns && SameAnswer(marked.turns[id], d.turns[id]) && d.turns[id].question == marked.turns[id].question
  {
    assert GrowsAt(marked, d, id);
  }

  /** What settling makes of a receipt: gaps are filled from an open row; a turn without a row used nothing. */
  predicate Fills(t: Receipt, row: Option<Receipt>, u: Receipt) {
    if row.None? then u == t.(tokenLimit := Some(0), inputTokens := Some(0), cachedTokens := Some(0), outputTokens := Some(0))
    else if row.value.state != Started then u == t && t == row.value
    else
      && u.state == t.state && u.error == t.error && u.scopeMode == t.scopeMode && u.citations == t.citations
      && u.invalidLabels == t.invalidLabels && u.firstTokenMs == t.firstTokenMs && u.totalMs == t.totalMs
      && u.model == (if t.model == "" then row.value.model else t.model)
      && u.kind == (if t.kind.Some? then t.kind else row.value.kind)
      && u.tokenLimit == (if t.tokenLimit.Some? then t.tokenLimit else row.value.tokenLimit)
      && u.inputTokens == (if t.inputTokens.Some? then t.inputTokens else row.value.inputTokens)
      && u.cachedTokens == (if t.cachedTokens.Some? then t.cachedTokens else row.value.cachedTokens)
      && u.outputTokens == (if t.outputTokens.Some? then t.outputTokens else row.value.outputTokens)
      && (if t.revisionIds == [] && row.value.revisionIds != [] then u.revisionIds == row.value.revisionIds && u.contextMode == row.value.contextMode
          else u.revisionIds == t.revisionIds && u.contextMode == t.contextMode)
  }

  lemma RecoveredFills(t: Turn, row: Receipt)
    requires row.state == Started
    ensures Fills(t.receipt, Some(row), Recovered(t, row).receipt) && Recovered(t, row).receipt.state == t.receipt.state
  {
  }

  lemma ConcludeFills(c: Chat, id: Id, t: Turn)
    requires c.up && c.writes >= 1 && t.pending
    requires FindRow(c, id) == Some(t.receipt) || (id !in c.rows && t.receipt.kind == None && (Blank(t) || ZeroUsage(t.receipt)))
    ensures var s := Conclude(c, id, t);
            id in s.turns && !s.turns[id].pending && s.rows == c.rows
            && if id in c.rows then s.turns[id].receipt == t.receipt else Fills(t.receipt, None, s.turns[id].receipt)
  {
  }

  lemma SettleFills(h: bool, c: Chat, id: Id, t: Turn, f: Faults)
    requires c.up && c.writes >= 2 && Works(f) && Find(c, id) == Some(t) && t.pending && Terminal(t.receipt)
    requires Linked(h, t, FindRow(c, id)) && !Stuck(t.receipt, FindRow(c, id)) && (id in c.rows && Terminal(c.rows[id]) ==> c.rows[id] == t.receipt)
    ensures var s := SettleTurn(c, id, t, f);
            id in s.turns && Fills(t.receipt, FindRow(c, id), s.turns[id].receipt)
            && (id in c.rows ==> id in s.rows && s.rows[id] == s.turns[id].receipt) && (id !in c.rows ==> id !in s.rows)
  {
    hide Conclude, Recovered, Unsettled, Blank, ZeroUsage, Fits, MayCharge, Stuck, Fills;
    if id in c.rows && c.rows[id].state == Started {
      var next := Recovered(t, c.rows[id]);
      RecoveredLinked(h, t, c.rows[id]);
      RecoveredFills(t, c.rows[id]);
      var charged := Charge(Save(c, id, next), id, next.receipt, true);
      assert charged.rows[id] == next.receipt;
      ConcludeFills(charged, id, next);
    } else {
      ConcludeFills(c, id, t);
      if id in c.rows { assert Fills(t.receipt, FindRow(c, id), t.receipt) by { SameFills(t.receipt); } }
    }
  }

  lemma SameFills(t: Receipt)
    requires Terminal(t)
    ensures Fills(t, Some(t), t)
  {
  }

  /**
   * When a pass with a working D1 settles the active turn, what the turn knows stays, what it does not know is taken
   * from its open row, and the row then says the same; a turn without a row has used nothing.
   */
  lemma RecoveryFills(steps: seq<Act>, faults: Id -> Faults, writes: nat)
    requires Reached(steps).up && Reached(steps).run.None? && Reached(steps).desk.active.Some? && !Blocked(Reached(steps))
    requires writes >= 3 && forall id :: Works(faults(id))
    ensures var c, d := Reached(steps), Reached(steps + One(Recover(faults), writes));
            var id := c.desk.active.value;
            && id in c.turns && id in d.turns && Fills(c.turns[id].receipt, FindRow(c, id), d.turns[id].receipt)
            && (id in c.rows ==> id in d.rows && d.rows[id] == d.turns[id].receipt) && (id !in c.rows ==> id !in d.rows)
  {
    hide Inv, AllLinked, Run, Step, Pass, Works, Good, Blocked, SettleTurn, Linked, Fills, Stuck;
    var c := Reached(steps);
    var id := c.desk.active.value;
    StepFrom(steps, Recover(faults), writes);
    EmptyIsGood();
    NewIsLinked(false);
    RunLinks(false, NewChat(), steps);
    var ready := c.(writes := writes);
    WritesKeep(c, writes);
    SameLinks(false, c, ready);
    assert Blocked(ready) == Blocked(c) by { SameBlock(c, ready); }
    PassSettles(false, ready, faults);
    HolderIs(ready);
    AllIn(false, ready, id);
    FreeOfStuck(ready);
    SettleFills(false, ready, id, ready.turns[id], faults(id));
    assert Step(c, Recover(faults), writes) == Pass(ready, faults) by { StepRecovers(c, faults, writes); }
  }

  lemma FreeOfStuck(c: Chat)
    requires c.desk.active.Some? && c.desk.active.value in c.turns && !Blocked(c)
    ensures !Stuck(c.turns[c.desk.active.value].receipt, FindRow(c, c.desk.active.value))
  {
    hide Stuck;
  }

  lemma StepRecovers(c: Chat, faults: Id -> Faults, writes: nat)
    requires c.up
    ensures Step(c, Recover(faults), writes) == Pass(c.(writes := writes), faults)
  {
    hide Pass;
  }
}
