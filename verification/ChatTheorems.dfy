/** What the chat protocol promises over every run of steps from an empty chat (src/chat.ts, src/cost.ts). */
module ChatTheorems {
  import opened Text
  import opened Chat
  import opened ChatInvariant
  import opened ChatPass
  import opened ChatSteps
  import opened ChatGrowth

  function Reached(steps: seq<Act>): Chat { Run(NewChat(), steps) }

  lemma ReachedIsGood(steps: seq<Act>, id: Id)
    ensures Inv(Reached(steps)) && Good(Reached(steps), id)
  {
    hide Good;
    EmptyIsGood();
    RunKeeps(NewChat(), steps);
    assert Good(Reached(steps), id);
  }

  lemma {:induction false} RunOn(c: Chat, steps: seq<Act>, more: seq<Act>)
    ensures Run(c, steps + more) == Run(Run(c, steps), more)
    decreases |steps|
  {
    hide Step;
    if steps == [] {
      assert steps + more == more;
    } else {
      assert (steps + more)[0] == steps[0] && (steps + more)[1..] == steps[1..] + more;
      RunOn(Step(c, steps[0].event, steps[0].writes), steps[1..], more);
    }
  }

  // ---------------------------------------------------------------- dispatch

  /** Over every run, with crashes before any durable write and lost D1 replies, a turn is sent to the model at most once. */
  lemma SentAtMostOnce(steps: seq<Act>, id: Id)
    ensures Reached(steps).sent[id] <= 1
  {
    hide Inv, Run;
    ReachedIsGood(steps, id);
  }

  /** A turn that was sent holds the admission of its row for good. */
  lemma SentIsAdmitted(steps: seq<Act>, id: Id)
    requires Reached(steps).sent[id] == 1
    ensures id in Reached(steps).rows && Reached(steps).rows[id].kind.Some?
  {
    hide Inv, Run;
    ReachedIsGood(steps, id);
  }

  /** While the claimed question is retained it was neither admitted nor sent, and nothing but its first payload was saved. */
  lemma RetainedIsUndispatched(steps: seq<Act>)
    requires var c := Reached(steps); c.desk.queued.Some? && c.desk.active == Some(c.desk.queued.value.turnId)
    ensures var c := Reached(steps);
            var q := c.desk.queued.value;
            && q.turnId !in c.rows && c.sent[q.turnId] == 0
            && (q.turnId in c.turns ==> c.turns[q.turnId] == NewTurn(q) || Kept(c.turns[q.turnId]))
  {
    hide Inv, Run;
    ReachedIsGood(steps, Reached(steps).desk.queued.value.turnId);
  }

  // ---------------------------------------------------------------- accepted questions

  /** An accepted question is in the table under its own text, or durably queued as it came, or the owner withdrew it. */
  lemma NothingIsLost(steps: seq<Act>, id: Id)
    requires id in Reached(steps).accepted
    ensures var c := Reached(steps);
            || (id in c.turns && c.turns[id].question == c.accepted[id].question)
            || c.desk.queued == Some(c.accepted[id])
            || id in c.withdrawn
  {
    hide Inv, Run;
    ReachedIsGood(steps, id);
  }

  /** A withdrawn question left no trace: no turn, no row, nothing sent. */
  lemma WithdrawnIsUntouched(steps: seq<Act>, id: Id)
    requires id in Reached(steps).withdrawn
    ensures var c := Reached(steps); id !in c.turns && id !in c.rows && c.sent[id] == 0 && !Waiting(c, id)
  {
    hide Inv, Run;
    ReachedIsGood(steps, id);
  }

  // ---------------------------------------------------------------- settlement

  /** Only the active turn can await settlement. */
  lemma PendingTurnIsActive(steps: seq<Act>, id: Id)
    requires id in Reached(steps).turns && Reached(steps).turns[id].pending
    ensures Reached(steps).desk.active == Some(id)
  {
    hide Inv, Run;
    ReachedIsGood(steps, id);
  }

  /** A finished turn that awaits nothing agrees with its row in every field, or has no row and known zero usage. */
  lemma SettledTurnAgrees(steps: seq<Act>, id: Id)
    requires var c := Reached(steps); id in c.turns && c.turns[id].receipt.state != Started && !c.turns[id].pending
    ensures var c := Reached(steps);
            if id in c.rows then c.rows[id] == c.turns[id].receipt
            else ZeroUsage(c.turns[id].receipt) && c.turns[id].receipt.kind == None && c.sent[id] == 0
  {
    hide Inv, Run;
    ReachedIsGood(steps, id);
  }

  /** A row that ended the turn says what the turn says, even while the turn still awaits confirmation. */
  lemma TerminalRowIsTheTurn(steps: seq<Act>, id: Id)
    requires var c := Reached(steps); id in c.rows && c.rows[id].state != Started
    ensures var c := Reached(steps); id in c.turns && c.turns[id].receipt == c.rows[id]
  {
    hide Inv, Run;
    ReachedIsGood(steps, id);
  }

  /** Whatever happens later: terminal rows stay as they are, and with them the turns' receipts; turns stay; known counts stay known. */
  lemma NothingKnownIsTakenBack(steps: seq<Act>, more: seq<Act>, id: Id)
    ensures var c, d := Reached(steps), Reached(steps + more);
            && GrowsRow(FindRow(c, id), FindRow(d, id)) && GrowsTurn(Find(c, id), Find(d, id)) && c.sent[id] <= d.sent[id]
    ensures var c, d := Reached(steps), Reached(steps + more);
            id in c.rows && c.rows[id].state != Started ==> id in d.turns && d.turns[id].receipt == c.rows[id]
  {
    hide Inv, Run, GrowsRow, GrowsTurn;
    GrowsOn(steps, more, id);
    var c, d := Reached(steps), Reached(steps + more);
    if id in c.rows && c.rows[id].state != Started {
      assert d.rows[id] == c.rows[id] && id in d.rows by { RowStays(FindRow(c, id), FindRow(d, id)); }
      TerminalRowIsTheTurn(steps + more, id);
    }
  }

  lemma RowStays(a: Option<Receipt>, b: Option<Receipt>)
    requires GrowsRow(a, b) && a.Some? && a.value.state != Started
    ensures b == a
  {
  }

  lemma GrowsOn(steps: seq<Act>, more: seq<Act>, id: Id)
    ensures GrowsAt(Reached(steps), Reached(steps + more), id)
  {
    hide Inv, Run, GrowsAt;
    ReachedIsGood(steps, id);
    RunOn(NewChat(), steps, more);
    RunGrows(Reached(steps), more);
  }

  // ---------------------------------------------------------------- one run, in order, stoppable

  /** A live run belongs to the active turn, and an idle chat is active only for a turn that is saved and awaits settlement. */
  lemma RunIsActive(steps: seq<Act>)
    requires Reached(steps).up
    ensures var c := Reached(steps);
            && (c.run.Some? ==> c.desk.active == Some(c.run.value.id))
            && (c.run.None? && c.desk.active.Some? ==> c.desk.active.value in c.turns && c.turns[c.desk.active.value].pending)
            && (c.run.None? ==> c.desk.queued.None?)
  {
    hide Run;
    var c := Reached(steps);
    ReachedIsGood(steps, 0);
    if c.desk.active.Some? { assert Good(c, c.desk.active.value); }
  }

  /** A stop that was accepted for the active turn before it was sent keeps it from ever being sent. */
  lemma StopIsEffective(steps: seq<Act>, id: Id, faults: Id -> Faults, writes: nat, more: seq<Act>)
    requires var c := Reached(steps + [Act(StopAsked(id, faults), writes)]);
             Reached(steps).up && c.up && c.desk.active == Some(id) && c.sent[id] == 0
    ensures Reached(steps + [Act(StopAsked(id, faults), writes)] + more).sent[id] == 0
  {
    hide Reached, GrowsAt, Good, Inv;
    var ask := [Act(StopAsked(id, faults), writes)];
    StopIsNoted(steps, id, faults, writes);
    GrowsOn(steps + ask, more, id);
    ReachedIsGood(steps + ask + more, id);
    StopsStay(Reached(steps + ask), Reached(steps + ask + more), id);
    StoppedIsUnsent(Reached(steps + ask + more), id);
  }

  lemma StopsStay(c: Chat, d: Chat, id: Id)
    requires GrowsAt(c, d, id) && id in c.stopped
    ensures id in d.stopped
  {
  }

  lemma StopIsNoted(steps: seq<Act>, id: Id, faults: Id -> Faults, writes: nat)
    requires var c := Reached(steps + [Act(StopAsked(id, faults), writes)]);
             Reached(steps).up && c.up && c.desk.active == Some(id) && c.sent[id] == 0
    ensures id in Reached(steps + [Act(StopAsked(id, faults), writes)]).stopped
  {
    hide Inv, Run, Good, Stop;
    var ask := [Act(StopAsked(id, faults), writes)];
    RunOn(NewChat(), steps, ask);
    OneStep(Reached(steps), ask[0]);
    ReachedIsGood(steps, id);
    WritesKeep(Reached(steps), writes);
    StopMarks(Reached(steps).(writes := writes), id, faults);
  }

  lemma {:induction false} OneStep(c: Chat, m: Act)
    ensures Run(c, [m]) == Step(c, m.event, m.writes)
  {
    hide Step;
    assert [m][1..] == [];
    assert Run(Step(c, m.event, m.writes), []) == Step(c, m.event, m.writes);
  }

  lemma StopMarks(c: Chat, id: Id, faults: Id -> Faults)
    requires Inv(c) && c.up
    requires var s := Stop(c, id, faults); s.up && s.desk.active == Some(id) && s.sent[id] == 0
    ensures id in Stop(c, id, faults).stopped
  {
    hide Inv, Pass;
    HandoffIdle(c);
    var w := Withdraw(Pass(c, faults), id);
    AbortMarks(w, id);
  }

  lemma AbortMarks(c: Chat, id: Id)
    requires var s := Abort(c, id); s.up && s.desk.active == Some(id) && s.sent[id] == 0
    ensures id in Abort(c, id).stopped
  {
  }

  lemma StoppedIsUnsent(c: Chat, id: Id)
    requires Good(c, id) && id in c.stopped
    ensures c.sent[id] == 0
  {
  }

  // ---------------------------------------------------------------- no overtaking

  /** After a step the waiting question waits on, is the one that runs, is saved as a turn, or was withdrawn. */
  predicate StillFirst(c: Chat, q: Input) {
    || c.desk.queued == Some(q)
    || q.turnId in c.turns
    || q.turnId in c.withdrawn
  }

  /** A new run belongs to the waiting question. */
  predicate NotOvertaken(c: Chat, d: Chat, q: Input) {
    d.run.Some? ==> d.run.value.id == q.turnId || (c.run.Some? && d.run.value.id == c.run.value.id)
  }

  /** A phase of the run leaves the queue alone and starts no other run. */
  predicate OwnAffair(c: Chat, d: Chat, r: Runner) {
    d.desk == c.desk && d.withdrawn == c.withdrawn && (d.run.Some? ==> d.run.value.id == r.id)
  }

  lemma PutIsOwn(c: Chat, r: Runner)
    requires c.run.Some? && c.run.value.id == r.id
    ensures OwnAffair(c, Put(c, r), r)
  {
  }

  lemma SettleIsOwn(c: Chat, r: Runner, f: Faults)
    requires c.run == Some(r)
    ensures OwnAffair(c, SettleRun(c, r, f), r)
  {
    hide Conclude, Unsettled, Recovered, SameOwner, MayCharge;
    forall c: Chat, n: Notice ensures Unsettled(c, r.id, n).desk == c.desk && Unsettled(c, r.id, n).withdrawn == c.withdrawn
                && (Unsettled(c, r.id, n).run.Some? ==> Unsettled(c, r.id, n).run == c.run) { UnsettledDesk(c, r.id, n); }
    forall c: Chat, t: Turn ensures Conclude(c, r.id, t).desk == c.desk && Conclude(c, r.id, t).withdrawn == c.withdrawn
                && (Conclude(c, r.id, t).run.Some? ==> Conclude(c, r.id, t).run == c.run) { ConcludeDesk(c, r.id, t); }
  }

  lemma UnsettledDesk(c: Chat, id: Id, n: Notice)
    ensures var s := Unsettled(c, id, n); s.desk == c.desk && s.withdrawn == c.withdrawn && (s.run.Some? ==> s.run == c.run)
  {
  }

  lemma ConcludeDesk(c: Chat, id: Id, t: Turn)
    ensures var s := Conclude(c, id, t); s.desk == c.desk && s.withdrawn == c.withdrawn && (s.run.Some? ==> s.run == c.run)
  {
    hide Unsettled, Blank, NoAdmission;
    UnsettledDesk(c, id, UsageMismatch);
    UnsettledDesk(c, id, UsageUnconfirmed);
  }

  lemma CatchIsOwn(c: Chat, r: Runner, problem: Problem)
    requires c.run.Some? && c.run.value.id == r.id
    ensures OwnAffair(c, Catch(c, r, problem), r)
  {
  }

  lemma PhaseIsOwn(c: Chat, e: Event)
    requires c.run.Some? && c.run.value.phase != Validating && c.run.value.phase != Ended
    ensures OwnAffair(c, RunStep(c, e), c.run.value)
  {
    hide Choose, Insert, Admit, Prepare, Freeze, Chunk, Refuse, Complete, Break, Finish, SettleRun;
    var r := c.run.value;
    match e {
      case Chosen(settings, available, problem) => ChooseIsOwn(c, r, settings, available, problem);
      case Inserted(w, problem) => InsertIsOwn(c, r, w, problem);
      case Admitted(w, bound, problem) => AdmitIsOwn(c, r, w, bound, problem);
      case Prepared(plan, fits, problem) => PrepareIsOwn(c, r, plan, fits, problem);
      case Frozen(w, problem) => FreezeIsOwn(c, r, w, problem);
      case Settled(f) => SettleIsOwn(c, r, f);
      case _ => StreamIsOwn(c, e);
    }
  }

  lemma ChooseIsOwn(c: Chat, r: Runner, settings: Option<string>, available: bool, problem: Problem)
    requires c.run == Some(r)
    ensures OwnAffair(c, Choose(c, r, settings, available, problem), r)
  {
    hide Catch, Put;
    CatchIsOwn(c, r, problem);
    if settings.Some? {
      CatchIsOwn(c, Named(r, settings.value), problem);
      PutIsOwn(c, Opening(Named(r, settings.value)));
    }
  }

  lemma InsertIsOwn(c: Chat, r: Runner, w: Write, problem: Problem)
    requires c.run == Some(r)
    ensures OwnAffair(c, Insert(c, r, w, problem), r)
  {
    hide Catch, InsertedRow;
    CatchIsOwn(c, r, problem);
    CatchIsOwn(c.(rows := c.rows[r.id := InsertedRow(r.turn)]), r, problem);
  }

  lemma AdmitIsOwn(c: Chat, r: Runner, w: Write, bound: Option<nat>, problem: Problem)
    requires c.run == Some(r)
    ensures OwnAffair(c, Admit(c, r, w, bound, problem), r)
  {
    hide Catch, Put, Reserved;
    CatchIsOwn(c, r, problem);
    if Unreserved(c, r.id) {
      var wrote := c.(rows := c.rows[r.id := Reserved(c.rows[r.id], bound)]);
      CatchIsOwn(wrote, r, problem);
      PutIsOwn(wrote, Reserving(r, bound));
    }
  }

  lemma PrepareIsOwn(c: Chat, r: Runner, plan: Option<Plan>, fits: bool, problem: Problem)
    requires c.run == Some(r)
    ensures OwnAffair(c, Prepare(c, r, plan, fits, problem), r)
  {
    hide Catch, Put;
    CatchIsOwn(c, r, problem);
    if plan.Some? {
      CatchIsOwn(c, Planned(r, plan.value), problem);
      PutIsOwn(c, Planned(r, plan.value).(phase := Freezing));
    }
  }

  lemma FreezeIsOwn(c: Chat, r: Runner, w: Write, problem: Problem)
    requires c.run == Some(r)
    ensures OwnAffair(c, Freeze(c, r, w, problem), r)
  {
    hide Catch, Scoped;
    CatchIsOwn(c, r, problem);
    if r.id in c.rows { CatchIsOwn(c.(rows := c.rows[r.id := Scoped(c.rows[r.id], r)]), r, problem); }
  }

  lemma StreamIsOwn(c: Chat, e: Event)
    requires c.run.Some? && !e.Chosen? && !e.Inserted? && !e.Admitted? && !e.Prepared? && !e.Frozen? && !e.Settled?
    requires c.run.value.phase != Validating && c.run.value.phase != Ended
    ensures OwnAffair(c, RunStep(c, e), c.run.value)
  {
    hide Catch, Put, Save, Resolve;
    var r := c.run.value;
    match e {
      case Chunked(text, ms, checkpoint) =>
        if checkpoint.Some? { SaveStays(c, r.id, Resolve(Heard(r, text, ms).turn, checkpoint.value)); }
      case Completes(answer, blank, cut, usage) => CatchIsOwn(c, Answered(r, answer, usage), StoppedByOwner);
      case Breaks(usage, problem) => CatchIsOwn(c, r.(usage := usage), problem);
      case Finished(res, blank, totalMs) => PutIsOwn(c, Closing(r, res, blank, totalMs));
      case _ =>
    }
  }

  lemma SaveStays(c: Chat, id: Id, t: Turn)
    ensures Save(c, id, t).desk == c.desk && Save(c, id, t).withdrawn == c.withdrawn && (Save(c, id, t).run.Some? ==> Save(c, id, t).run == c.run)
  {
  }

  lemma PreservesTurn(c: Chat, q: Input, why: Problem)
    requires c.up && c.desk.queued == Some(q)
    ensures var s := Preserve(c, q, why); s.desk == c.desk && (s.up ==> q.turnId in s.turns && s.run == c.run) && (!s.up ==> s.run.None?)
  {
  }

  lemma AdvanceOrder(c: Chat, r: Runner, q: Input)
    requires Shape(c) && c.run == Some(r) && c.up && c.desk.queued == Some(q) && q.turnId != r.id
    ensures StillFirst(AdvanceQueue(c, r.id), q) && NotOvertaken(c, AdvanceQueue(c, r.id), q)
  {
    hide Preserve;
    PreservesTurn(c.(run := None), q, PreviousUnsaved);
  }

  lemma RunOrder(c: Chat, e: Event, q: Input)
    requires Inv(c) && c.run.Some? && c.desk.queued == Some(q) && c.desk.active != Some(q.turnId)
    ensures StillFirst(RunStep(c, e), q) && NotOvertaken(c, RunStep(c, e), q)
  {
    hide Inv, Good, RunStep, AdvanceQueue, Validate;
    var r := c.run.value;
    GoodAll(c, r.id);
    if r.phase == Validating {
      NotBoth(c, r, q);
    } else if r.phase == Ended {
      assert RunStep(c, e) == (if e.RunOver? then AdvanceQueue(c, r.id) else c) by { EndedStep(c, e); }
      AdvanceOrder(c, r, q);
    } else {
      PhaseIsOwn(c, e);
    }
  }

  lemma EndedStep(c: Chat, e: Event)
    requires c.run.Some? && c.run.value.phase == Ended
    ensures RunStep(c, e) == if e.RunOver? then AdvanceQueue(c, c.run.value.id) else c
  {
  }

  lemma NotBoth(c: Chat, r: Runner, q: Input)
    requires Shape(c) && Good(c, r.id) && c.run == Some(r) && r.phase == Validating && c.desk.queued == Some(q)
    ensures c.desk.active == Some(q.turnId)
  {
  }

  lemma BootOrder(c: Chat, q: Input, faults: Id -> Faults)
    requires Inv(c) && !c.up && c.desk.queued == Some(q)
    ensures StillFirst(Boot(c, faults), q) && Boot(c, faults).run.None?
  {
    hide FaceOf, Durable, Move, Mark, Preserve, Pass, AtRest, Good, Grows;
    var woken := c.(up := true, run := None);
    var kept := Preserve(woken, q, Restarted);
    PreservesTurn(woken, q, Restarted);
    var marked := Mark(kept);
    var d := Desk(HeldActive(marked), None, false);
    var cleared := Move(marked, d);
    forall j: Id ensures Shape(cleared) && cleared.run.None? && marked.desk == c.desk && AtRest(cleared, j) {
      KeptOnBoot(c, woken, kept, j);
      if c.desk.active.Some? { KeptOnBoot(c, woken, kept, c.desk.active.value); }
      MarkKeeps(kept, j);
      ClearKeeps(marked, j);
    }
    assert AtRest(cleared, 0);
    PassKeeps(cleared, faults);
    MarkGrows(kept);
    MoveGrows(marked, d);
    PassGrows(cleared, faults);
    GrowsTwice(kept, marked, cleared);
    GrowsTwice(kept, cleared, Pass(cleared, faults));
    if kept.up {
      TurnStays(kept, Boot(c, faults), q.turnId);
    } else {
      GoneMarks(kept);
      GoneMoves(kept, d);
      PassWhenDown(kept, faults);
    }
  }

  lemma PassWhenDown(c: Chat, faults: Id -> Faults)
    requires Rests(c) && !c.up
    ensures Pass(c, faults) == c
  {
    hide AtRest, Unblock, SettleEach, PassIds, Reclaim;
    UnblockIdle(c);
    SettleEachIdle(c, PassIds(c, c.desk.active), faults);
    GoneReleases(c);
    ReclaimIdle(c);
  }

  lemma TurnStays(c: Chat, d: Chat, id: Id)
    requires Grows(c, d) && id in c.turns
    ensures id in d.turns
  {
    assert GrowsAt(c, d, id);
  }

  lemma AbortOrder(c: Chat, id: Id, q: Input)
    requires StillFirst(c, q)
    ensures StillFirst(Abort(c, id), q) && (Abort(c, id).run.Some? ==> c.run.Some? && Abort(c, id).run.value.id == c.run.value.id)
  {
  }

  lemma WithdrawOrder(c: Chat, id: Id, q: Input)
    requires c.desk.queued == Some(q)
    ensures StillFirst(Withdraw(c, id), q) && (Withdraw(c, id).run.Some? ==> Withdraw(c, id).run == c.run)
  {
  }

  lemma DecideOrder(c: Chat, input: Input, wait: bool)
    requires c.desk.queued.Some? && c.desk.active.Some?
    ensures Decide(c, input, wait) == c
  {
  }

  lemma ServedOrder(c: Chat, e: Event, q: Input)
    requires Inv(c) && c.up && c.desk.queued == Some(q) && c.desk.active != Some(q.turnId)
    ensures StillFirst(Served(c, e), q) && NotOvertaken(c, Served(c, e), q)
  {
    hide Inv, Pass, RecoverHandoff, RunStep, Decide, Withdraw, Abort;
    GoodAll(c, 0);
    HandoffIdle(c);
    match e {
      case Crash =>
      case Read(faults) => PassWhileRunning(c, faults);
      case Recover(faults) => PassWhileRunning(c, faults);
      case Submitted(input, wait, faults) => PassWhileRunning(c, faults); DecideOrder(c, input, wait);
      case StopAsked(id, faults) =>
        PassWhileRunning(c, faults);
        WithdrawOrder(c, id, q);
        AbortOrder(Withdraw(c, id), id, q);
      case _ => RunOrder(c, e, q);
    }
  }

  /**
   * No step lets a later question pass the waiting one: it goes on waiting, or is saved as a turn, or is
   * withdrawn; and the only run a step can start is its own.
   */
  lemma WaitingQuestionIsNext(steps: seq<Act>, e: Event, writes: nat)
    requires var c := Reached(steps); c.desk.queued.Some? && c.desk.active != Some(c.desk.queued.value.turnId)
    ensures var c, d := Reached(steps), Step(Reached(steps), e, writes);
            StillFirst(d, c.desk.queued.value) && NotOvertaken(c, d, c.desk.queued.value)
  {
    hide Inv, Run, Served, Boot, StillFirst;
    var c := Reached(steps);
    var q := c.desk.queued.value;
    ReachedIsGood(steps, q.turnId);
    WritesKeep(c, writes);
    if c.up {
      ServedOrder(c.(writes := writes), e, q);
    } else if e.Booted? {
      BootOrder(c.(writes := writes), q, e.faults);
    } else {
      assert StillFirst(c, q) by { Waits(c, q); }
      GoodAll(c, 0);
    }
  }

  lemma Waits(c: Chat, q: Input)
    requires c.desk.queued == Some(q)
    ensures StillFirst(c, q)
  {
  }
}
