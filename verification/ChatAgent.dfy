/** The chat object itself: fields that its methods change in place (src/chat.ts). */
module ChatAgent {
  import opened Text
  import opened Chat
  import opened ChatInvariant
  import opened ChatSteps
  import opened ChatTheorems

  class Agent {
    // durable
    var active: Option<Id>
    var queued: Option<Input>
    var stopRequested: bool
    var turns: map<Id, Turn>
    var order: seq<Id>
    var rows: map<Id, Receipt>
    // the instance
    var up: bool
    var writes: nat
    var current: Option<Runner>
    // what happened so far
    ghost var accepted: map<Id, Input>
    ghost var sent: multiset<Id>
    ghost var stopped: set<Id>
    ghost var withdrawn: set<Id>
    ghost var history: seq<Act>

    ghost function View(): Chat
      reads this
    {
      Chat(Desk(active, queued, stopRequested), turns, order, rows, up, writes, current, accepted, sent, stopped, withdrawn)
    }

    /** The fields are what the steps so far lead to from the empty chat. */
    ghost predicate Valid()
      reads this
    {
      View() == Reached(history)
    }

    constructor ()
      ensures View() == NewChat() && history == [] && Valid()
    {
      active, queued, stopRequested := None, None, false;
      turns, order, rows := map[], [], map[];
      up, writes, current := false, 0, None;
      accepted, sent, stopped, withdrawn, history := map[], multiset{}, {}, {}, [];
    }

    // -------------------------------------------------------------- durable writes

    /** A write that the instance does not survive leaves only what was durable. */
    method Spend() returns (ok: bool)
      modifies this
      ensures ok == (old(up) && old(writes) > 0)
      ensures View() == if !old(up) then old(View()) else if old(writes) == 0 then Down(old(View())) else old(View()).(writes := old(writes) - 1)
    {
      ok := up && writes > 0;
      if ok {
        writes := writes - 1;
      } else if up {
        up, current, writes := false, None, 0;
      }
    }

    method WriteTurn(id: Id, turn: Turn)
      modifies this
      ensures View() == Save(old(View()), id, turn)
    {
      var ok := Spend();
      if ok {
        if id !in turns { order := order + [id]; }
        turns := turns[id := turn];
      }
    }

    method ChangeState(nextActive: Option<Id>, nextQueued: Option<Input>, nextStop: bool)
      modifies this
      ensures View() == Move(old(View()), Desk(nextActive, nextQueued, nextStop))
    {
      var ok := Spend();
      if ok {
        active, queued, stopRequested := nextActive, nextQueued, nextStop;
      }
    }

    method Continue(r: Runner)
      modifies this
      ensures View() == Go(old(View()), r)
    {
      if up { current := Some(r); }
    }

    // -------------------------------------------------------------- questions that were not sent

    method PreserveUndispatched(input: Input, why: Problem)
      modifies this
      ensures View() == Preserve(old(View()), input, why)
    {
      if input.turnId in turns {
        var prior := turns[input.turnId];
        var handoff := active == Some(input.turnId) && queued.Some? && queued.value.turnId == input.turnId
                       && prior.receipt.state == Started && prior.answer == "" && prior.receipt.tokenLimit == None
                       && prior.receipt.revisionIds == [];
        if !handoff { return; }
      }
      WriteTurn(input.turnId, Undispatched(input, why));
    }

    method PreserveWaitingQuestion()
      modifies this
      ensures View() == PreserveWaiting(old(View()))
    {
      if queued.Some? && active != Some(queued.value.turnId) {
        PreserveUndispatched(queued.value, PreviousUnsaved);
        ChangeState(active, None, stopRequested);
      }
    }

    method RecoverStoppedHandoff() returns (ok: bool)
      modifies this
      ensures (View(), ok) == RecoverHandoff(old(View()))
    {
      if current.Some? || queued.None? || active != Some(queued.value.turnId) { return true; }
      var id := queued.value.turnId;
      PreserveUndispatched(queued.value, NotSaved);
      if id in turns && turns[id].receipt.state == Started { return false; }
      ChangeState(None, None, false);
      ok := true;
    }

    // -------------------------------------------------------------- settlement

    method UpdateRow(id: Id, next: Receipt, commits: bool)
      modifies this
      ensures View() == Charge(old(View()), id, next, commits)
    {
      if up && commits && id in rows && rows[id].state == Started
         && rows[id].model == next.model && rows[id].scopeMode == next.scopeMode && MayCharge(rows[id], next) {
        rows := rows[id := next.(kind := rows[id].kind)];
      }
    }

    method KeepPending(id: Id, notice: Notice)
      modifies this
      ensures View() == Unsettled(old(View()), id, notice)
    {
      if id in turns && turns[id].pending {
        WriteTurn(id, turns[id].(notice := Some(notice)));
      }
    }

    method Confirm(id: Id, turn: Turn)
      modifies this
      ensures View() == Conclude(old(View()), id, turn)
    {
      var known := turn;
      if id !in rows && Blank(turn) {
        known := turn.(receipt := Zeroed(turn.receipt));
      }
      var matches := id in rows && rows[id] == known.receipt;
      var noAdmission := id !in rows && NoAdmission(known.receipt);
      if matches || noAdmission {
        WriteTurn(id, known.(pending := false, notice := None));
      } else if id in rows && rows[id].state != Started {
        KeepPending(id, UsageMismatch);
      } else {
        KeepPending(id, UsageUnconfirmed);
      }
    }

    method Settle(id: Id, turn: Turn, f: Faults)
      modifies this
      ensures View() == SettleTurn(old(View()), id, turn, f)
    {
      if !up || !turn.pending || turn.receipt.state == Started { return; }
      if !f.answers { KeepPending(id, UsageUnconfirmed); return; }
      var known := turn;
      if id in rows && rows[id].state == Started {
        known := Recovered(turn, rows[id]);
        if !SameOwner(known, rows[id]) { KeepPending(id, UsageMismatch); return; }
        WriteTurn(id, known);
        UpdateRow(id, known.receipt, f.commits);
        if !f.confirms { KeepPending(id, UsageUnconfirmed); return; }
      }
      Confirm(id, known);
    }

    // -------------------------------------------------------------- the recovery pass

    method RecoverOne(id: Id, f: Faults)
      modifies this
      ensures View() == SettleOne(old(View()), id, f)
    {
      if current.Some? && active == Some(id) { return; }
      if id !in turns || !turns[id].pending { return; }
      var turn := turns[id];
      if turn.receipt.state == Started {
        turn := Interrupt(turn);
        WriteTurn(id, turn);
      }
      Settle(id, turn, f);
    }

    method UnblockWaiting()
      modifies this
      ensures View() == Unblock(old(View()))
    {
      if current.None? && active.Some? && !(queued.Some? && queued.value.turnId == active.value) && active.value in turns {
        var turn := turns[active.value];
        if turn.receipt.state != Started || turn.pending { PreserveWaitingQuestion(); }
      }
    }

    method RecoverFinishedTurn(faults: Id -> Faults)
      modifies this
      ensures View() == Pass(old(View()), faults)
    {
      hide Unblock, SettleEach, Release, Reclaim, PendingIn, Without;
      var before := active;
      UnblockWaiting();
      var pending := Take(PendingIn(order, turns), 8);
      var ids := if before.Some? && before.value in turns && turns[before.value].pending
                 then Take([before.value] + Without(pending, before.value), 8) else pending;
      RecoverEach(ids, faults);
      ReleaseAfterPass(before);
      ReclaimAfterPass();
    }

    method RecoverEach(ids: seq<Id>, faults: Id -> Faults)
      modifies this
      ensures View() == SettleEach(old(View()), ids, faults)
    {
      hide SettleEach, SettleOne;
      ghost var c := View();
      var k := 0;
      assert ids[0..] == ids;
      while k < |ids|
        invariant k <= |ids|
        invariant SettleEach(View(), ids[k..], faults) == SettleEach(c, ids, faults)
      {
        NextSettled(View(), ids[k..], faults);
        RecoverOne(ids[k], faults(ids[k]));
        assert ids[k..][1..] == ids[k + 1..];
        k := k + 1;
      }
      NoneSettled(View(), faults);
      assert ids[k..] == [];
    }

    method ReleaseAfterPass(before: Option<Id>)
      modifies this
      ensures View() == Release(old(View()), before)
    {
      if before.Some? && active == before && current.None? && !(queued.Some? && queued.value.turnId == before.value)
         && before.value in turns {
        var turn := turns[before.value];
        if turn.receipt.state != Started && !turn.pending { ChangeState(None, None, false); }
      }
    }

    method ReclaimAfterPass()
      modifies this
      ensures View() == Reclaim(old(View()))
    {
      if current.None? && active.None? {
        var pending := PendingIn(order, turns);
        if pending != [] {
          PreserveWaitingQuestion();
          ChangeState(Some(pending[0]), None, false);
        }
      }
    }

    // -------------------------------------------------------------- start, submit, stop, queue

    method OnStart(faults: Id -> Faults)
      modifies this
      ensures View() == Boot(old(View()), faults)
    {
      if up { return; }
      hide Preserve, Mark, Pass, Move;
      up, current := true, None;
      var waiting := queued;
      var busy := active.Some? || waiting.Some?;
      ghost var woken := View();
      if waiting.Some? { PreserveUndispatched(waiting.value, Restarted); }
      ghost var kept := View();
      assert kept == if woken.desk.queued.Some? then Preserve(woken, woken.desk.queued.value, Restarted) else woken;
      MarkInterrupted();
      ghost var marked := View();
      DeskStays(woken, kept);
      ClearDesk(busy);
      RecoverFinishedTurn(faults);
    }

    /** Only a turn that awaits settlement stays active over a restart. */
    method ClearDesk(busy: bool)
      modifies this
      ensures View() == (if busy then Move(old(View()), Desk(HeldBy(old(View())), None, false)) else old(View()))
    {
      if busy {
        var held := active.Some? && active.value in turns && turns[active.value].pending;
        ChangeState(if held then active else None, None, false);
      }
    }

    method MarkInterrupted()
      modifies this
      ensures View() == Mark(old(View()))
    {
      if active.Some? && active.value in turns {
        var id := active.value;
        var turn := turns[id];
        if turn.receipt.state == Started {
          WriteTurn(id, Interrupt(turn).(pending := true));
        } else if turn.input.None? {
          WriteTurn(id, turn.(pending := true));
        }
      }
    }

    ghost method NoteAccepted(input: Input)
      modifies this
      ensures View() == Accept(old(View()), input)
    {
      if up {
        accepted := accepted[input.turnId := input];
        withdrawn := withdrawn - {input.turnId};
      }
    }

    method Start(input: Input)
      modifies this
      ensures View() == StartTurn(old(View()), input)
    {
      ChangeState(Some(input.turnId), Some(input), false);
      NoteAccepted(input);
      Continue(Begin(input));
    }

    method SubmitTurn(input: Input, wait: bool, faults: Id -> Faults)
      modifies this
      ensures View() == Submit(old(View()), input, wait, faults)
    {
      var ok := RecoverStoppedHandoff();
      if !ok { return; }
      RecoverFinishedTurn(faults);
      if input.turnId in turns || active == Some(input.turnId) { return; }
      if active.None? { Start(input); return; }
      if current.None? && active.value in turns && turns[active.value].notice.Some? { return; }
      if wait || queued.Some? { return; }
      ChangeState(active, Some(input), stopRequested);
      NoteAccepted(input);
    }

    method WithdrawWaiting(id: Id)
      modifies this
      ensures View() == Withdraw(old(View()), id)
    {
      if queued.Some? && queued.value.turnId == id && active != Some(id) {
        ChangeState(active, None, stopRequested);
        ghost var gone := if up then {id} else {};
        withdrawn := withdrawn + gone;
      }
    }

    method AbortActive(id: Id)
      modifies this
      ensures View() == Abort(old(View()), id)
    {
      if active == Some(id) {
        ChangeState(active, queued, true);
        if up {
          ghost var marked := if sent[id] == 0 then {id} else {};
          stopped := stopped + marked;
          if current.Some? && current.value.phase != Validating {
            current := Some(current.value.(aborted := true));
          }
        }
      }
    }

    method StopTurn(id: Id, faults: Id -> Faults)
      modifies this
      ensures View() == Stop(old(View()), id, faults)
    {
      hide RecoverHandoff, Pass, Withdraw, Abort;
      var ok := RecoverStoppedHandoff();
      if !ok { return; }
      RecoverFinishedTurn(faults);
      WithdrawWaiting(id);
      AbortActive(id);
    }

    method Advance(finished: Id)
      modifies this
      ensures View() == AdvanceQueue(old(View()), finished)
    {
      if active != Some(finished) { return; }
      current := None;
      if queued.Some? && queued.value.turnId == finished {
        var ok := RecoverStoppedHandoff();
      } else if finished in turns && turns[finished].pending {
        PreserveWaitingQuestion();
      } else if queued.None? {
        ChangeState(None, None, false);
      } else {
        var next := queued.value;
        ChangeState(Some(next.turnId), Some(next), false);
        Continue(Begin(next));
      }
    }

    // -------------------------------------------------------------- the phases of runTurn

    method Fail(r: Runner, problem: Problem)
      modifies this
      ensures View() == Catch(old(View()), r, problem)
    {
      Continue(Failing(r, r.aborted && stopRequested, problem));
    }

    method Checkpoint(r: Runner)
      modifies this
      ensures View() == Put(old(View()), r)
    {
      WriteTurn(r.id, r.turn);
      Continue(r);
    }

    method ValidateProject(r: Runner, ok: bool)
      modifies this
      ensures View() == Validate(old(View()), r, ok)
    {
      hide Preserve;
      if !ok {
        if queued.Some? && active == Some(r.id) && SameRequest(queued.value, r.input) {
          PreserveUndispatched(queued.value, NotValidated);
          ChangeState(active, None, stopRequested);
        }
        Continue(r.(phase := Ended));
        return;
      }
      if active != Some(r.id) { Continue(r.(phase := Ended)); return; }
      var stop := stopRequested;
      WriteTurn(r.id, NewTurn(r.input));
      if queued.Some? && queued.value.turnId == r.id { ChangeState(active, None, stopRequested); }
      Continue(r.(phase := Choosing, turn := NewTurn(r.input), aborted := stop));
    }

    method ChooseModel(r: Runner, settings: Option<string>, available: bool, problem: Problem)
      modifies this
      ensures View() == Choose(old(View()), r, settings, available, problem)
    {
      hide Catch, Put;
      if settings.None? { Fail(r, problem); return; }
      var named := Named(r, settings.value);
      if !available { Fail(named, problem); return; }
      Checkpoint(Opening(named));
    }

    method SetRow(id: Id, row: Receipt)
      modifies this
      ensures View() == old(View()).(rows := old(rows)[id := row])
    {
      rows := rows[id := row];
    }

    /** The conditional update that claims a started, unreserved row. */
    method Reserve(id: Id, bound: Option<nat>) returns (changed: bool)
      modifies this
      ensures changed == Unreserved(old(View()), id)
      ensures View() == if Unreserved(old(View()), id) then old(View()).(rows := old(rows)[id := Reserved(old(rows)[id], bound)]) else old(View())
    {
      hide Reserved;
      changed := id in rows && rows[id].state == Started && rows[id].kind == None && rows[id].tokenLimit == None;
      if changed { SetRow(id, Reserved(rows[id], bound)); }
    }

    method InsertRow(r: Runner, w: Write, problem: Problem)
      modifies this
      ensures View() == Insert(old(View()), r, w, problem)
    {
      hide Catch, Go, InsertedRow;
      if w == NotCommitted || r.id in rows { Fail(r, problem); return; }
      rows := rows[r.id := InsertedRow(r.turn)];
      if w == ReplyLost { Fail(r, problem); return; }
      Continue(r.(phase := Admitting));
    }

    method AdmitTurn(r: Runner, w: Write, bound: Option<nat>, problem: Problem)
      modifies this
      ensures View() == Admit(old(View()), r, w, bound, problem)
    {
      hide Catch, Put, Reserved, Reserving;
      if w == NotCommitted { Fail(r, problem); return; }
      var changed := Reserve(r.id, bound);
      if !changed || w == ReplyLost { Fail(r, problem); return; }
      Checkpoint(Reserving(r, bound));
    }

    method PrepareContext(r: Runner, plan: Option<Plan>, fits: bool, problem: Problem)
      modifies this
      ensures View() == Prepare(old(View()), r, plan, fits, problem)
    {
      hide Catch, Put, Planned;
      if plan.None? { Fail(r, problem); return; }
      var planned := Planned(r, plan.value);
      if !fits { Fail(planned, problem); return; }
      Checkpoint(planned.(phase := Freezing));
    }

    method FreezeScope(r: Runner, w: Write, problem: Problem)
      modifies this
      ensures View() == Freeze(old(View()), r, w, problem)
    {
      hide Catch, Dispatch, Scoped;
      if w != NotCommitted && r.id in rows && rows[r.id].state == Started {
        SetRow(r.id, Scoped(rows[r.id], r));
      }
      if w != Committed || r.aborted { Fail(r, problem); return; }
      CallModel(r);
    }

    method CallModel(r: Runner)
      modifies this
      ensures View() == Dispatch(old(View()), r)
    {
      if up {
        sent := sent + multiset{r.id};
        Continue(r.(phase := Streaming, dispatched := true));
      }
    }

    method ReceiveText(r: Runner, text: string, ms: Option<nat>, checkpoint: Option<Resolution>)
      modifies this
      ensures View() == Chunk(old(View()), r, text, ms, checkpoint)
    {
      hide Heard, Resolve, Save, Go;
      var heard := Heard(r, text, ms);
      if checkpoint.Some? && !r.aborted { WriteTurn(r.id, Resolve(heard.turn, checkpoint.value)); }
      Continue(heard);
    }

    /** The transport reports that it refused the prompt. */
    method RefusePrompt(r: Runner)
      modifies this
      ensures View() == Refuse(old(View()), r)
    {
      Continue(r.(dispatched := false));
    }

    method BreakStream(r: Runner, usage: Option<Usage>, problem: Problem)
      modifies this
      ensures View() == Break(old(View()), r, usage, problem)
    {
      hide Failing;
      Fail(r.(usage := usage), problem);
    }

    method CompleteStream(r: Runner, answer: string, blank: bool, cut: Option<Problem>, usage: Usage)
      modifies this
      ensures View() == Complete(old(View()), r, answer, blank, cut, usage)
    {
      hide Catch, Go, Answered, Graded;
      var known := Answered(r, answer, usage);
      if r.aborted { Fail(known, StoppedByOwner); return; }
      Continue(Graded(known, blank, cut));
    }

    method FinishTurn(r: Runner, res: Resolution, blank: bool, totalMs: nat)
      modifies this
      ensures View() == Finish(old(View()), r, res, blank, totalMs)
    {
      Checkpoint(Closing(r, res, blank, totalMs));
    }

    method EndRun(r: Runner, f: Faults)
      modifies this
      ensures View() == SettleRun(old(View()), r, f)
    {
      hide SettleTurn, Go;
      Settle(r.id, r.turn, f);
      Continue(r.(phase := Ended));
    }

    // -------------------------------------------------------------- every step

    /** The running turn goes on, when this is what its phase waits for. */
    method Proceed(e: Event)
      requires current.Some?
      modifies this
      ensures View() == RunStep(old(View()), e)
    {
      hide Validate, Choose, Insert, Admit, Prepare, Freeze, Chunk, Refuse, Complete, Break, Finish, SettleRun, AdvanceQueue;
      var r := current.value;
      match e {
        case Validated(ok) => if r.phase == Validating { ValidateProject(r, ok); }
        case Chosen(settings, available, problem) => if r.phase == Choosing { ChooseModel(r, settings, available, problem); }
        case Inserted(w, problem) => if r.phase == Inserting { InsertRow(r, w, problem); }
        case Admitted(w, bound, problem) => if r.phase == Admitting { AdmitTurn(r, w, bound, problem); }
        case Prepared(plan, fits, problem) => if r.phase == Preparing { PrepareContext(r, plan, fits, problem); }
        case Frozen(w, problem) => if r.phase == Freezing { FreezeScope(r, w, problem); }
        case _ => ProceedStream(e);
      }
    }

    /** From the first text on. */
    method ProceedStream(e: Event)
      requires current.Some? && !e.Validated? && !e.Chosen? && !e.Inserted? && !e.Admitted? && !e.Prepared? && !e.Frozen?
      modifies this
      ensures View() == RunStep(old(View()), e)
    {
      hide Chunk, Refuse, Complete, Break, Finish, SettleRun, AdvanceQueue;
      var r := current.value;
      match e {
        case Chunked(text, ms, checkpoint) => if r.phase == Streaming { ReceiveText(r, text, ms, checkpoint); }
        case Refused => if r.phase == Streaming { RefusePrompt(r); }
        case Completes(answer, blank, cut, usage) => if r.phase == Streaming { CompleteStream(r, answer, blank, cut, usage); }
        case Breaks(usage, problem) => if r.phase == Streaming { BreakStream(r, usage, problem); }
        case Finished(res, blank, totalMs) => if r.phase == Finishing { FinishTurn(r, res, blank, totalMs); }
        case Settled(f) => if r.phase == Settling { EndRun(r, f); }
        case RunOver => if r.phase == Ended { Advance(r.id); }
        case _ =>
      }
    }

    method Serve(e: Event)
      requires up
      modifies this
      ensures View() == Served(old(View()), e)
    {
      hide RunStep, Pass, RecoverHandoff, Submit, Stop;
      match e {
        case Crash => up, current, writes := false, None, 0;
        case Read(faults) =>
          var ok := RecoverStoppedHandoff();
          if ok { RecoverFinishedTurn(faults); }
        case Recover(faults) => RecoverFinishedTurn(faults);
        case Submitted(input, wait, faults) => SubmitTurn(input, wait, faults);
        case StopAsked(id, faults) => StopTurn(id, faults);
        case _ => if current.Some? { Proceed(e); }
      }
    }

    /** One step with at most so many durable writes: the object is again in a state of the protocol, one step further. */
    method Perform(e: Event, allowed: nat)
      requires Valid()
      modifies this
      ensures View() == Step(old(View()), e, allowed) && history == old(history) + [Act(e, allowed)]
      ensures Valid() && Inv(View())
    {
      hide Served, Boot, Inv, Run;
      ghost var before := history;
      NextReached(before, e, allowed);
      if up {
        writes := allowed;
        Serve(e);
      } else if e.Booted? {
        writes := allowed;
        OnStart(e.faults);
      }
      history := before + [Act(e, allowed)];
      KeptInv(history);
    }

    /** The object never sends a turn twice. */
    lemma {:induction false} SendsOnce(id: Id)
      requires Valid()
      ensures sent[id] <= 1
    {
      hide Run;
      SentAtMostOnce(history, id);
    }

    /** Every question that the object accepted is saved, waits, or was withdrawn. */
    lemma {:induction false} LosesNothing(id: Id)
      requires Valid() && id in accepted
      ensures (id in turns && turns[id].question == accepted[id].question) || queued == Some(accepted[id]) || id in withdrawn
    {
      hide Run;
      NothingIsLost(history, id);
    }

    /** A finished turn of the object that awaits nothing agrees with its row, or has none and known zero usage. */
    lemma {:induction false} SettledAgrees(id: Id)
      requires Valid() && id in turns && turns[id].receipt.state != Started && !turns[id].pending
      ensures if id in rows then rows[id] == turns[id].receipt else ZeroUsage(turns[id].receipt) && sent[id] == 0
    {
      hide Run;
      SettledTurnAgrees(history, id);
    }
  }

  lemma {:induction false} NextReached(steps: seq<Act>, e: Event, writes: nat)
    ensures Reached(steps + [Act(e, writes)]) == Step(Reached(steps), e, writes)
  {
    hide Step;
    RunOn(NewChat(), steps, [Act(e, writes)]);
    var c := Reached(steps);
    assert [Act(e, writes)][1..] == [];
    assert Run(Step(c, e, writes), []) == Step(c, e, writes);
  }

  lemma {:induction false} KeptInv(steps: seq<Act>)
    ensures Inv(Reached(steps))
  {
    hide Run, Inv;
    EmptyIsGood();
    RunKeeps(NewChat(), steps);
  }

  function HeldBy(c: Chat): Option<Id> {
    if c.desk.active.Some? && c.desk.active.value in c.turns && c.turns[c.desk.active.value].pending then c.desk.active else None
  }

  lemma DeskStays(c: Chat, kept: Chat)
    requires kept == if c.desk.queued.Some? then Preserve(c, c.desk.queued.value, Restarted) else c
    ensures kept.desk == c.desk && Mark(kept).desk == c.desk
  {
  }

  lemma {:induction false} NextSettled(c: Chat, ids: seq<Id>, faults: Id -> Faults)
    requires ids != []
    ensures SettleEach(c, ids, faults) == SettleEach(SettleOne(c, ids[0], faults(ids[0])), ids[1..], faults)
  {
  }

  lemma {:induction false} NoneSettled(c: Chat, faults: Id -> Faults)
    ensures SettleEach(c, [], faults) == c
  {
  }
}
