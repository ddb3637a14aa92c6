/** What no step of the chat protocol takes back: turns, rows, known counts, dispatches, stops. */
module ChatGrowth {
  import opened Text
  import opened Chat
  import opened ChatInvariant
  import opened ChatPass
  import opened ChatSteps

  predicate Stays<T>(a: Option<T>, b: Option<T>) { a.Some? ==> b.Some? }

  /** A count that was known is still known. */
  predicate Counts(a: Receipt, b: Receipt) {
    && Stays(a.inputTokens, b.inputTokens) && Stays(a.cachedTokens, b.cachedTokens)
    && Stays(a.outputTokens, b.outputTokens) && Stays(a.tokenLimit, b.tokenLimit)
  }

  predicate GrowsRow(a: Option<Receipt>, b: Option<Receipt>) {
    a.Some? ==> b.Some? && Counts(a.value, b.value) && (Terminal(a.value) ==> b == a)
  }

  predicate GrowsTurn(a: Option<Turn>, b: Option<Turn>) {
    a.Some? ==>
      && b.Some? && b.value.question == a.value.question && Counts(a.value.receipt, b.value.receipt)
      && (Terminal(a.value.receipt) ==> SameAnswer(a.value, b.value))
  }

  /** The answer, how it ended and what it cites are the same. */
  predicate SameAnswer(a: Turn, b: Turn) {
    && b.answer == a.answer && b.input == a.input && b.receipt.state == a.receipt.state && b.receipt.error == a.receipt.error
    && b.receipt.citations == a.receipt.citations && b.receipt.invalidLabels == a.receipt.invalidLabels
    && b.receipt.scopeMode == a.receipt.scopeMode && b.receipt.firstTokenMs == a.receipt.firstTokenMs && b.receipt.totalMs == a.receipt.totalMs
  }

  predicate GrowsAt(c: Chat, d: Chat, id: Id) {
    && GrowsTurn(Find(c, id), Find(d, id)) && GrowsRow(FindRow(c, id), FindRow(d, id))
    && c.sent[id] <= d.sent[id] && (id in c.stopped ==> id in d.stopped)
  }

  ghost predicate Grows(c: Chat, d: Chat) { forall id: Id :: GrowsAt(c, d, id) }

  lemma GrowsTwice(c: Chat, d: Chat, e: Chat)
    requires Grows(c, d) && Grows(d, e)
    ensures Grows(c, e)
  {
    forall id: Id ensures GrowsAt(c, e, id) { assert GrowsAt(c, d, id) && GrowsAt(d, e, id); }
  }

  lemma Unchanged(c: Chat, d: Chat)
    requires d.turns == c.turns && d.rows == c.rows && d.sent == c.sent && c.stopped <= d.stopped
    ensures Grows(c, d)
  {
    forall id: Id ensures GrowsAt(c, d, id) { }
  }

  lemma SaveGrows(c: Chat, id: Id, t: Turn)
    requires GrowsTurn(Find(c, id), Some(t))
    ensures Grows(c, Save(c, id, t))
  {
    var d := Save(c, id, t);
    forall j: Id ensures GrowsAt(c, d, j) { }
  }

  lemma RowGrows(c: Chat, id: Id, row: Receipt)
    requires GrowsRow(FindRow(c, id), Some(row))
    ensures Grows(c, c.(rows := c.rows[id := row]))
  {
    var d := c.(rows := c.rows[id := row]);
    forall j: Id ensures GrowsAt(c, d, j) { }
  }

  lemma MoveGrows(c: Chat, d: Desk)
    ensures Grows(c, Move(c, d))
  {
    Unchanged(c, Move(c, d));
  }

  lemma GoGrows(c: Chat, r: Runner)
    ensures Grows(c, Go(c, r))
  {
    Unchanged(c, Go(c, r));
  }

  lemma PutGrows(c: Chat, r: Runner)
    requires GrowsTurn(Find(c, r.id), Some(r.turn))
    ensures Grows(c, Put(c, r))
  {
    hide Grows, Save, Go;
    SaveGrows(c, r.id, r.turn);
    GoGrows(Save(c, r.id, r.turn), r);
    GrowsTwice(c, Save(c, r.id, r.turn), Put(c, r));
  }

  lemma CatchGrows(c: Chat, r: Runner, problem: Problem)
    ensures Grows(c, Catch(c, r, problem))
  {
    GoGrows(c, Failing(r, r.aborted && c.desk.stopRequested, problem));
  }

  lemma ThenCatch(c: Chat, d: Chat, r: Runner, problem: Problem)
    requires Grows(c, d)
    ensures Grows(c, Catch(d, r, problem))
  {
    hide Grows, Catch;
    CatchGrows(d, r, problem);
    GrowsTwice(c, d, Catch(d, r, problem));
  }

  // ---------------------------------------------------------------- questions that were not sent

  lemma PreserveGrows(c: Chat, q: Input, why: Problem)
    requires c.desk.queued == Some(q) && Durable(FaceOf(c, q.turnId))
    ensures Grows(c, Preserve(c, q, why))
  {
    hide Grows, Save, Durable;
    Unchanged(c, c);
    RunFace(c, q.turnId);
    if q.turnId in c.turns { QueuedTurn(FaceOf(c, q.turnId), q); }
    if q.turnId !in c.turns || c.turns[q.turnId] == NewTurn(q) { SaveGrows(c, q.turnId, Undispatched(q, why)); }
  }

  lemma PreserveWaitingGrows(c: Chat)
    requires c.desk.queued.Some? ==> Durable(FaceOf(c, c.desk.queued.value.turnId))
    ensures Grows(c, PreserveWaiting(c))
  {
    hide Grows, Preserve, Move;
    Unchanged(c, c);
    if c.desk.queued.Some? {
      var kept := Preserve(c, c.desk.queued.value, PreviousUnsaved);
      PreserveGrows(c, c.desk.queued.value, PreviousUnsaved);
      MoveGrows(kept, kept.desk.(queued := None));
      GrowsTwice(c, kept, Move(kept, kept.desk.(queued := None)));
    }
  }

  // ---------------------------------------------------------------- phases of a run

  lemma ValidateGrows(c: Chat, r: Runner, ok: bool)
    requires Shape(c) && c.run == Some(r) && r.phase == Validating && Good(c, r.id)
    ensures Grows(c, Validate(c, r, ok))
  {
    hide Grows, Save, Move, Go, Preserve, FaceOf, Durable, Live, NewTurn;
    RunningHere(c, r);
    RunFace(c, r.id);
    ValidateOpens(FaceOf(c, r.id), r, c.desk.stopRequested, NotValidated);
    if ok {
      SaveGrows(c, r.id, NewTurn(r.input));
      var saved := Save(c, r.id, NewTurn(r.input));
      var cleared := if Waiting(saved, r.id) then Move(saved, saved.desk.(queued := None)) else saved;
      var next := r.(phase := Choosing, turn := NewTurn(r.input), aborted := c.desk.stopRequested);
      MoveGrows(saved, saved.desk.(queued := None));
      Unchanged(saved, saved);
      GrowsTwice(c, saved, cleared);
      GoGrows(cleared, next);
      GrowsTwice(c, cleared, Go(cleared, next));
    } else {
      PreserveGrows(c, r.input, NotValidated);
      var kept := Preserve(c, r.input, NotValidated);
      MoveGrows(kept, kept.desk.(queued := None));
      GrowsTwice(c, kept, Move(kept, kept.desk.(queued := None)));
      GoGrows(Move(kept, kept.desk.(queued := None)), r.(phase := Ended));
      GrowsTwice(c, Move(kept, kept.desk.(queued := None)), Validate(c, r, ok));
    }
  }

  lemma ChooseGrows(c: Chat, r: Runner, settings: Option<string>, available: bool, problem: Problem)
    requires Shape(c) && c.run == Some(r) && r.phase == Choosing && Good(c, r.id)
    ensures Grows(c, Choose(c, r, settings, available, problem))
  {
    hide Grows, Put, Catch;
    if settings.None? { CatchGrows(c, r, problem); }
    else if !available { CatchGrows(c, Named(r, settings.value), problem); }
    else { PutGrows(c, Opening(Named(r, settings.value))); }
  }

  lemma InsertGrows(c: Chat, r: Runner, w: Write, problem: Problem)
    requires c.run == Some(r)
    ensures Grows(c, Insert(c, r, w, problem))
  {
    hide Grows, Catch, Go, InsertedRow;
    if w == NotCommitted || r.id in c.rows { CatchGrows(c, r, problem); }
    else {
      RowGrows(c, r.id, InsertedRow(r.turn));
      var wrote := c.(rows := c.rows[r.id := InsertedRow(r.turn)]);
      ThenCatch(c, wrote, r, problem);
      GoGrows(wrote, r.(phase := Admitting));
      GrowsTwice(c, wrote, Go(wrote, r.(phase := Admitting)));
    }
  }

  lemma AdmitGrows(c: Chat, r: Runner, w: Write, bound: Option<nat>, problem: Problem)
    requires Shape(c) && c.run == Some(r) && r.phase == Admitting && Good(c, r.id)
    ensures Grows(c, Admit(c, r, w, bound, problem))
  {
    hide Grows, Put, Catch, FaceOf, Durable, Live;
    RunningHere(c, r);
    RunFace(c, r.id);
    if w == NotCommitted || !Unreserved(c, r.id) { CatchGrows(c, r, problem); }
    else {
      RowGrows(c, r.id, Reserved(c.rows[r.id], bound));
      var wrote := c.(rows := c.rows[r.id := Reserved(c.rows[r.id], bound)]);
      ThenCatch(c, wrote, r, problem);
      AdmittedTurn(FaceOf(c, r.id), r, bound);
      PutGrows(wrote, Reserving(r, bound));
      GrowsTwice(c, wrote, Put(wrote, Reserving(r, bound)));
    }
  }

  lemma AdmittedTurn(v: Face, r: Runner, bound: Option<nat>)
    requires Running(v, r, Admitting)
    ensures GrowsTurn(v.turn, Some(Reserving(r, bound).turn))
  {
  }

  lemma PrepareGrows(c: Chat, r: Runner, plan: Option<Plan>, fits: bool, problem: Problem)
    requires Shape(c) && c.run == Some(r) && r.phase == Preparing && Good(c, r.id)
    ensures Grows(c, Prepare(c, r, plan, fits, problem))
  {
    hide Grows, Put, Catch;
    if plan.None? { CatchGrows(c, r, problem); }
    else if !fits { CatchGrows(c, Planned(r, plan.value), problem); }
    else { PutGrows(c, Planned(r, plan.value).(phase := Freezing)); }
  }

  lemma DispatchGrows(c: Chat, r: Runner)
    ensures Grows(c, Dispatch(c, r))
  {
    forall id: Id ensures GrowsAt(c, Dispatch(c, r), id) { }
  }

  lemma FreezeGrows(c: Chat, r: Runner, w: Write, problem: Problem)
    requires c.run == Some(r)
    ensures Grows(c, Freeze(c, r, w, problem))
  {
    hide Grows, Dispatch, Catch;
    Unchanged(c, c);
    var scoped := w != NotCommitted && r.id in c.rows && c.rows[r.id].state == Started;
    if scoped { RowGrows(c, r.id, Scoped(c.rows[r.id], r)); }
    var wrote := if scoped then c.(rows := c.rows[r.id := Scoped(c.rows[r.id], r)]) else c;
    ThenCatch(c, wrote, r, problem);
    DispatchGrows(wrote, r);
    GrowsTwice(c, wrote, Dispatch(wrote, r));
  }

  lemma StreamGrows(c: Chat, r: Runner, e: Event)
    requires Shape(c) && c.run == Some(r) && r.phase == Streaming && Good(c, r.id)
    requires e.Chunked? || e.Refused? || e.Completes? || e.Breaks?
    ensures Grows(c, RunStep(c, e))
  {
    hide Grows, Save, Go, Catch, FaceOf, Durable, Live;
    match e {
      case Chunked(text, ms, checkpoint) =>
        var heard := Heard(r, text, ms);
        Unchanged(c, c);
        RunningHere(c, r);
        RunFace(c, r.id);
        if checkpoint.Some? { HeardTurn(FaceOf(c, r.id), r, text, ms, checkpoint.value); SaveGrows(c, r.id, Resolve(heard.turn, checkpoint.value)); }
        var saved := if checkpoint.Some? && !r.aborted then Save(c, r.id, Resolve(heard.turn, checkpoint.value)) else c;
        GoGrows(saved, heard);
        GrowsTwice(c, saved, Go(saved, heard));
      case Refused => GoGrows(c, r.(dispatched := false));
      case Completes(answer, blank, cut, usage) =>
        CatchGrows(c, Answered(r, answer, usage), StoppedByOwner);
        GoGrows(c, Graded(Answered(r, answer, usage), blank, cut));
      case Breaks(usage, problem) => CatchGrows(c, r.(usage := usage), problem);
    }
  }

  lemma HeardTurn(v: Face, r: Runner, text: string, ms: Option<nat>, res: Resolution)
    requires Running(v, r, Streaming)
    ensures GrowsTurn(v.turn, Some(Resolve(Heard(r, text, ms).turn, res)))
  {
  }

  lemma ClosingTurn(v: Face, r: Runner, res: Resolution, blank: bool, totalMs: nat)
    requires Running(v, r, Finishing)
    ensures GrowsTurn(v.turn, Some(Closing(r, res, blank, totalMs).turn)) && Closing(r, res, blank, totalMs).id == r.id
  {
  }

  lemma FinishGrows(c: Chat, r: Runner, res: Resolution, blank: bool, totalMs: nat)
    requires Shape(c) && c.run == Some(r) && r.phase == Finishing && Good(c, r.id)
    ensures Grows(c, Finish(c, r, res, blank, totalMs))
  {
    hide Grows, Put, FaceOf, Durable, Live, Closing;
    RunningHere(c, r);
    RunFace(c, r.id);
    ClosingTurn(FaceOf(c, r.id), r, res, blank, totalMs);
    PutGrows(c, Closing(r, res, blank, totalMs));
  }

  // ---------------------------------------------------------------- settlement

  lemma UnsettledGrows(c: Chat, id: Id, n: Notice)
    ensures Grows(c, Unsettled(c, id, n))
  {
    hide Grows, Save;
    Unchanged(c, c);
    if id in c.turns && c.turns[id].pending { SaveGrows(c, id, c.turns[id].(notice := Some(n))); }
  }

  /** The saved turn and the turn in hand count alike. */
  predicate Behind(c: Chat, id: Id, t: Turn) {
    id in c.turns && c.turns[id].question == t.question && c.turns[id].pending && t.pending
    && Terminal(t.receipt) && Counts(c.turns[id].receipt, t.receipt)
    && (Terminal(c.turns[id].receipt) ==> SameAnswer(c.turns[id], t))
  }

  lemma ConcludeGrows(c: Chat, id: Id, t: Turn)
    requires Behind(c, id, t)
    ensures Grows(c, Conclude(c, id, t))
  {
    hide Grows, Save, Unsettled;
    var row := FindRow(c, id);
    var known := if row.None? && Blank(t) then t.(receipt := Zeroed(t.receipt)) else t;
    if row == Some(known.receipt) || (row.None? && NoAdmission(known.receipt)) {
      SaveGrows(c, id, known.(pending := false, notice := None));
    } else {
      UnsettledGrows(c, id, if row.Some? && row.value.state != Started then UsageMismatch else UsageUnconfirmed);
    }
  }

  lemma ChargeGrows(c: Chat, id: Id, next: Receipt, commits: bool)
    requires id in c.rows ==> Counts(c.rows[id], next)
    ensures Grows(c, Charge(c, id, next, commits))
  {
    hide Grows, MayCharge;
    Unchanged(c, c);
    if Charge(c, id, next, commits) != c { RowGrows(c, id, next.(kind := c.rows[id].kind)); }
  }

  lemma SettleTurnGrows(c: Chat, id: Id, t: Turn, f: Faults)
    requires Find(c, id) == Some(t) && (c.run.Some? ==> c.up)
    ensures Grows(c, SettleTurn(c, id, t, f))
  {
    hide Grows, Save, Unsettled, Conclude, Charge;
    Unchanged(c, c);
    if c.up && t.pending && t.receipt.state != Started {
      UnsettledGrows(c, id, UsageUnconfirmed);
      UnsettledGrows(c, id, UsageMismatch);
      ConcludeGrows(c, id, t);
      if id in c.rows && c.rows[id].state == Started {
        ChargedGrows(c, id, t, f);
      }
    }
  }

  lemma ChargedGrows(c: Chat, id: Id, t: Turn, f: Faults)
    requires Find(c, id) == Some(t) && c.up && t.pending && Terminal(t.receipt) && id in c.rows && c.rows[id].state == Started
    ensures var next := Recovered(t, c.rows[id]);
            var charged := Charge(Save(c, id, next), id, next.receipt, f.commits);
            Grows(c, if f.confirms then Conclude(charged, id, next) else Unsettled(charged, id, UsageUnconfirmed))
  {
    hide Grows, Save, Unsettled, Conclude, Charge, Recovered;
    var next := Recovered(t, c.rows[id]);
    RecoveredCounts(t, c.rows[id]);
    SaveGrows(c, id, next);
    var saved := Save(c, id, next);
    SaveRows(c, id, next);
    ChargeGrows(saved, id, next.receipt, f.commits);
    var charged := Charge(saved, id, next.receipt, f.commits);
    ChargeKeepsTurns(saved, id, next.receipt, f.commits);
    GrowsTwice(c, saved, charged);
    ThenConcludes(c, charged, id, next);
  }

  lemma ThenConcludes(c: Chat, charged: Chat, id: Id, next: Turn)
    requires Grows(c, charged) && (charged.up ==> Behind(charged, id, next))
    ensures Grows(c, Conclude(charged, id, next)) && Grows(c, Unsettled(charged, id, UsageUnconfirmed))
  {
    hide Grows, Unsettled, Conclude;
    UnsettledGrows(charged, id, UsageUnconfirmed);
    GrowsTwice(c, charged, Unsettled(charged, id, UsageUnconfirmed));
    if charged.up { ConcludeGrows(charged, id, next); } else { GoneIsStill(charged, id, next, UsageUnconfirmed); Unchanged(charged, charged); }
    GrowsTwice(c, charged, Conclude(charged, id, next));
  }

  lemma RecoveredCounts(t: Turn, row: Receipt)
    ensures var next := Recovered(t, row);
            && Counts(t.receipt, next.receipt) && Counts(row, next.receipt)
            && next.question == t.question && next.pending == t.pending && next.receipt.state == t.receipt.state && SameAnswer(t, next)
  {
  }

  lemma SaveRows(c: Chat, id: Id, t: Turn)
    ensures Save(c, id, t).rows == c.rows && (Save(c, id, t).up ==> Save(c, id, t).turns == c.turns[id := t])
  {
  }

  lemma ChargeKeepsTurns(c: Chat, id: Id, next: Receipt, commits: bool)
    ensures Charge(c, id, next, commits).turns == c.turns && Charge(c, id, next, commits).up == c.up
  {
  }

  lemma SettleGrows(c: Chat, r: Runner, f: Faults)
    requires Shape(c) && c.run == Some(r) && r.phase == Settling && Good(c, r.id)
    ensures Grows(c, SettleRun(c, r, f))
  {
    hide Grows, SettleTurn, Go;
    SettleTurnGrows(c, r.id, r.turn, f);
    var s := SettleTurn(c, r.id, r.turn, f);
    GoGrows(s, r.(phase := Ended));
    GrowsTwice(c, s, Go(s, r.(phase := Ended)));
  }

  // ---------------------------------------------------------------- passes, queue and restart

  lemma SettleOneGrows(c: Chat, id: Id, f: Faults)
    requires c.run.Some? ==> c.up
    ensures Grows(c, SettleOne(c, id, f))
  {
    hide Grows, SettleTurn, Save;
    Unchanged(c, c);
    if id in c.turns {
      var t := c.turns[id];
      SettleTurnGrows(c, id, t, f);
      if t.receipt.state == Started {
        var cut := Interrupt(t);
        SaveGrows(c, id, cut);
        SaveTouches(c, id, cut, id);
        var s := Save(c, id, cut);
        SaveRows(c, id, cut);
        if s.up { SettleTurnGrows(s, id, cut, f); } else { GoneSettles(s, id, cut, f); Unchanged(s, s); }
        GrowsTwice(c, s, SettleTurn(s, id, cut, f));
      }
    }
  }

  lemma GoneSettles(c: Chat, id: Id, t: Turn, f: Faults)
    requires !c.up
    ensures SettleTurn(c, id, t, f) == c
  {
  }

  lemma {:induction false} SettleEachGrows(c: Chat, ids: seq<Id>, faults: Id -> Faults)
    requires Rests(c)
    ensures Grows(c, SettleEach(c, ids, faults))
    decreases |ids|
  {
    hide Grows, SettleOne, Rests, AtRest;
    if ids == [] {
      Unchanged(c, c);
    } else {
      var s := SettleOne(c, ids[0], faults(ids[0]));
      assert c.run.Some? ==> c.up by { RestsShape(c); }
      SettleOneGrows(c, ids[0], faults(ids[0]));
      OneRests(c, ids[0], faults(ids[0]));
      SettleEachGrows(s, ids[1..], faults);
      GrowsTwice(c, s, SettleEach(s, ids[1..], faults));
    }
  }

  lemma RestsShape(c: Chat)
    requires Rests(c)
    ensures Shape(c)
  {
  }

  lemma OneRests(c: Chat, id: Id, f: Faults)
    requires Rests(c)
    ensures Rests(SettleOne(c, id, f))
  {
    hide AtRest, SettleOne;
    assert AtRest(c, id);
    if c.up && c.run.None? && c.desk.active == Some(id) {
      forall j: Id ensures AtRest(SettleOne(c, id, f), j) { assert AtRest(c, j); SettleOneKeeps(c, id, f, j); }
      SettleOneKeeps(c, id, f, id);
    } else {
      SettleOneIdle(c, id, f);
    }
  }

  lemma PassGrows(c: Chat, faults: Id -> Faults)
    requires Rests(c)
    ensures Grows(c, Pass(c, faults))
  {
    hide Grows, Rests, AtRest, Unblock, SettleEach, PassIds, Reclaim, Move;
    RestsShape(c);
    UnblockIdle(c);
    var ids := PassIds(c, c.desk.active);
    SettleEachGrows(c, ids, faults);
    var s := SettleEach(c, ids, faults);
    Unchanged(s, s);
    MoveGrows(s, Desk(None, None, false));
    var r := Release(s, c.desk.active);
    GrowsTwice(c, s, r);
    ReclaimGrows(c, faults);
  }

  lemma {:induction false} ReclaimGrows(c: Chat, faults: Id -> Faults)
    requires Rests(c)
    ensures Pass(c, faults) == Release(SettleEach(c, PassIds(c, c.desk.active), faults), c.desk.active)
  {
    hide AtRest, Unblock, SettleEach, PassIds, Reclaim, Release;
    UnblockIdle(c);
    var ids := PassIds(c, c.desk.active);
    var r := Release(SettleEach(c, ids, faults), c.desk.active);
    if c.run.None? {
      PassIdsHold(c);
      if c.up || ActiveNoted(c) { SettleEachKeeps(c, ids, faults); } else { SettleEachIdle(c, ids, faults); }
      ReleaseRests(SettleEach(c, ids, faults));
    } else {
      SettleEachIdle(c, ids, faults);
      assert r == c by { BusyReleases(c); }
    }
    ReclaimIdle(r);
  }

  lemma BusyReleases(c: Chat)
    requires c.run.Some?
    ensures Release(c, c.desk.active) == c
  {
  }

  lemma ReleaseRests(s: Chat)
    requires Rests(s) && s.run.None? && ActiveNoted(s)
    ensures Rests(Release(s, s.desk.active))
  {
    hide AtRest, Release, Good;
    var r := Release(s, s.desk.active);
    forall id: Id ensures Good(r, id) && Shape(r) {
      assert AtRest(s, id);
      if s.desk.active.Some? { assert AtRest(s, s.desk.active.value); }
      ReleaseKeeps(s, id);
    }
    assert Good(r, 0);
    GoodRests(r);
  }

  lemma AdvanceGrows(c: Chat, r: Runner)
    requires Inv(c) && c.run == Some(r) && r.phase == Ended
    ensures Grows(c, AdvanceQueue(c, r.id))
  {
    hide Grows, FaceOf, Durable, Live, PreserveWaiting, Move, Go, RecoverHandoff;
    var idle := c.(run := None);
    Unchanged(c, idle);
    assert Good(c, r.id);
    RunFace(c, r.id);
    EndedIs(FaceOf(c, r.id), r);
    match c.desk.queued {
      case None =>
        MoveGrows(idle, Desk(None, None, false));
        GrowsTwice(c, idle, Move(idle, Desk(None, None, false)));
      case Some(q) =>
        assert Good(c, q.turnId);
        IdleFace(c, q.turnId);
        DurableIgnoresRun(FaceOf(c, q.turnId), FaceOf(idle, q.turnId));
        PreserveWaitingGrows(idle);
        GrowsTwice(c, idle, PreserveWaiting(idle));
        var d := Desk(Some(q.turnId), Some(q), false);
        MoveGrows(idle, d);
        GrowsTwice(c, idle, Move(idle, d));
        GoGrows(Move(idle, d), Begin(q));
        GrowsTwice(c, Move(idle, d), Go(Move(idle, d), Begin(q)));
    }
  }

  lemma MarkGrows(c: Chat)
    ensures Grows(c, Mark(c))
  {
    hide Grows, Save;
    Unchanged(c, c);
    if c.desk.active.Some? && c.desk.active.value in c.turns {
      var t := c.turns[c.desk.active.value];
      if t.receipt.state == Started { SaveGrows(c, c.desk.active.value, Interrupt(t).(pending := true)); }
      else { SaveGrows(c, c.desk.active.value, t.(pending := true)); }
    }
  }

  lemma BootGrows(c: Chat, faults: Id -> Faults)
    requires Inv(c)
    ensures Grows(c, Boot(c, faults))
  {
    hide Grows, FaceOf, Durable, Move, Mark, Preserve, Pass, AtRest, Good;
    if c.up {
      Unchanged(c, c);
    } else {
      var woken := c.(up := true, run := None);
      Unchanged(c, woken);
      var kept := if c.desk.queued.Some? then Preserve(woken, c.desk.queued.value, Restarted) else woken;
      if c.desk.queued.Some? { WokenFace(c, c.desk.queued.value.turnId); PreserveGrows(woken, c.desk.queued.value, Restarted); GrowsTwice(c, woken, kept); }
      var marked := Mark(kept);
      MarkGrows(kept);
      GrowsTwice(c, kept, marked);
      var d := Desk(HeldActive(marked), None, false);
      var cleared := if c.desk.active.Some? || c.desk.queued.Some? then Move(marked, d) else marked;
      MoveGrows(marked, d);
      GrowsTwice(c, marked, Move(marked, d));
      forall j: Id ensures Shape(cleared) && cleared.run.None? && marked.desk == c.desk && AtRest(cleared, j) {
        KeptOnBoot(c, woken, kept, j);
        if c.desk.active.Some? { KeptOnBoot(c, woken, kept, c.desk.active.value); }
        MarkKeeps(kept, j);
        ClearKeeps(marked, j);
      }
      assert AtRest(cleared, 0);
      PassGrows(cleared, faults);
      GrowsTwice(c, cleared, Pass(cleared, faults));
    }
  }

  // ---------------------------------------------------------------- every step

  lemma RunStepGrows(c: Chat, e: Event)
    requires Inv(c) && c.run.Some?
    ensures Grows(c, RunStep(c, e))
  {
    hide Shape, Good, Inv, Grows, Validate, Choose, Insert, Admit, Prepare, Freeze, Chunk, Refuse, Complete, Break, Finish, SettleRun, AdvanceQueue;
    GoodAll(c, c.run.value.id);
    Unchanged(c, c);
    var r := c.run.value;
    match e {
      case Validated(ok) => if r.phase == Validating { ValidateGrows(c, r, ok); }
      case Chosen(settings, available, problem) => if r.phase == Choosing { ChooseGrows(c, r, settings, available, problem); }
      case Inserted(w, problem) => if r.phase == Inserting { InsertGrows(c, r, w, problem); }
      case Admitted(w, bound, problem) => if r.phase == Admitting { AdmitGrows(c, r, w, bound, problem); }
      case Prepared(plan, fits, problem) => if r.phase == Preparing { PrepareGrows(c, r, plan, fits, problem); }
      case Frozen(w, problem) => if r.phase == Freezing { FreezeGrows(c, r, w, problem); }
      case Finished(res, blank, totalMs) => if r.phase == Finishing { FinishGrows(c, r, res, blank, totalMs); }
      case Settled(f) => if r.phase == Settling { SettleGrows(c, r, f); }
      case RunOver => if r.phase == Ended { AdvanceGrows(c, r); }
      case _ => if r.phase == Streaming && (e.Chunked? || e.Refused? || e.Completes? || e.Breaks?) { StreamGrows(c, r, e); }
    }
  }

  lemma PassGrowsHere(c: Chat, faults: Id -> Faults)
    requires Inv(c)
    ensures Grows(c, Pass(c, faults))
  {
    hide Inv, Grows, Rests, Pass;
    GoodRests(c);
    PassGrows(c, faults);
  }

  lemma WithdrawGrows(c: Chat, id: Id)
    ensures Grows(c, Withdraw(c, id))
  {
    Unchanged(c, Withdraw(c, id));
  }

  lemma AbortGrows(c: Chat, id: Id)
    ensures Grows(c, Abort(c, id))
  {
    Unchanged(c, Abort(c, id));
  }

  lemma DecideGrows(c: Chat, input: Input, wait: bool)
    ensures Grows(c, Decide(c, input, wait))
  {
    hide Grows, StartTurn, Move, Accept;
    Unchanged(c, c);
    StartGrows(c, input);
    QueueGrows(c, input);
  }

  lemma StartGrows(c: Chat, input: Input)
    ensures Grows(c, StartTurn(c, input))
  {
    Unchanged(c, StartTurn(c, input));
  }

  lemma QueueGrows(c: Chat, input: Input)
    ensures Grows(c, Accept(Move(c, c.desk.(queued := Some(input))), input))
  {
    Unchanged(c, Accept(Move(c, c.desk.(queued := Some(input))), input));
  }

  lemma StepGrows(c: Chat, e: Event, writes: nat)
    requires Inv(c)
    ensures Grows(c, Step(c, e, writes))
  {
    hide Inv, Grows, Boot, Pass, RecoverHandoff, RunStep, Decide, Withdraw, Abort;
    WritesKeep(c, writes);
    var ready := c.(writes := writes);
    Unchanged(c, c);
    Unchanged(c, ready);
    if c.up {
      match e {
        case Crash => Unchanged(ready, Down(ready));
        case Read(faults) => HandoffIdle(ready); PassGrowsHere(ready, faults);
        case Recover(faults) => PassGrowsHere(ready, faults);
        case Submitted(input, wait, faults) =>
          HandoffIdle(ready);
          PassGrowsHere(ready, faults);
          DecideGrows(Pass(ready, faults), input, wait);
          GrowsTwice(ready, Pass(ready, faults), Step(c, e, writes));
        case StopAsked(id, faults) =>
          HandoffIdle(ready);
          PassGrowsHere(ready, faults);
          var p := Pass(ready, faults);
          WithdrawGrows(p, id);
          AbortGrows(Withdraw(p, id), id);
          GrowsTwice(ready, p, Withdraw(p, id));
          GrowsTwice(ready, Withdraw(p, id), Step(c, e, writes));
        case _ =>
          Unchanged(ready, ready);
          if ready.run.Some? { RunStepGrows(ready, e); }
      }
      GrowsTwice(c, ready, Step(c, e, writes));
    } else if e.Booted? {
      BootGrows(ready, e.faults);
      GrowsTwice(c, ready, Step(c, e, writes));
    }
  }

  lemma {:induction false} RunGrows(c: Chat, steps: seq<Act>)
    requires Inv(c)
    ensures Grows(c, Run(c, steps))
    decreases |steps|
  {
    hide Inv, Grows, Step;
    if steps == [] {
      Unchanged(c, c);
    } else {
      var d := Step(c, steps[0].event, steps[0].writes);
      StepKeeps(c, steps[0].event, steps[0].writes);
      StepGrows(c, steps[0].event, steps[0].writes);
      RunGrows(d, steps[1..]);
      GrowsTwice(c, d, Run(c, steps));
    }
  }
}
