/** When D1 works again, one recovery pass settles whatever is still open (src/chat.ts, src/cost.ts). */
module ChatConverge {
  import opened Text
  import opened Chat
  import opened ChatInvariant
  import opened ChatPass
  import opened ChatSteps
  import opened ChatGrowth
  import opened ChatTheorems

  /** What holds of a turn and its started row after every run and, when `h`, after every run of an honest transport. */
  predicate Fits(h: bool, t: Receipt, row: Receipt) {
    && t.model == row.model && t.scopeMode == row.scopeMode && (t.kind == None || t.kind == row.kind)
    && (t.tokenLimit == None || t.tokenLimit == row.tokenLimit || (row.kind == None && row.tokenLimit == None)
        || (ZeroUsage(t) && (h ==> t.firstTokenMs == None)))
  }

  predicate Linked(h: bool, t: Turn, row: Option<Receipt>) {
    if !t.pending then t.receipt.state == Started ==> Blank(t)
    else if row.None? then t.receipt.kind == None && (Blank(t) || ZeroUsage(t.receipt))
    else row.value.state == Started ==> Fits(h, t.receipt, row.value)
  }

  predicate RunLinked(h: bool, r: Runner, row: Option<Receipt>) {
    && (r.turn.pending && Writing(r.phase) ==> Linked(h, r.turn, row))
    && (h && Writing(r.phase) && !r.dispatched ==> r.turn.receipt.firstTokenMs == None)
    && (r.dispatched ==> row.Some?)
  }

  predicate LinkedIn(h: bool, c: Chat, id: Id) {
    && (id in c.turns ==> Linked(h, c.turns[id], FindRow(c, id)))
    && (c.run.Some? && c.run.value.id == id ==> RunLinked(h, c.run.value, FindRow(c, id)))
  }

  ghost predicate AllLinked(h: bool, c: Chat) { forall id: Id :: LinkedIn(h, c, id) }

  /**
   * The update that would end the row is refused: the row is open with another admitted limit than the turn's, which
   * is a known zero, and text had arrived before the turn turned out not to have been sent.
   */
  predicate Stuck(t: Receipt, row: Option<Receipt>) {
    && row.Some? && row.value.state == Started && (row.value.kind.Some? || row.value.tokenLimit.Some?)
    && t.tokenLimit.Some? && t.tokenLimit != row.value.tokenLimit && t.firstTokenMs.Some?
  }

  predicate Blocked(c: Chat) {
    c.desk.active.Some? && c.desk.active.value in c.turns && Stuck(c.turns[c.desk.active.value].receipt, FindRow(c, c.desk.active.value))
  }

  // ---------------------------------------------------------------- writes

  lemma SaveLinks(h: bool, c: Chat, id: Id, t: Turn)
    requires AllLinked(h, c) && Linked(h, t, FindRow(c, id))
    ensures AllLinked(h, Save(c, id, t))
  {
    hide Linked, RunLinked;
    var s := Save(c, id, t);
    forall j: Id ensures LinkedIn(h, s, j) { assert LinkedIn(h, c, j); }
  }

  lemma MoveLinks(h: bool, c: Chat, d: Desk)
    requires AllLinked(h, c)
    ensures AllLinked(h, Move(c, d))
  {
    hide Linked, RunLinked;
    var s := Move(c, d);
    forall j: Id ensures LinkedIn(h, s, j) { assert LinkedIn(h, c, j); }
  }

  lemma GoLinks(h: bool, c: Chat, r: Runner)
    requires AllLinked(h, c) && (c.up ==> RunLinked(h, r, FindRow(c, r.id)))
    ensures AllLinked(h, Go(c, r))
  {
    hide Linked, RunLinked;
    var s := Go(c, r);
    forall j: Id ensures LinkedIn(h, s, j) { assert LinkedIn(h, c, j); }
  }

  lemma RowLinks(h: bool, c: Chat, id: Id, row: Receipt)
    requires AllLinked(h, c) && (id in c.turns ==> Linked(h, c.turns[id], Some(row)))
    requires c.run.Some? && c.run.value.id == id ==> RunLinked(h, c.run.value, Some(row))
    ensures AllLinked(h, c.(rows := c.rows[id := row]))
  {
    hide Linked, RunLinked;
    var s := c.(rows := c.rows[id := row]);
    forall j: Id ensures LinkedIn(h, s, j) { assert LinkedIn(h, c, j); }
  }

  lemma SameLinks(h: bool, c: Chat, d: Chat)
    requires AllLinked(h, c) && d.turns == c.turns && d.rows == c.rows && (d.run.None? || d.run == c.run)
    ensures AllLinked(h, d)
  {
    hide Linked, RunLinked;
    forall j: Id ensures LinkedIn(h, d, j) { assert LinkedIn(h, c, j); }
  }

  lemma PutLinks(h: bool, c: Chat, r: Runner)
    requires AllLinked(h, c) && Linked(h, r.turn, FindRow(c, r.id)) && RunLinked(h, r, FindRow(c, r.id))
    ensures AllLinked(h, Put(c, r))
  {
    hide Linked, RunLinked, Save, Go, AllLinked;
    SaveLinks(h, c, r.id, r.turn);
    SaveRows(c, r.id, r.turn);
    GoLinks(h, Save(c, r.id, r.turn), r);
  }

  lemma LinkedRun(h: bool, c: Chat, r: Runner)
    requires AllLinked(h, c) && c.run == Some(r)
    ensures RunLinked(h, r, FindRow(c, r.id)) && (r.id in c.turns ==> Linked(h, c.turns[r.id], FindRow(c, r.id)))
  {
    assert LinkedIn(h, c, r.id);
  }

  lemma CatchLinks(h: bool, c: Chat, r: Runner, problem: Problem)
    requires AllLinked(h, c) && Writing(r.phase) && RunLinked(h, r, FindRow(c, r.id))
    ensures AllLinked(h, Catch(c, r, problem))
  {
    hide Go, AllLinked;
    GoLinks(h, c, Failing(r, r.aborted && c.desk.stopRequested, problem));
  }

  // ---------------------------------------------------------------- phases of a run

  lemma PreserveLinks(h: bool, c: Chat, q: Input, why: Problem)
    requires AllLinked(h, c)
    ensures AllLinked(h, Preserve(c, q, why))
  {
    hide AllLinked, Save;
    SaveLinks(h, c, q.turnId, Undispatched(q, why));
  }

  lemma ValidateLinks(h: bool, c: Chat, r: Runner, ok: bool)
    requires Shape(c) && c.run == Some(r) && r.phase == Validating && Good(c, r.id) && AllLinked(h, c)
    ensures AllLinked(h, Validate(c, r, ok))
  {
    hide AllLinked, Save, Move, Go, Preserve, FaceOf, Durable, Live;
    RunningHere(c, r);
    RunFace(c, r.id);
    ValidateOpens(FaceOf(c, r.id), r, c.desk.stopRequested, NotValidated);
    if ok {
      var t := NewTurn(r.input);
      SaveLinks(h, c, r.id, t);
      var saved := Save(c, r.id, t);
      SaveRows(c, r.id, t);
      MoveLinks(h, saved, saved.desk.(queued := None));
      MoveStores(saved, saved.desk.(queued := None));
      var cleared := if Waiting(saved, r.id) then Move(saved, saved.desk.(queued := None)) else saved;
      GoLinks(h, cleared, r.(phase := Choosing, turn := t, aborted := c.desk.stopRequested));
    } else {
      PreserveLinks(h, c, r.input, NotValidated);
      var kept := Preserve(c, r.input, NotValidated);
      MoveLinks(h, kept, kept.desk.(queued := None));
      GoLinks(h, Move(kept, kept.desk.(queued := None)), r.(phase := Ended));
    }
  }

  lemma MoveStores(c: Chat, d: Desk)
    ensures Move(c, d).turns == c.turns && Move(c, d).rows == c.rows
  {
  }

  lemma ChooseLinks(h: bool, c: Chat, r: Runner, settings: Option<string>, available: bool, problem: Problem)
    requires Shape(c) && c.run == Some(r) && r.phase == Choosing && Good(c, r.id) && AllLinked(h, c)
    ensures AllLinked(h, Choose(c, r, settings, available, problem))
  {
    hide AllLinked, Put, Catch, FaceOf, Durable, Live;
    RunningHere(c, r);
    RunFace(c, r.id);
    LinkedRun(h, c, r);
    ChosenFresh(FaceOf(c, r.id), r);
    if settings.None? { CatchLinks(h, c, r, problem); }
    else if !available { CatchLinks(h, c, Named(r, settings.value), problem); }
    else { PutLinks(h, c, Opening(Named(r, settings.value))); }
  }

  lemma ChosenFresh(v: Face, r: Runner)
    requires Running(v, r, Choosing)
    ensures r.turn == NewTurn(r.input) && v.row.None? && !r.dispatched
  {
  }

  lemma InsertLinks(h: bool, c: Chat, r: Runner, w: Write, problem: Problem)
    requires Shape(c) && c.run == Some(r) && r.phase == Inserting && Good(c, r.id) && AllLinked(h, c)
    ensures AllLinked(h, Insert(c, r, w, problem))
  {
    hide AllLinked, Go, Catch, FaceOf, Durable, Live;
    RunningHere(c, r);
    RunFace(c, r.id);
    LinkedRun(h, c, r);
    InsertingFresh(FaceOf(c, r.id), r);
    if w == NotCommitted || r.id in c.rows { CatchLinks(h, c, r, problem); }
    else {
      RowLinks(h, c, r.id, InsertedRow(r.turn));
      var wrote := c.(rows := c.rows[r.id := InsertedRow(r.turn)]);
      CatchLinks(h, wrote, r, problem);
      GoLinks(h, wrote, r.(phase := Admitting));
    }
  }

  lemma InsertingFresh(v: Face, r: Runner)
    requires Running(v, r, Inserting)
    ensures v.turn == Some(r.turn) && Blank(r.turn) && !r.dispatched
  {
  }

  lemma AdmitLinks(h: bool, c: Chat, r: Runner, w: Write, bound: Option<nat>, problem: Problem)
    requires Shape(c) && c.run == Some(r) && r.phase == Admitting && Good(c, r.id) && AllLinked(h, c)
    ensures AllLinked(h, Admit(c, r, w, bound, problem))
  {
    hide AllLinked, Put, Catch, FaceOf, Durable, Live;
    RunningHere(c, r);
    RunFace(c, r.id);
    LinkedRun(h, c, r);
    AdmittingFresh(FaceOf(c, r.id), r);
    if w == NotCommitted || !Unreserved(c, r.id) { CatchLinks(h, c, r, problem); }
    else {
      var row := Reserved(c.rows[r.id], bound);
      RowLinks(h, c, r.id, row);
      var wrote := c.(rows := c.rows[r.id := row]);
      CatchLinks(h, wrote, r, problem);
      PutLinks(h, wrote, Reserving(r, bound));
    }
  }

  lemma AdmittingFresh(v: Face, r: Runner)
    requires Running(v, r, Admitting)
    ensures v.turn == Some(r.turn) && Blank(r.turn) && r.turn.pending && !r.dispatched && v.row == Some(InsertedRow(r.turn))
  {
  }

  lemma PreparingIs(v: Face, r: Runner)
    requires Durable(v) && Live(v) && v.run == Some(r) && (r.phase == Preparing || r.phase == Freezing)
    ensures v.turn == Some(r.turn) && r.turn.pending && !r.dispatched && v.row.Some? && v.row.value.state == Started
  {
  }

  lemma PrepareLinks(h: bool, c: Chat, r: Runner, plan: Option<Plan>, fits: bool, problem: Problem)
    requires Shape(c) && c.run == Some(r) && r.phase == Preparing && Good(c, r.id) && AllLinked(h, c)
    ensures AllLinked(h, Prepare(c, r, plan, fits, problem))
  {
    hide AllLinked, Put, Catch, FaceOf, Durable, Live;
    RunningHere(c, r);
    RunFace(c, r.id);
    LinkedRun(h, c, r);
    PreparingIs(FaceOf(c, r.id), r);
    if plan.None? { CatchLinks(h, c, r, problem); }
    else if !fits { CatchLinks(h, c, Planned(r, plan.value), problem); }
    else { PutLinks(h, c, Planned(r, plan.value).(phase := Freezing)); }
  }

  lemma FreezeLinks(h: bool, c: Chat, r: Runner, w: Write, problem: Problem)
    requires Shape(c) && c.run == Some(r) && r.phase == Freezing && Good(c, r.id) && AllLinked(h, c)
    ensures AllLinked(h, Freeze(c, r, w, problem))
  {
    hide AllLinked, Catch, FaceOf, Durable, Live;
    RunningHere(c, r);
    RunFace(c, r.id);
    LinkedRun(h, c, r);
    PreparingIs(FaceOf(c, r.id), r);
    var scoped := w != NotCommitted && r.id in c.rows && c.rows[r.id].state == Started;
    var wrote := if scoped then c.(rows := c.rows[r.id := Scoped(c.rows[r.id], r)]) else c;
    if scoped { RowLinks(h, c, r.id, Scoped(c.rows[r.id], r)); }
    CatchLinks(h, wrote, r, problem);
    DispatchLinks(h, wrote, r);
  }

  lemma DispatchLinks(h: bool, c: Chat, r: Runner)
    requires AllLinked(h, c) && r.phase == Freezing && RunLinked(h, r, FindRow(c, r.id)) && r.id in c.rows && c.run == Some(r)
    ensures AllLinked(h, Dispatch(c, r))
  {
    hide AllLinked, Go;
    if c.up {
      var sent := c.(sent := c.sent + multiset{r.id});
      SameLinks(h, c, sent);
      GoLinks(h, sent, r.(phase := Streaming, dispatched := true));
    }
  }

  /**
   * What the transport promises: it refuses a prompt before any text arrived, and sends no text after a refusal.
   */
  predicate Honest(c: Chat, e: Event) {
    At(c, Streaming) ==>
      && (e.Refused? ==> c.run.value.turn.receipt.firstTokenMs == None)
      && (e.Chunked? && !c.run.value.dispatched ==> e.ms == None)
  }

  lemma StreamingIs(v: Face, r: Runner)
    requires Running(v, r, Streaming)
    ensures v.turn.Some? && v.turn.value.pending && r.turn.pending && v.row.Some? && v.row.value.state == Started
    ensures r.turn.receipt.tokenLimit == v.row.value.tokenLimit && r.turn.receipt.kind == v.row.value.kind
  {
  }

  lemma StreamLinks(h: bool, c: Chat, r: Runner, e: Event)
    requires Shape(c) && c.run == Some(r) && r.phase == Streaming && Good(c, r.id) && AllLinked(h, c) && (h ==> Honest(c, e))
    requires e.Chunked? || e.Refused? || e.Completes? || e.Breaks?
    ensures AllLinked(h, RunStep(c, e))
  {
    hide AllLinked, Save, Go, Catch, FaceOf, Durable, Live;
    RunningHere(c, r);
    RunFace(c, r.id);
    LinkedRun(h, c, r);
    StreamingIs(FaceOf(c, r.id), r);
    match e {
      case Chunked(text, ms, checkpoint) => ChunkLinks(h, c, r, text, ms, checkpoint);
      case Refused => GoLinks(h, c, r.(dispatched := false));
      case Completes(answer, blank, cut, usage) =>
        CatchLinks(h, c, Answered(r, answer, usage), StoppedByOwner);
        GoLinks(h, c, Graded(Answered(r, answer, usage), blank, cut));
      case Breaks(usage, problem) => CatchLinks(h, c, r.(usage := usage), problem);
    }
  }

  lemma ChunkLinks(h: bool, c: Chat, r: Runner, text: string, ms: Option<nat>, checkpoint: Option<Resolution>)
    requires c.run == Some(r) && r.phase == Streaming && AllLinked(h, c) && (h && !r.dispatched ==> ms == None)
    requires r.turn.pending && r.id in c.rows && RunLinked(h, r, FindRow(c, r.id)) && r.turn.receipt.tokenLimit == c.rows[r.id].tokenLimit
    ensures AllLinked(h, Chunk(c, r, text, ms, checkpoint))
  {
    hide AllLinked, Save, Go;
    var heard := Heard(r, text, ms);
    if checkpoint.Some? {
      SaveLinks(h, c, r.id, Resolve(heard.turn, checkpoint.value));
      SaveRows(c, r.id, Resolve(heard.turn, checkpoint.value));
    }
    var saved := if checkpoint.Some? && !r.aborted then Save(c, r.id, Resolve(heard.turn, checkpoint.value)) else c;
    GoLinks(h, saved, heard);
  }

  lemma FinishLinks(h: bool, c: Chat, r: Runner, res: Resolution, blank: bool, totalMs: nat)
    requires Shape(c) && c.run == Some(r) && r.phase == Finishing && Good(c, r.id) && AllLinked(h, c)
    ensures AllLinked(h, Finish(c, r, res, blank, totalMs))
  {
    hide AllLinked, Put, FaceOf, Durable, Live, Closing;
    RunningHere(c, r);
    RunFace(c, r.id);
    LinkedRun(h, c, r);
    ClosingLinked(h, FaceOf(c, r.id), r, res, blank, totalMs);
    PutLinks(h, c, Closing(r, res, blank, totalMs));
  }

  lemma ClosingLinked(h: bool, v: Face, r: Runner, res: Resolution, blank: bool, totalMs: nat)
    requires Running(v, r, Finishing) && RunLinked(h, r, v.row)
    ensures var next := Closing(r, res, blank, totalMs);
            next.id == r.id && Linked(h, next.turn, v.row) && RunLinked(h, next, v.row)
  {
  }

  // ---------------------------------------------------------------- settlement, passes, queue, restart

  lemma UnsettledLinks(h: bool, c: Chat, id: Id, n: Notice)
    requires AllLinked(h, c)
    ensures AllLinked(h, Unsettled(c, id, n))
  {
    hide AllLinked, Save;
    if id in c.turns && c.turns[id].pending {
      assert Linked(h, c.turns[id], FindRow(c, id)) by { AllIn(h, c, id); }
      SaveLinks(h, c, id, c.turns[id].(notice := Some(n)));
    }
  }

  lemma AllIn(h: bool, c: Chat, id: Id)
    requires AllLinked(h, c)
    ensures LinkedIn(h, c, id)
  {
  }

  lemma ConcludeLinks(h: bool, c: Chat, id: Id, t: Turn)
    requires AllLinked(h, c) && t.receipt.state != Started
    ensures AllLinked(h, Conclude(c, id, t))
  {
    hide AllLinked, Save, Unsettled;
    var row := FindRow(c, id);
    var known := if row.None? && Blank(t) then t.(receipt := Zeroed(t.receipt)) else t;
    if row == Some(known.receipt) || (row.None? && NoAdmission(known.receipt)) {
      SaveLinks(h, c, id, known.(pending := false, notice := None));
    } else {
      UnsettledLinks(h, c, id, if row.Some? && row.value.state != Started then UsageMismatch else UsageUnconfirmed);
    }
  }

  lemma SettleTurnLinks(h: bool, c: Chat, id: Id, t: Turn, f: Faults)
    requires AllLinked(h, c) && Linked(h, t, FindRow(c, id)) && (c.run.Some? && c.run.value.id == id ==> !Writing(c.run.value.phase))
    ensures AllLinked(h, SettleTurn(c, id, t, f))
  {
    hide AllLinked, Save, Unsettled, Conclude, Recovered, Charge;
    if c.up && t.pending && t.receipt.state != Started {
      UnsettledLinks(h, c, id, UsageUnconfirmed);
      UnsettledLinks(h, c, id, UsageMismatch);
      ConcludeLinks(h, c, id, t);
      if id in c.rows && c.rows[id].state == Started { ChargedLinks(h, c, id, t, f); }
    }
  }

  lemma RecoveredLinked(h: bool, t: Turn, row: Receipt)
    requires t.pending && row.state == Started && Fits(h, t.receipt, row) && Terminal(t.receipt)
    ensures var next := Recovered(t, row);
            && Linked(h, next, Some(row)) && SameOwner(next, row) && (!Stuck(t.receipt, Some(row)) ==> MayCharge(row, next.receipt))
            && next.pending && next.receipt.state == t.receipt.state && next.receipt.kind == row.kind
            && next.receipt.model == row.model && next.receipt.scopeMode == row.scopeMode
  {
  }

  lemma ChargedLinks(h: bool, c: Chat, id: Id, t: Turn, f: Faults)
    requires AllLinked(h, c) && Linked(h, t, FindRow(c, id)) && (c.run.Some? && c.run.value.id == id ==> !Writing(c.run.value.phase))
    requires c.up && t.pending && Terminal(t.receipt) && id in c.rows && c.rows[id].state == Started
    ensures var next := Recovered(t, c.rows[id]);
            var charged := Charge(Save(c, id, next), id, next.receipt, f.commits);
            AllLinked(h, if f.confirms then Conclude(charged, id, next) else Unsettled(charged, id, UsageUnconfirmed))
  {
    hide AllLinked, Save, Unsettled, Conclude, Charge, Recovered;
    var next := Recovered(t, c.rows[id]);
    RecoveredLinked(h, t, c.rows[id]);
    SaveLinks(h, c, id, next);
    SaveRows(c, id, next);
    var saved := Save(c, id, next);
    SaveStays(c, id, next);
    ChargeLinks(h, saved, id, next.receipt, f.commits);
    var charged := Charge(saved, id, next.receipt, f.commits);
    ConcludeLinks(h, charged, id, next);
    UnsettledLinks(h, charged, id, UsageUnconfirmed);
  }

  lemma ChargeLinks(h: bool, c: Chat, id: Id, next: Receipt, commits: bool)
    requires AllLinked(h, c) && Terminal(next) && (c.run.Some? && c.run.value.id == id ==> !Writing(c.run.value.phase))
    ensures AllLinked(h, Charge(c, id, next, commits))
  {
    hide AllLinked, MayCharge;
    AllIn(h, c, id);
    if Charge(c, id, next, commits) != c { RowLinks(h, c, id, next.(kind := c.rows[id].kind)); }
  }

  lemma SettleLinks(h: bool, c: Chat, r: Runner, f: Faults)
    requires Shape(c) && c.run == Some(r) && r.phase == Settling && Good(c, r.id) && AllLinked(h, c)
    ensures AllLinked(h, SettleRun(c, r, f))
  {
    hide AllLinked, SettleTurn, Go, FaceOf, Durable, Live;
    RunningHere(c, r);
    RunFace(c, r.id);
    LinkedRun(h, c, r);
    SettlingIs(FaceOf(c, r.id), r);
    SettleTurnLinks(h, c, r.id, r.turn, f);
    var s := SettleTurn(c, r.id, r.turn, f);
    RowsStay(c, r.id, r.turn, f);
    GoLinks(h, s, r.(phase := Ended));
  }

  lemma RowsStay(c: Chat, id: Id, t: Turn, f: Faults)
    requires Find(c, id) == Some(t) && (c.run.Some? ==> c.up)
    ensures id in c.rows ==> id in SettleTurn(c, id, t, f).rows
  {
    hide Grows, SettleTurn;
    SettleTurnGrows(c, id, t, f);
    RowIn(c, SettleTurn(c, id, t, f), id);
  }

  lemma RowIn(c: Chat, d: Chat, id: Id)
    requires Grows(c, d)
    ensures id in c.rows ==> id in d.rows
  {
    assert GrowsAt(c, d, id);
  }

  lemma InterruptLinked(h: bool, t: Turn, row: Option<Receipt>)
    requires Linked(h, t, row) && t.pending
    ensures Linked(h, Interrupt(t), row)
  {
  }

  lemma SettleOneLinks(h: bool, c: Chat, id: Id, f: Faults)
    requires AllLinked(h, c) && (c.run.Some? ==> c.up && c.desk.active == Some(c.run.value.id))
    ensures AllLinked(h, SettleOne(c, id, f))
  {
    hide AllLinked, SettleTurn, Save, Interrupt;
    AllIn(h, c, id);
    if !(c.run.Some? && c.desk.active == Some(id)) && id in c.turns && c.turns[id].pending {
      var t := c.turns[id];
      if t.receipt.state == Started {
        InterruptLinked(h, t, FindRow(c, id));
        SaveLinks(h, c, id, Interrupt(t));
        SaveRows(c, id, Interrupt(t));
        SaveStays(c, id, Interrupt(t));
        SettleTurnLinks(h, Save(c, id, Interrupt(t)), id, Interrupt(t), f);
      } else {
        SettleTurnLinks(h, c, id, t, f);
      }
    }
  }

  lemma {:induction false} SettleEachLinks(h: bool, c: Chat, ids: seq<Id>, faults: Id -> Faults)
    requires Rests(c) && AllLinked(h, c)
    ensures AllLinked(h, SettleEach(c, ids, faults))
    decreases |ids|
  {
    hide AllLinked, SettleOne, Rests, AtRest;
    if ids != [] {
      RestsShape(c);
      SettleOneLinks(h, c, ids[0], faults(ids[0]));
      OneRests(c, ids[0], faults(ids[0]));
      SettleEachLinks(h, SettleOne(c, ids[0], faults(ids[0])), ids[1..], faults);
    }
  }

  lemma PassLinks(h: bool, c: Chat, faults: Id -> Faults)
    requires Rests(c) && AllLinked(h, c)
    ensures AllLinked(h, Pass(c, faults))
  {
    hide AllLinked, Rests, SettleEach, PassIds, Move, Pass;
    ReclaimGrows(c, faults);
    SettleEachLinks(h, c, PassIds(c, c.desk.active), faults);
    MoveLinks(h, SettleEach(c, PassIds(c, c.desk.active), faults), Desk(None, None, false));
  }

  lemma AdvanceLinks(h: bool, c: Chat, r: Runner)
    requires Inv(c) && c.run == Some(r) && r.phase == Ended && AllLinked(h, c)
    ensures AllLinked(h, AdvanceQueue(c, r.id))
  {
    hide AllLinked, FaceOf, Durable, Live, Preserve, Move, Go, RecoverHandoff;
    var idle := c.(run := None);
    SameLinks(h, c, idle);
    assert Good(c, r.id);
    RunFace(c, r.id);
    EndedIs(FaceOf(c, r.id), r);
    match c.desk.queued {
      case None => MoveLinks(h, idle, Desk(None, None, false));
      case Some(q) =>
        PreserveLinks(h, idle, q, PreviousUnsaved);
        var kept := Preserve(idle, q, PreviousUnsaved);
        MoveLinks(h, kept, kept.desk.(queued := None));
        var d := Desk(Some(q.turnId), Some(q), false);
        MoveLinks(h, idle, d);
        BeginLinked(h, q, FindRow(Move(idle, d), q.turnId));
        GoLinks(h, Move(idle, d), Begin(q));
    }
  }

  lemma BeginLinked(h: bool, q: Input, row: Option<Receipt>)
    ensures RunLinked(h, Begin(q), row)
  {
  }

  lemma MarkLinks(h: bool, c: Chat)
    requires AllLinked(h, c) && (c.desk.active.Some? ==> Durable(FaceOf(c, c.desk.active.value)))
    ensures AllLinked(h, Mark(c))
  {
    hide AllLinked, Save, Durable, FaceOf;
    if c.desk.active.Some? && c.desk.active.value in c.turns {
      var id := c.desk.active.value;
      AllIn(h, c, id);
      RunFace(c, id);
      MarkLinked(h, FaceOf(c, id), c.turns[id]);
      SaveLinksIf(h, c, id);
    }
  }

  lemma SaveLinksIf(h: bool, c: Chat, id: Id)
    requires AllLinked(h, c) && id in c.turns
    requires var t := c.turns[id];
             && (t.receipt.state == Started ==> Linked(h, Interrupt(t).(pending := true), FindRow(c, id)))
             && (t.receipt.state != Started && t.input.None? ==> Linked(h, t.(pending := true), FindRow(c, id)))
    requires c.desk.active == Some(id)
    ensures AllLinked(h, Mark(c))
  {
    hide AllLinked, Save, Linked;
    var t := c.turns[id];
    if t.receipt.state == Started { SaveLinks(h, c, id, Interrupt(t).(pending := true)); }
    else if t.input.None? { SaveLinks(h, c, id, t.(pending := true)); }
  }

  lemma MarkLinked(h: bool, v: Face, t: Turn)
    requires Durable(v) && v.turn == Some(t) && Linked(h, t, v.row)
    ensures t.receipt.state == Started ==> Linked(h, Interrupt(t).(pending := true), v.row)
    ensures t.receipt.state != Started && t.input.None? ==> Linked(h, t.(pending := true), v.row)
  {
  }

  lemma BootLinks(h: bool, c: Chat, faults: Id -> Faults)
    requires Inv(c) && AllLinked(h, c)
    ensures AllLinked(h, Boot(c, faults))
  {
    hide AllLinked, FaceOf, Durable, Move, Mark, Preserve, Pass, AtRest, Good;
    if !c.up {
      var woken := c.(up := true, run := None);
      SameLinks(h, c, woken);
      var kept := if c.desk.queued.Some? then Preserve(woken, c.desk.queued.value, Restarted) else woken;
      if c.desk.queued.Some? { PreserveLinks(h, woken, c.desk.queued.value, Restarted); }
      var marked := Mark(kept);
      KeptOnBoot(c, woken, kept, if c.desk.active.Some? then c.desk.active.value else 0);
      MarkLinks(h, kept);
      var d := Desk(HeldActive(marked), None, false);
      var cleared := if c.desk.active.Some? || c.desk.queued.Some? then Move(marked, d) else marked;
      MoveLinks(h, marked, d);
      forall j: Id ensures Shape(cleared) && cleared.run.None? && marked.desk == c.desk && AtRest(cleared, j) {
        KeptOnBoot(c, woken, kept, j);
        if c.desk.active.Some? { KeptOnBoot(c, woken, kept, c.desk.active.value); }
        MarkKeeps(kept, j);
        ClearKeeps(marked, j);
      }
      assert AtRest(cleared, 0);
      PassLinks(h, cleared, faults);
    }
  }

  lemma StartLinks(h: bool, c: Chat, input: Input)
    requires AllLinked(h, c)
    ensures AllLinked(h, StartTurn(c, input))
  {
    hide AllLinked, Move, Go;
    var d := Desk(Some(input.turnId), Some(input), false);
    MoveLinks(h, c, d);
    var a := Accept(Move(c, d), input);
    SameLinks(h, Move(c, d), a);
    BeginLinked(h, input, FindRow(a, input.turnId));
    GoLinks(h, a, Begin(input));
  }

  lemma DecideLinks(h: bool, c: Chat, input: Input, wait: bool)
    requires AllLinked(h, c)
    ensures AllLinked(h, Decide(c, input, wait))
  {
    hide AllLinked, Move, StartTurn;
    StartLinks(h, c, input);
    MoveLinks(h, c, c.desk.(queued := Some(input)));
    SameLinks(h, Move(c, c.desk.(queued := Some(input))), Accept(Move(c, c.desk.(queued := Some(input))), input));
  }

  lemma WithdrawLinks(h: bool, c: Chat, id: Id)
    requires AllLinked(h, c)
    ensures AllLinked(h, Withdraw(c, id))
  {
    hide AllLinked, Move;
    MoveLinks(h, c, c.desk.(queued := None));
    var m := Move(c, c.desk.(queued := None));
    SameLinks(h, m, m.(withdrawn := m.withdrawn + {id}));
  }

  lemma AbortLinks(h: bool, c: Chat, id: Id)
    requires AllLinked(h, c)
    ensures AllLinked(h, Abort(c, id))
  {
    hide AllLinked, Move, Linked;
    var m := Move(c, c.desk.(stopRequested := true));
    MoveLinks(h, c, c.desk.(stopRequested := true));
    if c.desk.active == Some(id) && m.up {
      var known := if m.sent[id] == 0 then m.(stopped := m.stopped + {id}) else m;
      SameLinks(h, m, known);
      if known.run.Some? {
        LinkedRun(h, known, known.run.value);
        AbortRunLinks(h, known);
      }
    }
  }

  lemma AbortRunLinks(h: bool, c: Chat)
    requires AllLinked(h, c) && c.run.Some? && RunLinked(h, c.run.value, FindRow(c, c.run.value.id))
    ensures AllLinked(h, c.(run := Some(c.run.value.(aborted := true))))
  {
    hide Linked;
    var d := c.(run := Some(c.run.value.(aborted := true)));
    forall j: Id ensures LinkedIn(h, d, j) { assert LinkedIn(h, c, j); }
  }

  lemma RunStepLinks(h: bool, c: Chat, e: Event)
    requires Inv(c) && c.run.Some? && AllLinked(h, c) && (h ==> Honest(c, e))
    ensures AllLinked(h, RunStep(c, e))
  {
    hide Shape, Good, Inv, AllLinked, Validate, Choose, Insert, Admit, Prepare, Freeze, Chunk, Refuse, Complete, Break, Finish, SettleRun, AdvanceQueue;
    GoodAll(c, c.run.value.id);
    var r := c.run.value;
    match e {
      case Validated(ok) => if r.phase == Validating { ValidateLinks(h, c, r, ok); }
      case Chosen(settings, available, problem) => if r.phase == Choosing { ChooseLinks(h, c, r, settings, available, problem); }
      case Inserted(w, problem) => if r.phase == Inserting { InsertLinks(h, c, r, w, problem); }
      case Admitted(w, bound, problem) => if r.phase == Admitting { AdmitLinks(h, c, r, w, bound, problem); }
      case Prepared(plan, fits, problem) => if r.phase == Preparing { PrepareLinks(h, c, r, plan, fits, problem); }
      case Frozen(w, problem) => if r.phase == Freezing { FreezeLinks(h, c, r, w, problem); }
      case Finished(res, blank, totalMs) => if r.phase == Finishing { FinishLinks(h, c, r, res, blank, totalMs); }
      case Settled(f) => if r.phase == Settling { SettleLinks(h, c, r, f); }
      case RunOver => if r.phase == Ended { AdvanceLinks(h, c, r); }
      case _ => if r.phase == Streaming && (e.Chunked? || e.Refused? || e.Completes? || e.Breaks?) { StreamLinks(h, c, r, e); }
    }
  }

  lemma PassLinksHere(h: bool, c: Chat, faults: Id -> Faults)
    requires Inv(c) && AllLinked(h, c)
    ensures AllLinked(h, Pass(c, faults))
  {
    hide Inv, AllLinked, Rests, Pass;
    GoodRests(c);
    PassLinks(h, c, faults);
  }

  lemma StepLinks(h: bool, c: Chat, e: Event, writes: nat)
    requires Inv(c) && AllLinked(h, c) && (h ==> Honest(c, e))
    ensures AllLinked(h, Step(c, e, writes))
  {
    hide Inv, AllLinked, Boot, Pass, RecoverHandoff, RunStep, Decide, Withdraw, Abort;
    WritesKeep(c, writes);
    var ready := c.(writes := writes);
    SameLinks(h, c, ready);
    if c.up {
      match e {
        case Crash => SameLinks(h, ready, Down(ready));
        case Read(faults) => HandoffIdle(ready); PassLinksHere(h, ready, faults);
        case Recover(faults) => PassLinksHere(h, ready, faults);
        case Submitted(input, wait, faults) =>
          HandoffIdle(ready);
          PassLinksHere(h, ready, faults);
          DecideLinks(h, Pass(ready, faults), input, wait);
        case StopAsked(id, faults) =>
          HandoffIdle(ready);
          PassLinksHere(h, ready, faults);
          WithdrawLinks(h, Pass(ready, faults), id);
          AbortLinks(h, Withdraw(Pass(ready, faults), id), id);
        case _ => if ready.run.Some? { RunStepLinks(h, ready, e); }
      }
    } else if e.Booted? {
      BootLinks(h, ready, e.faults);
    }
  }

  /** A run of steps in which the transport keeps its promise. */
  predicate HonestRun(c: Chat, steps: seq<Act>)
    decreases |steps|
  {
    steps == [] || (Honest(c, steps[0].event) && HonestRun(Step(c, steps[0].event, steps[0].writes), steps[1..]))
  }

  lemma {:induction false} RunLinks(h: bool, c: Chat, steps: seq<Act>)
    requires Inv(c) && AllLinked(h, c) && (h ==> HonestRun(c, steps))
    ensures AllLinked(h, Run(c, steps))
    decreases |steps|
  {
    hide Inv, AllLinked, Step, Honest;
    if steps != [] {
      StepKeeps(c, steps[0].event, steps[0].writes);
      StepLinks(h, c, steps[0].event, steps[0].writes);
      RunLinks(h, Step(c, steps[0].event, steps[0].writes), steps[1..]);
    }
  }

  // ---------------------------------------------------------------- one pass settles

  predicate Works(f: Faults) { f.answers && f.commits && f.confirms }

  lemma ConcludeClears(c: Chat, id: Id, t: Turn)
    requires c.up && c.writes >= 1 && t.pending && Terminal(t.receipt)
    requires FindRow(c, id) == Some(t.receipt) || (id !in c.rows && t.receipt.kind == None && (Blank(t) || ZeroUsage(t.receipt)))
    ensures var s := Conclude(c, id, t);
            s.up && id in s.turns && !s.turns[id].pending && s.writes == c.writes - 1 && s.turns.Keys == c.turns.Keys + {id}
  {
  }

  lemma SettleClears(h: bool, c: Chat, id: Id, t: Turn, f: Faults)
    requires c.up && c.writes >= 2 && Works(f) && Find(c, id) == Some(t) && t.pending && Terminal(t.receipt)
    requires Linked(h, t, FindRow(c, id)) && !Stuck(t.receipt, FindRow(c, id)) && (id in c.rows && Terminal(c.rows[id]) ==> c.rows[id] == t.receipt)
    ensures var s := SettleTurn(c, id, t, f);
            s.up && id in s.turns && !s.turns[id].pending && s.writes >= c.writes - 2 && s.turns.Keys == c.turns.Keys
  {
    hide Conclude, Recovered, Unsettled, Blank, ZeroUsage, Fits, MayCharge, Stuck;
    if id in c.rows && c.rows[id].state == Started {
      var next := Recovered(t, c.rows[id]);
      RecoveredLinked(h, t, c.rows[id]);
      var saved := Save(c, id, next);
      var charged := Charge(saved, id, next.receipt, true);
      assert charged.rows[id] == next.receipt;
      ConcludeClears(charged, id, next);
    } else {
      ConcludeClears(c, id, t);
    }
  }

  lemma {:induction false} NothingPending(c: Chat, ids: seq<Id>, faults: Id -> Faults)
    requires Rests(c) && (c.desk.active.Some? && c.desk.active.value in c.turns ==> !c.turns[c.desk.active.value].pending)
    ensures SettleEach(c, ids, faults) == c
    decreases |ids|
  {
    hide AtRest;
    if ids != [] {
      assert AtRest(c, ids[0]);
      if ids[0] in c.turns && c.turns[ids[0]].pending { PendingIsActive(c, ids[0]); }
      NothingPending(c, ids[1..], faults);
    }
  }

  lemma ActiveFirst(c: Chat, own: Id)
    requires own in c.turns && c.turns[own].pending
    ensures PassIds(c, Some(own)) != [] && PassIds(c, Some(own))[0] == own
  {
    hide PendingIn, Without;
  }

  lemma HolderIs(c: Chat)
    requires Inv(c) && c.up && c.run.None? && c.desk.active.Some?
    ensures var own := c.desk.active.value;
            && own in c.turns && c.turns[own].pending && Terminal(c.turns[own].receipt)
            && (own in c.rows && Terminal(c.rows[own]) ==> c.rows[own] == c.turns[own].receipt)
  {
    assert Good(c, c.desk.active.value);
  }

  lemma PassSettles(h: bool, c: Chat, faults: Id -> Faults)
    requires Inv(c) && AllLinked(h, c) && c.up && c.run.None? && c.writes >= 3 && !Blocked(c) && forall id :: Works(faults(id))
    ensures var d := Pass(c, faults); d.up && d.desk.active.None? && d.desk.queued.None? && d.writes >= c.writes - 3 && d.turns.Keys == c.turns.Keys
    ensures var d := Pass(c, faults);
            c.desk.active.Some? ==>
              var own := c.desk.active.value;
              own in c.turns && var s := SettleTurn(c, own, c.turns[own], faults(own)); d.turns == s.turns && d.rows == s.rows
  {
    hide Inv, AllLinked, Rests, AtRest, SettleOne, PassIds, SettleTurn, Pass, Works, Stuck;
    GoodRests(c);
    ReclaimGrows(c, faults);
    GoodAll(c, 0);
    var ids := PassIds(c, c.desk.active);
    if c.desk.active.None? {
      NothingPending(c, ids, faults);
    } else {
      var own := c.desk.active.value;
      HolderIs(c);
      AllIn(h, c, own);
      ActiveFirst(c, own);
      var s := SettleOne(c, own, faults(own));
      assert s == SettleTurn(c, own, c.turns[own], faults(own)) by { OneIs(c, own, faults(own)); }
      SettleClears(h, c, own, c.turns[own], faults(own));
      OneRests(c, own, faults(own));
      OneKeepsDesk(c, own, faults(own));
      NothingPending(s, ids[1..], faults);
      assert SettleEach(c, ids, faults) == s;
      OwnReleases(s, own);
    }
  }

  lemma OneIs(c: Chat, own: Id, f: Faults)
    requires c.run.None? && own in c.turns && c.turns[own].pending && Terminal(c.turns[own].receipt)
    ensures SettleOne(c, own, f) == SettleTurn(c, own, c.turns[own], f)
  {
  }

  lemma OneKeepsDesk(c: Chat, own: Id, f: Faults)
    requires Rests(c) && c.up && c.run.None? && c.desk.active == Some(own)
    ensures SettleOne(c, own, f).desk == c.desk && SettleOne(c, own, f).run.None?
    ensures SettleOne(c, own, f).up ==> own in SettleOne(c, own, f).turns
  {
    hide AtRest, SettleOne;
    assert AtRest(c, own);
    SettleOneKeeps(c, own, f, own);
  }

  lemma OwnReleases(s: Chat, own: Id)
    requires Rests(s) && s.up && s.run.None? && s.desk.active == Some(own) && s.writes >= 1
    requires own in s.turns && !s.turns[own].pending
    ensures var d := Release(s, Some(own)); d.up && d.desk.active.None? && d.desk.queued.None? && d.writes == s.writes - 1 && d.turns == s.turns && d.rows == s.rows
  {
    assert AtRest(s, own);
  }

  /** Nothing is active or queued, and every turn is finished and agrees with its row. */
  ghost predicate AllSettled(d: Chat) {
    && d.up && d.desk.active.None? && d.desk.queued.None?
    && forall id: Id :: id in d.turns ==> Terminal(d.turns[id].receipt) && !d.turns[id].pending && Agrees(d.turns[id], FindRow(d, id))
  }

  /**
   * After any run, one recovery pass of an idle chat with a working D1 settles everything, unless the active turn
   * is stuck: then that pass, and every later one, leaves it pending.
   */
  lemma {:induction false} OnePassSettlesExactly(steps: seq<Act>, faults: Id -> Faults, writes: nat)
    requires Reached(steps).up && Reached(steps).run.None? && writes >= 3 && forall id :: Works(faults(id))
    ensures var d := Step(Reached(steps), Recover(faults), writes);
            && (AllSettled(d) <==> !Blocked(Reached(steps)))
            && (Blocked(Reached(steps)) ==> d.up && d.run.None? && Blocked(d) && d.turns[d.desk.active.value].pending)
  {
    hide Inv, AllLinked, Run, Pass, Works, Good, HonestRun, Blocked;
    var c := Reached(steps);
    EmptyIsGood();
    NewIsLinked(false);
    ReachedIsGood(steps, 0);
    RunLinks(false, NewChat(), steps);
    WritesKeep(c, writes);
    var ready := c.(writes := writes);
    SameLinks(false, c, ready);
    assert Blocked(ready) == Blocked(c) by { SameBlock(c, ready); }
    if Blocked(ready) {
      StuckStays(ready, faults);
    } else {
      PassSettles(false, ready, faults);
      PassInv(ready, faults);
      SettledHere(Pass(ready, faults));
    }
  }

  /** When the transport refuses a prompt only before any text, and sends none after it, no turn is ever stuck. */
  lemma {:induction false} HonestRunsSettle(steps: seq<Act>, faults: Id -> Faults, writes: nat)
    requires HonestRun(NewChat(), steps) && Reached(steps).up && Reached(steps).run.None?
    requires writes >= 3 && forall id :: Works(faults(id))
    ensures AllSettled(Step(Reached(steps), Recover(faults), writes))
  {
    hide Inv, AllLinked, Run, Pass, Works, Good, HonestRun, AllSettled, Blocked;
    var c := Reached(steps);
    EmptyIsGood();
    NewIsLinked(true);
    ReachedIsGood(steps, 0);
    RunLinks(true, NewChat(), steps);
    HonestIsFree(c);
    OnePassSettlesExactly(steps, faults, writes);
  }

  lemma SameBlock(c: Chat, d: Chat)
    requires d.desk == c.desk && d.turns == c.turns && d.rows == c.rows
    ensures Blocked(d) == Blocked(c)
  {
  }

  lemma HonestIsFree(c: Chat)
    requires Inv(c) && AllLinked(true, c) && c.up && c.run.None?
    ensures !Blocked(c)
  {
    hide Inv, AllLinked;
    if c.desk.active.Some? {
      HolderIs(c);
      AllIn(true, c, c.desk.active.value);
    }
  }

  lemma SettledHere(d: Chat)
    requires Inv(d) && d.up && d.desk.active.None? && d.desk.queued.None?
    ensures AllSettled(d)
  {
    hide Inv, Good;
    forall id: Id | id in d.turns ensures Terminal(d.turns[id].receipt) && !d.turns[id].pending && Agrees(d.turns[id], FindRow(d, id)) {
      GoodAll(d, id);
      IdleTurn(d, id);
    }
  }

  // ---------------------------------------------------------------- a stuck turn stays

  lemma StuckStays(c: Chat, faults: Id -> Faults)
    requires Inv(c) && c.up && c.run.None? && c.writes >= 3 && Blocked(c) && forall id :: Works(faults(id))
    ensures var d := Pass(c, faults); d.up && d.run.None? && Blocked(d) && d.turns[d.desk.active.value].pending && !AllSettled(d)
  {
    hide Inv, Rests, AtRest, SettleOne, PassIds, SettleTurn, Pass, Works, Stuck;
    GoodRests(c);
    ReclaimGrows(c, faults);
    GoodAll(c, 0);
    var ids := PassIds(c, c.desk.active);
    var own := c.desk.active.value;
    HolderIs(c);
    ActiveFirst(c, own);
    OneIs(c, own, faults(own));
    StuckTurn(c, own, c.turns[own], faults(own));
    var s := SettleOne(c, own, faults(own));
    OneRests(c, own, faults(own));
    OneKeepsDesk(c, own, faults(own));
    OthersFollow(c, own);
    OthersWait(s, ids[1..], own, faults);
    assert SettleEach(c, ids, faults) == s;
    OwnStays(s, own);
  }

  /** The refused update leaves the row open and the turn pending with its own receipt. */
  lemma StuckTurn(c: Chat, id: Id, t: Turn, f: Faults)
    requires c.up && c.writes >= 2 && Works(f) && Find(c, id) == Some(t) && t.pending && Terminal(t.receipt) && Stuck(t.receipt, FindRow(c, id))
    ensures var s := SettleTurn(c, id, t, f);
            s.up && id in s.turns && s.turns[id].pending && Stuck(s.turns[id].receipt, FindRow(s, id))
  {
    hide Recovered, SameOwner, Unsettled, Conclude, MayCharge, Save;
    var row := c.rows[id];
    var next := Recovered(t, row);
    StuckNext(t, row);
    StaysPending(c, id, t, UsageMismatch);
    SavePending(c, id, next);
    var saved := Save(c, id, next);
    assert Charge(saved, id, next.receipt, true) == saved;
    StuckConcludes(saved, id, next);
  }

  lemma StuckNext(t: Turn, row: Receipt)
    requires Stuck(t.receipt, Some(row)) && Terminal(t.receipt) && t.pending
    ensures var next := Recovered(t, row);
            next.pending && Terminal(next.receipt) && Stuck(next.receipt, Some(row)) && !MayCharge(row, next.receipt)
  {
  }

  lemma SavePending(c: Chat, id: Id, t: Turn)
    requires c.up && c.writes >= 2
    ensures var s := Save(c, id, t); s.up && s.writes >= 1 && s.rows == c.rows && Find(s, id) == Some(t)
  {
  }

  lemma StaysPending(c: Chat, id: Id, t: Turn, n: Notice)
    requires c.up && c.writes >= 1 && Find(c, id) == Some(t) && t.pending && Stuck(t.receipt, FindRow(c, id))
    ensures var s := Unsettled(c, id, n); s.up && id in s.turns && s.turns[id].pending && Stuck(s.turns[id].receipt, FindRow(s, id))
  {
    hide Stuck;
    assert (t.(notice := Some(n))).receipt == t.receipt;
  }

  lemma StuckConcludes(c: Chat, id: Id, t: Turn)
    requires c.up && c.writes >= 1 && Find(c, id) == Some(t) && t.pending && Terminal(t.receipt) && Stuck(t.receipt, FindRow(c, id))
    ensures var s := Conclude(c, id, t); s.up && id in s.turns && s.turns[id].pending && Stuck(s.turns[id].receipt, FindRow(s, id))
  {
    hide Unsettled;
    StaysPending(c, id, t, UsageUnconfirmed);
  }

  lemma OthersFollow(c: Chat, own: Id)
    requires own in c.turns && c.turns[own].pending
    ensures PassIds(c, Some(own)) != [] && own !in PassIds(c, Some(own))[1..]
  {
    hide PendingIn;
    WithoutIt(Take(PendingIn(c.order, c.turns), 8), own);
  }

  lemma {:induction false} WithoutIt(ids: seq<Id>, own: Id)
    ensures own !in Without(ids, own)
  {
    if ids != [] { WithoutIt(ids[1..], own); }
  }

  lemma {:induction false} OthersWait(c: Chat, ids: seq<Id>, own: Id, faults: Id -> Faults)
    requires Rests(c) && c.desk.active == Some(own) && own !in ids
    ensures SettleEach(c, ids, faults) == c
    decreases |ids|
  {
    hide AtRest;
    if ids != [] {
      assert AtRest(c, ids[0]);
      if ids[0] in c.turns && c.turns[ids[0]].pending { PendingIsActive(c, ids[0]); }
      OthersWait(c, ids[1..], own, faults);
    }
  }

  lemma OwnStays(s: Chat, own: Id)
    requires s.up && s.run.None? && s.desk.active == Some(own) && own in s.turns && s.turns[own].pending
    ensures Release(s, Some(own)) == s && Reclaim(s) == s
  {
  }

  lemma IdleTurn(d: Chat, id: Id)
    requires Good(d, id) && id in d.turns && d.desk.active.None?
    ensures Terminal(d.turns[id].receipt) && !d.turns[id].pending && Agrees(d.turns[id], FindRow(d, id))
  {
  }

  lemma NewIsLinked(h: bool)
    ensures AllLinked(h, NewChat())
  {
  }

  // ---------------------------------------------------------------- what can block settlement

  /**
   * With a working D1 a finished turn is settled exactly when its row, if there is one, is either still
   * open under the same model, scope mode and kind with an admissible limit, or already says what the turn
   * says; and when there is no row, exactly when nothing was recorded or the usage is a known zero.
   */
  lemma SettlesExactly(c: Chat, id: Id, t: Turn, f: Faults)
    requires c.up && c.writes >= 2 && Works(f) && Find(c, id) == Some(t) && t.pending && Terminal(t.receipt)
    ensures var s := SettleTurn(c, id, t, f);
            (id in s.turns && !s.turns[id].pending) <==>
              match FindRow(c, id)
              case None => Blank(t) || NoAdmission(t.receipt)
              case Some(row) =>
                if Terminal(row) then row == t.receipt
                else var next := Recovered(t, row); SameOwner(next, row) && MayCharge(row, next.receipt)
  {
    hide Blank, NoAdmission, MayCharge, Recovered;
    RecoveredState(t, c, id);
    BlankIs(t);
    if id in c.rows && c.rows[id].state == Started {
      var next := Recovered(t, c.rows[id]);
      var saved := Save(c, id, next);
      var charged := Charge(saved, id, next.receipt, true);
      if SameOwner(next, c.rows[id]) && MayCharge(c.rows[id], next.receipt) {
        assert charged.rows[id] == next.receipt;
      }
    }
  }

  lemma RecoveredState(t: Turn, c: Chat, id: Id)
    ensures id in c.rows ==> Recovered(t, c.rows[id]).receipt.state == t.receipt.state && Recovered(t, c.rows[id]).pending == t.pending
  {
  }

  lemma BlankIs(t: Turn)
    ensures Blank(t) ==> NoAdmission(Zeroed(t.receipt))
  {
  }
}
