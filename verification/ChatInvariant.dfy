/** What every step of the chat protocol keeps, read one turn id at a time. */
module ChatInvariant {
  import opened Text
  import opened Chat

  /** Everything a chat holds about one turn id. */
  datatype Face = Face(
    active: bool, queued: Option<Input>, stop: bool, run: Option<Runner>,
    turn: Option<Turn>, row: Option<Receipt>,
    accepted: Option<Input>, sent: nat, stopped: bool, withdrawn: bool)

  function FaceOf(c: Chat, id: Id): Face {
    Face(c.desk.active == Some(id), if Waiting(c, id) then c.desk.queued else None, c.desk.stopRequested,
         if c.run.Some? && c.run.value.id == id then c.run else None,
         Find(c, id), FindRow(c, id),
         if id in c.accepted then Some(c.accepted[id]) else None,
         c.sent[id], id in c.stopped, id in c.withdrawn)
  }

  predicate Terminal(r: Receipt) { r.state != Started }

  /** A question that was kept without being sent. */
  predicate Kept(t: Turn) { t.input.Some? && Terminal(t.receipt) && NoAdmission(t.receipt) && !t.pending }

  /** The settled turn and its accounting row say the same, or nothing was admitted. */
  predicate Agrees(t: Turn, row: Option<Receipt>) {
    row == Some(t.receipt) || (row.None? && NoAdmission(t.receipt))
  }

  predicate NoTokens(r: Receipt) { r.inputTokens == None && r.cachedTokens == None && r.outputTokens == None }

  /** The retained self-handoff was neither admitted nor sent. */
  predicate QueueOk(v: Face) {
    v.queued.Some? ==>
      && v.row.None? && v.sent == 0 && !v.withdrawn && v.accepted == v.queued
      && (v.turn.Some? ==> Kept(v.turn.value) || (v.active && v.turn.value == NewTurn(v.queued.value)))
  }

  predicate TurnOk(v: Face) {
    v.turn.Some? ==>
      var t := v.turn.value;
      && (t.receipt.state == Started ==> v.active && t.input.None? && NoTokens(t.receipt) && (!t.pending ==> v.row.None?))
      && (t.pending ==> v.active && t.input.None?)
      && (t.input.Some? ==> Kept(t) && v.row.None?)
      && (Terminal(t.receipt) && !t.pending ==> Agrees(t, v.row))
      && v.accepted.Some? && v.accepted.value.question == t.question
  }

  predicate RowOk(v: Face) {
    v.row.Some? ==>
      && v.turn.Some? && v.turn.value.input.None?
      && (v.row.value.state == Started ==> v.turn.value.pending && NoTokens(v.row.value))
      && (Terminal(v.row.value) ==> v.row.value == v.turn.value.receipt)
  }

  predicate HistoryOk(v: Face) {
    && v.sent <= 1
    && (v.sent == 1 ==> v.row.Some? && v.row.value.kind.Some?)
    && (v.accepted.Some? ==> v.turn.Some? || v.queued == v.accepted || v.withdrawn)
    && (v.stopped ==> v.sent == 0 && (v.turn.Some? || (v.queued.Some? && v.active)))
    && (v.withdrawn ==> v.turn.None? && v.row.None? && v.queued.None? && !v.active && v.sent == 0)
  }

  /** What holds whether or not an instance is up. */
  predicate Durable(v: Face) { QueueOk(v) && TurnOk(v) && RowOk(v) && HistoryOk(v) }

  predicate Opened(v: Face, t: Turn) {
    && v.turn == Some(t) && t.receipt.state == Started && t.pending && NoTokens(t.receipt) && v.sent == 0
  }

  /** The started row carries this run's admission. */
  predicate Holds(v: Face, t: Turn) {
    && v.row.Some? && v.row.value.state == Started && v.row.value.kind.Some?
    && t.receipt.kind == v.row.value.kind && t.receipt.tokenLimit == v.row.value.tokenLimit
  }

  predicate PhaseOk(v: Face, r: Runner) {
    match r.phase
    case Validating => v.queued == Some(r.input) && v.turn.None? && v.row.None? && v.sent == 0
    case Choosing => v.turn == Some(r.turn) && r.turn == NewTurn(r.input) && v.row.None? && v.sent == 0
    case Inserting => Opened(v, r.turn) && Blank(r.turn) && v.row.None?
    case Admitting => Opened(v, r.turn) && Blank(r.turn) && v.row == Some(InsertedRow(r.turn))
    case Preparing => Opened(v, r.turn) && Holds(v, r.turn)
    case Freezing => Opened(v, r.turn) && Holds(v, r.turn)
    case Streaming => v.turn.Some? && v.turn.value.pending && r.turn.pending && r.turn.receipt.state == Started && Holds(v, r.turn)
                      && v.sent == 1 && NoTokens(r.turn.receipt)
    case Finishing => v.turn.Some? && v.turn.value.pending == r.turn.pending && Terminal(r.turn.receipt) && NoTokens(r.turn.receipt)
                      && (!r.turn.pending ==> r.turn.receipt.kind == None && !r.dispatched)
    case Settling => v.turn == Some(r.turn) && Terminal(r.turn.receipt)
    case Ended => v.turn.Some? && Terminal(v.turn.value.receipt) && Noted(v.turn.value)
  }

  /** A turn whose settlement failed says so. */
  predicate Noted(t: Turn) { t.pending ==> t.notice.Some? }

  predicate Early(p: Phase) { p in {Choosing, Inserting, Admitting, Preparing, Freezing} }

  predicate Writing(p: Phase) { Early(p) || p == Streaming || p == Finishing }

  predicate RunOk(v: Face) {
    v.run.Some? ==>
      var r := v.run.value;
      && v.active && r.turn.input.None? && r.turn.question == r.input.question
      && v.accepted.Some? && v.accepted.value.question == r.input.question
      && (r.phase != Validating ==> v.queued.None? && v.turn.Some?)
      && (r.phase != Validating && r.phase != Ended ==> v.turn.value.input.None?)
      && (Writing(r.phase) ==>
            && v.turn.value.receipt.state == Started
            && (v.turn.value.receipt.tokenLimit.Some? ==> r.turn.receipt.tokenLimit.Some?)
            && v.turn.value.receipt.scopeMode == r.turn.receipt.scopeMode)
      && (r.phase == Validating || Early(r.phase) ==> !r.dispatched && r.usage.None?)
      && PhaseOk(v, r)
      && (v.stopped && r.phase == Validating ==> v.stop)
      && (v.stopped && Early(r.phase) ==> r.aborted)
  }

  /** What holds besides while an instance is up, even inside a recovery pass. */
  predicate Resting(v: Face) {
    && RunOk(v)
    && (v.queued.Some? && !v.active ==> v.turn.None?)
    && (v.queued.Some? && v.active ==> v.run.Some? && v.run.value.phase == Validating)
    && (v.active && v.run.None? ==> v.turn.Some? && Terminal(v.turn.value.receipt))
  }

  /** Between two steps an idle chat stays active only for a turn whose settlement failed. */
  predicate Live(v: Face) {
    && Resting(v)
    && (v.active && v.run.None? ==> v.turn.value.pending && v.turn.value.notice.Some?)
  }

  predicate Shape(c: Chat) {
    && (c.desk.active.None? ==> c.desk.queued.None?)
    && (c.run.Some? ==> c.up && c.desk.active == Some(c.run.value.id) && c.run.value.input.turnId == c.run.value.id)
    && (c.up && c.run.None? ==> c.desk.queued.None?)
  }

  predicate Good(c: Chat, id: Id) { Durable(FaceOf(c, id)) && (c.up ==> Live(FaceOf(c, id))) }

  ghost predicate Inv(c: Chat) { Shape(c) && forall id: Id :: Good(c, id) }

  lemma EmptyIsGood()
    ensures Inv(NewChat())
  {
  }

  // ---------------------------------------------------------------- phases of a run

  /** A run in one of its writing phases may fail at any point. */
  predicate MayFail(v: Face, r: Runner) {
    && Durable(v) && v.active && v.queued.None? && v.turn.Some?
    && v.turn.value.receipt.state == Started && v.turn.value.input.None? && v.turn.value.pending == r.turn.pending
    && r.turn.input.None? && r.turn.question == r.input.question && r.turn.question == v.turn.value.question
    && NoTokens(r.turn.receipt) && v.turn.value.receipt.scopeMode == r.turn.receipt.scopeMode
    && (v.turn.value.receipt.tokenLimit.Some? ==> r.turn.receipt.tokenLimit.Some?)
    && (!r.turn.pending ==> r.turn.receipt.kind == None && !r.dispatched)
  }

  lemma CatchKeeps(c: Chat, r: Runner, problem: Problem)
    requires Shape(c) && c.up && c.desk.active == Some(r.id) && r.input.turnId == r.id && MayFail(FaceOf(c, r.id), r)
    ensures Shape(Catch(c, r, problem)) && Good(Catch(c, r, problem), r.id)
  {
    hide QueueOk, RowOk, HistoryOk, Holds, Opened;
    var v := FaceOf(Catch(c, r, problem), r.id);
    assert Durable(v) by { DurableIgnoresRun(FaceOf(c, r.id), v); }
  }

  lemma DurableIgnoresRun(v: Face, w: Face)
    requires Durable(v) && w == v.(run := w.run)
    ensures Durable(w)
  {
  }

  // ---------------------------------------------------------------- one write, seen from each turn id

  lemma SaveFace(c: Chat, id: Id, t: Turn, j: Id)
    requires c.up
    ensures var s := Save(c, id, t);
            && s.desk == c.desk && s.rows == c.rows && s.accepted == c.accepted && s.withdrawn == c.withdrawn
            && s.stopped == c.stopped && s.sent == c.sent && (s.up ==> s.run == c.run) && (!s.up ==> s.run.None?)
    ensures Save(c, id, t).up ==>
              FaceOf(Save(c, id, t), j) == if j == id then FaceOf(c, j).(turn := Some(t)) else FaceOf(c, j)
    ensures !Save(c, id, t).up ==> FaceOf(Save(c, id, t), j) == FaceOf(c, j).(run := None)
  {
  }

  lemma MoveFace(c: Chat, d: Desk, j: Id)
    requires c.up
    ensures var s := Move(c, d);
            && s.rows == c.rows && s.turns == c.turns && s.accepted == c.accepted && s.withdrawn == c.withdrawn
            && s.stopped == c.stopped && s.sent == c.sent && (s.up ==> s.run == c.run && s.desk == d) && (!s.up ==> s.run.None? && s.desk == c.desk)
    ensures Move(c, d).up ==>
              FaceOf(Move(c, d), j) ==
                FaceOf(c, j).(active := d.active == Some(j),
                              queued := if d.queued.Some? && d.queued.value.turnId == j then d.queued else None,
                              stop := d.stopRequested)
    ensures !Move(c, d).up ==> FaceOf(Move(c, d), j) == FaceOf(c, j).(run := None)
  {
  }

  lemma GoFace(c: Chat, r: Runner, j: Id)
    ensures var s := Go(c, r);
            && s.up == c.up && s.desk == c.desk && s.turns == c.turns && s.rows == c.rows && s.sent == c.sent
            && (c.up ==> s.run == Some(r)) && (!c.up ==> s == c)
    ensures c.up ==> FaceOf(Go(c, r), j) == FaceOf(c, j).(run := if r.id == j then Some(r) else None)
  {
  }

  lemma RowFace(c: Chat, id: Id, row: Receipt, j: Id)
    ensures FaceOf(c.(rows := c.rows[id := row]), j) == if j == id then FaceOf(c, j).(row := Some(row)) else FaceOf(c, j)
  {
  }

  lemma SentFace(c: Chat, id: Id, j: Id)
    ensures FaceOf(c.(sent := c.sent + multiset{id}), j) == if j == id then FaceOf(c, j).(sent := c.sent[id] + 1) else FaceOf(c, j)
  {
  }

  lemma RunFace(c: Chat, j: Id)
    ensures FaceOf(c, j).run == if c.run.Some? && c.run.value.id == j then c.run else None
    ensures FaceOf(c, j).active == (c.desk.active == Some(j)) && FaceOf(c, j).turn == Find(c, j) && FaceOf(c, j).row == FindRow(c, j)
    ensures FaceOf(c, j).stop == c.desk.stopRequested && FaceOf(c, j).sent == c.sent[j]
    ensures FaceOf(c, j).queued == if Waiting(c, j) then c.desk.queued else None
  {
  }

  lemma CatchFace(c: Chat, r: Runner, problem: Problem, id: Id)
    requires Shape(c) && c.up && c.desk.active == Some(r.id) && r.input.turnId == r.id && MayFail(FaceOf(c, r.id), r)
    requires Durable(FaceOf(c, id)) && (id != r.id ==> Live(FaceOf(c, id)))
    requires c.run.Some? && c.run.value.id == r.id
    ensures Shape(Catch(c, r, problem)) && Good(Catch(c, r, problem), id)
  {
    if id == r.id { CatchKeeps(c, r, problem); } else { CatchApart(c, r, problem, id); }
  }

  lemma CatchApart(c: Chat, r: Runner, problem: Problem, id: Id)
    requires Shape(c) && c.run.Some? && c.run.value.id == r.id && r.input.turnId == r.id && id != r.id
    ensures Shape(Catch(c, r, problem)) && FaceOf(Catch(c, r, problem), id) == FaceOf(c, id)
  {
  }

  predicate Steers(c: Chat, own: Id) { Shape(c) && c.run.Some? && c.run.value.id == own }

  /** The run saves its turn and goes on. */
  lemma PutKeeps(c: Chat, r: Runner, id: Id)
    requires Steers(c, r.id) && r.input.turnId == r.id && (id != r.id ==> Good(c, id))
    requires var v := FaceOf(c, r.id); Durable(v) && Durable(v.(turn := Some(r.turn))) && Live(v.(turn := Some(r.turn), run := Some(r)))
    ensures Shape(Put(c, r)) && Good(Put(c, r), id)
  {
    hide Save, Go, FaceOf, Durable, Live;
    var turn := r.turn;
    SaveFace(c, r.id, turn, id);
    SaveFace(c, r.id, turn, r.id);
    var s := Save(c, r.id, turn);
    GoFace(s, r, id);
    RunFace(c, id);
    if s.up {
      if id == r.id {
        DurableIgnoresRun(FaceOf(s, id), FaceOf(Go(s, r), id));
      } else {
        assert FaceOf(Go(s, r), id) == FaceOf(c, id);
      }
    } else {
      DurableIgnoresRun(FaceOf(c, id), FaceOf(s, id));
    }
  }

  /** The run goes on without a write. */
  lemma JustGo(c: Chat, r: Runner, id: Id)
    requires Steers(c, r.id) && r.input.turnId == r.id && (id != r.id ==> Good(c, id))
    requires var v := FaceOf(c, r.id); Durable(v) && Live(v.(run := Some(r)))
    ensures Shape(Go(c, r)) && Good(Go(c, r), id)
  {
    hide Go, FaceOf, Durable, Live;
    GoFace(c, r, id);
    RunFace(c, id);
    if id == r.id {
      DurableIgnoresRun(FaceOf(c, id), FaceOf(Go(c, r), id));
    } else {
      assert FaceOf(Go(c, r), id) == FaceOf(c, id);
    }
  }

  predicate Running(v: Face, r: Runner, phase: Phase) { v.run == Some(r) && r.phase == phase && Durable(v) && Live(v) }

  lemma ChooseOpens(v: Face, r: Runner, model: string)
    requires Running(v, r, Choosing)
    ensures var next := Opening(Named(r, model));
            && next.id == r.id && next.input == r.input
            && Durable(v.(turn := Some(next.turn))) && Live(v.(turn := Some(next.turn), run := Some(next)))
    ensures MayFail(v, r) && MayFail(v, Named(r, model)) && Named(r, model).id == r.id && Named(r, model).input == r.input
  {
  }

  lemma RunningHere(c: Chat, r: Runner)
    requires Shape(c) && c.run == Some(r) && Good(c, r.id)
    ensures Running(FaceOf(c, r.id), r, r.phase) && Steers(c, r.id) && r.input.turnId == r.id && c.desk.active == Some(r.id) && c.up
  {
    hide Durable, Live;
  }

  lemma ChooseKeeps(c: Chat, r: Runner, settings: Option<string>, available: bool, problem: Problem, id: Id)
    requires Shape(c) && c.run == Some(r) && r.phase == Choosing && Good(c, r.id) && Good(c, id)
    ensures Shape(Choose(c, r, settings, available, problem))
    ensures Good(Choose(c, r, settings, available, problem), id)
  {
    hide Catch, Put, FaceOf, Durable, Live, MayFail, Named, Opening;
    RunningHere(c, r);
    var model := if settings.Some? then settings.value else "";
    ChooseOpens(FaceOf(c, r.id), r, model);
    if settings.None? {
      CatchFace(c, r, problem, id);
    } else if !available {
      CatchFace(c, Named(r, model), problem, id);
    } else {
      PutKeeps(c, Opening(Named(r, model)), id);
    }
  }

  // ---------------------------------------------------------------- the row is inserted

  lemma InsertOpens(v: Face, r: Runner)
    requires Running(v, r, Inserting)
    ensures v.row.None? && MayFail(v, r)
    ensures var w := v.(row := Some(InsertedRow(r.turn)));
            Durable(w) && Live(w.(run := Some(r.(phase := Admitting)))) && MayFail(w, r)
  {
  }

  lemma RowApart(c: Chat, own: Id, row: Receipt, id: Id)
    requires Steers(c, own)
    ensures var d := c.(rows := c.rows[own := row]);
            && Steers(d, own) && d.run == c.run && d.up == c.up && d.desk == c.desk
            && FaceOf(d, own) == FaceOf(c, own).(row := Some(row))
            && (id != own ==> FaceOf(d, id) == FaceOf(c, id))
  {
  }

  lemma InsertKeeps(c: Chat, r: Runner, w: Write, problem: Problem, id: Id)
    requires Shape(c) && c.run == Some(r) && r.phase == Inserting && Good(c, r.id) && Good(c, id)
    ensures Shape(Insert(c, r, w, problem)) && Good(Insert(c, r, w, problem), id)
  {
    hide Catch, Go, FaceOf, Durable, Live, MayFail, InsertedRow;
    RunningHere(c, r);
    var v := FaceOf(c, r.id);
    InsertOpens(v, r);
    RowApart(c, r.id, InsertedRow(r.turn), id);
    var wrote := c.(rows := c.rows[r.id := InsertedRow(r.turn)]);
    if w == NotCommitted || r.id in c.rows {
      CatchFace(c, r, problem, id);
    } else if w == Committed {
      JustGo(wrote, r.(phase := Admitting), id);
    } else {
      CatchFace(wrote, r, problem, id);
    }
  }

  // ---------------------------------------------------------------- admission

  lemma AdmitOpens(v: Face, r: Runner, bound: Option<nat>)
    requires Running(v, r, Admitting)
    ensures MayFail(v, r) && v.row.Some? && v.row.value == InsertedRow(r.turn)
    ensures var w := v.(row := Some(Reserved(v.row.value, bound)));
            var next := Reserving(r, bound);
            && next.id == r.id && next.input == r.input
            && Durable(w) && MayFail(w, r) && Durable(w.(turn := Some(next.turn)))
            && Live(w.(turn := Some(next.turn), run := Some(next)))
  {
  }

  lemma AdmitKeeps(c: Chat, r: Runner, w: Write, bound: Option<nat>, problem: Problem, id: Id)
    requires Shape(c) && c.run == Some(r) && r.phase == Admitting && Good(c, r.id) && Good(c, id)
    ensures Shape(Admit(c, r, w, bound, problem)) && Good(Admit(c, r, w, bound, problem), id)
  {
    hide Catch, Put, FaceOf, Durable, Live, MayFail, Reserved, Reserving, InsertedRow;
    RunningHere(c, r);
    RunFace(c, r.id);
    var v := FaceOf(c, r.id);
    AdmitOpens(v, r, bound);
    if w == NotCommitted || !Unreserved(c, r.id) {
      CatchFace(c, r, problem, id);
    } else {
      var row := Reserved(c.rows[r.id], bound);
      RowApart(c, r.id, row, id);
      var wrote := c.(rows := c.rows[r.id := row]);
      if w == Committed {
        PutKeeps(wrote, Reserving(r, bound), id);
      } else {
        CatchFace(wrote, r, problem, id);
      }
    }
  }

  // ---------------------------------------------------------------- preparation and scope

  lemma PrepareOpens(v: Face, r: Runner, plan: Plan)
    requires Running(v, r, Preparing)
    ensures var planned := Planned(r, plan);
            var next := planned.(phase := Freezing);
            && planned.id == r.id && planned.input == r.input
            && MayFail(v, r) && MayFail(v, planned)
            && Durable(v.(turn := Some(next.turn))) && Live(v.(turn := Some(next.turn), run := Some(next)))
  {
  }

  lemma PrepareKeeps(c: Chat, r: Runner, plan: Option<Plan>, fits: bool, problem: Problem, id: Id)
    requires Shape(c) && c.run == Some(r) && r.phase == Preparing && Good(c, r.id) && Good(c, id)
    ensures Shape(Prepare(c, r, plan, fits, problem)) && Good(Prepare(c, r, plan, fits, problem), id)
  {
    hide Catch, Put, FaceOf, Durable, Live, MayFail, Planned;
    RunningHere(c, r);
    var known := if plan.Some? then plan.value else Plan([], NoContext);
    PrepareOpens(FaceOf(c, r.id), r, known);
    if plan.None? {
      CatchFace(c, r, problem, id);
    } else if !fits {
      CatchFace(c, Planned(r, known), problem, id);
    } else {
      PutKeeps(c, Planned(r, known).(phase := Freezing), id);
    }
  }

  lemma FreezeOpens(v: Face, r: Runner, scoped: bool)
    requires Running(v, r, Freezing)
    ensures v.row.Some?
    ensures var w := if scoped then v.(row := Some(Scoped(v.row.value, r))) else v;
            && MayFail(w, r) && Durable(w)
            && (!r.aborted ==> Durable(w.(sent := w.sent + 1))
                               && Live(w.(sent := w.sent + 1, run := Some(r.(phase := Streaming, dispatched := true)))))
  {
  }

  lemma DispatchKeeps(c: Chat, r: Runner, id: Id)
    requires Steers(c, r.id) && r.input.turnId == r.id && (id != r.id ==> Good(c, id))
    requires var v := FaceOf(c, r.id);
             Durable(v.(sent := v.sent + 1)) && Live(v.(sent := v.sent + 1, run := Some(r.(phase := Streaming, dispatched := true))))
    ensures Shape(Dispatch(c, r)) && Good(Dispatch(c, r), id)
  {
    hide Go, FaceOf, Durable, Live;
    RunFace(c, r.id);
    SentFace(c, r.id, r.id);
    SentFace(c, r.id, id);
    var d := c.(sent := c.sent + multiset{r.id});
    assert Steers(d, r.id);
    JustGo(d, r.(phase := Streaming, dispatched := true), id);
  }

  lemma ScopeRowFace(c: Chat, r: Runner, w: Write, id: Id)
    requires Steers(c, r.id) && (r.id in c.rows ==> FaceOf(c, r.id).row == Some(c.rows[r.id]))
    ensures var s := ScopeRow(c, r, w);
            var scoped := w != NotCommitted && r.id in c.rows && c.rows[r.id].state == Started;
            && Steers(s, r.id) && s.run == c.run && s.up == c.up && s.desk == c.desk
            && FaceOf(s, r.id) == (if scoped then FaceOf(c, r.id).(row := Some(Scoped(c.rows[r.id], r))) else FaceOf(c, r.id))
            && (id != r.id ==> FaceOf(s, id) == FaceOf(c, id))
  {
    hide FaceOf, Scoped;
    if r.id in c.rows { RowApart(c, r.id, Scoped(c.rows[r.id], r), id); }
  }

  lemma FreezeKeeps(c: Chat, r: Runner, w: Write, problem: Problem, id: Id)
    requires Shape(c) && c.run == Some(r) && r.phase == Freezing && Good(c, r.id) && Good(c, id)
    ensures Shape(Freeze(c, r, w, problem)) && Good(Freeze(c, r, w, problem), id)
  {
    hide Catch, Dispatch, FaceOf, Durable, Live, MayFail, Scoped, ScopeRow;
    RunningHere(c, r);
    RunFace(c, r.id);
    var scoped := w != NotCommitted && r.id in c.rows && c.rows[r.id].state == Started;
    FreezeOpens(FaceOf(c, r.id), r, scoped);
    ScopeRowFace(c, r, w, id);
    if w != Committed || r.aborted {
      CatchFace(ScopeRow(c, r, w), r, problem, id);
    } else {
      DispatchKeeps(ScopeRow(c, r, w), r, id);
    }
  }

  // ---------------------------------------------------------------- the stream

  lemma HeardOpens(v: Face, r: Runner, text: string, ms: Option<nat>, res: Resolution)
    requires Running(v, r, Streaming)
    ensures var next := Heard(r, text, ms);
            var copy := Resolve(next.turn, res);
            && next.id == r.id && next.input == r.input
            && Durable(v) && Live(v.(run := Some(next)))
            && Durable(v.(turn := Some(copy))) && Live(v.(turn := Some(copy), run := Some(next)))
  {
  }

  lemma SaveThenGo(c: Chat, t: Turn, r: Runner, id: Id)
    requires Steers(c, r.id) && r.input.turnId == r.id && (id != r.id ==> Good(c, id))
    requires var v := FaceOf(c, r.id); Durable(v) && Durable(v.(turn := Some(t))) && Live(v.(turn := Some(t), run := Some(r)))
    ensures Shape(Go(Save(c, r.id, t), r)) && Good(Go(Save(c, r.id, t), r), id)
  {
    hide Save, Go, FaceOf, Durable, Live;
    SaveFace(c, r.id, t, id);
    SaveFace(c, r.id, t, r.id);
    var s := Save(c, r.id, t);
    GoFace(s, r, id);
    RunFace(c, id);
    if s.up {
      if id == r.id {
        DurableIgnoresRun(FaceOf(s, id), FaceOf(Go(s, r), id));
      } else {
        assert FaceOf(Go(s, r), id) == FaceOf(c, id);
      }
    } else {
      DurableIgnoresRun(FaceOf(c, id), FaceOf(s, id));
    }
  }

  lemma ChunkKeeps(c: Chat, r: Runner, text: string, ms: Option<nat>, checkpoint: Option<Resolution>, id: Id)
    requires Shape(c) && c.run == Some(r) && r.phase == Streaming && Good(c, r.id) && Good(c, id)
    ensures Shape(Chunk(c, r, text, ms, checkpoint)) && Good(Chunk(c, r, text, ms, checkpoint), id)
  {
    hide Save, Go, FaceOf, Durable, Live, Heard, Resolve;
    RunningHere(c, r);
    var res := if checkpoint.Some? then checkpoint.value else Resolution("", 0, 0);
    HeardOpens(FaceOf(c, r.id), r, text, ms, res);
    if checkpoint.Some? && !r.aborted {
      SaveThenGo(c, Resolve(Heard(r, text, ms).turn, res), Heard(r, text, ms), id);
    } else {
      JustGo(c, Heard(r, text, ms), id);
    }
  }

  lemma StreamEnds(v: Face, r: Runner, answer: string, usage: Usage, partial: Option<Usage>, blank: bool, cut: Option<Problem>)
    requires Running(v, r, Streaming)
    ensures var known := Answered(r, answer, usage);
            && known.id == r.id && known.input == r.input && Graded(known, blank, cut).id == r.id && Graded(known, blank, cut).input == r.input
            && MayFail(v, known) && MayFail(v, r.(usage := partial)) && known.aborted == r.aborted
            && Durable(v) && Live(v.(run := Some(Graded(known, blank, cut))))
    ensures Live(v.(run := Some(r.(dispatched := false))))
  {
  }

  lemma StreamKeeps(c: Chat, r: Runner, e: Event, id: Id)
    requires Shape(c) && c.run == Some(r) && r.phase == Streaming && Good(c, r.id) && Good(c, id)
    requires e.Refused? || e.Completes? || e.Breaks?
    ensures Shape(RunStep(c, e)) && Good(RunStep(c, e), id)
  {
    hide Catch, Go, FaceOf, Durable, Live, MayFail, Answered, Graded;
    RunningHere(c, r);
    var v := FaceOf(c, r.id);
    match e {
      case Refused =>
        StreamEnds(v, r, "", Usage(None, None, None), None, false, None);
        JustGo(c, r.(dispatched := false), id);
      case Completes(answer, blank, cut, usage) =>
        StreamEnds(v, r, answer, usage, None, blank, cut);
        if r.aborted {
          CatchFace(c, Answered(r, answer, usage), StoppedByOwner, id);
        } else {
          JustGo(c, Graded(Answered(r, answer, usage), blank, cut), id);
        }
      case Breaks(usage, problem) =>
        StreamEnds(v, r, "", Usage(None, None, None), usage, false, None);
        CatchFace(c, r.(usage := usage), problem, id);
    }
  }

  // ---------------------------------------------------------------- the end of a run

  lemma CloseOpens(v: Face, r: Runner, res: Resolution, blank: bool, totalMs: nat)
    requires Running(v, r, Finishing)
    ensures var next := Closing(r, res, blank, totalMs);
            && next.id == r.id && next.input == r.input && Durable(v)
            && Durable(v.(turn := Some(next.turn))) && Live(v.(turn := Some(next.turn), run := Some(next)))
  {
    assert v.row.Some? ==> v.row.value.state == Started;
  }

  lemma FinishKeeps(c: Chat, r: Runner, res: Resolution, blank: bool, totalMs: nat, id: Id)
    requires Shape(c) && c.run == Some(r) && r.phase == Finishing && Good(c, r.id) && Good(c, id)
    ensures Shape(Finish(c, r, res, blank, totalMs)) && Good(Finish(c, r, res, blank, totalMs), id)
  {
    hide Put, FaceOf, Durable, Live, Closing;
    RunningHere(c, r);
    CloseOpens(FaceOf(c, r.id), r, res, blank, totalMs);
    PutKeeps(c, Closing(r, res, blank, totalMs), id);
  }

  // ---------------------------------------------------------------- settlement

  /** Only the turn and the row of `id` changed, and the run ended if the instance went down. */
  predicate Touched(c: Chat, s: Chat, id: Id, j: Id) {
    && s.desk == c.desk && (s.up ==> c.up && s.run == c.run) && (!s.up ==> s.run.None?)
    && (j != id ==> FaceOf(s, j) == FaceOf(c, j).(run := FaceOf(s, j).run))
    && FaceOf(s, id) == FaceOf(c, id).(turn := Find(s, id), row := FindRow(s, id), run := FaceOf(s, id).run)
  }

  lemma SaveTouches(c: Chat, id: Id, t: Turn, j: Id)
    requires c.run.Some? ==> c.up
    ensures Touched(c, Save(c, id, t), id, j)
    ensures FindRow(Save(c, id, t), id) == FindRow(c, id)
    ensures Find(Save(c, id, t), id) == (if Save(c, id, t).up then Some(t) else Find(c, id))
  {
    hide FaceOf;
    RunFace(c, id);
    RunFace(Save(c, id, t), id);
    RunFace(c, j);
    RunFace(Save(c, id, t), j);
    if c.up {
      SaveFace(c, id, t, j);
      SaveFace(c, id, t, id);
    }
  }

  /** Both sides agree on everything but the row. */
  lemma RowTouches(c: Chat, id: Id, row: Receipt, j: Id)
    requires Shape(c)
    ensures Touched(c, c.(rows := c.rows[id := row]), id, j)
  {
    hide FaceOf;
    var s := c.(rows := c.rows[id := row]);
    RunFace(c, id);
    RunFace(s, id);
    RunFace(c, j);
    RunFace(s, j);
    RowFace(c, id, row, j);
    RowFace(c, id, row, id);
  }

  lemma ChargeTouches(c: Chat, id: Id, next: Receipt, commits: bool, j: Id)
    requires Shape(c)
    ensures var s := Charge(c, id, next, commits);
            && Touched(c, s, id, j) && s.up == c.up && Find(s, id) == Find(c, id)
            && (s == c || (c.up && FindRow(c, id).Some? && FindRow(s, id) == Some(next.(kind := FindRow(c, id).value.kind))))
  {
    hide FaceOf, Touched, MayCharge;
    TouchesNothing(c, id, j);
    if Charge(c, id, next, commits) != c {
      RowTouches(c, id, next.(kind := c.rows[id].kind), j);
    }
  }

  lemma TouchedTwice(c: Chat, s: Chat, u: Chat, id: Id, j: Id)
    requires Touched(c, s, id, j) && Touched(s, u, id, j)
    ensures Touched(c, u, id, j)
  {
    hide FaceOf;
  }

  lemma TouchedKeeps(c: Chat, s: Chat, id: Id, j: Id)
    requires Touched(c, s, id, j) && Durable(FaceOf(c, j)) && (j == id ==> Durable(FaceOf(c, id).(turn := Find(s, id), row := FindRow(s, id))))
    ensures Durable(FaceOf(s, j))
  {
    hide FaceOf, Durable;
    if j == id {
      DurableIgnoresRun(FaceOf(c, id).(turn := Find(s, id), row := FindRow(s, id)), FaceOf(s, id));
    } else {
      DurableIgnoresRun(FaceOf(c, j), FaceOf(s, j));
    }
  }

  predicate Due(v: Face, t: Turn) { Durable(v) && v.turn == Some(t) && t.pending && Terminal(t.receipt) }

  lemma NoticeOk(v: Face, t: Turn, n: Notice)
    requires Due(v, t)
    ensures Durable(v.(turn := Some(t.(notice := Some(n)))))
  {
  }

  lemma RecoveredOk(v: Face, t: Turn)
    requires Due(v, t) && v.row.Some? && v.row.value.state == Started
    ensures var next := Recovered(t, v.row.value);
            && Due(v.(turn := Some(next)), next)
            && (SameOwner(next, v.row.value) ==> Due(v.(turn := Some(next), row := Some(next.receipt.(kind := v.row.value.kind))), next))
  {
  }

  lemma ClearedOk(v: Face, t: Turn, t': Turn)
    requires Due(v, t) && t' == t.(receipt := t'.receipt, pending := false, notice := None) && Terminal(t'.receipt) && Agrees(t', v.row)
    ensures Durable(v.(turn := Some(t')))
  {
  }

  predicate SettledIn(s: Chat, id: Id) {
    && id in s.turns && Terminal(s.turns[id].receipt) && (s.up ==> Noted(s.turns[id]))
  }

  lemma UnsettledKeeps(c: Chat, id: Id, t: Turn, n: Notice, j: Id)
    requires Shape(c) && Due(FaceOf(c, id), t) && Durable(FaceOf(c, j))
    ensures var s := Unsettled(c, id, n);
            Touched(c, s, id, j) && Durable(FaceOf(s, j)) && SettledIn(s, id)
  {
    hide FaceOf, Durable, Save, Touched;
    RunFace(c, id);
    NoticeOk(FaceOf(c, id), t, n);
    SaveTouches(c, id, t.(notice := Some(n)), j);
    SameFace(c, id);
    TouchedKeeps(c, Unsettled(c, id, n), id, j);
  }

  lemma SameFace(c: Chat, id: Id)
    ensures FaceOf(c, id) == FaceOf(c, id).(turn := Find(c, id), row := FindRow(c, id))
    ensures forall t :: FaceOf(c, id).(turn := t) == FaceOf(c, id).(turn := t, row := FindRow(c, id))
  {
  }

  lemma ConcludeKeeps(c: Chat, id: Id, t: Turn, j: Id)
    requires Shape(c) && Due(FaceOf(c, id), t) && Durable(FaceOf(c, j))
    ensures var s := Conclude(c, id, t);
            Touched(c, s, id, j) && Durable(FaceOf(s, j)) && SettledIn(s, id)
  {
    hide FaceOf, Durable, Save, Touched, Unsettled;
    RunFace(c, id);
    SameFace(c, id);
    var row := FindRow(c, id);
    var known := if row.None? && Blank(t) then t.(receipt := Zeroed(t.receipt)) else t;
    if row == Some(known.receipt) || (row.None? && NoAdmission(known.receipt)) {
      var done := known.(pending := false, notice := None);
      ClearedOk(FaceOf(c, id), t, done);
      SaveTouches(c, id, done, j);
      TouchedKeeps(c, Save(c, id, done), id, j);
    } else {
      UnsettledKeeps(c, id, t, if row.Some? && row.value.state != Started then UsageMismatch else UsageUnconfirmed, j);
    }
  }

  lemma TouchedShape(c: Chat, s: Chat, id: Id, j: Id)
    requires Shape(c) && Touched(c, s, id, j)
    ensures Shape(s)
  {
  }

  lemma GoneIsStill(c: Chat, id: Id, t: Turn, n: Notice)
    requires !c.up
    ensures Unsettled(c, id, n) == c && Conclude(c, id, t) == c
  {
  }

  lemma SettleKeeps(c: Chat, id: Id, t: Turn, f: Faults, j: Id)
    requires Shape(c) && Due(FaceOf(c, id), t) && Durable(FaceOf(c, j))
    ensures var s := SettleTurn(c, id, t, f);
            Touched(c, s, id, j) && Durable(FaceOf(s, j)) && SettledIn(s, id)
  {
    hide FaceOf, Durable, Save, Touched, Unsettled, Conclude, Recovered, Charge;
    RunFace(c, id);
    SameFace(c, id);
    TouchesNothing(c, id, j);
    if !c.up {
    } else if !f.answers {
      UnsettledKeeps(c, id, t, UsageUnconfirmed, j);
    } else if id in c.rows && c.rows[id].state == Started {
      var next := Recovered(t, c.rows[id]);
      RecoveredOk(FaceOf(c, id), t);
      if !SameOwner(next, c.rows[id]) {
        UnsettledKeeps(c, id, t, UsageMismatch, j);
      } else {
        ChargedKeeps(c, id, t, f, j);
      }
    } else {
      ConcludeKeeps(c, id, t, j);
    }
  }

  lemma TouchesNothing(c: Chat, id: Id, j: Id)
    requires c.run.Some? ==> c.up
    ensures Touched(c, c, id, j)
  {
  }

  lemma ChargedKeeps(c: Chat, id: Id, t: Turn, f: Faults, j: Id)
    requires Shape(c) && c.up && Due(FaceOf(c, id), t) && Durable(FaceOf(c, j))
    requires id in c.rows && c.rows[id].state == Started && SameOwner(Recovered(t, c.rows[id]), c.rows[id])
    ensures var next := Recovered(t, c.rows[id]);
            var charged := Charge(Save(c, id, next), id, next.receipt, f.commits);
            var s := if f.confirms then Conclude(charged, id, next) else Unsettled(charged, id, UsageUnconfirmed);
            Touched(c, s, id, j) && Durable(FaceOf(s, j)) && SettledIn(s, id)
  {
    hide FaceOf, Durable, Save, Touched, Unsettled, Conclude, Recovered, Charge, SameOwner;
    RunFace(c, id);
    SameFace(c, id);
    var next := Recovered(t, c.rows[id]);
    RecoveredOk(FaceOf(c, id), t);
    var saved := Save(c, id, next);
    SaveTouches(c, id, next, j);
    SaveTouches(c, id, next, id);
    TouchedShape(c, saved, id, j);
    TouchedKeeps(c, saved, id, j);
    TouchedKeeps(c, saved, id, id);
    var charged := Charge(saved, id, next.receipt, f.commits);
    ChargeTouches(saved, id, next.receipt, f.commits, j);
    ChargeTouches(saved, id, next.receipt, f.commits, id);
    TouchedTwice(c, saved, charged, id, j);
    TouchedTwice(c, saved, charged, id, id);
    TouchedShape(c, charged, id, j);
    if !charged.up {
      GoneIsStill(charged, id, next, UsageUnconfirmed);
    } else {
      ChargedFace(c, saved, charged, id, t, next);
      TouchedKeeps(c, charged, id, j);
      if f.confirms { ConcludeKeeps(charged, id, next, j); TouchedTwice(c, charged, Conclude(charged, id, next), id, j); }
      else { UnsettledKeeps(charged, id, next, UsageUnconfirmed, j); TouchedTwice(c, charged, Unsettled(charged, id, UsageUnconfirmed), id, j); }
    }
  }

  lemma ChargedFace(c: Chat, saved: Chat, charged: Chat, id: Id, t: Turn, next: Turn)
    requires charged.up && Touched(c, charged, id, id) && id in c.rows
    requires Find(charged, id) == Some(next) && next.pending && Terminal(next.receipt)
    requires FindRow(charged, id) == FindRow(c, id) || FindRow(charged, id) == Some(next.receipt.(kind := c.rows[id].kind))
    requires Due(FaceOf(c, id).(turn := Some(next)), next)
    requires Due(FaceOf(c, id).(turn := Some(next), row := Some(next.receipt.(kind := c.rows[id].kind))), next)
    ensures Due(FaceOf(charged, id), next)
    ensures Durable(FaceOf(c, id).(turn := Find(charged, id), row := FindRow(charged, id)))
  {
    hide FaceOf, Durable;
    RunFace(c, id);
    SameFace(c, id);
    DurableIgnoresRun(FaceOf(c, id).(turn := Some(next), row := FindRow(charged, id)), FaceOf(charged, id));
  }
}
