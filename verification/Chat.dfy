/**
 * The chat turn protocol (src/chat.ts, src/cost.ts): the durable state of one chat object, its
 * accounting rows in D1, the running turn, and what each step does to them.
 *
 * Every durable write of the chat object goes through `Save` or `Move`. A step starts with a number
 * of writes it may still make; when that number is used up the next write does not happen and the
 * instance is gone, so a step can stop before any of its writes.
 */
module Chat {
  import opened Text

  type Id = nat

  datatype State = Started | Completed | Partial | Failed | Cancelled
  datatype ScopeMode = ProjectDefault | Explicit | NoSources
  datatype ContextMode = NoContext | Whole | Claims
  datatype Kind = Published | Unknown

  datatype Problem =
    | Restarted | NotSaved | PreviousUnsaved | NotValidated
    | Interrupted | StoppedByOwner | Unverified | Uncited
    | Reported(text: string)

  datatype Notice = UsageUnconfirmed | UsageMismatch

  /** The question as it was submitted. */
  datatype Input = Input(
    project: string, turnId: Id, question: string, scopeMode: ScopeMode,
    model: Option<string>, sourceIds: Option<seq<string>>)

  /** The fields that a turn shares with its accounting row. */
  datatype Receipt = Receipt(
    model: string, scopeMode: ScopeMode, revisionIds: seq<string>, contextMode: ContextMode, state: State,
    inputTokens: Option<nat>, cachedTokens: Option<nat>, outputTokens: Option<nat>,
    tokenLimit: Option<nat>, kind: Option<Kind>,
    citations: nat, invalidLabels: nat, firstTokenMs: Option<nat>, totalMs: Option<nat>, error: Option<Problem>)

  datatype Turn = Turn(
    question: string, input: Option<Input>, answer: string, receipt: Receipt,
    pending: bool, notice: Option<Notice>)

  datatype Desk = Desk(active: Option<Id>, queued: Option<Input>, stopRequested: bool)

  datatype Phase = Validating | Choosing | Inserting | Admitting | Preparing | Freezing | Streaming | Finishing | Settling | Ended

  datatype Usage = Usage(inputTokens: Option<nat>, cachedTokens: Option<nat>, outputTokens: Option<nat>)

  /** The running turn; it does not survive the instance. `turn` is its own copy of the turn. */
  datatype Runner = Runner(
    id: Id, input: Input, phase: Phase, turn: Turn, aborted: bool, dispatched: bool, usage: Option<Usage>)

  datatype Chat = Chat(
    desk: Desk, turns: map<Id, Turn>, order: seq<Id>, rows: map<Id, Receipt>,
    up: bool, writes: nat, run: Option<Runner>,
    accepted: map<Id, Input>, sent: multiset<Id>, stopped: set<Id>, withdrawn: set<Id>)

  function NewChat(): Chat {
    Chat(Desk(None, None, false), map[], [], map[], false, 0, None, map[], multiset{}, {}, {})
  }

  // ---------------------------------------------------------------- durable writes

  function Down(c: Chat): Chat { c.(up := false, run := None, writes := 0) }

  function Save(c: Chat, id: Id, turn: Turn): Chat {
    if !c.up then c
    else if c.writes == 0 then Down(c)
    else c.(turns := c.turns[id := turn], order := if id in c.turns then c.order else c.order + [id], writes := c.writes - 1)
  }

  function Move(c: Chat, desk: Desk): Chat {
    if !c.up then c
    else if c.writes == 0 then Down(c)
    else c.(desk := desk, writes := c.writes - 1)
  }

  function Go(c: Chat, r: Runner): Chat { if c.up then c.(run := Some(r)) else c }

  function Find(c: Chat, id: Id): Option<Turn> { if id in c.turns then Some(c.turns[id]) else None }

  function FindRow(c: Chat, id: Id): Option<Receipt> { if id in c.rows then Some(c.rows[id]) else None }

  predicate Waiting(c: Chat, id: Id) { c.desk.queued.Some? && c.desk.queued.value.turnId == id }

  // ---------------------------------------------------------------- questions that were not sent

  function NewTurn(input: Input): Turn {
    Turn(input.question, None, "",
         Receipt(if input.model.Some? then input.model.value else "", input.scopeMode, [], NoContext, Started,
                 None, None, None, None, None, 0, 0, None, None, None),
         false, None)
  }

  function Undispatched(input: Input, why: Problem): Turn {
    Turn(input.question, Some(input), "",
         Receipt(if input.model.Some? then input.model.value else "", input.scopeMode, [], NoContext, Failed,
                 Some(0), Some(0), Some(0), Some(0), None, 0, 0, None, None, Some(why)),
         false, None)
  }

  /** A started payload that was saved just before the retained question could be cleared. */
  predicate Handoff(c: Chat, id: Id, prior: Turn) {
    && c.desk.active == Some(id) && Waiting(c, id)
    && prior.receipt.state == Started && prior.answer == "" && prior.receipt.tokenLimit == None && prior.receipt.revisionIds == []
  }

  /** Keeps a question that was not sent as a failed turn; never rewrites a turn that was admitted. */
  function Preserve(c: Chat, input: Input, why: Problem): Chat {
    var prior := Find(c, input.turnId);
    if prior.Some? && !Handoff(c, input.turnId, prior.value) then c
    else Save(c, input.turnId, Undispatched(input, why))
  }

  function PreserveWaiting(c: Chat): Chat {
    match c.desk.queued
    case None => c
    case Some(q) =>
      if c.desk.active == Some(q.turnId) then c
      else
        var kept := Preserve(c, q, PreviousUnsaved);
        Move(kept, kept.desk.(queued := None))
  }

  /** Finishes the storage of a question that was claimed but has no live run; false when it may have been admitted. */
  function RecoverHandoff(c: Chat): (Chat, bool) {
    if c.run.Some? || c.desk.queued.None? || c.desk.active != Some(c.desk.queued.value.turnId) then (c, true)
    else
      var q := c.desk.queued.value;
      var kept := Preserve(c, q, NotSaved);
      var turn := Find(kept, q.turnId);
      if turn.Some? && turn.value.receipt.state == Started then (kept, false)
      else (Move(kept, Desk(None, None, false)), true)
  }

  // ---------------------------------------------------------------- settling usage with D1

  /** What D1 does during one settlement: the reads that answer, and whether the update commits. */
  datatype Faults = Faults(answers: bool, commits: bool, confirms: bool)

  function Or<T>(a: Option<T>, b: Option<T>): Option<T> { if a.Some? then a else b }

  /** Known values of the started row fill the gaps of the turn. */
  function Recovered(turn: Turn, row: Receipt): Turn {
    var r := turn.receipt;
    var filled := r.(model := if r.model == "" then row.model else r.model,
                     tokenLimit := Or(r.tokenLimit, row.tokenLimit), kind := Or(r.kind, row.kind),
                     inputTokens := Or(r.inputTokens, row.inputTokens), cachedTokens := Or(r.cachedTokens, row.cachedTokens),
                     outputTokens := Or(r.outputTokens, row.outputTokens));
    turn.(receipt := if r.revisionIds == [] && row.revisionIds != []
                     then filled.(revisionIds := row.revisionIds, contextMode := row.contextMode) else filled)
  }

  predicate ZeroUsage(r: Receipt) {
    r.tokenLimit == Some(0) && r.inputTokens == Some(0) && r.cachedTokens == Some(0) && r.outputTokens == Some(0)
  }

  function Zeroed(r: Receipt): Receipt {
    r.(tokenLimit := Some(0), inputTokens := Some(0), cachedTokens := Some(0), outputTokens := Some(0))
  }

  /** Nothing was recorded for the turn, so it cannot have been sent. */
  predicate Blank(t: Turn) {
    && t.receipt.kind == None && t.receipt.tokenLimit == None && t.receipt.inputTokens == None
    && t.receipt.cachedTokens == None && t.receipt.outputTokens == None
    && t.answer == "" && t.receipt.firstTokenMs == None && t.receipt.revisionIds == []
  }

  predicate NoAdmission(r: Receipt) { r.kind == None && ZeroUsage(r) }

  /** The admission of a started row may only change to a proven zero (migrations/0012_model_admission.sql). */
  predicate MayCharge(row: Receipt, next: Receipt) {
    || (row.kind == None && row.tokenLimit == None)
    || next.tokenLimit == row.tokenLimit
    || (next.state != Started && ZeroUsage(next) && next.firstTokenMs == None)
  }

  /** The conditional update of a started row; it sets every field but model, scope mode and kind. */
  function Charge(c: Chat, id: Id, next: Receipt, commits: bool): Chat {
    if c.up && commits && id in c.rows && c.rows[id].state == Started
       && c.rows[id].model == next.model && c.rows[id].scopeMode == next.scopeMode && MayCharge(c.rows[id], next)
    then c.(rows := c.rows[id := next.(kind := c.rows[id].kind)]) else c
  }

  function Unsettled(c: Chat, id: Id, notice: Notice): Chat {
    if id in c.turns && c.turns[id].pending then Save(c, id, c.turns[id].(notice := Some(notice))) else c
  }

  /** Clears the pending mark when the row agrees with the turn, or when nothing was admitted. */
  function Conclude(c: Chat, id: Id, turn: Turn): Chat {
    var row := FindRow(c, id);
    var t := if row.None? && Blank(turn) then turn.(receipt := Zeroed(turn.receipt)) else turn;
    if row == Some(t.receipt) || (row.None? && NoAdmission(t.receipt))
    then Save(c, id, t.(pending := false, notice := None))
    else Unsettled(c, id, if row.Some? && row.value.state != Started then UsageMismatch else UsageUnconfirmed)
  }

  predicate SameOwner(turn: Turn, row: Receipt) {
    row.model == turn.receipt.model && row.scopeMode == turn.receipt.scopeMode && row.kind == turn.receipt.kind
  }

  function SettleTurn(c: Chat, id: Id, turn: Turn, f: Faults): Chat {
    if !c.up || !turn.pending || turn.receipt.state == Started then c
    else if !f.answers then Unsettled(c, id, UsageUnconfirmed)
    else if id in c.rows && c.rows[id].state == Started then
      var t := Recovered(turn, c.rows[id]);
      if !SameOwner(t, c.rows[id]) then Unsettled(c, id, UsageMismatch)
      else
        var charged := Charge(Save(c, id, t), id, t.receipt, f.commits);
        if f.confirms then Conclude(charged, id, t) else Unsettled(charged, id, UsageUnconfirmed)
    else Conclude(c, id, turn)
  }

  // ---------------------------------------------------------------- the recovery pass

  function Interrupt(turn: Turn): Turn {
    turn.(receipt := turn.receipt.(state := if turn.answer != "" then Partial else Failed, error := Some(Interrupted)))
  }

  function PendingIn(order: seq<Id>, turns: map<Id, Turn>): seq<Id> {
    if order == [] then []
    else if order[0] in turns && turns[order[0]].pending then [order[0]] + PendingIn(order[1..], turns)
    else PendingIn(order[1..], turns)
  }

  function Take(ids: seq<Id>, n: nat): seq<Id> { if |ids| <= n then ids else ids[..n] }

  function Without(ids: seq<Id>, id: Id): seq<Id> {
    if ids == [] then [] else if ids[0] == id then Without(ids[1..], id) else [ids[0]] + Without(ids[1..], id)
  }

  /** The active turn first, then older ones; at most eight. */
  function PassIds(c: Chat, active: Option<Id>): seq<Id> {
    var rows := Take(PendingIn(c.order, c.turns), 8);
    if active.Some? && active.value in c.turns && c.turns[active.value].pending
    then Take([active.value] + Without(rows, active.value), 8) else rows
  }

  function SettleOne(c: Chat, id: Id, f: Faults): Chat {
    if c.run.Some? && c.desk.active == Some(id) then c
    else if id !in c.turns || !c.turns[id].pending then c
    else if c.turns[id].receipt.state == Started then
      var turn := Interrupt(c.turns[id]);
      SettleTurn(Save(c, id, turn), id, turn, f)
    else SettleTurn(c, id, c.turns[id], f)
  }

  function SettleEach(c: Chat, ids: seq<Id>, faults: Id -> Faults): Chat
    decreases |ids|
  {
    if ids == [] then c else SettleEach(SettleOne(c, ids[0], faults(ids[0])), ids[1..], faults)
  }

  /** A finished turn that could not be cleared does not keep the next question waiting. */
  function Unblock(c: Chat): Chat {
    if c.run.None? && c.desk.active.Some? && !Waiting(c, c.desk.active.value) then
      var turn := Find(c, c.desk.active.value);
      if turn.Some? && (turn.value.receipt.state != Started || turn.value.pending) then PreserveWaiting(c) else c
    else c
  }

  function Release(c: Chat, active: Option<Id>): Chat {
    if active.Some? && c.desk.active == active && c.run.None? && !Waiting(c, active.value) then
      var turn := Find(c, active.value);
      if turn.Some? && turn.value.receipt.state != Started && !turn.value.pending then Move(c, Desk(None, None, false)) else c
    else c
  }

  /** An older pending turn becomes the active one. */
  function Reclaim(c: Chat): Chat {
    if c.run.None? && c.desk.active.None? && PendingIn(c.order, c.turns) != [] then
      Move(PreserveWaiting(c), Desk(Some(PendingIn(c.order, c.turns)[0]), None, false))
    else c
  }

  function Pass(c: Chat, faults: Id -> Faults): Chat {
    var active := c.desk.active;
    var unblocked := Unblock(c);
    Reclaim(Release(SettleEach(unblocked, PassIds(unblocked, active), faults), active))
  }

  // ---------------------------------------------------------------- start, submit, stop, queue

  /** onStart: what a fresh instance does before it serves anything. */
  function Mark(c: Chat): Chat {
    if c.desk.active.None? then c
    else
      var id := c.desk.active.value;
      var turn := Find(c, id);
      if turn.Some? && turn.value.receipt.state == Started then Save(c, id, Interrupt(turn.value).(pending := true))
      else if turn.Some? && turn.value.input.None? then Save(c, id, turn.value.(pending := true))
      else c
  }

  function Boot(c: Chat, faults: Id -> Faults): Chat {
    if c.up then c
    else
      var woken := c.(up := true, run := None);
      var kept := if c.desk.queued.Some? then Preserve(woken, c.desk.queued.value, Restarted) else woken;
      var marked := Mark(kept);
      var active := marked.desk.active;
      var held := active.Some? && active.value in marked.turns && marked.turns[active.value].pending;
      var cleared := if active.Some? || c.desk.queued.Some? then Move(marked, Desk(if held then active else None, None, false)) else marked;
      Pass(cleared, faults)
  }

  function Begin(input: Input): Runner { Runner(input.turnId, input, Validating, NewTurn(input), false, false, None) }

  function Accept(c: Chat, input: Input): Chat {
    if c.up then c.(accepted := c.accepted[input.turnId := input], withdrawn := c.withdrawn - {input.turnId}) else c
  }

  function StartTurn(c: Chat, input: Input): Chat {
    Go(Accept(Move(c, Desk(Some(input.turnId), Some(input), false)), input), Begin(input))
  }

  /** What submit decides once nothing is left to recover. */
  function Decide(c: Chat, input: Input, wait: bool): Chat {
    if input.turnId in c.turns || c.desk.active == Some(input.turnId) then c
    else if c.desk.active.None? then StartTurn(c, input)
    else
      var turn := Find(c, c.desk.active.value);
      if c.run.None? && turn.Some? && turn.value.notice.Some? then c
      else if wait || c.desk.queued.Some? then c
      else Accept(Move(c, c.desk.(queued := Some(input))), input)
  }

  function Submit(c: Chat, input: Input, wait: bool, faults: Id -> Faults): Chat {
    var (ready, ok) := RecoverHandoff(c);
    if ok then Decide(Pass(ready, faults), input, wait) else ready
  }

  function Withdraw(c: Chat, id: Id): Chat {
    if Waiting(c, id) && c.desk.active != Some(id) then
      var moved := Move(c, c.desk.(queued := None));
      if moved.up then moved.(withdrawn := moved.withdrawn + {id}) else moved
    else c
  }

  function Abort(c: Chat, id: Id): Chat {
    if c.desk.active == Some(id) then
      var moved := Move(c, c.desk.(stopRequested := true));
      if !moved.up then moved
      else
        var known := if moved.sent[id] == 0 then moved.(stopped := moved.stopped + {id}) else moved;
        if known.run.Some? && known.run.value.phase != Validating
        then known.(run := Some(known.run.value.(aborted := true))) else known
    else c
  }

  function Stop(c: Chat, id: Id, faults: Id -> Faults): Chat {
    var (ready, ok) := RecoverHandoff(c);
    if ok then Abort(Withdraw(Pass(ready, faults), id), id) else ready
  }

  function AdvanceQueue(c: Chat, finished: Id): Chat {
    if c.desk.active != Some(finished) then c
    else
      var idle := c.(run := None);
      match c.desk.queued
      case Some(q) =>
        if q.turnId == finished then RecoverHandoff(idle).0
        else if finished in c.turns && c.turns[finished].pending then PreserveWaiting(idle)
        else Go(Move(idle, Desk(Some(q.turnId), Some(q), false)), Begin(q))
      case None =>
        if finished in c.turns && c.turns[finished].pending then idle
        else Move(idle, Desk(None, None, false))
  }

  // ---------------------------------------------------------------- the phases of a run

  /** What D1 does with one write. */
  datatype Write = NotCommitted | Committed | ReplyLost

  predicate SameRequest(a: Input, b: Input) {
    && a.project == b.project && a.turnId == b.turnId && a.question == b.question && a.scopeMode == b.scopeMode
    && a.model == b.model
    && (if a.sourceIds.Some? then a.sourceIds.value else []) == (if b.sourceIds.Some? then b.sourceIds.value else [])
  }

  function Validate(c: Chat, r: Runner, ok: bool): Chat {
    var ended := r.(phase := Ended);
    if !ok then
      if c.desk.queued.None? || c.desk.active != Some(r.id) || !SameRequest(c.desk.queued.value, r.input) then Go(c, ended)
      else
        var kept := Preserve(c, c.desk.queued.value, NotValidated);
        Go(Move(kept, kept.desk.(queued := None)), ended)
    else if c.desk.active != Some(r.id) then Go(c, ended)
    else
      var saved := Save(c, r.id, NewTurn(r.input));
      var cleared := if Waiting(saved, r.id) then Move(saved, saved.desk.(queued := None)) else saved;
      Go(cleared, r.(phase := Choosing, turn := NewTurn(r.input), aborted := c.desk.stopRequested))
  }

  function Failing(r: Runner, stop: bool, problem: Problem): Runner {
    var state := if r.turn.answer != "" then Partial else if stop then Cancelled else Failed;
    r.(phase := Finishing,
       turn := r.turn.(receipt := r.turn.receipt.(state := state, error := Some(if stop then StoppedByOwner else problem))))
  }

  /** The run was interrupted by an error; an owner's stop explains it when there was one. */
  function Catch(c: Chat, r: Runner, problem: Problem): Chat {
    Go(c, Failing(r, r.aborted && c.desk.stopRequested, problem))
  }

  /** The run saves its turn and goes on. */
  function Put(c: Chat, r: Runner): Chat { Go(Save(c, r.id, r.turn), r) }

  function Named(r: Runner, settings: string): Runner {
    r.(turn := r.turn.(receipt := r.turn.receipt.(model := if r.input.model.Some? then r.input.model.value else settings)))
  }

  /** The checkpoint before the row is inserted. */
  function Opening(r: Runner): Runner { r.(phase := Inserting, turn := r.turn.(pending := true)) }

  function Choose(c: Chat, r: Runner, settings: Option<string>, available: bool, problem: Problem): Chat {
    if settings.None? then Catch(c, r, problem)
    else if !available then Catch(c, Named(r, settings.value), problem)
    else Put(c, Opening(Named(r, settings.value)))
  }

  function InsertedRow(turn: Turn): Receipt {
    Receipt(turn.receipt.model, turn.receipt.scopeMode, [], NoContext, Started, None, None, None, None, None, 0, 0, None, None, None)
  }

  function Insert(c: Chat, r: Runner, w: Write, problem: Problem): Chat {
    if w == NotCommitted || r.id in c.rows then Catch(c, r, problem)
    else
      var wrote := c.(rows := c.rows[r.id := InsertedRow(r.turn)]);
      if w == Committed then Go(wrote, r.(phase := Admitting)) else Catch(wrote, r, problem)
  }

  function Reserved(row: Receipt, bound: Option<nat>): Receipt {
    row.(tokenLimit := bound, kind := Some(if bound.Some? then Published else Unknown))
  }

  function Reserving(r: Runner, bound: Option<nat>): Runner {
    r.(phase := Preparing, turn := r.turn.(receipt := Reserved(r.turn.receipt, bound)))
  }

  /** The compare-and-set that only one run of a started, unreserved row can win. */
  predicate Unreserved(c: Chat, id: Id) {
    id in c.rows && c.rows[id].state == Started && c.rows[id].kind == None && c.rows[id].tokenLimit == None
  }

  function Admit(c: Chat, r: Runner, w: Write, bound: Option<nat>, problem: Problem): Chat {
    if w == NotCommitted || !Unreserved(c, r.id) then Catch(c, r, problem)
    else
      var wrote := c.(rows := c.rows[r.id := Reserved(c.rows[r.id], bound)]);
      if w == Committed then Put(wrote, Reserving(r, bound)) else Catch(wrote, r, problem)
  }

  datatype Plan = Plan(revisionIds: seq<string>, contextMode: ContextMode)

  function Planned(r: Runner, plan: Plan): Runner {
    r.(turn := r.turn.(receipt := r.turn.receipt.(revisionIds := plan.revisionIds, contextMode := plan.contextMode)))
  }

  function Prepare(c: Chat, r: Runner, plan: Option<Plan>, fits: bool, problem: Problem): Chat {
    if plan.None? then Catch(c, r, problem)
    else if !fits then Catch(c, Planned(r, plan.value), problem)
    else Put(c, Planned(r, plan.value).(phase := Freezing))
  }

  function Scoped(row: Receipt, r: Runner): Receipt {
    row.(revisionIds := r.turn.receipt.revisionIds, contextMode := r.turn.receipt.contextMode)
  }

  /** The model is called here and nowhere else. */
  function Dispatch(c: Chat, r: Runner): Chat {
    if !c.up then c else Go(c.(sent := c.sent + multiset{r.id}), r.(phase := Streaming, dispatched := true))
  }

  /** The update that writes the scope to a row that is still started. */
  function ScopeRow(c: Chat, r: Runner, w: Write): Chat {
    if w != NotCommitted && r.id in c.rows && c.rows[r.id].state == Started
    then c.(rows := c.rows[r.id := Scoped(c.rows[r.id], r)]) else c
  }

  /** Freezes the scope; then the model is called unless the run was stopped. */
  function Freeze(c: Chat, r: Runner, w: Write, problem: Problem): Chat {
    if w != Committed || r.aborted then Catch(ScopeRow(c, r, w), r, problem) else Dispatch(ScopeRow(c, r, w), r)
  }

  datatype Resolution = Resolution(answer: string, citations: nat, invalidLabels: nat)

  function Resolve(turn: Turn, res: Resolution): Turn {
    turn.(answer := res.answer, receipt := turn.receipt.(citations := res.citations, invalidLabels := res.invalidLabels))
  }

  function Heard(r: Runner, text: string, ms: Option<nat>): Runner {
    r.(turn := r.turn.(answer := r.turn.answer + text, receipt := r.turn.receipt.(firstTokenMs := Or(r.turn.receipt.firstTokenMs, ms))))
  }

  /** Text arrives; a checkpoint saves a resolved copy and leaves the raw text to grow. */
  function Chunk(c: Chat, r: Runner, text: string, ms: Option<nat>, checkpoint: Option<Resolution>): Chat {
    var heard := Heard(r, text, ms);
    var saved := if checkpoint.Some? && !r.aborted then Save(c, r.id, Resolve(heard.turn, checkpoint.value)) else c;
    Go(saved, heard)
  }

  /** The transport refused the prompt before it answered. */
  function Refuse(c: Chat, r: Runner): Chat { Go(c, r.(dispatched := false)) }

  function Answered(r: Runner, answer: string, usage: Usage): Runner {
    r.(usage := Some(usage), turn := r.turn.(answer := answer))
  }

  function Graded(r: Runner, blank: bool, cut: Option<Problem>): Runner {
    var state := if blank then Failed else if cut.None? then Completed else Partial;
    var error := if cut.Some? then cut else if blank then Some(Reported("no answer text")) else None;
    r.(phase := Finishing, turn := r.turn.(receipt := r.turn.receipt.(state := state, error := error)))
  }

  /** The stream ended: normally, or cut short for a reported reason. */
  function Complete(c: Chat, r: Runner, answer: string, blank: bool, cut: Option<Problem>, usage: Usage): Chat {
    var known := Answered(r, answer, usage);
    if r.aborted then Catch(c, known, StoppedByOwner) else Go(c, Graded(known, blank, cut))
  }

  function Break(c: Chat, r: Runner, usage: Option<Usage>, problem: Problem): Chat { Catch(c, r.(usage := usage), problem) }

  /** Only reported usage is projected; a run that was not dispatched has known zero usage. */
  function Project(r: Receipt, dispatched: bool, usage: Option<Usage>): Receipt {
    var reported := if usage.Some?
                    then r.(inputTokens := usage.value.inputTokens, cachedTokens := usage.value.cachedTokens, outputTokens := usage.value.outputTokens)
                    else r;
    if dispatched then reported else Zeroed(reported)
  }

  function Grade(r: Receipt, blank: bool): Receipt {
    if r.state == Completed && r.invalidLabels > 0 then r.(state := Partial, error := Some(Unverified))
    else if r.state == Completed && r.citations == 0 && r.contextMode != NoContext && !blank
    then r.(state := Partial, error := Some(Uncited))
    else r
  }

  function Closing(r: Runner, res: Resolution, blank: bool, totalMs: nat): Runner {
    var graded := Resolve(r.turn, res);
    var receipt := Project(Grade(graded.receipt, blank), r.dispatched, r.usage).(totalMs := Some(totalMs));
    r.(phase := Settling, turn := graded.(receipt := receipt))
  }

  function Finish(c: Chat, r: Runner, res: Resolution, blank: bool, totalMs: nat): Chat {
    Put(c, Closing(r, res, blank, totalMs))
  }

  function SettleRun(c: Chat, r: Runner, f: Faults): Chat {
    Go(SettleTurn(c, r.id, r.turn, f), r.(phase := Ended))
  }

  // ---------------------------------------------------------------- steps

  datatype Event =
    | Crash
    | Booted(faults: Id -> Faults)
    | Read(faults: Id -> Faults)
    | Recover(faults: Id -> Faults)
    | Submitted(input: Input, wait: bool, faults: Id -> Faults)
    | StopAsked(id: Id, faults: Id -> Faults)
    | Validated(ok: bool)
    | Chosen(settings: Option<string>, available: bool, problem: Problem)
    | Inserted(insert: Write, problem: Problem)
    | Admitted(admit: Write, bound: Option<nat>, problem: Problem)
    | Prepared(plan: Option<Plan>, fits: bool, problem: Problem)
    | Frozen(freeze: Write, problem: Problem)
    | Chunked(text: string, ms: Option<nat>, checkpoint: Option<Resolution>)
    | Refused
    | Completes(answer: string, blank: bool, cut: Option<Problem>, usage: Usage)
    | Breaks(partialUsage: Option<Usage>, problem: Problem)
    | Finished(res: Resolution, blank: bool, totalMs: nat)
    | Settled(f: Faults)
    | RunOver

  predicate At(c: Chat, phase: Phase) { c.run.Some? && c.run.value.phase == phase }

  function RunStep(c: Chat, e: Event): Chat
    requires c.run.Some?
  {
    var r := c.run.value;
    match e
    case Validated(ok) => if r.phase == Validating then Validate(c, r, ok) else c
    case Chosen(settings, available, problem) => if r.phase == Choosing then Choose(c, r, settings, available, problem) else c
    case Inserted(w, problem) => if r.phase == Inserting then Insert(c, r, w, problem) else c
    case Admitted(w, bound, problem) => if r.phase == Admitting then Admit(c, r, w, bound, problem) else c
    case Prepared(plan, fits, problem) => if r.phase == Preparing then Prepare(c, r, plan, fits, problem) else c
    case Frozen(w, problem) => if r.phase == Freezing then Freeze(c, r, w, problem) else c
    case Chunked(text, ms, checkpoint) => if r.phase == Streaming then Chunk(c, r, text, ms, checkpoint) else c
    case Refused => if r.phase == Streaming then Refuse(c, r) else c
    case Completes(answer, blank, cut, usage) => if r.phase == Streaming then Complete(c, r, answer, blank, cut, usage) else c
    case Breaks(usage, problem) => if r.phase == Streaming then Break(c, r, usage, problem) else c
    case Finished(res, blank, totalMs) => if r.phase == Finishing then Finish(c, r, res, blank, totalMs) else c
    case Settled(f) => if r.phase == Settling then SettleRun(c, r, f) else c
    case RunOver => if r.phase == Ended then AdvanceQueue(c, r.id) else c
    case _ => c
  }

  function Served(c: Chat, e: Event): Chat
    requires c.up
  {
    match e
    case Crash => Down(c)
    case Read(faults) => var (ready, ok) := RecoverHandoff(c); if ok then Pass(ready, faults) else ready
    case Recover(faults) => Pass(c, faults)
    case Submitted(input, wait, faults) => Submit(c, input, wait, faults)
    case StopAsked(id, faults) => Stop(c, id, faults)
    case _ => if c.run.Some? then RunStep(c, e) else c
  }

  /** One step that may make at most `writes` durable writes before the instance is gone. */
  function Step(c: Chat, e: Event, writes: nat): Chat {
    var ready := c.(writes := writes);
    if c.up then Served(ready, e)
    else if e.Booted? then Boot(ready, e.faults)
    else c
  }
}
