/** What a turn reports once its run is finished, told from the events of the run (src/chat.ts, src/chat-usage.ts). */
module ChatReports {
  import opened Text
  import opened Chat
  import opened ChatInvariant
  import opened ChatPass
  import opened ChatSteps
  import opened ChatTheorems

  /** An event of the answer's stream, and whether the run was aborted and a stop requested when it came. */
  datatype Note = Note(event: Event, aborted: bool, stop: bool)

  predicate Streams(e: Event) { e.Chunked? || e.Refused? || e.Completes? || e.Breaks? }

  predicate Ends(e: Event) { e.Completes? || e.Breaks? }

  function Listen(c: Chat, e: Event, d: Chat, es: seq<Note>): seq<Note> {
    if d.run.None? || d.run.value.phase == Validating then []
    else if c.up && At(c, Streaming) && Streams(e) then es + [Note(e, c.run.value.aborted, c.desk.stopRequested)]
    else es
  }

  /** The events that the running turn took while its answer streamed. */
  function Stream(steps: seq<Act>): seq<Note>
    decreases |steps|
  {
    if steps == [] then []
    else
      var before, last := steps[..|steps| - 1], steps[|steps| - 1];
      Listen(Reached(before), last.event, Reached(steps), Stream(before))
  }

  /** The text that had arrived, or the whole answer once the stream completed. */
  function TextOf(es: seq<Note>): string
    decreases |es|
  {
    if es == [] then ""
    else
      var before := TextOf(es[..|es| - 1]);
      match es[|es| - 1].event
      case Chunked(text, _, _) => before + text
      case Completes(answer, _, _, _) => answer
      case _ => before
  }

  /** The usage that the end of the stream reported. */
  function UsageOf(es: seq<Note>): Option<Usage> {
    if es == [] then None
    else
      match es[|es| - 1].event
      case Completes(_, _, _, usage) => Some(usage)
      case Breaks(usage, _) => usage
      case _ => None
  }

  predicate RefusedIn(es: seq<Note>) { exists k :: 0 <= k < |es| && es[k].event.Refused? }

  predicate Over(es: seq<Note>) { es != [] && Ends(es[|es| - 1].event) }

  /** How the stream ended, before the answer is checked against its sources. */
  function EndState(es: seq<Note>): State
    requires Over(es)
  {
    var last := es[|es| - 1];
    match last.event
    case Completes(answer, blank, cut, _) =>
      if last.aborted then (if answer != "" then Partial else if last.stop then Cancelled else Failed)
      else if blank then Failed else if cut.Some? then Partial else Completed
    case _ => if TextOf(es) != "" then Partial else if last.aborted && last.stop then Cancelled else Failed
  }

  /** Why the stream did not end as it should. */
  function EndError(es: seq<Note>): Option<Problem>
    requires Over(es)
  {
    var last := es[|es| - 1];
    match last.event
    case Completes(_, blank, cut, _) =>
      if last.aborted then Some(StoppedByOwner) else if cut.Some? then cut else if blank then Some(Reported("no answer text")) else None
    case _ => Some(if last.aborted && last.stop then StoppedByOwner else last.event.problem)
  }

  // ---------------------------------------------------------------- the runner keeps what was reported

  /** Nothing but the abort mark of the run changed, or a run begins, or none is left. */
  predicate SameRun(c: Chat, d: Chat) {
    d.run.Some? ==>
      || d.run.value.phase == Validating
      || (c.run.Some? && d.run.value == c.run.value.(aborted := d.run.value.aborted) && d.sent == c.sent && d.rows == c.rows)
  }

  predicate Tells(c: Chat, es: seq<Note>) {
    c.run.Some? ==>
      var r := c.run.value;
      && (r.phase == Validating || Early(r.phase) ==> es == [])
      && (Early(r.phase) ==> r.turn.answer == "")
      && r.usage == UsageOf(es)
      && (r.dispatched <==> c.sent[r.id] == 1 && !RefusedIn(es))
      && (r.phase == Streaming ==> !Over(es) && r.turn.answer == TextOf(es))
      && (r.phase == Finishing ==> FinishTells(c, r, es))
  }

  predicate FinishTells(c: Chat, r: Runner, es: seq<Note>) {
    && r.turn.answer == TextOf(es)
    && (Over(es) ==> r.turn.receipt.state == EndState(es) && r.turn.receipt.error == EndError(es) && r.id in c.rows && r.turn.receipt.tokenLimit == c.rows[r.id].tokenLimit)
    && (!Over(es) ==> r.turn.receipt.state in {Failed, Cancelled})
  }

  lemma SameTells(c: Chat, e: Event, d: Chat, es: seq<Note>)
    requires Inv(d) && Tells(c, es) && SameRun(c, d) && (c.up && At(c, Streaming) ==> !Streams(e))
    ensures Tells(d, Listen(c, e, d, es))
  {
    hide Inv, Good, TextOf, UsageOf, RefusedIn, EndState, EndError;
    if d.run.Some? {
      NothingTold();
      GoodAll(d, d.run.value.id);
      NewRunIsSilent(d, d.run.value);
    }
  }

  lemma NewRunIsSilent(d: Chat, r: Runner)
    requires Good(d, r.id) && d.up && d.run == Some(r)
    ensures r.phase == Validating || Early(r.phase) ==> !r.dispatched && r.usage == None && d.sent[r.id] == 0
  {
  }

  lemma NothingTold()
    ensures TextOf([]) == "" && UsageOf([]) == None && !RefusedIn([]) && !Over([])
  {
  }

  // ---------------------------------------------------------------- steps that are not the run's

  lemma PassSame(c: Chat, faults: Id -> Faults)
    requires Inv(c)
    ensures SameRun(c, Pass(c, faults))
  {
    hide Pass, Good, Inv;
    if c.run.Some? || !c.up {
      PassWhileRunning(c, faults);
    } else {
      GoodRests(c);
      PassKeeps(c, faults);
    }
  }

  lemma DecideSame(c: Chat, input: Input, wait: bool)
    ensures SameRun(c, Decide(c, input, wait))
  {
  }

  lemma AbortSame(c: Chat, id: Id)
    ensures SameRun(c, Abort(c, id)) && SameRun(c, Withdraw(c, id))
  {
  }

  lemma SameTwice(c: Chat, d: Chat, e: Chat)
    requires SameRun(c, d) && SameRun(d, e)
    ensures SameRun(c, e)
  {
  }

  lemma ServedSame(c: Chat, e: Event)
    requires Inv(c) && c.up && (e.Crash? || e.Read? || e.Recover? || e.Submitted? || e.StopAsked? || c.run.None?)
    ensures SameRun(c, Served(c, e))
  {
    hide Inv, Pass, RecoverHandoff, Decide, Withdraw, Abort, SameRun;
    HandoffIdle(c);
    match e {
      case Crash => Nothing(c);
      case Read(faults) => PassSame(c, faults);
      case Recover(faults) => PassSame(c, faults);
      case Submitted(input, wait, faults) =>
        PassSame(c, faults);
        DecideSame(Pass(c, faults), input, wait);
        SameTwice(c, Pass(c, faults), Decide(Pass(c, faults), input, wait));
      case StopAsked(id, faults) =>
        PassSame(c, faults);
        AbortSame(Pass(c, faults), id);
        AbortSame(Withdraw(Pass(c, faults), id), id);
        SameTwice(c, Pass(c, faults), Withdraw(Pass(c, faults), id));
        SameTwice(c, Withdraw(Pass(c, faults), id), Abort(Withdraw(Pass(c, faults), id), id));
      case _ => Nothing(c);
    }
  }

  lemma Nothing(c: Chat)
    ensures SameRun(c, Down(c)) && SameRun(c, c)
  {
  }

  // ---------------------------------------------------------------- the phases of a run

  lemma {:induction false} Heeded(es: seq<Note>, n: Note)
    ensures TextOf(es + [n]) == match n.event
                                case Chunked(text, _, _) => TextOf(es) + text
                                case Completes(answer, _, _, _) => answer
                                case _ => TextOf(es)
    ensures RefusedIn(es + [n]) <==> RefusedIn(es) || n.event.Refused?
    ensures Over(es + [n]) <==> Ends(n.event)
  {
    var all := es + [n];
    assert all[..|all| - 1] == es && all[|es|] == n;
    if RefusedIn(es) {
      var k :| 0 <= k < |es| && es[k].event.Refused?;
      assert all[k].event.Refused?;
    }
    if RefusedIn(all) {
      var k :| 0 <= k < |all| && all[k].event.Refused?;
      if k < |es| { assert es[k].event.Refused?; }
    }
  }

  lemma CatchTells(c: Chat, r: Runner, problem: Problem)
    ensures var d := Catch(c, r, problem);
            d.rows == c.rows && d.sent == c.sent && d.up == c.up && d.desk == c.desk
            && (if c.up then d.run == Some(Failing(r, r.aborted && c.desk.stopRequested, problem)) else d.run == c.run)
  {
    hide Failing;
  }

  lemma PutTells(c: Chat, r: Runner)
    requires c.run.Some? && c.up
    ensures var d := Put(c, r); d.rows == c.rows && d.sent == c.sent && (d.run.Some? ==> d.run == Some(r))
  {
  }

  /** What an early phase leaves: an early phase, the stream, or a failed turn without an answer. */
  predicate EarlyNext(c: Chat, d: Chat, id: Id) {
    d.run.Some? ==>
      var n := d.run.value;
      && n.id == id && n.usage == None && n.turn.answer == ""
      && (if n.dispatched then n.phase == Streaming && d.sent == c.sent + multiset{id} else n.phase != Streaming && d.sent == c.sent)
      && (Early(n.phase) || n.phase == Streaming || n.phase == Ended || (n.phase == Finishing && n.turn.receipt.state in {Failed, Cancelled}))
  }

  predicate Untold(r: Runner) { !r.dispatched && r.usage == None && r.turn.answer == "" }

  lemma FailsEarly(c: Chat, d: Chat, r: Runner, problem: Problem)
    requires d.up && d.sent == c.sent && Untold(r)
    ensures EarlyNext(c, Catch(d, r, problem), r.id)
  {
    CatchTells(d, r, problem);
  }

  lemma PutsEarly(c: Chat, d: Chat, r: Runner)
    requires d.up && d.run.Some? && d.sent == c.sent && Untold(r) && Early(r.phase)
    ensures EarlyNext(c, Put(d, r), r.id)
  {
    PutTells(d, r);
  }

  lemma StaysEarly(c: Chat, r: Runner)
    requires c.run == Some(r) && Untold(r) && Early(r.phase)
    ensures EarlyNext(c, c, r.id)
  {
  }

  lemma ChooseTells(c: Chat, r: Runner, settings: Option<string>, available: bool, problem: Problem)
    requires c.up && c.run.Some? && Untold(r)
    ensures EarlyNext(c, Choose(c, r, settings, available, problem), r.id)
  {
    hide Catch, Put, EarlyNext;
    FailsEarly(c, c, r, problem);
    if settings.Some? {
      FailsEarly(c, c, Named(r, settings.value), problem);
      PutsEarly(c, c, Opening(Named(r, settings.value)));
    }
  }

  lemma InsertTells(c: Chat, r: Runner, w: Write, problem: Problem)
    requires c.up && c.run.Some? && Untold(r)
    ensures EarlyNext(c, Insert(c, r, w, problem), r.id)
  {
    hide Catch, InsertedRow;
    FailsEarly(c, c, r, problem);
    FailsEarly(c, c.(rows := c.rows[r.id := InsertedRow(r.turn)]), r, problem);
  }

  lemma AdmitTells(c: Chat, r: Runner, w: Write, bound: Option<nat>, problem: Problem)
    requires c.up && c.run.Some? && Untold(r)
    ensures EarlyNext(c, Admit(c, r, w, bound, problem), r.id)
  {
    hide Catch, Put, EarlyNext, Reserved;
    FailsEarly(c, c, r, problem);
    if Unreserved(c, r.id) {
      var wrote := c.(rows := c.rows[r.id := Reserved(c.rows[r.id], bound)]);
      FailsEarly(c, wrote, r, problem);
      PutsEarly(c, wrote, Reserving(r, bound));
    }
  }

  lemma PrepareTells(c: Chat, r: Runner, plan: Option<Plan>, fits: bool, problem: Problem)
    requires c.up && c.run.Some? && Untold(r)
    ensures EarlyNext(c, Prepare(c, r, plan, fits, problem), r.id)
  {
    hide Catch, Put, EarlyNext;
    FailsEarly(c, c, r, problem);
    if plan.Some? {
      FailsEarly(c, c, Planned(r, plan.value), problem);
      PutsEarly(c, c, Planned(r, plan.value).(phase := Freezing));
    }
  }

  lemma FreezeTells(c: Chat, r: Runner, w: Write, problem: Problem)
    requires c.up && c.run.Some? && Untold(r)
    ensures EarlyNext(c, Freeze(c, r, w, problem), r.id)
  {
    hide Catch, Scoped;
    FailsEarly(c, ScopeRow(c, r, w), r, problem);
  }

  lemma EarlyTells(c: Chat, e: Event)
    requires c.up && c.run.Some? && Untold(c.run.value) && Early(c.run.value.phase)
    ensures EarlyNext(c, RunStep(c, e), c.run.value.id)
  {
    hide Choose, Insert, Admit, Prepare, Freeze, EarlyNext;
    var r := c.run.value;
    StaysEarly(c, r);
    match e {
      case Chosen(settings, available, problem) => ChooseTells(c, r, settings, available, problem);
      case Inserted(w, problem) => InsertTells(c, r, w, problem);
      case Admitted(w, bound, problem) => AdmitTells(c, r, w, bound, problem);
      case Prepared(plan, fits, problem) => PrepareTells(c, r, plan, fits, problem);
      case Frozen(w, problem) => FreezeTells(c, r, w, problem);
      case _ =>
    }
  }

  lemma ValidateTells(c: Chat, r: Runner, ok: bool)
    requires c.up && c.run == Some(r) && !r.dispatched && r.usage == None
    ensures var d := Validate(c, r, ok); d.run.Some? && d.run.value.phase != Ended ==> EarlyNext(c, d, r.id)
    ensures var d := Validate(c, r, ok); d.run.Some? ==> d.run.value.phase in {Choosing, Ended} && d.sent == c.sent && !d.run.value.dispatched && d.run.value.usage == None && d.run.value.id == r.id
  {
    hide Preserve, SameRequest;
    if !ok && c.desk.queued.Some? { PreserveRuns(c, c.desk.queued.value, NotValidated); }
  }

  lemma PreserveRuns(c: Chat, q: Input, why: Problem)
    requires c.up
    ensures var s := Preserve(c, q, why); s.sent == c.sent && s.run == (if s.up then c.run else None)
  {
  }

  lemma EarlyTold(c: Chat, e: Event, d: Chat, es: seq<Note>)
    requires Inv(d) && c.run.Some? && Early(c.run.value.phase) && Tells(c, es) && EarlyNext(c, d, c.run.value.id) && c.sent[c.run.value.id] == 0
    ensures Tells(d, Listen(c, e, d, es))
  {
    hide Inv, TextOf, UsageOf, RefusedIn, EndState, EndError;
    NothingTold();
  }

  lemma StreamingIs(c: Chat, r: Runner)
    requires Good(c, r.id) && c.up && c.run == Some(r) && r.phase == Streaming
    ensures c.sent[r.id] == 1 && r.id in c.rows && c.rows[r.id].tokenLimit == r.turn.receipt.tokenLimit
  {
  }

  /** What the end of a stream leaves in the run. */
  lemma FailingTells(r: Runner, stop: bool, problem: Problem)
    ensures var n := Failing(r, stop, problem);
            && n == r.(phase := Finishing, turn := n.turn) && n.turn.answer == r.turn.answer
            && n.turn.receipt.tokenLimit == r.turn.receipt.tokenLimit
            && n.turn.receipt.state == (if r.turn.answer != "" then Partial else if stop then Cancelled else Failed)
            && n.turn.receipt.error == Some(if stop then StoppedByOwner else problem)
  {
  }

  lemma GradedTells(r: Runner, blank: bool, cut: Option<Problem>)
    ensures var n := Graded(r, blank, cut);
            && n == r.(phase := Finishing, turn := n.turn) && n.turn.answer == r.turn.answer
            && n.turn.receipt.tokenLimit == r.turn.receipt.tokenLimit
            && n.turn.receipt.state == (if blank then Failed else if cut.Some? then Partial else Completed)
            && n.turn.receipt.error == if cut.Some? then cut else if blank then Some(Reported("no answer text")) else None
  {
  }

  lemma ChunkTells(c: Chat, r: Runner, text: string, ms: Option<nat>, checkpoint: Option<Resolution>)
    requires c.up && c.run == Some(r)
    ensures var d := Chunk(c, r, text, ms, checkpoint);
            && d.sent == c.sent
            && (d.run.Some? ==> d.run == Some(r.(turn := d.run.value.turn)) && d.run.value.turn.answer == r.turn.answer + text)
  {
    hide Resolve;
    if checkpoint.Some? { SaveSent(c, r.id, Resolve(Heard(r, text, ms).turn, checkpoint.value)); }
  }

  lemma SaveSent(c: Chat, id: Id, t: Turn)
    ensures Save(c, id, t).sent == c.sent && (if Save(c, id, t).up then Save(c, id, t).run == c.run else c.up ==> Save(c, id, t).run == None)
  {
  }

  /** The stream goes on in this run. */
  predicate Told(c: Chat, r: Runner, es: seq<Note>) {
    c.up && c.run == Some(r) && r.phase == Streaming && Tells(c, es)
  }

  lemma ChunkTold(c: Chat, r: Runner, e: Event, es: seq<Note>)
    requires Told(c, r, es) && (e.Chunked? || e.Refused?) && c.sent[r.id] == 1
    ensures Tells(RunStep(c, e), Listen(c, e, RunStep(c, e), es))
  {
    hide TextOf, RefusedIn, Chunk;
    var note := Note(e, r.aborted, c.desk.stopRequested);
    Heeded(es, note);
    assert (es + [note])[|es|] == note;
    NotOver(es);
    if e.Chunked? { ChunkTells(c, r, e.text, e.ms, e.checkpoint); }
  }

  lemma EndTold(c: Chat, r: Runner, e: Event, d: Chat, es: seq<Note>, n: Runner)
    requires Told(c, r, es) && Ends(e) && d.run == Some(n) && n.phase == Finishing && n.id == r.id
    requires d.sent == c.sent && d.rows == c.rows && r.id in c.rows
    requires var all := es + [Note(e, r.aborted, c.desk.stopRequested)];
             && n.usage == UsageOf(all) && n.dispatched == r.dispatched && n.turn.answer == TextOf(all)
             && n.turn.receipt.state == EndState(all) && n.turn.receipt.error == EndError(all) && n.turn.receipt.tokenLimit == c.rows[r.id].tokenLimit
    ensures Tells(d, Listen(c, e, d, es))
  {
    hide TextOf, RefusedIn, UsageOf, EndState, EndError;
    Heeded(es, Note(e, r.aborted, c.desk.stopRequested));
  }

  lemma CompleteTold(c: Chat, r: Runner, es: seq<Note>, answer: string, blank: bool, cut: Option<Problem>, usage: Usage)
    requires Told(c, r, es) && Good(c, r.id)
    ensures var e := Completes(answer, blank, cut, usage); Tells(RunStep(c, e), Listen(c, e, RunStep(c, e), es))
  {
    hide Good, Tells, Catch, Failing, Graded, TextOf, Listen;
    StreamingIs(c, r);
    var e := Completes(answer, blank, cut, usage);
    var note := Note(e, r.aborted, c.desk.stopRequested);
    Heeded(es, note);
    assert (es + [note])[|es|] == note;
    var known := Answered(r, answer, usage);
    var n := if r.aborted then Failing(known, r.aborted && c.desk.stopRequested, StoppedByOwner) else Graded(known, blank, cut);
    CatchTells(c, known, StoppedByOwner);
    FailingTells(known, r.aborted && c.desk.stopRequested, StoppedByOwner);
    GradedTells(known, blank, cut);
    EndTold(c, r, e, RunStep(c, e), es, n);
  }

  lemma BreakTold(c: Chat, r: Runner, es: seq<Note>, usage: Option<Usage>, problem: Problem)
    requires Told(c, r, es) && Good(c, r.id)
    ensures var e := Breaks(usage, problem); Tells(RunStep(c, e), Listen(c, e, RunStep(c, e), es))
  {
    hide Good, Catch, Failing, TextOf, RefusedIn, Listen;
    StreamingIs(c, r);
    var e := Breaks(usage, problem);
    var note := Note(e, r.aborted, c.desk.stopRequested);
    Heeded(es, note);
    assert (es + [note])[|es|] == note;
    var broken := r.(usage := usage);
    CatchTells(c, broken, problem);
    FailingTells(broken, r.aborted && c.desk.stopRequested, problem);
    EndTold(c, r, e, RunStep(c, e), es, Failing(broken, r.aborted && c.desk.stopRequested, problem));
  }

  lemma StreamTells(c: Chat, e: Event, es: seq<Note>)
    requires c.up && c.run.Some? && c.run.value.phase == Streaming && Good(c, c.run.value.id) && Tells(c, es) && Streams(e)
    ensures Tells(RunStep(c, e), Listen(c, e, RunStep(c, e), es))
  {
    hide Good, Tells, RunStep, Listen, EndState, EndError, TextOf;
    var r := c.run.value;
    assert Told(c, r, es);
    match e {
      case Completes(answer, blank, cut, usage) => CompleteTold(c, r, es, answer, blank, cut, usage);
      case Breaks(usage, problem) => BreakTold(c, r, es, usage, problem);
      case _ => StreamingIs(c, r); ChunkTold(c, r, e, es);
    }
  }

  lemma NotOver(es: seq<Note>)
    requires !Over(es)
    ensures UsageOf(es) == None
  {
  }

  /** The run goes on past its stream: nothing that was reported changes any more. */
  predicate Later(c: Chat, d: Chat) {
    && c.run.Some? && d.run.Some? && d.run.value.phase in {Settling, Ended} && d.sent == c.sent
    && d.run.value.id == c.run.value.id && d.run.value.usage == c.run.value.usage && d.run.value.dispatched == c.run.value.dispatched
  }

  lemma FinishLate(c: Chat, r: Runner, res: Resolution, blank: bool, totalMs: nat)
    requires c.up && c.run == Some(r)
    ensures var d := Finish(c, r, res, blank, totalMs); SameRun(c, d) || Later(c, d)
  {
    hide Closing, Put;
    PutTells(c, Closing(r, res, blank, totalMs));
    ClosingKeeps(r, res, blank, totalMs);
  }

  lemma SettleLate(c: Chat, r: Runner, f: Faults)
    requires c.up && c.run == Some(r)
    ensures var d := SettleRun(c, r, f); SameRun(c, d) || Later(c, d)
  {
    hide SettleTurn;
    SettleSent(c, r, f);
  }

  lemma LateTells(c: Chat, e: Event)
    requires c.up && c.run.Some? && c.run.value.phase in {Finishing, Settling, Ended}
    ensures SameRun(c, RunStep(c, e)) || Later(c, RunStep(c, e))
  {
    hide Finish, SettleRun, AdvanceQueue, SameRun, Later, Validate, Choose, Insert, Admit, Prepare, Freeze, Chunk, Refuse, Complete, Break;
    var r := c.run.value;
    Nothing(c);
    match e {
      case Finished(res, blank, totalMs) => FinishLate(c, r, res, blank, totalMs);
      case Settled(f) => SettleLate(c, r, f);
      case RunOver => AdvanceSame(c, r.id);
      case _ =>
    }
  }

  lemma ClosingKeeps(r: Runner, res: Resolution, blank: bool, totalMs: nat)
    ensures var n := Closing(r, res, blank, totalMs);
            n.id == r.id && n.phase == Settling && n.usage == r.usage && n.dispatched == r.dispatched
  {
  }

  lemma SettleSent(c: Chat, r: Runner, f: Faults)
    requires c.up && c.run == Some(r)
    ensures SettleTurn(c, r.id, r.turn, f).sent == c.sent && (SettleTurn(c, r.id, r.turn, f).run.Some? ==> SettleTurn(c, r.id, r.turn, f).up)
  {
    hide Conclude, Unsettled, Recovered, SameOwner, MayCharge, Save;
    forall c: Chat, t: Turn ensures (c.up || c.run.None?) ==> Quiet(c, Save(c, r.id, t)) { QuietSave(c, r.id, t); }
    forall c: Chat, n: Notice ensures (c.up || c.run.None?) ==> Quiet(c, Unsettled(c, r.id, n)) { QuietUnsettled(c, r.id, n); }
    forall c: Chat, t: Turn ensures (c.up || c.run.None?) ==> Quiet(c, Conclude(c, r.id, t)) { QuietConclude(c, r.id, t); }
  }

  /** The dispatches stay, and an instance that is gone runs nothing. */
  predicate Quiet(c: Chat, d: Chat) { d.sent == c.sent && (d.up || d.run.None?) }

  lemma QuietSave(c: Chat, id: Id, t: Turn)
    ensures c.up || c.run.None? ==> Quiet(c, Save(c, id, t))
  {
  }

  lemma QuietUnsettled(c: Chat, id: Id, n: Notice)
    ensures c.up || c.run.None? ==> Quiet(c, Unsettled(c, id, n))
  {
  }

  lemma QuietConclude(c: Chat, id: Id, t: Turn)
    ensures c.up || c.run.None? ==> Quiet(c, Conclude(c, id, t))
  {
    hide Unsettled, Save, Blank, NoAdmission;
    QuietUnsettled(c, id, UsageMismatch);
    QuietUnsettled(c, id, UsageUnconfirmed);
    forall t: Turn ensures (c.up || c.run.None?) ==> Quiet(c, Save(c, id, t)) { QuietSave(c, id, t); }
  }

  lemma AdvanceSame(c: Chat, finished: Id)
    requires c.up
    ensures SameRun(c, AdvanceQueue(c, finished))
  {
    hide Preserve;
    if c.desk.queued.Some? {
      PreserveRuns(c.(run := None), c.desk.queued.value, NotSaved);
      PreserveRuns(c.(run := None), c.desk.queued.value, PreviousUnsaved);
    }
  }

  lemma LateTold(c: Chat, e: Event, d: Chat, es: seq<Note>)
    requires Inv(d) && c.run.Some? && c.run.value.phase in {Finishing, Settling, Ended} && Tells(c, es)
    requires Later(c, d)
    ensures Tells(d, Listen(c, e, d, es))
  {
    hide Inv;
  }

  // ---------------------------------------------------------------- every run

  lemma RunStepTells(c: Chat, e: Event, es: seq<Note>)
    requires Inv(c) && c.up && c.run.Some? && Tells(c, es)
    ensures Tells(RunStep(c, e), Listen(c, e, RunStep(c, e), es))
  {
    hide Inv, Good, RunStep, Tells, Listen, EarlyNext, SameRun, Later;
    var r := c.run.value;
    var d := RunStep(c, e);
    GoodAll(c, r.id);
    assert Inv(d) by { StepInv(c, e); }
    if Early(r.phase) {
      EarlyIs(c, r, es);
      EarlyTells(c, e);
      EarlyTold(c, e, d, es);
    } else if r.phase == Validating {
      ValidatingTells(c, e, es);
    } else if r.phase == Streaming {
      if Streams(e) {
        StreamTells(c, e, es);
      } else {
        assert d == c by { StreamWaits(c, e); }
        Nothing(c);
        SameTells(c, e, d, es);
      }
    } else {
      LateTells(c, e);
      if SameRun(c, d) { SameTells(c, e, d, es); } else { LateTold(c, e, d, es); }
    }
  }

  lemma StepInv(c: Chat, e: Event)
    requires Inv(c) && c.run.Some?
    ensures Inv(RunStep(c, e))
  {
    hide Good, RunStep;
    forall id: Id ensures Shape(RunStep(c, e)) && Good(RunStep(c, e), id) { RunStepKeeps(c, e, id); }
    assert Good(RunStep(c, e), 0);
  }

  lemma EarlyIs(c: Chat, r: Runner, es: seq<Note>)
    requires Good(c, r.id) && c.up && c.run == Some(r) && Early(r.phase) && Tells(c, es)
    ensures Untold(r) && c.sent[r.id] == 0
  {
  }

  lemma StreamWaits(c: Chat, e: Event)
    requires c.run.Some? && c.run.value.phase == Streaming && !Streams(e)
    ensures RunStep(c, e) == c
  {
  }

  lemma ValidatingTells(c: Chat, e: Event, es: seq<Note>)
    requires Inv(c) && c.up && c.run.Some? && c.run.value.phase == Validating && Tells(c, es) && Inv(RunStep(c, e))
    ensures Tells(RunStep(c, e), Listen(c, e, RunStep(c, e), es))
  {
    hide Inv, Good, Validate, TextOf, UsageOf, RefusedIn, EndState, EndError;
    var r := c.run.value;
    GoodAll(c, r.id);
    NewRunIsSilent(c, r);
    NothingTold();
    if e.Validated? { ValidateTells(c, r, e.ok); }
  }

  lemma StepTells(c: Chat, e: Event, writes: nat, es: seq<Note>)
    requires Inv(c) && Tells(c, es)
    ensures Tells(Step(c, e, writes), Listen(c, e, Step(c, e, writes), es))
  {
    hide Inv, Served, Boot, Tells, Listen, RunStep;
    var ready := c.(writes := writes);
    var d := Step(c, e, writes);
    WritesKeep(c, writes);
    StepKeeps(c, e, writes);
    WritesTell(c, writes, e, d, es);
    if c.up {
      if e.Crash? || e.Read? || e.Recover? || e.Submitted? || e.StopAsked? || c.run.None? {
        ServedSame(ready, e);
        SameTells(ready, e, d, es);
      } else {
        assert Served(ready, e) == RunStep(ready, e) by { ServedRuns(ready, e); }
        RunStepTells(ready, e, es);
      }
    } else {
      GoneRuns(c, e, writes);
      SameTells(ready, e, d, es);
    }
  }

  lemma WritesTell(c: Chat, writes: nat, e: Event, d: Chat, es: seq<Note>)
    ensures Tells(c.(writes := writes), es) == Tells(c, es) && Listen(c.(writes := writes), e, d, es) == Listen(c, e, d, es)
  {
    hide TextOf, UsageOf, RefusedIn, EndState, EndError;
  }

  lemma ServedRuns(c: Chat, e: Event)
    requires c.up && c.run.Some? && !e.Crash? && !e.Read? && !e.Recover? && !e.Submitted? && !e.StopAsked?
    ensures Served(c, e) == RunStep(c, e)
  {
    hide RunStep;
  }

  lemma GoneRuns(c: Chat, e: Event, writes: nat)
    requires Inv(c) && !c.up
    ensures SameRun(c.(writes := writes), Step(c, e, writes))
  {
    hide Inv, Boot;
    GoodAll(c, 0);
    WritesKeep(c, writes);
    if e.Booted? {
      BootKeeps(c.(writes := writes), e.faults);
    }
  }

  lemma {:induction false} StreamIsTold(steps: seq<Act>)
    ensures Tells(Reached(steps), Stream(steps))
    decreases |steps|
  {
    hide Inv, Good, Step, Tells, Listen;
    if steps == [] {
      assert Tells(NewChat(), []) by { EmptyTells(); }
    } else {
      var before, last := steps[..|steps| - 1], steps[|steps| - 1];
      StreamIsTold(before);
      assert steps == before + [last];
      RunOn(NewChat(), before, [last]);
      OneStep(Reached(before), last);
      ReachedIsGood(before, 0);
      StepTells(Reached(before), last.event, last.writes, Stream(before));
    }
  }

  lemma EmptyTells()
    ensures Tells(NewChat(), [])
  {
  }

  // ---------------------------------------------------------------- the finished turn

  /** The counts and the limit that a finished turn reports. */
  predicate Reports(t: Receipt, sent: bool, usage: Option<Usage>, row: Option<Receipt>) {
    if !sent then t.inputTokens == Some(0) && t.cachedTokens == Some(0) && t.outputTokens == Some(0) && t.tokenLimit == Some(0)
    else
      && t.inputTokens == (if usage.Some? then usage.value.inputTokens else None)
      && t.cachedTokens == (if usage.Some? then usage.value.cachedTokens else None)
      && t.outputTokens == (if usage.Some? then usage.value.outputTokens else None)
      && (row.Some? ==> t.tokenLimit == row.value.tokenLimit)
  }

  /** The answer has labels of its sources and only those, or needs none. */
  predicate Cites(t: Receipt, blank: bool) {
    t.invalidLabels == 0 && (t.citations > 0 || t.contextMode == NoContext || blank)
  }

  /** A stream that ended normally with text, and an answer that cites: exactly then the turn is completed. */
  predicate StateFollows(t: Receipt, es: seq<Note>, blank: bool) {
    if !Over(es) then t.state in {Failed, Cancelled}
    else if EndState(es) == Completed && !Cites(t, blank) then t.state == Partial && t.error == Some(if t.invalidLabels > 0 then Unverified else Uncited)
    else t.state == EndState(es) && t.error == EndError(es)
  }

  /**
   * After any run of steps, the turn that is saved when its run finishes has the answer and the labels as resolved. Its
   * counts are those that the end of its stream reported, none if it reported none, and zero with the limit if the turn
   * was not sent or the prompt was refused. It is completed exactly when the stream ended normally with text, no label
   * was rejected, and a source is cited or there was none to cite; otherwise its state and its error say how the stream ended.
   */
  lemma {:induction false} FinishedTurnReports(steps: seq<Act>, res: Resolution, blank: bool, totalMs: nat, writes: nat)
    requires At(Reached(steps), Finishing) && writes > 0
    ensures var c, d := Reached(steps), Reached(steps + [Act(Finished(res, blank, totalMs), writes)]);
            var id, es := c.run.value.id, Stream(steps);
            && id in d.turns
            && var t := d.turns[id];
            && t.answer == res.answer && t.receipt.citations == res.citations && t.receipt.invalidLabels == res.invalidLabels
            && t.receipt.totalMs == Some(totalMs)
            && Reports(t.receipt, c.sent[id] == 1 && !RefusedIn(es), UsageOf(es), if Over(es) then FindRow(c, id) else None)
            && StateFollows(t.receipt, es, blank)
  {
    hide Inv, Run, Good, Step, TextOf, UsageOf, RefusedIn, EndState, EndError, Listen, Closing, Stream, Reports, StateFollows;
    var c, e := Reached(steps), Finished(res, blank, totalMs);
    var r := c.run.value;
    RunOn(NewChat(), steps, [Act(e, writes)]);
    OneStep(c, Act(e, writes));
    ReachedIsGood(steps, r.id);
    GoodAll(c, r.id);
    StreamIsTold(steps);
    FinishingHasNone(c, r);
    FinishStep(c, r, e, writes);
    ClosingReports(c, r, Stream(steps), res, blank, totalMs);
  }

  lemma FinishingHasNone(c: Chat, r: Runner)
    requires Good(c, r.id) && c.up && c.run == Some(r) && r.phase == Finishing
    ensures NoTokens(r.turn.receipt)
  {
  }

  lemma FinishStep(c: Chat, r: Runner, e: Event, writes: nat)
    requires c.up && c.run == Some(r) && r.phase == Finishing && e.Finished? && writes > 0
    ensures var n := Closing(r, e.res, e.blank, e.totalMs); r.id in Step(c, e, writes).turns && Step(c, e, writes).turns[r.id] == n.turn
  {
    hide Closing;
    ClosingKeeps(r, e.res, e.blank, e.totalMs);
  }

  lemma ClosingReports(c: Chat, r: Runner, es: seq<Note>, res: Resolution, blank: bool, totalMs: nat)
    requires c.run == Some(r) && r.phase == Finishing && Tells(c, es) && NoTokens(r.turn.receipt)
    ensures var t := Closing(r, res, blank, totalMs).turn;
            && t.answer == res.answer && t.receipt.citations == res.citations && t.receipt.invalidLabels == res.invalidLabels
            && t.receipt.totalMs == Some(totalMs)
            && Reports(t.receipt, c.sent[r.id] == 1 && !RefusedIn(es), UsageOf(es), if Over(es) then FindRow(c, r.id) else None)
            && StateFollows(t.receipt, es, blank)
  {
    hide TextOf, UsageOf, RefusedIn, EndState, EndError;
  }
}
