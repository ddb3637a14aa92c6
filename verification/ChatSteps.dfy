/** Restart keeps the invariant of the chat protocol, and so does every run of steps. */
module ChatSteps {
  import opened Text
  import opened Chat
  import opened ChatInvariant
  import opened ChatPass

  // ---------------------------------------------------------------- restart

  lemma MarkOk(v: Face, t: Turn)
    requires Durable(v) && v.active && v.turn == Some(t) && (v.queued.Some? ==> Kept(t))
    ensures t.receipt.state == Started ==> Durable(v.(turn := Some(Interrupt(t).(pending := true))))
    ensures t.receipt.state != Started && t.input.None? ==> Durable(v.(turn := Some(t.(pending := true))))
  {
  }

  /** The active turn is terminal, and pending unless it was never sent. */
  predicate ActiveMarked(c: Chat) {
    c.up && c.desk.active.Some? && c.desk.active.value in c.turns ==>
      var t := c.turns[c.desk.active.value];
      Terminal(t.receipt) && (t.pending || t.input.Some?)
  }

  lemma MarkKeeps(c: Chat, j: Id)
    requires c.run.None? && QueuedKept(c) && Durable(FaceOf(c, j))
    requires c.desk.active.Some? ==> Durable(FaceOf(c, c.desk.active.value))
    ensures var s := Mark(c);
            s.desk == c.desk && s.run.None? && Durable(FaceOf(s, j)) && QueuedKept(s) && ActiveMarked(s)
  {
    hide FaceOf, Durable, Save, Interrupt, Kept;
    if !c.up {
      GoneMarks(c);
    } else if c.desk.active.Some? && c.desk.active.value in c.turns {
      var id := c.desk.active.value;
      var t := c.turns[id];
      RunFace(c, id);
      MarkOk(FaceOf(c, id), t);
      var next := if t.receipt.state == Started then Interrupt(t).(pending := true) else t.(pending := true);
      Interrupted(t);
      if t.receipt.state == Started || t.input.None? {
        SaveTouches(c, id, next, j);
        SameFace(c, id);
        TouchedKeeps(c, Save(c, id, next), id, j);
        SaveDesk(c, id, next);
        TouchedDesk(c, Save(c, id, next), id, j);
        KeptIs(t);
      }
    }
  }

  lemma GoneMarks(c: Chat)
    requires !c.up
    ensures Mark(c) == c
  {
  }

  lemma Interrupted(t: Turn)
    ensures Terminal(Interrupt(t).receipt)
  {
  }

  lemma KeptIs(t: Turn)
    ensures Kept(t) ==> t.input.Some? && Terminal(t.receipt)
  {
  }

  lemma ClearedFace(v: Face, own: bool, held: bool)
    requires Durable(v) && v.run.None? && (v.active <==> own)
    requires v.queued.Some? ==> v.turn.Some? && Kept(v.turn.value)
    requires own && v.turn.Some? ==> Terminal(v.turn.value.receipt) && (v.turn.value.pending || v.turn.value.input.Some?)
    requires held == (own && v.turn.Some? && v.turn.value.pending)
    ensures var w := v.(active := held, queued := None, stop := false); Durable(w) && Resting(w)
  {
  }

  function HeldActive(c: Chat): Option<Id> {
    var active := c.desk.active;
    if active.Some? && active.value in c.turns && c.turns[active.value].pending then active else None
  }

  lemma ClearKeeps(c: Chat, j: Id)
    requires c.run.None? && QueuedKept(c) && ActiveMarked(c) && Durable(FaceOf(c, j)) && (c.desk.active.None? ==> c.desk.queued.None?)
    ensures var s := if c.desk.active.Some? || c.desk.queued.Some? then Move(c, Desk(HeldActive(c), None, false)) else c;
            Shape(s) && s.run.None? && AtRest(s, j)
  {
    hide FaceOf, Durable, Move, Kept, Resting;
    var d := Desk(HeldActive(c), None, false);
    RunFace(c, j);
    if !c.up {
      GoneMoves(c, d);
    } else if c.desk.active.Some? || c.desk.queued.Some? {
      DeskFace(c, d, j);
      var m := Move(c, d);
      if m.up {
        ClearedFace(FaceOf(c, j), c.desk.active == Some(j), d.active == Some(j));
      } else {
        DurableIgnoresRun(FaceOf(c, j), FaceOf(m, j));
      }
    } else {
      IdleRests(FaceOf(c, j));
    }
  }

  lemma IdleRests(v: Face)
    requires !v.active && v.queued.None? && v.run.None?
    ensures Resting(v)
  {
  }

  lemma BootKeeps(c: Chat, faults: Id -> Faults)
    requires Inv(c)
    ensures Inv(Boot(c, faults)) && (!c.up ==> Boot(c, faults).run.None?)
  {
    hide FaceOf, Durable, Move, Mark, Preserve, Pass, AtRest, Good;
    if !c.up {
      var woken := c.(up := true, run := None);
      var kept := if c.desk.queued.Some? then Preserve(woken, c.desk.queued.value, Restarted) else woken;
      var marked := Mark(kept);
      var d := Desk(HeldActive(marked), None, false);
      var cleared := if c.desk.active.Some? || c.desk.queued.Some? then Move(marked, d) else marked;
      forall j: Id ensures Shape(cleared) && cleared.run.None? && marked.desk == c.desk && AtRest(cleared, j) {
        KeptOnBoot(c, woken, kept, j);
        if c.desk.active.Some? { KeptOnBoot(c, woken, kept, c.desk.active.value); }
        MarkKeeps(kept, j);
        ClearKeeps(marked, j);
      }
      assert AtRest(cleared, 0);
      PassKeeps(cleared, faults);
    }
  }

  lemma KeptOnBoot(c: Chat, woken: Chat, kept: Chat, j: Id)
    requires Inv(c) && !c.up && woken == c.(up := true, run := None)
    requires kept == if c.desk.queued.Some? then Preserve(woken, c.desk.queued.value, Restarted) else woken
    ensures kept.desk == c.desk && kept.run.None? && Durable(FaceOf(kept, j)) && QueuedKept(kept)
  {
    hide FaceOf, Durable, Preserve;
    WokenFace(c, j);
    if c.desk.queued.Some? {
      var q := c.desk.queued.value;
      WokenFace(c, q.turnId);
      PreserveKeeps(woken, q, Restarted, j);
      TouchedDesk(woken, kept, q.turnId, j);
    }
  }

  lemma WokenFace(c: Chat, j: Id)
    requires Inv(c) && !c.up
    ensures Durable(FaceOf(c.(up := true, run := None), j))
  {
    assert Good(c, j);
    assert FaceOf(c.(up := true, run := None), j) == FaceOf(c, j);
  }

  // ---------------------------------------------------------------- every step

  lemma GoodAll(c: Chat, id: Id)
    requires Inv(c)
    ensures Shape(c) && Good(c, id)
  {
  }

  lemma RunStepKeeps(c: Chat, e: Event, id: Id)
    requires Inv(c) && c.run.Some?
    ensures Shape(RunStep(c, e)) && Good(RunStep(c, e), id)
  {
    hide Shape, Good, Inv, Validate, Choose, Insert, Admit, Prepare, Freeze, Chunk, Refuse, Complete, Break, Finish, SettleRun, AdvanceQueue;
    GoodAll(c, id);
    GoodAll(c, c.run.value.id);
    var r := c.run.value;
    match e {
      case Validated(ok) => if r.phase == Validating { ValidateKeeps(c, r, ok, id); }
      case Chosen(settings, available, problem) => if r.phase == Choosing { ChooseKeeps(c, r, settings, available, problem, id); }
      case Inserted(w, problem) => if r.phase == Inserting { InsertKeeps(c, r, w, problem, id); }
      case Admitted(w, bound, problem) => if r.phase == Admitting { AdmitKeeps(c, r, w, bound, problem, id); }
      case Prepared(plan, fits, problem) => if r.phase == Preparing { PrepareKeeps(c, r, plan, fits, problem, id); }
      case Frozen(w, problem) => if r.phase == Freezing { FreezeKeeps(c, r, w, problem, id); }
      case Chunked(text, ms, checkpoint) => if r.phase == Streaming { ChunkKeeps(c, r, text, ms, checkpoint, id); }
      case Finished(res, blank, totalMs) => if r.phase == Finishing { FinishKeeps(c, r, res, blank, totalMs, id); }
      case Settled(f) => if r.phase == Settling { SettleStepKeeps(c, r, f, id); }
      case RunOver => if r.phase == Ended { AdvanceKeeps(c, r, id); }
      case _ => if r.phase == Streaming && (e.Refused? || e.Completes? || e.Breaks?) { StreamKeeps(c, r, e, id); }
    }
  }

  lemma PassInv(c: Chat, faults: Id -> Faults)
    requires Inv(c)
    ensures Inv(Pass(c, faults))
  {
    hide Shape, Good, Inv, Pass;
    if c.run.Some? { PassWhileRunning(c, faults); } else { GoodRests(c); PassKeeps(c, faults); }
  }

  lemma StopKeeps(c: Chat, own: Id, faults: Id -> Faults)
    requires Inv(c) && c.up
    ensures Inv(Stop(c, own, faults))
  {
    hide Shape, Good, Pass, RecoverHandoff, Withdraw, Abort;
    HandoffIdle(c);
    PassInv(c, faults);
    var p := Pass(c, faults);
    var w := Withdraw(p, own);
    forall id: Id ensures Shape(w) && Good(w, id) { GoodAll(p, id); GoodAll(p, own); WithdrawKeeps(p, own, id); }
    assert Shape(w) by { assert Good(w, own); }
    forall id: Id ensures Shape(Abort(w, own)) && Good(Abort(w, own), id) { GoodAll(w, id); GoodAll(w, own); AbortKeeps(w, own, id); }
    assert Good(Abort(w, own), own);
  }

  lemma SubmitKeeps(c: Chat, input: Input, wait: bool, faults: Id -> Faults)
    requires Inv(c) && c.up
    ensures Inv(Submit(c, input, wait, faults))
  {
    hide Shape, Good, Pass, RecoverHandoff, Decide;
    HandoffIdle(c);
    PassInv(c, faults);
    var p := Pass(c, faults);
    forall id: Id ensures Shape(Decide(p, input, wait)) && Good(Decide(p, input, wait), id) { DecideKeeps(p, input, wait, id); }
    assert Good(Decide(p, input, wait), 0);
  }

  lemma CrashKeeps(c: Chat)
    requires Inv(c)
    ensures Inv(Down(c))
  {
    hide Durable, Live;
    forall id: Id ensures Good(Down(c), id) {
      assert Good(c, id);
      DurableIgnoresRun(FaceOf(c, id), FaceOf(Down(c), id));
    }
  }

  lemma WritesKeep(c: Chat, writes: nat)
    requires Inv(c)
    ensures Inv(c.(writes := writes))
  {
    hide Durable, Live;
    forall id: Id ensures Good(c.(writes := writes), id) {
      assert Good(c, id);
      assert FaceOf(c.(writes := writes), id) == FaceOf(c, id);
    }
  }

  /** Every step, stopped before any of its durable writes, keeps the invariant. */
  lemma StepKeeps(c: Chat, e: Event, writes: nat)
    requires Inv(c)
    ensures Inv(Step(c, e, writes))
  {
    hide Inv, Boot, Pass, Submit, Stop, RecoverHandoff, RunStep, Down;
    WritesKeep(c, writes);
    var ready := c.(writes := writes);
    if c.up {
      match e {
        case Crash => CrashKeeps(ready);
        case Read(faults) => HandoffIdle(ready); PassInv(ready, faults);
        case Recover(faults) => PassInv(ready, faults);
        case Submitted(input, wait, faults) => SubmitKeeps(ready, input, wait, faults);
        case StopAsked(id, faults) => StopKeeps(ready, id, faults);
        case _ =>
          if ready.run.Some? { RunStepInv(ready, e); }
      }
    } else if e.Booted? {
      BootKeeps(ready, e.faults);
    }
  }

  lemma RunStepInv(c: Chat, e: Event)
    requires Inv(c) && c.run.Some?
    ensures Inv(RunStep(c, e))
  {
    hide Shape, Good, RunStep;
    forall id: Id ensures Shape(RunStep(c, e)) && Good(RunStep(c, e), id) { RunStepKeeps(c, e, id); }
    assert Good(RunStep(c, e), 0);
  }

  // ---------------------------------------------------------------- runs

  datatype Act = Act(event: Event, writes: nat)

  function Run(c: Chat, steps: seq<Act>): Chat
    decreases |steps|
  {
    if steps == [] then c else Run(Step(c, steps[0].event, steps[0].writes), steps[1..])
  }

  lemma {:induction false} RunKeeps(c: Chat, steps: seq<Act>)
    requires Inv(c)
    ensures Inv(Run(c, steps))
    decreases |steps|
  {
    hide Inv, Step;
    if steps != [] {
      StepKeeps(c, steps[0].event, steps[0].writes);
      RunKeeps(Step(c, steps[0].event, steps[0].writes), steps[1..]);
    }
  }
}
