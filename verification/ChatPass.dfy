/** Recovery, queueing and restart keep the invariant of the chat protocol; so does every step. */
module ChatPass {
  import opened Text
  import opened Chat
  import opened ChatInvariant

  // ---------------------------------------------------------------- the settlement of a run

  lemma EndOpens(v: Face, r: Runner, t: Turn)
    requires v.run == Some(r) && r.phase == Settling && Durable(v) && RunOk(v.(turn := Some(r.turn)))
    requires v.turn == Some(t) && Terminal(t.receipt) && Noted(t) && v.active && v.queued.None?
    ensures Live(v.(run := Some(r.(phase := Ended))))
  {
  }

  lemma SettlingIs(v: Face, r: Runner)
    requires Running(v, r, Settling)
    ensures v.turn == Some(r.turn) && Terminal(r.turn.receipt) && v.active && v.queued.None? && RunOk(v.(turn := Some(r.turn)))
    ensures r.turn.pending ==> Due(v, r.turn)
  {
    assert v == v.(turn := Some(r.turn));
  }

  lemma RunOkSettled(v: Face, w: Face, r: Runner)
    requires v.run == Some(r) && r.phase == Settling && RunOk(v.(turn := Some(r.turn)))
    requires w == v.(turn := w.turn, row := w.row)
    ensures RunOk(w.(turn := Some(r.turn)))
  {
  }

  lemma SettleStepKeeps(c: Chat, r: Runner, f: Faults, id: Id)
    requires Shape(c) && c.run == Some(r) && r.phase == Settling && Good(c, r.id) && Good(c, id)
    ensures Shape(SettleRun(c, r, f)) && Good(SettleRun(c, r, f), id)
  {
    hide SettleTurn, Go, FaceOf, Durable, Live, RunOk;
    RunningHere(c, r);
    RunFace(c, r.id);
    var v := FaceOf(c, r.id);
    SettlingIs(v, r);
    var s := SettleTurn(c, r.id, r.turn, f);
    if !r.turn.pending {
      assert s == c by { NothingDue(c, r.id, r.turn, f); }
      EndOpens(v, r, r.turn);
      JustGo(c, r.(phase := Ended), id);
    } else {
      SettleKeeps(c, r.id, r.turn, f, id);
      SettleKeeps(c, r.id, r.turn, f, r.id);
      TouchedShape(c, s, r.id, r.id);
      SettledGoes(c, r, s, id);
    }
  }

  lemma SettledGoes(c: Chat, r: Runner, s: Chat, id: Id)
    requires Shape(c) && c.run == Some(r) && r.phase == Settling && Good(c, id) && Shape(s)
    requires Touched(c, s, r.id, id) && Touched(c, s, r.id, r.id) && Durable(FaceOf(s, id)) && Durable(FaceOf(s, r.id)) && SettledIn(s, r.id)
    requires RunOk(FaceOf(c, r.id).(turn := Some(r.turn))) && FaceOf(c, r.id).active && FaceOf(c, r.id).queued.None?
    ensures Shape(Go(s, r.(phase := Ended))) && Good(Go(s, r.(phase := Ended)), id)
  {
    hide Go, FaceOf, Durable, Live, RunOk;
    RunFace(s, r.id);
    RunFace(c, r.id);
    if s.up {
      RunOkSettled(FaceOf(c, r.id), FaceOf(s, r.id), r);
      EndOpens(FaceOf(s, r.id), r, s.turns[r.id]);
      if id != r.id {
        RunFace(s, id);
        RunFace(c, id);
        assert FaceOf(s, id) == FaceOf(c, id);
      }
      JustGo(s, r.(phase := Ended), id);
    } else {
      GoFace(s, r.(phase := Ended), id);
    }
  }

  lemma NothingDue(c: Chat, id: Id, t: Turn, f: Faults)
    requires !t.pending
    ensures SettleTurn(c, id, t, f) == c
  {
  }

  // ---------------------------------------------------------------- the recovery pass

  predicate AtRest(c: Chat, id: Id) { Durable(FaceOf(c, id)) && (c.up ==> Resting(FaceOf(c, id))) }

  ghost predicate Rests(c: Chat) { Shape(c) && forall id: Id :: AtRest(c, id) }

  lemma PendingIsActive(c: Chat, id: Id)
    requires AtRest(c, id) && id in c.turns && c.turns[id].pending
    ensures c.desk.active == Some(id)
  {
  }

  lemma UnblockIdle(c: Chat)
    requires Shape(c)
    ensures Unblock(c) == c
  {
    hide Preserve;
    if !c.up { GonePreserves(c); }
  }

  lemma GonePreserves(c: Chat)
    requires !c.up
    ensures PreserveWaiting(c) == c
  {
  }

  lemma SettleOneIdle(c: Chat, id: Id, f: Faults)
    requires Shape(c) && AtRest(c, id) && (c.run.Some? || !c.up || c.desk.active != Some(id))
    ensures SettleOne(c, id, f) == c
  {
    if id in c.turns && c.turns[id].pending { PendingIsActive(c, id); }
  }

  /** Settling the active turn of an idle chat. */
  lemma SettleOneKeeps(c: Chat, id: Id, f: Faults, j: Id)
    requires Shape(c) && AtRest(c, id) && AtRest(c, j) && c.up && c.run.None? && c.desk.active == Some(id)
    ensures var s := SettleOne(c, id, f);
            && Shape(s) && AtRest(s, j) && s.desk == c.desk && s.run.None? && (s.up ==> id in s.turns && Noted(s.turns[id]))
  {
    hide FaceOf, Durable, Resting, SettleTurn, Save;
    RunFace(c, id);
    RestingTurn(FaceOf(c, id));
    if c.turns[id].pending {
      var t := c.turns[id];
      assert Due(FaceOf(c, id), t) by { DueWhen(FaceOf(c, id), t); }
      SettleKeeps(c, id, t, f, j);
      SettleKeeps(c, id, t, f, id);
      var s := SettleTurn(c, id, t, f);
      TouchedShape(c, s, id, id);
      if s.up {
        RunFace(c, j);
        RunFace(s, j);
        RunFace(s, id);
        if j == id { RestingSettled(FaceOf(c, id), FaceOf(s, id)); } else { assert FaceOf(s, j) == FaceOf(c, j); }
      }
    }
  }

  lemma DueWhen(v: Face, t: Turn)
    requires Durable(v) && v.turn == Some(t) && t.pending && Terminal(t.receipt)
    ensures Due(v, t)
  {
  }

  lemma RestingTurn(v: Face)
    requires Resting(v) && v.active && v.run.None?
    ensures v.turn.Some? && Terminal(v.turn.value.receipt)
  {
  }

  lemma RestingSettled(v: Face, w: Face)
    requires Resting(v) && v.active && v.run.None?
    requires w == v.(turn := w.turn, row := w.row) && w.turn.Some? && Terminal(w.turn.value.receipt)
    ensures Resting(w)
  {
  }

  predicate ActiveNoted(c: Chat) {
    c.up && c.desk.active.Some? ==> c.desk.active.value in c.turns && Noted(c.turns[c.desk.active.value])
  }

  lemma {:induction false} SettleEachKeeps(c: Chat, ids: seq<Id>, faults: Id -> Faults)
    requires Rests(c) && c.run.None?
    requires ActiveNoted(c) || (c.desk.active.Some? && c.desk.active.value in ids)
    ensures var s := SettleEach(c, ids, faults);
            Rests(s) && s.desk == c.desk && s.run.None? && ActiveNoted(s)
    decreases |ids|
  {
    hide AtRest, SettleOne;
    if ids != [] {
      var id := ids[0];
      var s := SettleOne(c, id, faults(id));
      assert AtRest(c, id);
      if c.up && c.desk.active == Some(id) {
        forall j: Id ensures AtRest(s, j) {
          assert AtRest(c, j);
          SettleOneKeeps(c, id, faults(id), j);
        }
        SettleOneKeeps(c, id, faults(id), id);
      } else {
        SettleOneIdle(c, id, faults(id));
      }
      SettleEachKeeps(s, ids[1..], faults);
    }
  }

  lemma {:induction false} PendingInFacts(order: seq<Id>, turns: map<Id, Turn>, id: Id)
    requires id in PendingIn(order, turns)
    ensures id in turns && turns[id].pending
  {
    if order[0] in turns && turns[order[0]].pending {
      if id != order[0] { PendingInFacts(order[1..], turns, id); }
    } else {
      PendingInFacts(order[1..], turns, id);
    }
  }

  lemma PassIdsHold(c: Chat)
    requires Rests(c)
    ensures ActiveNoted(c) || !c.up || (c.desk.active.Some? && c.desk.active.value in PassIds(c, c.desk.active))
              || c.run.Some?
  {
    if c.up && c.run.None? && c.desk.active.Some? {
      var own := c.desk.active.value;
      assert AtRest(c, own);
      if c.turns[own].pending {
        FirstTaken(own, Without(Take(PendingIn(c.order, c.turns), 8), own));
      }
    }
  }

  lemma FirstTaken(id: Id, rest: seq<Id>)
    ensures id in Take([id] + rest, 8)
  {
    assert Take([id] + rest, 8)[0] == id;
  }

  lemma ReclaimIdle(c: Chat)
    requires Rests(c)
    ensures Reclaim(c) == c
  {
    hide AtRest, PendingIn;
    if c.desk.active.None? && PendingIn(c.order, c.turns) != [] {
      var id := PendingIn(c.order, c.turns)[0];
      PendingInFacts(c.order, c.turns, id);
      assert AtRest(c, id);
      PendingIsActive(c, id);
    }
  }

  lemma FreedOk(v: Face)
    requires Durable(v) && Resting(v) && v.run.None? && (v.active ==> v.turn.Some? && Terminal(v.turn.value.receipt) && !v.turn.value.pending)
    requires v.queued.None?
    ensures var w := v.(active := false, queued := None, stop := false); Durable(w) && Live(w)
  {
  }

  /** A settled turn frees the chat. */
  lemma FreeKeeps(c: Chat, id: Id)
    requires Shape(c) && AtRest(c, id) && c.up && c.run.None? && c.desk.active.Some?
    requires var own := c.desk.active.value; own in c.turns && Terminal(c.turns[own].receipt) && !c.turns[own].pending
    ensures Shape(Move(c, Desk(None, None, false))) && Good(Move(c, Desk(None, None, false)), id)
  {
    hide FaceOf, Durable, Live, Resting, Move;
    MoveFace(c, Desk(None, None, false), id);
    RunFace(c, id);
    var m := Move(c, Desk(None, None, false));
    if m.up { FreedOk(FaceOf(c, id)); } else { DurableIgnoresRun(FaceOf(c, id), FaceOf(m, id)); }
  }

  lemma ReleaseKeeps(c: Chat, id: Id)
    requires Shape(c) && c.run.None? && AtRest(c, id) && ActiveNoted(c) && (c.desk.active.Some? ==> AtRest(c, c.desk.active.value))
    ensures Shape(Release(c, c.desk.active)) && Good(Release(c, c.desk.active), id)
  {
    hide FaceOf, Durable, Resting, Move;
    RunFace(c, id);
    if !c.up {
      assert Release(c, c.desk.active) == c by { GoneReleases(c); }
    } else if c.desk.active.Some? {
      var own := c.desk.active.value;
      RunFace(c, own);
      RestingTurn(FaceOf(c, own));
      if !c.turns[own].pending { FreeKeeps(c, id); }
    }
  }

  lemma GoneReleases(c: Chat)
    requires !c.up
    ensures Release(c, c.desk.active) == c
  {
  }

  lemma {:induction false} SettleEachIdle(c: Chat, ids: seq<Id>, faults: Id -> Faults)
    requires Rests(c) && (c.run.Some? || !c.up)
    ensures SettleEach(c, ids, faults) == c
    decreases |ids|
  {
    hide AtRest, SettleOne;
    if ids != [] {
      assert AtRest(c, ids[0]);
      SettleOneIdle(c, ids[0], faults(ids[0]));
      SettleEachIdle(c, ids[1..], faults);
    }
  }

  lemma GoodRests(c: Chat)
    requires Inv(c)
    ensures Rests(c)
  {
    hide FaceOf, Durable, Resting;
    forall id: Id ensures AtRest(c, id) { assert Good(c, id); }
  }

  /** A recovery pass does nothing while a run is live. */
  lemma PassWhileRunning(c: Chat, faults: Id -> Faults)
    requires Inv(c) && (c.run.Some? || !c.up)
    ensures Pass(c, faults) == c
  {
    hide AtRest, Unblock, SettleEach, PassIds, Reclaim, Good;
    GoodRests(c);
    UnblockIdle(c);
    SettleEachIdle(c, PassIds(c, c.desk.active), faults);
    assert Release(c, c.desk.active) == c by { if !c.up { GoneReleases(c); } }
    ReclaimIdle(c);
  }

  lemma PassKeeps(c: Chat, faults: Id -> Faults)
    requires Rests(c) && c.run.None?
    ensures Inv(Pass(c, faults)) && Pass(c, faults).run.None?
  {
    hide AtRest, Unblock, SettleEach, PassIds, Reclaim, Good, Release;
    UnblockIdle(c);
    var ids := PassIds(c, c.desk.active);
    PassIdsHold(c);
    if c.up || ActiveNoted(c) {
      SettleEachKeeps(c, ids, faults);
    } else {
      SettleEachIdle(c, ids, faults);
    }
    var s := SettleEach(c, ids, faults);
    var r := Release(s, c.desk.active);
    forall id: Id ensures Good(r, id) && Shape(r) {
      assert AtRest(s, id);
      if s.desk.active.Some? { assert AtRest(s, s.desk.active.value); }
      ReleaseKeeps(s, id);
    }
    assert Shape(r) by { assert Good(r, 0); }
    assert r.run.None? by { ReleasedRun(s); }
    GoodRests(r);
    ReclaimIdle(r);
  }

  lemma ReleasedRun(c: Chat)
    requires c.run.None?
    ensures Release(c, c.desk.active).run.None?
  {
  }

  // ---------------------------------------------------------------- questions that were not sent

  lemma UndispatchedOk(v: Face, q: Input, why: Problem)
    requires Durable(v) && v.queued == Some(q)
    ensures Durable(v.(turn := Some(Undispatched(q, why)))) && Kept(Undispatched(q, why))
  {
  }

  lemma QueuedTurn(v: Face, q: Input)
    requires Durable(v) && v.queued == Some(q) && v.turn.Some?
    ensures Kept(v.turn.value) || (v.active && v.turn.value == NewTurn(q))
  {
  }

  predicate QueuedKept(c: Chat) {
    c.up && c.desk.queued.Some? ==> c.desk.queued.value.turnId in c.turns && Kept(c.turns[c.desk.queued.value.turnId])
  }

  /** The retained question ends up as a kept turn, whatever was saved for it before. */
  lemma PreserveKeeps(c: Chat, q: Input, why: Problem, j: Id)
    requires (c.run.Some? ==> c.up) && c.desk.queued == Some(q)
    requires Durable(FaceOf(c, q.turnId)) && Durable(FaceOf(c, j))
    ensures var s := Preserve(c, q, why);
            Touched(c, s, q.turnId, j) && Durable(FaceOf(s, j)) && QueuedKept(s)
  {
    hide FaceOf, Durable, Touched, Save, Undispatched, NewTurn;
    var id := q.turnId;
    RunFace(c, id);
    SameFace(c, id);
    TouchesNothing(c, id, j);
    if id in c.turns { QueuedTurn(FaceOf(c, id), q); NewTurnIs(q); }
    UndispatchedOk(FaceOf(c, id), q, why);
    SaveTouches(c, id, Undispatched(q, why), j);
    TouchedKeeps(c, Save(c, id, Undispatched(q, why)), id, j);
    SaveDesk(c, id, Undispatched(q, why));
  }

  lemma SaveDesk(c: Chat, id: Id, t: Turn)
    ensures Save(c, id, t).desk == c.desk && (Save(c, id, t).up ==> Save(c, id, t).turns == c.turns[id := t])
  {
  }

  lemma NewTurnIs(q: Input)
    ensures var t := NewTurn(q); t.receipt.state == Started && t.answer == "" && t.receipt.tokenLimit == None && t.receipt.revisionIds == []
  {
  }

  // ---------------------------------------------------------------- validation

  lemma UnqueueFace(c: Chat, id: Id, j: Id)
    requires c.up && Waiting(c, id)
    ensures var m := Move(c, c.desk.(queued := None));
            && (m.up ==> FaceOf(m, j) == (if j == id then FaceOf(c, j).(queued := None) else FaceOf(c, j))
                         && m.run == c.run && m.desk == c.desk.(queued := None) && m.turns == c.turns)
            && (!m.up ==> FaceOf(m, j) == FaceOf(c, j).(run := None) && m.run.None? && m.desk == c.desk)
  {
    hide FaceOf, Move;
    RunFace(c, j);
    RunFace(c, id);
    MoveFace(c, c.desk.(queued := None), j);
  }

  /** The claimed question becomes a turn, and only then leaves the queue. */
  lemma ClaimKeeps(c: Chat, t: Turn, r: Runner, id: Id)
    requires Steers(c, r.id) && r.input.turnId == r.id && (id != r.id ==> Good(c, id)) && Waiting(c, r.id)
    requires var v := FaceOf(c, r.id);
             && Durable(v) && Durable(v.(turn := Some(t)))
             && Durable(v.(turn := Some(t), queued := None)) && Live(v.(turn := Some(t), queued := None, run := Some(r)))
    ensures var saved := Save(c, r.id, t);
            var g := Go(Move(saved, saved.desk.(queued := None)), r);
            Shape(g) && Good(g, id)
  {
    hide FaceOf, Durable, Live, Save, Move, Go;
    SaveFace(c, r.id, t, id);
    SaveFace(c, r.id, t, r.id);
    var saved := Save(c, r.id, t);
    var moved := Move(saved, saved.desk.(queued := None));
    GoFace(moved, r, id);
    RunFace(c, id);
    RunFace(saved, id);
    if !saved.up {
      GoneMoves(saved, saved.desk.(queued := None));
      DurableIgnoresRun(FaceOf(c, id), FaceOf(saved, id));
    } else {
      assert Waiting(saved, r.id);
      UnqueueFace(saved, r.id, id);
      if !moved.up {
        if id == r.id { DurableIgnoresRun(FaceOf(c, id).(turn := Some(t)), FaceOf(moved, id)); }
        else { DurableIgnoresRun(FaceOf(c, id), FaceOf(moved, id)); }
      } else if id == r.id {
        DurableIgnoresRun(FaceOf(c, id).(turn := Some(t), queued := None), FaceOf(Go(moved, r), id));
      } else {
        assert FaceOf(Go(moved, r), id) == FaceOf(c, id);
      }
    }
  }

  lemma GoneMoves(c: Chat, d: Desk)
    requires !c.up
    ensures Move(c, d) == c
  {
  }

  lemma ValidateOpens(v: Face, r: Runner, stop: bool, why: Problem)
    requires Running(v, r, Validating) && stop == v.stop
    ensures v.queued == Some(r.input) && v.turn.None? && !r.dispatched && r.usage.None?
    ensures var t := NewTurn(r.input);
            var next := r.(phase := Choosing, turn := t, aborted := stop, dispatched := false, usage := None);
            && Durable(v.(turn := Some(t))) && Durable(v.(turn := Some(t), queued := None))
            && Live(v.(turn := Some(t), queued := None, run := Some(next)))
    ensures var t := Undispatched(r.input, why);
            && Durable(v.(turn := Some(t))) && Durable(v.(turn := Some(t), queued := None))
            && Live(v.(turn := Some(t), queued := None, run := Some(r.(phase := Ended))))
  {
  }

  lemma ValidateKeeps(c: Chat, r: Runner, ok: bool, id: Id)
    requires Shape(c) && c.run == Some(r) && r.phase == Validating && Good(c, r.id) && Good(c, id)
    ensures Shape(Validate(c, r, ok)) && Good(Validate(c, r, ok), id)
  {
    hide FaceOf, Durable, Live, Save, Move, Go, Undispatched, NewTurn;
    RunningHere(c, r);
    RunFace(c, r.id);
    ValidateOpens(FaceOf(c, r.id), r, c.desk.stopRequested, NotValidated);
    if ok {
      SaveDesk(c, r.id, NewTurn(r.input));
      ClaimKeeps(c, NewTurn(r.input), r.(phase := Choosing, turn := NewTurn(r.input), aborted := c.desk.stopRequested), id);
      assert Waiting(Save(c, r.id, NewTurn(r.input)), r.id);
    } else {
      ClaimKeeps(c, Undispatched(r.input, NotValidated), r.(phase := Ended), id);
    }
  }

  // ---------------------------------------------------------------- the queue

  lemma DeskFace(c: Chat, d: Desk, j: Id)
    requires c.up
    ensures var m := Move(c, d);
            && (m.up ==> FaceOf(m, j) == FaceOf(c, j).(active := d.active == Some(j),
                                                       queued := if d.queued.Some? && d.queued.value.turnId == j then d.queued else None,
                                                       stop := d.stopRequested)
                         && m.run == c.run && m.desk == d && m.turns == c.turns && m.sent == c.sent && m.stopped == c.stopped)
            && (!m.up ==> FaceOf(m, j) == FaceOf(c, j).(run := None) && m.run.None? && m.desk == c.desk)
  {
    hide FaceOf, Move;
    MoveFace(c, d, j);
  }

  /** The waiting question is claimed when the finished turn left nothing to settle. */
  lemma PromoteKeeps(c: Chat, r: Runner, q: Input, id: Id)
    requires Shape(c) && c.run == Some(r) && r.phase == Ended && c.desk.queued == Some(q)
    requires Good(c, r.id) && Good(c, q.turnId) && Good(c, id) && q.turnId != r.id && !c.turns[r.id].pending
    ensures var g := Go(Move(c.(run := None), Desk(Some(q.turnId), Some(q), false)), Begin(q));
            Shape(g) && Good(g, id)
  {
    hide FaceOf, Durable, Live, Move, Go;
    var idle := c.(run := None);
    var d := Desk(Some(q.turnId), Some(q), false);
    IdleFace(c, id);
    RunFace(c, id);
    DeskFace(idle, d, id);
    var m := Move(idle, d);
    GoFace(m, Begin(q), id);
    if !m.up {
      DurableIgnoresRun(FaceOf(c, id), FaceOf(m, id));
    } else {
      RunFace(c, r.id);
      EndedIs(FaceOf(c, r.id), r);
      PromotedFace(FaceOf(c, id), r, q, id == q.turnId, id == r.id);
    }
  }

  lemma IdleFace(c: Chat, j: Id)
    ensures FaceOf(c.(run := None), j) == FaceOf(c, j).(run := None)
  {
  }

  lemma PromotedFace(v: Face, r: Runner, q: Input, own: bool, prev: bool)
    requires Durable(v) && Live(v) && !(own && prev)
    requires v.queued == if own then Some(q) else None
    requires v.active <==> prev
    requires v.run == if prev then Some(r) else None
    requires prev ==> r.phase == Ended && v.turn.Some? && !v.turn.value.pending
    ensures var w := v.(active := own, stop := false, run := if own then Some(Begin(q)) else None);
            Durable(w) && Live(w)
  {
  }

  /** A turn that still has to be settled keeps the chat; the waiting question is kept as not sent. */
  lemma HoldKeeps(c: Chat, r: Runner, q: Input, id: Id)
    requires Shape(c) && c.run == Some(r) && r.phase == Ended && c.desk.queued == Some(q)
    requires Good(c, r.id) && Good(c, q.turnId) && Good(c, id) && q.turnId != r.id && c.turns[r.id].pending
    ensures Shape(PreserveWaiting(c.(run := None))) && Good(PreserveWaiting(c.(run := None)), id)
  {
    hide FaceOf, Durable, Live, Move, Preserve, Touched, Undispatched;
    var idle := c.(run := None);
    IdleFace(c, id);
    IdleFace(c, q.turnId);
    IdleFace(c, r.id);
    DurableIgnoresRun(FaceOf(c, id), FaceOf(idle, id));
    DurableIgnoresRun(FaceOf(c, q.turnId), FaceOf(idle, q.turnId));
    PreserveKeeps(idle, q, PreviousUnsaved, id);
    var kept := Preserve(idle, q, PreviousUnsaved);
    TouchedDesk(idle, kept, q.turnId, id);
    RunFace(c, r.id);
    RunFace(c, id);
    RunFace(kept, id);
    var m := Move(kept, kept.desk.(queued := None));
    if !kept.up {
      GoneMoves(kept, kept.desk.(queued := None));
    } else {
      UnqueueFace(kept, q.turnId, id);
      KeptFace(idle, kept, q.turnId, id);
      if !m.up {
        DurableIgnoresRun(FaceOf(kept, id), FaceOf(m, id));
      } else {
        EndedIs(FaceOf(c, r.id), r);
        if id == q.turnId { WaitingIs(FaceOf(c, id)); HeldWaiting(FaceOf(kept, id), q); } else { HeldFace(FaceOf(c, id), r, id == r.id); }
      }
    }
  }

  lemma TouchedDesk(c: Chat, s: Chat, id: Id, j: Id)
    requires Touched(c, s, id, j)
    ensures s.desk == c.desk && (s.up ==> s.run == c.run) && (!s.up ==> s.run.None?)
  {
  }

  lemma KeptFace(c: Chat, s: Chat, id: Id, j: Id)
    requires Touched(c, s, id, j) && s.up && c.run.None?
    ensures j != id ==> FaceOf(s, j) == FaceOf(c, j)
    ensures FaceOf(s, id) == FaceOf(c, id).(turn := Find(s, id), row := FindRow(s, id))
  {
    hide FaceOf;
    RunFace(s, j);
    RunFace(c, j);
    RunFace(s, id);
    RunFace(c, id);
  }

  lemma WaitingIs(v: Face)
    requires Durable(v) && Live(v) && v.queued.Some? && !v.active
    ensures v.turn.None?
  {
  }

  lemma HeldWaiting(v: Face, q: Input)
    requires Durable(v) && v.queued == Some(q) && !v.active && v.run.None? && v.turn.Some? && Kept(v.turn.value)
    ensures Durable(v.(queued := None)) && Live(v.(queued := None))
  {
  }

  lemma HeldFace(v: Face, r: Runner, prev: bool)
    requires Durable(v) && Live(v) && v.queued.None? && (v.active <==> prev)
    requires v.run == if prev then Some(r) else None
    requires prev ==> r.phase == Ended && v.turn.Some? && v.turn.value.pending
    ensures Durable(v.(run := None)) && Live(v.(run := None))
  {
  }

  /** Nothing waits: the chat goes idle, or stays with the turn that still has to be settled. */
  lemma IdleKeeps(c: Chat, r: Runner, id: Id)
    requires Shape(c) && c.run == Some(r) && r.phase == Ended && c.desk.queued.None? && Good(c, r.id) && Good(c, id)
    ensures Shape(AdvanceQueue(c, r.id)) && Good(AdvanceQueue(c, r.id), id)
  {
    hide FaceOf, Durable, Live, Move;
    var idle := c.(run := None);
    IdleFace(c, id);
    RunFace(c, r.id);
    RunFace(c, id);
    EndedIs(FaceOf(c, r.id), r);
    if c.turns[r.id].pending {
      HeldFace(FaceOf(c, id), r, id == r.id);
    } else {
      DeskFace(idle, Desk(None, None, false), id);
      if Move(idle, Desk(None, None, false)).up { PromotedIdle(FaceOf(c, id), r, id == r.id); }
      else { DurableIgnoresRun(FaceOf(c, id), FaceOf(Move(idle, Desk(None, None, false)), id)); }
    }
  }

  lemma EndedIs(v: Face, r: Runner)
    requires Durable(v) && Live(v) && v.run == Some(r) && r.phase == Ended
    ensures v.active && v.turn.Some? && v.queued.None?
  {
  }

  lemma PromotedIdle(v: Face, r: Runner, prev: bool)
    requires Durable(v) && Live(v) && v.queued.None? && (v.active <==> prev)
    requires v.run == if prev then Some(r) else None
    requires prev ==> r.phase == Ended && v.turn.Some? && !v.turn.value.pending
    ensures var w := v.(active := false, stop := false, run := None); Durable(w) && Live(w)
  {
  }

  lemma AdvanceKeeps(c: Chat, r: Runner, id: Id)
    requires Inv(c) && c.run == Some(r) && r.phase == Ended
    ensures Shape(AdvanceQueue(c, r.id)) && Good(AdvanceQueue(c, r.id), id)
  {
    hide FaceOf, Durable, Live, Move, Go, PreserveWaiting;
    assert Good(c, id) && Good(c, r.id);
    RunFace(c, r.id);
    EndedIs(FaceOf(c, r.id), r);
    match c.desk.queued {
      case None => IdleKeeps(c, r, id);
      case Some(q) =>
        assert Good(c, q.turnId);
        if c.turns[r.id].pending { HoldKeeps(c, r, q, id); } else { PromoteKeeps(c, r, q, id); }
    }
  }

  // ---------------------------------------------------------------- submit and stop

  lemma HandoffIdle(c: Chat)
    requires Inv(c) && c.up
    ensures RecoverHandoff(c) == (c, true)
  {
    hide Preserve, Move, Good;
  }

  lemma AcceptFace(c: Chat, input: Input, j: Id)
    requires c.up
    ensures FaceOf(Accept(c, input), j) == if j == input.turnId then FaceOf(c, j).(accepted := Some(input), withdrawn := false) else FaceOf(c, j)
    ensures Accept(c, input).up && Accept(c, input).run == c.run && Accept(c, input).desk == c.desk
  {
  }

  lemma NewFace(v: Face, q: Input, start: bool, stop: bool)
    requires Durable(v) && v.turn.None? && !v.active && v.queued.None? && v.run.None?
    ensures var w := v.(active := start, queued := Some(q), stop := stop, accepted := Some(q), withdrawn := false);
            && (!start ==> Durable(w) && Live(w))
            && (start ==> Durable(w) && Live(w.(run := Some(Begin(q)))))
  {
  }

  lemma OtherFace(v: Face)
    requires Durable(v) && Live(v) && !v.active && v.queued.None? && v.run.None?
    ensures Durable(v.(stop := false)) && Live(v.(stop := false))
  {
  }

  lemma StartKeeps(c: Chat, input: Input, id: Id)
    requires Shape(c) && c.up && c.desk.active.None? && c.run.None? && input.turnId !in c.turns && Good(c, input.turnId) && Good(c, id)
    ensures Shape(StartTurn(c, input)) && Good(StartTurn(c, input), id)
  {
    hide FaceOf, Durable, Live, Move, Go, Accept;
    RunFace(c, id);
    RunFace(c, input.turnId);
    var d := Desk(Some(input.turnId), Some(input), false);
    DeskFace(c, d, id);
    var m := Move(c, d);
    if !m.up {
      assert Accept(m, input) == m && Go(m, Begin(input)) == m by { GoneAccepts(m, input); }
      DurableIgnoresRun(FaceOf(c, id), FaceOf(m, id));
    } else {
      AcceptFace(m, input, id);
      GoFace(Accept(m, input), Begin(input), id);
      if id == input.turnId {
        NewFace(FaceOf(c, id), input, true, false);
        DurableIgnoresRun(FaceOf(Accept(m, input), id), FaceOf(StartTurn(c, input), id));
      } else {
        OtherFace(FaceOf(c, id));
        assert FaceOf(StartTurn(c, input), id) == FaceOf(c, id).(stop := false);
      }
    }
  }

  lemma GoneAccepts(c: Chat, input: Input)
    requires !c.up
    ensures Accept(c, input) == c && Go(c, Begin(input)) == c
  {
  }

  lemma QueueKeeps(c: Chat, input: Input, id: Id)
    requires Shape(c) && c.up && c.run.Some? && c.desk.queued.None? && input.turnId !in c.turns && c.desk.active != Some(input.turnId)
    requires Good(c, input.turnId) && Good(c, id)
    ensures var s := Accept(Move(c, c.desk.(queued := Some(input))), input); Shape(s) && Good(s, id)
  {
    hide FaceOf, Durable, Live, Move, Accept;
    RunFace(c, id);
    var d := c.desk.(queued := Some(input));
    DeskFace(c, d, id);
    var m := Move(c, d);
    if !m.up {
      GoneAccepts(m, input);
      DurableIgnoresRun(FaceOf(c, id), FaceOf(m, id));
    } else {
      AcceptFace(m, input, id);
      if id == input.turnId { NewFace(FaceOf(c, id), input, false, c.desk.stopRequested); }
      else { assert FaceOf(Accept(m, input), id) == FaceOf(c, id); }
    }
  }

  lemma IdleHolder(c: Chat)
    requires Inv(c) && c.up && c.run.None? && c.desk.active.Some?
    ensures c.desk.active.value in c.turns && c.turns[c.desk.active.value].notice.Some?
  {
    assert Good(c, c.desk.active.value);
  }

  lemma DecideKeeps(c: Chat, input: Input, wait: bool, id: Id)
    requires Inv(c)
    ensures Shape(Decide(c, input, wait)) && Good(Decide(c, input, wait), id)
  {
    hide Good, StartTurn, Accept, Move;
    assert Good(c, id) && Good(c, input.turnId);
    if c.up {
      if input.turnId !in c.turns && c.desk.active != Some(input.turnId) {
        if c.desk.active.None? {
          StartKeeps(c, input, id);
        } else if c.run.None? {
          IdleHolder(c);
        } else if !wait && c.desk.queued.None? {
          QueueKeeps(c, input, id);
        }
      }
    } else {
      assert Decide(c, input, wait) == c by { GoneDecides(c, input, wait); }
    }
  }

  lemma GoneDecides(c: Chat, input: Input, wait: bool)
    requires !c.up
    ensures Decide(c, input, wait) == c
  {
  }

  lemma WithdrawnFace(v: Face)
    requires Durable(v) && Live(v) && v.queued.Some? && !v.active && v.run.None?
    ensures var w := v.(queued := None, withdrawn := true); Durable(w) && Live(w)
  {
  }

  lemma WithdrawKeeps(c: Chat, own: Id, id: Id)
    requires Shape(c) && Good(c, own) && Good(c, id)
    ensures Shape(Withdraw(c, own)) && Good(Withdraw(c, own), id)
  {
    hide FaceOf, Durable, Live, Move;
    if Waiting(c, own) && c.desk.active != Some(own) {
      RunFace(c, id);
      if !c.up {
        GoneMoves(c, c.desk.(queued := None));
      } else {
        UnqueueFace(c, own, id);
        var m := Move(c, c.desk.(queued := None));
        if !m.up {
          DurableIgnoresRun(FaceOf(c, id), FaceOf(m, id));
        } else {
          MarkWithdrawn(m, own, id);
          if id == own { WithdrawnFace(FaceOf(c, id)); }
        }
      }
    }
  }

  lemma MarkWithdrawn(c: Chat, own: Id, j: Id)
    ensures FaceOf(c.(withdrawn := c.withdrawn + {own}), j) == if j == own then FaceOf(c, j).(withdrawn := true) else FaceOf(c, j)
  {
  }

  lemma MarkStopped(c: Chat, own: Id, j: Id)
    ensures FaceOf(c.(stopped := c.stopped + {own}), j) == if j == own then FaceOf(c, j).(stopped := true) else FaceOf(c, j)
  {
  }

  lemma StopFace(v: Face)
    requires Durable(v) && Live(v)
    ensures Durable(v.(stop := true)) && Live(v.(stop := true))
  {
  }

  lemma AbortFace(v: Face, mark: bool, abort: bool)
    requires Durable(v) && Live(v) && v.active && v.stop && mark == (v.sent == 0)
    requires abort == (v.run.Some? && v.run.value.phase != Validating)
    ensures var w := v.(stopped := v.stopped || mark);
            var u := if abort then w.(run := Some(v.run.value.(aborted := true))) else w;
            Durable(u) && Live(u)
  {
  }

  function Noticed(c: Chat, own: Id): Chat {
    if c.sent[own] == 0 then c.(stopped := c.stopped + {own}) else c
  }

  lemma NoticedFace(c: Chat, own: Id, j: Id)
    ensures var k := Noticed(c, own);
            && k.up == c.up && k.run == c.run && k.desk == c.desk && k.turns == c.turns
            && FaceOf(k, j) == if j == own then FaceOf(c, j).(stopped := FaceOf(c, j).stopped || c.sent[own] == 0) else FaceOf(c, j)
  {
    MarkStopped(c, own, j);
  }

  lemma AbortedKeeps(m: Chat, own: Id, id: Id)
    requires Shape(m) && m.up && m.desk.active == Some(own) && m.desk.stopRequested && Durable(FaceOf(m, id)) && Live(FaceOf(m, id))
    ensures var k := Noticed(m, own);
            var s := if k.run.Some? && k.run.value.phase != Validating then k.(run := Some(k.run.value.(aborted := true))) else k;
            Shape(s) && Good(s, id)
  {
    hide FaceOf, Durable, Live, Noticed;
    NoticedFace(m, own, id);
    RunFace(m, id);
    var k := Noticed(m, own);
    RunFace(k, id);
    if id == own { AbortFace(FaceOf(m, id), m.sent[own] == 0, m.run.Some? && m.run.value.phase != Validating); }
    if k.run.Some? { AbortedRun(k, id); }
  }

  lemma AbortKeeps(c: Chat, own: Id, id: Id)
    requires Shape(c) && Good(c, own) && Good(c, id)
    ensures Shape(Abort(c, own)) && Good(Abort(c, own), id)
  {
    hide FaceOf, Durable, Live, Move;
    if c.desk.active == Some(own) {
      var d := c.desk.(stopRequested := true);
      if !c.up {
        GoneMoves(c, d);
      } else {
        RunFace(c, id);
        DeskFace(c, d, id);
        var m := Move(c, d);
        if !m.up {
          DurableIgnoresRun(FaceOf(c, id), FaceOf(m, id));
        } else {
          assert FaceOf(m, id) == FaceOf(c, id).(stop := true);
          StopFace(FaceOf(c, id));
          AbortedKeeps(m, own, id);
        }
      }
    }
  }

  lemma AbortedRun(c: Chat, j: Id)
    requires c.run.Some?
    ensures FaceOf(c.(run := Some(c.run.value.(aborted := true))), j) ==
            if c.run.value.id == j then FaceOf(c, j).(run := Some(c.run.value.(aborted := true))) else FaceOf(c, j)
  {
  }
}
