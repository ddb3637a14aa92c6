/** addSource on the stores that it changes: the database rows, the objects and the workflow service (src/library.ts). */
module UploadStore {
  import opened Text
  import opened Publication
  import opened Upload

  /** Why an upload was refused, or the receipt that it got. */
  datatype Reply = Receipt | DifferentReplacement | AlreadyHeld | NotSaved | JustAdded | SourceChanged | Unavailable

  /** What the services do during one attempt. */
  datatype Services = Services(puts: bool, putReply: bool, commits: bool, batchReply: bool, rereads: bool)

  class Uploads {
    var db: Db
    var captures: map<RevId, Capture>
    var objects: set<Key>
    var created: multiset<RevId>
    var attempts: map<AttemptId, Attempt>

    function View(): Library
      reads this
    {
      Library(db, captures, objects, created, attempts)
    }

    constructor ()
      ensures View() == NewLibrary()
    {
      db, captures, objects, created, attempts := NewWorld().db, map[], {}, multiset{}, map[];
    }

    method SetPhase(a: AttemptId, phase: Phase)
      requires a in attempts
      modifies this`attempts
      ensures View() == Goto(old(View()), a, phase)
    {
      attempts := attempts[a := attempts[a].(phase := phase)];
    }

    method Conclude(a: AttemptId, receipt: bool)
      requires a in attempts
      modifies this`attempts
      ensures View() == Finish(old(View()), a, receipt)
    {
      attempts := attempts[a := attempts[a].(phase := Over, receipt := receipt)];
    }

    /** The lookup of a chosen id; the reply when it is stored already. */
    method LookUpChosen(a: AttemptId) returns (reply: Option<Reply>)
      requires a in attempts && attempts[a].phase == Begun
      modifies this`attempts
      ensures View() == Upload.Step(old(View()), Looked(a))
      ensures a in attempts && attempts[a].phase == if reply.Some? then Over else Cleared
      ensures reply.Some? ==> reply.value == if attempts[a].receipt then Receipt else DifferentReplacement
      ensures reply.None? ==> attempts[a].receipt == old(attempts[a].receipt)
    {
      hide Same;
      var t := attempts[a];
      if t.input.given && t.input.rev in captures {
        var same := Same(db, captures[t.input.rev], t.input);
        Conclude(a, same);
        return Some(if same then Receipt else DifferentReplacement);
      }
      SetPhase(a, Cleared);
      reply := None;
    }

    method GuardDuplicate(a: AttemptId) returns (reply: Option<Reply>)
      requires a in attempts && attempts[a].phase == Cleared
      modifies this`attempts
      ensures View() == Upload.Step(old(View()), Checked(a))
      ensures a in attempts && attempts[a].receipt == old(attempts[a].receipt)
      ensures if reply.Some? then reply == Some(AlreadyHeld) && attempts[a].phase == Over else attempts[a].phase == Unique
    {
      hide HeldElsewhere;
      if HeldElsewhere(db.revisions, attempts[a].input.hash, attempts[a].input.source) {
        SetPhase(a, Over);
        return Some(AlreadyHeld);
      }
      SetPhase(a, Unique);
      reply := None;
    }

    method PutOriginal(a: AttemptId, services: Services) returns (reply: Option<Reply>)
      requires a in attempts && attempts[a].phase == Unique
      modifies this`attempts, this`objects
      ensures View() == Upload.Step(old(View()), Put(a, services.puts, services.putReply))
      ensures a in attempts && attempts[a].receipt == old(attempts[a].receipt)
      ensures if reply.Some? then reply == Some(NotSaved) && attempts[a].phase == Over else attempts[a].phase == Kept
    {
      if services.puts { objects := objects + {OwnKey(a, attempts[a])}; }
      if services.puts && services.putReply {
        SetPhase(a, Kept);
        reply := None;
      } else {
        SetPhase(a, Over);
        reply := Some(NotSaved);
      }
    }

    /** The statements of the batch, one after the other; nothing stays when one of them is refused. */
    method Batch(a: AttemptId, services: Services)
      requires a in attempts && attempts[a].phase == Kept
      modifies this`db, this`captures, this`attempts
      ensures View() == Upload.Step(old(View()), Ran(a, services.commits, services.batchReply))
      ensures a in attempts && attempts[a].receipt == old(attempts[a].receipt) && attempts[a].phase in {Creating, Caught}
    {
      hide HeldElsewhere, NumberTaken, NewRevision;
      var t := attempts[a];
      var before := db;
      var changes := false;
      if services.commits {
        if !t.input.replacement && t.input.source !in db.heads && !HeldElsewhere(db.revisions, t.input.hash, t.input.source) {
          db := db.(heads := db.heads[t.input.source := None]);
        }
        if !HeldElsewhere(db.revisions, t.input.hash, t.input.source) && t.input.rev !in db.revisions && t.input.source in db.heads
           && (if t.input.replacement then !NumberTaken(db.revisions, t.input.source, t.no) else t.input.source !in before.heads) {
          db := db.(revisions := db.revisions[t.input.rev := NewRevision(t.input.source, if t.input.replacement then t.no else 1, t.input.hash)]);
          changes := true;
        }
      }
      if changes {
        captures := captures[t.input.rev := Capture(OwnKey(a, t), t.input.size, t.input.filename, t.input.mime)];
      } else {
        db := before;
      }
      SetPhase(a, if changes && services.batchReply then Creating else Caught);
    }

    /** The recovery branch after a batch without a change or without a reply. */
    method Recover(a: AttemptId, services: Services) returns (reply: Option<Reply>)
      requires a in attempts && attempts[a].phase == Caught && !attempts[a].receipt
      modifies this`objects, this`attempts
      ensures View() == Upload.Step(old(View()), Read(a, services.rereads))
      ensures a in attempts && attempts[a].phase == if reply.Some? then Over else Creating
      ensures reply.Some? ==> (reply == Some(Receipt) <==> attempts[a].receipt)
    {
      hide Same, HeldElsewhere;
      var t := attempts[a];
      var own := OwnKey(a, t);
      reply := None;
      if !services.rereads {
        SetPhase(a, Over);
        return Some(Unavailable);
      }
      if t.input.rev !in captures {
        objects := objects - {own};
        SetPhase(a, Over);
        return Some(if HeldElsewhere(db.revisions, t.input.hash, t.input.source) then JustAdded
                    else if t.input.replacement then SourceChanged else Unavailable);
      }
      if t.input.given {
        var same := Same(db, captures[t.input.rev], t.input);
        if captures[t.input.rev].key != own { objects := objects - {own}; }
        if captures[t.input.rev].key != own || !same {
          Conclude(a, same && captures[t.input.rev].key != own);
          return Some(if same then Receipt else DifferentReplacement);
        }
      }
      SetPhase(a, Creating);
    }

    method StartConversion(a: AttemptId)
      requires a in attempts && attempts[a].phase == Creating
      modifies this`created, this`attempts
      ensures View() == Upload.Step(old(View()), Created(a))
      ensures a in attempts && attempts[a].phase == Over && attempts[a].receipt
    {
      created := created + multiset{attempts[a].input.rev};
      Conclude(a, true);
    }

    /** Up to the stored object; the reply when the attempt ends before. */
    method Keep(a: AttemptId, services: Services) returns (reply: Option<Reply>)
      requires a in attempts && attempts[a].phase == Begun && !attempts[a].receipt
      modifies this
      ensures View() == Stowed(old(View()), a, services)
      ensures a in attempts && attempts[a].phase == if reply.Some? then Over else Kept
      ensures reply == Some(Receipt) <==> attempts[a].receipt
    {
      hide Upload.Step;
      var early := LookUpChosen(a);
      if early.Some? { NotDue(View(), a, Checked(a)); NotDue(View(), a, Put(a, services.puts, services.putReply)); return early; }
      early := GuardDuplicate(a);
      if early.Some? { NotDue(View(), a, Put(a, services.puts, services.putReply)); return early; }
      reply := PutOriginal(a, services);
    }

    /** From the stored object to the reply. */
    method Record(a: AttemptId, services: Services) returns (reply: Reply)
      requires a in attempts && attempts[a].phase == Kept && !attempts[a].receipt
      modifies this
      ensures View() == Recorded(old(View()), a, services)
      ensures a in attempts && attempts[a].phase == Over
      ensures reply == Receipt <==> attempts[a].receipt
    {
      hide Upload.Step;
      Batch(a, services);
      if attempts[a].phase == Caught {
        var refused := Recover(a, services);
        if refused.Some? { NotDue(View(), a, Created(a)); return refused.value; }
      } else {
        NotDue(View(), a, Read(a, services.rereads));
      }
      StartConversion(a);
      reply := Receipt;
    }

    /** One attempt that nothing interrupts; the reply is a receipt exactly when the attempt ends with one. */
    method AddSource(a: AttemptId, input: Input, no: nat, services: Services) returns (reply: Reply)
      requires MayBegin(View(), a, input)
      modifies this
      ensures View() == Attempted(old(View()), a, input, no, services)
      ensures a in attempts && attempts[a].phase == Over && (reply == Receipt <==> attempts[a].receipt)
    {
      hide Upload.Step, MayBegin;
      attempts := attempts[a := Attempt(input, if input.replacement then no else 1, Begun, false)];
      Starts(old(View()), a, input, no);
      var early := Keep(a, services);
      if early.Some? {
        NotDue(View(), a, Ran(a, services.commits, services.batchReply));
        NotDue(View(), a, Read(a, services.rereads));
        NotDue(View(), a, Created(a));
        return early.value;
      }
      reply := Record(a, services);
    }
  }

  lemma {:induction false} Starts(l: Library, a: AttemptId, input: Input, no: nat)
    requires MayBegin(l, a, input)
    ensures Upload.Step(l, Began(a, input, no)) == l.(attempts := l.attempts[a := Attempt(input, if input.replacement then no else 1, Begun, false)])
  {
    hide MayBegin;
  }

  predicate Due(phase: Phase, e: Upload.Event) {
    match e
    case Looked(_) => phase == Begun
    case Checked(_) => phase == Cleared
    case Put(_, _, _) => phase == Unique
    case Ran(_, _, _) => phase == Kept
    case Read(_, _) => phase == Caught
    case Created(_) => phase == Creating
    case _ => true
  }

  /** A step that is not due changes nothing. */
  lemma {:induction false} NotDue(l: Library, a: AttemptId, e: Upload.Event)
    requires a in l.attempts && e.a == a && !Due(l.attempts[a].phase, e)
    ensures Upload.Step(l, e) == l
  {
    hide LookUp, CheckDuplicate, PutObject, RunBatch, Recapture, CreateWorkflow;
  }

  function Stowed(l: Library, a: AttemptId, services: Services): Library {
    Upload.Step(Upload.Step(Upload.Step(l, Looked(a)), Checked(a)), Put(a, services.puts, services.putReply))
  }

  function Recorded(l: Library, a: AttemptId, services: Services): Library {
    Upload.Step(Upload.Step(Upload.Step(l, Ran(a, services.commits, services.batchReply)), Read(a, services.rereads)), Created(a))
  }

  /** The steps of one attempt, one after the other. */
  function Attempted(l: Library, a: AttemptId, input: Input, no: nat, services: Services): Library {
    Recorded(Stowed(Upload.Step(l, Began(a, input, no)), a, services), a, services)
  }

  /** An id that is stored already: nothing is written, and the receipt says whether the stored row is this file. */
  lemma {:induction false} ReplayWritesNothing(l: Library, a: AttemptId, input: Input, no: nat, services: Services)
    requires MayBegin(l, a, input) && input.given && input.rev in l.captures
    ensures var d := Attempted(l, a, input, no, services);
            && d == l.(attempts := d.attempts) && a in d.attempts && d.attempts[a].phase == Over
            && (d.attempts[a].receipt <==> Same(l.db, l.captures[input.rev], input))
  {
    hide MayBegin, Same, Upload.Step;
    Starts(l, a, input, no);
    var begun := Upload.Step(l, Began(a, input, no));
    Looks(begun, a);
    var d := Upload.Step(begun, Looked(a));
    NotDue(d, a, Checked(a));
    NotDue(d, a, Put(a, services.puts, services.putReply));
    NotDue(d, a, Ran(a, services.commits, services.batchReply));
    NotDue(d, a, Read(a, services.rereads));
    NotDue(d, a, Created(a));
  }

  lemma {:induction false} Looks(l: Library, a: AttemptId)
    requires a in l.attempts && l.attempts[a].phase == Begun && l.attempts[a].input.given && l.attempts[a].input.rev in l.captures
    ensures Upload.Step(l, Looked(a)) == Finish(l, a, Same(l.db, l.captures[l.attempts[a].input.rev], l.attempts[a].input))
  {
    hide Same;
  }

  /** An id that was not chosen when its upload was stored is never adopted: the caller that chooses it later gets a collision. */
  lemma {:induction false} UnchosenIdCollides(l: Library, a: AttemptId, input: Input, no: nat, services: Services)
    requires MayBegin(l, a, input) && input.given && input.rev in l.captures && !l.captures[input.rev].key.chosen
    ensures !Attempted(l, a, input, no, services).attempts[a].receipt
  {
    hide MayBegin, SameFile, Attempted;
    ReplayWritesNothing(l, a, input, no, services);
  }
}
