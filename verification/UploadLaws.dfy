/** What one undisturbed upload does, spelled out over the stores (addSource in src/library.ts). */
module UploadLaws {
  import opened Text
  import opened Publication
  import opened PublicationEffects
  import opened Upload
  import opened UploadStore

  /** The stored row and its capture are this very file. */
  predicate HoldsFile(l: Library, input: Input) {
    && input.rev in l.captures && input.rev in l.db.revisions
    && l.db.revisions[input.rev].source == input.source && l.db.revisions[input.rev].hash == input.hash
    && l.captures[input.rev].size == input.size && l.captures[input.rev].filename == input.filename && l.captures[input.rev].mime == input.mime
  }

  /** Whoever was given a receipt finds its file under its revision id. */
  lemma {:induction false} ReceiptHoldsFile(events: seq<Upload.Event>, a: AttemptId)
    requires a in Upload.Uploaded(events).attempts && Upload.Uploaded(events).attempts[a].receipt
    ensures HoldsFile(Upload.Uploaded(events), Upload.Uploaded(events).attempts[a].input)
  {
    hide Upload.Uploaded;
    ReceiptIsStored(events, a);
  }

  /** The ids and the number of the upload are free, and its source is there exactly when it is replaced. */
  predicate Addable(db: Db, input: Input, no: nat) {
    && input.rev !in db.revisions
    && if input.replacement then input.source in db.heads && forall r :: r in db.revisions && db.revisions[r].source == input.source ==> db.revisions[r].no != no
       else input.source !in db.heads
  }

  /** The rows with the upload's own. */
  function WithRow(db: Db, input: Input, no: nat): Db {
    if input.replacement then db.(revisions := db.revisions[input.rev := PublicationEffects.Uploaded(input.source, no, input.hash)])
    else db.(heads := db.heads[input.source := None],
             revisions := db.revisions[input.rev := PublicationEffects.Uploaded(input.source, 1, input.hash)])
  }

  function KeyFor(a: AttemptId, input: Input): Key { Key(input.rev, a, input.given) }

  /** The attempt ended, with or without a receipt. */
  predicate Ended(d: Library, a: AttemptId, receipt: bool) { a in d.attempts && d.attempts[a].phase == Over && d.attempts[a].receipt == receipt }

  /**
   * An attempt that no other one disturbs. A chosen id that is stored is answered from its row. Bytes that another source
   * holds end the attempt before anything is stored. Then the object is put, and the batch adds the rows exactly when it
   * commits and they can be added. Once the rows are known to be there the workflow is created and the receipt given;
   * when they are known not to be there the object is deleted; when neither is known the object stays and no receipt is given.
   */
  predicate Follows(l: Library, d: Library, a: AttemptId, input: Input, no: nat, s: Services) {
    if input.given && input.rev in l.captures then
      d == l.(attempts := d.attempts) && Ended(d, a, HoldsFile(l, input) && l.captures[input.rev].key.rev == input.rev && l.captures[input.rev].key.chosen)
    else if Elsewhere(l.db, input.source, input.hash) || !s.puts then d == l.(attempts := d.attempts) && Ended(d, a, false)
    else if !s.putReply then d == l.(attempts := d.attempts, objects := l.objects + {KeyFor(a, input)}) && Ended(d, a, false)
    else if s.commits && Addable(l.db, input, no) then
      && d.db == WithRow(l.db, input, no) && d.objects == l.objects + {KeyFor(a, input)}
      && d.captures == l.captures[input.rev := Capture(KeyFor(a, input), input.size, input.filename, input.mime)]
      && (if s.batchReply || s.rereads then d.created == l.created + multiset{input.rev} && Ended(d, a, true) else d.created == l.created && Ended(d, a, false))
    else
      && d == l.(attempts := d.attempts, objects := if s.rereads then l.objects + {KeyFor(a, input)} - {KeyFor(a, input)} else l.objects + {KeyFor(a, input)})
      && Ended(d, a, false)
  }

  lemma {:induction false} InsertIs(db: Db, t: Attempt)
    requires !Elsewhere(db, t.input.source, t.input.hash) && (!t.input.replacement ==> t.no == 1)
    ensures Insert(db, t) == if Addable(db, t.input, t.no) then WithRow(db, t.input, t.no) else db
  {
  }

  /** What is left of an attempt once its object is put. */
  lemma {:induction false} RecordedIs(l: Library, a: AttemptId, input: Input, no: nat, s: Services)
    requires a in l.attempts && l.attempts[a] == Attempt(input, no, Kept, false) && (!input.replacement ==> no == 1)
    requires !Elsewhere(l.db, input.source, input.hash) && input.rev !in l.captures && KeyFor(a, input) in l.objects
    ensures var d := Recorded(l, a, s);
            if s.commits && Addable(l.db, input, no) then
              && d.db == WithRow(l.db, input, no) && d.objects == l.objects
              && d.captures == l.captures[input.rev := Capture(KeyFor(a, input), input.size, input.filename, input.mime)]
              && (if s.batchReply || s.rereads then d.created == l.created + multiset{input.rev} && Ended(d, a, true) else d.created == l.created && Ended(d, a, false))
            else d == l.(attempts := d.attempts, objects := if s.rereads then l.objects - {KeyFor(a, input)} else l.objects) && Ended(d, a, false)
  {
    hide Insert, Addable, WithRow, Upload.Step, Elsewhere;
    var t := l.attempts[a];
    InsertIs(l.db, t);
    var ran := Upload.Step(l, Ran(a, s.commits, s.batchReply));
    assert ran == RunBatch(l, a, s.commits, s.batchReply) by { StepRan(l, a, s); }
    AddedRow(l.db, input, no);
    var read := Upload.Step(ran, Read(a, s.rereads));
    if ran.attempts[a].phase == Caught { StepRead(ran, a, s); } else { NotDue(ran, a, Read(a, s.rereads)); }
    if read.attempts[a].phase == Creating { StepCreated(read, a); } else { NotDue(read, a, Created(a)); }
  }

  lemma {:induction false} AddedRow(db: Db, input: Input, no: nat)
    ensures Addable(db, input, no) ==> input.rev !in db.revisions
    ensures input.rev in WithRow(db, input, no).revisions && WithRow(db, input, no).revisions[input.rev].source == input.source
            && WithRow(db, input, no).revisions[input.rev].hash == input.hash
  {
  }

  lemma {:induction false} StepRan(l: Library, a: AttemptId, s: Services)
    requires a in l.attempts && l.attempts[a].phase == Kept
    ensures Upload.Step(l, Ran(a, s.commits, s.batchReply)) == RunBatch(l, a, s.commits, s.batchReply)
  {
    hide RunBatch;
  }

  lemma {:induction false} StepRead(l: Library, a: AttemptId, s: Services)
    requires a in l.attempts && l.attempts[a].phase == Caught
    ensures Upload.Step(l, Read(a, s.rereads)) == Recapture(l, a, s.rereads)
  {
    hide Recapture;
  }

  lemma {:induction false} StepCreated(l: Library, a: AttemptId)
    requires a in l.attempts && l.attempts[a].phase == Creating
    ensures Upload.Step(l, Created(a)) == CreateWorkflow(l, a)
  {
    hide CreateWorkflow;
  }

  lemma {:induction false} SameIs(l: Library, input: Input)
    requires input.rev in l.captures
    ensures Same(l.db, l.captures[input.rev], input) <==>
              HoldsFile(l, input) && l.captures[input.rev].key.rev == input.rev && l.captures[input.rev].key.chosen
  {
  }

  /** The attempt up to its object. */
  lemma {:induction false} StowedIs(l: Library, a: AttemptId, input: Input, no: nat, s: Services)
    requires a in l.attempts && l.attempts[a] == Attempt(input, no, Begun, false) && !(input.given && input.rev in l.captures)
    ensures var d := Stowed(l, a, s);
            && a in d.attempts && d.attempts[a].input == input && d.attempts[a].no == no && !d.attempts[a].receipt
            && d == l.(attempts := d.attempts, objects := d.objects)
            && (d.attempts[a].phase == Kept <==> !Elsewhere(l.db, input.source, input.hash) && s.puts && s.putReply)
            && (d.attempts[a].phase == Kept || d.attempts[a].phase == Over)
            && d.objects == if !Elsewhere(l.db, input.source, input.hash) && s.puts then l.objects + {KeyFor(a, input)} else l.objects
  {
    hide HeldElsewhere, Upload.Step, Elsewhere;
    assert HeldElsewhere(l.db.revisions, input.hash, input.source) == Elsewhere(l.db, input.source, input.hash) by { HeldIs(l.db, input); }
    var looked := Upload.Step(l, Looked(a));
    assert looked == Goto(l, a, Cleared) by { StepLooked(l, a); }
    var checked := Upload.Step(looked, Checked(a));
    assert checked == CheckDuplicate(looked, a) by { StepChecked(looked, a); }
    if checked.attempts[a].phase == Unique { StepPut(checked, a, s); } else { NotDue(checked, a, Put(a, s.puts, s.putReply)); }
  }

  lemma {:induction false} HeldIs(db: Db, input: Input)
    ensures HeldElsewhere(db.revisions, input.hash, input.source) == Elsewhere(db, input.source, input.hash)
  {
  }

  lemma {:induction false} StepLooked(l: Library, a: AttemptId)
    requires a in l.attempts && l.attempts[a].phase == Begun && !(l.attempts[a].input.given && l.attempts[a].input.rev in l.captures)
    ensures Upload.Step(l, Looked(a)) == Goto(l, a, Cleared)
  {
    hide Same, Goto;
  }

  lemma {:induction false} StepChecked(l: Library, a: AttemptId)
    requires a in l.attempts && l.attempts[a].phase == Cleared
    ensures Upload.Step(l, Checked(a)) == CheckDuplicate(l, a)
  {
    hide CheckDuplicate;
  }

  lemma {:induction false} StepPut(l: Library, a: AttemptId, s: Services)
    requires a in l.attempts && l.attempts[a].phase == Unique
    ensures Upload.Step(l, Put(a, s.puts, s.putReply)) == PutObject(l, a, s.puts, s.putReply)
  {
    hide PutObject;
  }

  lemma {:induction false} OverRecords(l: Library, a: AttemptId, s: Services)
    requires a in l.attempts && l.attempts[a].phase == Over
    ensures Recorded(l, a, s) == l
  {
    hide Upload.Step;
    NotDue(l, a, Ran(a, s.commits, s.batchReply));
    NotDue(l, a, Read(a, s.rereads));
    NotDue(l, a, Created(a));
  }

  /** Each undisturbed attempt, whatever the services do, follows these rules. */
  lemma {:induction false} AttemptFollows(l: Library, a: AttemptId, input: Input, no: nat, s: Services)
    requires MayBegin(l, a, input)
    ensures Follows(l, Attempted(l, a, input, no, s), a, input, if input.replacement then no else 1, s)
  {
    hide MayBegin, Stowed, Recorded, Elsewhere, Addable, WithRow, HoldsFile, Same;
    if input.given && input.rev in l.captures {
      ReplayWritesNothing(l, a, input, no, s);
      SameIs(l, input);
    } else {
      Starts(l, a, input, no);
      var begun := Upload.Step(l, Began(a, input, no));
      var number := if input.replacement then no else 1;
      StowedIs(begun, a, input, number, s);
      var stowed := Stowed(begun, a, s);
      assert input.rev !in l.captures by { BeginsFree(l, a, input); }
      if stowed.attempts[a].phase == Kept { RecordedIs(stowed, a, input, number, s); } else { OverRecords(stowed, a, s); }
    }
  }

  lemma {:induction false} BeginsFree(l: Library, a: AttemptId, input: Input)
    requires MayBegin(l, a, input) && !(input.given && input.rev in l.captures)
    ensures input.rev !in l.captures
  {
  }
}
