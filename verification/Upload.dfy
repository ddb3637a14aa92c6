/**
 * Uploads of originals (addSource in src/library.ts): each attempt reads, stores its object under a key of
 * its own, runs one conditional batch, and creates the conversion workflow; attempts interleave freely
 * and any reply can be lost.
 */
module Upload {
  import opened Publication

  type AttemptId = nat

  /** `given` says whether the caller chose the revision id; otherwise it is random, as is a new source's id. */
  datatype Input = Input(source: SourceId, replacement: bool, rev: RevId, given: bool, hash: string, size: nat, filename: string, mime: string)

  /** Every attempt writes under a key that no other attempt writes; the key shows whether the caller chose the id. */
  datatype Key = Key(rev: RevId, owner: AttemptId, chosen: bool)

  datatype Capture = Capture(key: Key, size: nat, filename: string, mime: string)

  datatype Phase = Begun | Cleared | Unique | Kept | Caught | Creating | Over

  /** `receipt` says that the caller was told that its revision is stored. */
  datatype Attempt = Attempt(input: Input, no: nat, phase: Phase, receipt: bool)

  datatype Library = Library(
    db: Db, captures: map<RevId, Capture>, objects: set<Key>, created: multiset<RevId>, attempts: map<AttemptId, Attempt>)

  function OwnKey(a: AttemptId, t: Attempt): Key { Key(t.input.rev, a, t.input.given) }

  /** The stored row is this very file. */
  predicate SameFile(db: Db, c: Capture, input: Input) {
    && input.rev in db.revisions && db.revisions[input.rev].source == input.source && db.revisions[input.rev].hash == input.hash
    && c.size == input.size && c.filename == input.filename && c.mime == input.mime && c.key.rev == input.rev
  }

  /** The stored row is this very file replacement: its key is one of a chosen id. */
  predicate Same(db: Db, c: Capture, input: Input) { SameFile(db, c, input) && c.key.chosen }

  function Goto(l: Library, a: AttemptId, phase: Phase): Library
    requires a in l.attempts
  {
    l.(attempts := l.attempts[a := l.attempts[a].(phase := phase)])
  }

  function Finish(l: Library, a: AttemptId, receipt: bool): Library
    requires a in l.attempts
  {
    l.(attempts := l.attempts[a := l.attempts[a].(phase := Over, receipt := receipt)])
  }

  predicate IsStored(l: Library, input: Input) { input.rev in l.captures && SameFile(l.db, l.captures[input.rev], input) }

  /** A random id is new, and no caller can choose it before its row is stored, unless its upload has ended. */
  predicate MayBegin(l: Library, a: AttemptId, input: Input) {
    && a !in l.attempts && (input.given ==> input.replacement)
    && (!input.given ==> input.rev !in l.captures)
    && forall b :: b in l.attempts && l.attempts[b].input.rev == input.rev ==>
         input.given && (l.attempts[b].input.given || l.attempts[b].phase == Over || input.rev in l.captures)
  }

  /** A new attempt; for a replacement `no` comes from reading the attached source. */
  function Begin(l: Library, a: AttemptId, input: Input, no: nat): Library {
    if MayBegin(l, a, input) then l.(attempts := l.attempts[a := Attempt(input, if input.replacement then no else 1, Begun, false)]) else l
  }

  /** A chosen id that is stored already is answered without writing anything. */
  function LookUp(l: Library, a: AttemptId): Library
    requires a in l.attempts
  {
    var t := l.attempts[a];
    if t.input.given && t.input.rev in l.captures then Finish(l, a, Same(l.db, l.captures[t.input.rev], t.input)) else Goto(l, a, Cleared)
  }

  function CheckDuplicate(l: Library, a: AttemptId): Library
    requires a in l.attempts
  {
    var t := l.attempts[a];
    if HeldElsewhere(l.db.revisions, t.input.hash, t.input.source) then Goto(l, a, Over) else Goto(l, a, Unique)
  }

  /** The object is put; when the put fails or its reply is lost the request ends. */
  function PutObject(l: Library, a: AttemptId, stored: bool, acknowledged: bool): Library
    requires a in l.attempts
  {
    var put := if stored then l.(objects := l.objects + {OwnKey(a, l.attempts[a])}) else l;
    Goto(put, a, if stored && acknowledged then Kept else Over)
  }

  function Insert(db: Db, t: Attempt): Db {
    if t.input.replacement then ReplaceBatch(db, t.input.source, t.input.rev, t.no, t.input.hash)
    else NewSourceBatch(db, t.input.source, t.input.rev, t.input.hash)
  }

  /** The batch; a missing change or a missing reply leads to the recovery branch. */
  function RunBatch(l: Library, a: AttemptId, committed: bool, acknowledged: bool): Library
    requires a in l.attempts
  {
    var t := l.attempts[a];
    var db := Insert(l.db, t);
    if committed && t.input.rev !in l.db.revisions && t.input.rev in db.revisions then
      Goto(l.(db := db, captures := l.captures[t.input.rev := Capture(OwnKey(a, t), t.input.size, t.input.filename, t.input.mime)]),
           a, if acknowledged then Creating else Caught)
    else Goto(l, a, Caught)
  }

  /** The recovery branch: the stored key says whose upload won; only an object that lost is deleted. */
  function Recapture(l: Library, a: AttemptId, answers: bool): Library
    requires a in l.attempts
  {
    var t := l.attempts[a];
    var own := OwnKey(a, t);
    if !answers then Goto(l, a, Over)
    else if t.input.rev !in l.captures then Goto(l.(objects := l.objects - {own}), a, Over)
    else
      var c := l.captures[t.input.rev];
      if !t.input.given then Goto(l, a, Creating)
      else if c.key != own then Finish(l.(objects := l.objects - {own}), a, Same(l.db, c, t.input))
      else if !Same(l.db, c, t.input) then Goto(l, a, Over)
      else Goto(l, a, Creating)
  }

  /** The workflow of the revision is created; whatever the reply, it is not asked for again. */
  function CreateWorkflow(l: Library, a: AttemptId): Library
    requires a in l.attempts
  {
    Finish(l.(created := l.created + multiset{l.attempts[a].input.rev}), a, true)
  }

  datatype Event =
    | Began(a: AttemptId, input: Input, no: nat)
    | Looked(a: AttemptId)
    | Checked(a: AttemptId)
    | Put(a: AttemptId, stored: bool, acknowledged: bool)
    | Ran(a: AttemptId, committed: bool, acknowledged: bool)
    | Read(a: AttemptId, answers: bool)
    | Created(a: AttemptId)
    | GaveUp(a: AttemptId)

  function Step(l: Library, e: Event): Library {
    if e.Began? then Begin(l, e.a, e.input, e.no)
    else if e.a !in l.attempts then l
    else
      var phase := l.attempts[e.a].phase;
      match e
      case Looked(a) => if phase == Begun then LookUp(l, a) else l
      case Checked(a) => if phase == Cleared then CheckDuplicate(l, a) else l
      case Put(a, stored, acknowledged) => if phase == Unique then PutObject(l, a, stored, acknowledged) else l
      case Ran(a, committed, acknowledged) => if phase == Kept then RunBatch(l, a, committed, acknowledged) else l
      case Read(a, answers) => if phase == Caught then Recapture(l, a, answers) else l
      case Created(a) => if phase == Creating then CreateWorkflow(l, a) else l
      case GaveUp(a) => Goto(l, a, Over)
  }

  function NewLibrary(): Library { Library(NewWorld().db, map[], {}, multiset{}, map[]) }

  function Uploaded(events: seq<Event>): Library {
    if events == [] then NewLibrary() else Step(Uploaded(events[..|events| - 1]), events[|events| - 1])
  }

  // ---------------------------------------------------------------- invariant

  /** The row of a revision belongs to one attempt, and the workflow was asked for at most by that one. */
  predicate RowOk(l: Library, rev: RevId) {
    if rev in l.captures then
      var key := l.captures[rev].key;
      && rev in l.db.revisions && key in l.objects && key.rev == rev
      && key.owner in l.attempts && SameFile(l.db, l.captures[rev], l.attempts[key.owner].input) && l.attempts[key.owner].input.rev == rev && l.attempts[key.owner].phase in {Caught, Creating, Over}
      && l.created[rev] <= 1 && (l.created[rev] == 1 ==> l.attempts[key.owner].phase == Over)
    else rev !in l.db.revisions && l.created[rev] == 0
  }

  predicate AttemptOk(l: Library, a: AttemptId) {
    a in l.attempts ==>
      var t := l.attempts[a];
      && (t.receipt ==> t.phase == Over && IsStored(l, t.input))
      && (t.phase == Kept ==> OwnKey(a, t) in l.objects)
      && (t.phase == Creating ==> t.input.rev in l.captures && l.captures[t.input.rev].key == OwnKey(a, t))
      && (t.phase != Over && !t.input.given && t.input.rev in l.captures ==> l.captures[t.input.rev].key == OwnKey(a, t))
  }

  predicate Borrowed(t: Attempt, u: Attempt) { t.input.rev == u.input.rev && !t.input.given }

  /** An id that no caller chose belongs to one attempt until that attempt is over or its row is stored. */
  ghost predicate OwnIds(l: Library) {
    forall a, b :: a in l.attempts && b in l.attempts && a != b && Borrowed(l.attempts[a], l.attempts[b]) ==>
      l.attempts[a].phase == Over || l.attempts[a].input.rev in l.captures
  }

  ghost predicate Inv(l: Library) {
    OwnIds(l) && (forall rev: RevId :: RowOk(l, rev)) && (forall a: AttemptId :: AttemptOk(l, a))
  }

  lemma Use(l: Library, rev: RevId, a: AttemptId)
    requires Inv(l)
    ensures RowOk(l, rev) && AttemptOk(l, a)
  {
  }

  lemma BeginKeeps(l: Library, a: AttemptId, input: Input, no: nat)
    requires Inv(l)
    ensures Inv(Begin(l, a, input, no))
  {
    hide OwnIds;
    var d := Begin(l, a, input, no);
    forall rev: RevId ensures RowOk(d, rev) { Use(l, rev, a); }
    forall b: AttemptId ensures AttemptOk(d, b) { Use(l, input.rev, b); }
    BeginOwn(l, a, input, no);
  }

  lemma BeginOwn(l: Library, a: AttemptId, input: Input, no: nat)
    requires OwnIds(l)
    ensures OwnIds(Begin(l, a, input, no))
  {
  }

  lemma GotoOwn(l: Library, a: AttemptId, phase: Phase)
    requires OwnIds(l) && a in l.attempts && l.attempts[a].phase != Over
    ensures OwnIds(Goto(l, a, phase))
  {
  }

  lemma GotoKeeps(l: Library, a: AttemptId, phase: Phase)
    requires Inv(l) && a in l.attempts && l.attempts[a].phase != Over
    requires phase == Over || (phase in {Cleared, Unique} && l.attempts[a].phase in {Begun, Cleared})
             || (phase == Caught && l.attempts[a].phase == Kept)
             || (phase == Kept && l.attempts[a].phase == Unique && OwnKey(a, l.attempts[a]) in l.objects)
             || (phase == Creating && l.attempts[a].phase == Caught && l.attempts[a].input.rev in l.captures
                 && l.captures[l.attempts[a].input.rev].key == OwnKey(a, l.attempts[a]))
    ensures Inv(Goto(l, a, phase))
  {
    hide OwnIds;
    var d := Goto(l, a, phase);
    GotoOwn(l, a, phase);
    forall rev: RevId ensures RowOk(d, rev) { Use(l, rev, a); }
    forall b: AttemptId ensures AttemptOk(d, b) { Use(l, l.attempts[a].input.rev, b); }
  }

  lemma {:induction false} FinishOwn(l: Library, a: AttemptId, receipt: bool)
    requires OwnIds(l) && a in l.attempts
    ensures OwnIds(Finish(l, a, receipt))
  {
  }

  lemma {:induction false} FinishKeeps(l: Library, a: AttemptId, receipt: bool)
    requires Inv(l) && a in l.attempts && l.attempts[a].phase != Over && (receipt ==> IsStored(l, l.attempts[a].input))
    ensures Inv(Finish(l, a, receipt))
  {
    hide OwnIds, SameFile;
    var d := Finish(l, a, receipt);
    FinishOwn(l, a, receipt);
    forall rev: RevId ensures RowOk(d, rev) { Use(l, rev, a); }
    forall b: AttemptId ensures AttemptOk(d, b) { Use(l, l.attempts[a].input.rev, b); }
  }

  lemma {:induction false} LookUpKeeps(l: Library, a: AttemptId)
    requires Inv(l) && a in l.attempts && l.attempts[a].phase == Begun
    ensures l.attempts[a].input.rev in l.captures ==>
              Inv(Finish(l, a, Same(l.db, l.captures[l.attempts[a].input.rev], l.attempts[a].input)))
    ensures Inv(Goto(l, a, Cleared))
  {
    hide Inv, SameFile;
    GotoKeeps(l, a, Cleared);
    if l.attempts[a].input.rev in l.captures {
      FinishKeeps(l, a, Same(l.db, l.captures[l.attempts[a].input.rev], l.attempts[a].input));
    }
  }

  lemma PutKeeps(l: Library, a: AttemptId, stored: bool, acknowledged: bool)
    requires Inv(l) && a in l.attempts && l.attempts[a].phase == Unique
    ensures Inv(PutObject(l, a, stored, acknowledged))
  {
    hide OwnIds;
    var put := if stored then l.(objects := l.objects + {OwnKey(a, l.attempts[a])}) else l;
    forall rev: RevId ensures RowOk(put, rev) { Use(l, rev, a); }
    forall b: AttemptId ensures AttemptOk(put, b) { Use(l, 0, b); }
    assert OwnIds(put) by { SameOwn(l, put); }
    GotoKeeps(put, a, if stored && acknowledged then Kept else Over);
  }

  lemma SameOwn(l: Library, d: Library)
    requires OwnIds(l) && d.attempts == l.attempts && l.captures.Keys <= d.captures.Keys
    ensures OwnIds(d)
  {
  }

  /** The object that lost is deleted: no row points to it, and no later batch can make one. */
  lemma DropKeeps(l: Library, a: AttemptId)
    requires Inv(l) && a in l.attempts && l.attempts[a].phase == Caught
    requires l.attempts[a].input.rev in l.captures ==> l.captures[l.attempts[a].input.rev].key != OwnKey(a, l.attempts[a])
    ensures Inv(l.(objects := l.objects - {OwnKey(a, l.attempts[a])}))
  {
    hide OwnIds;
    var t := l.attempts[a];
    var d := l.(objects := l.objects - {OwnKey(a, t)});
    forall rev: RevId ensures RowOk(d, rev) { Use(l, rev, a); }
    forall b: AttemptId ensures AttemptOk(d, b) { Use(l, 0, b); Use(l, 0, a); }
    assert OwnIds(d) by { SameOwn(l, d); }
  }

  lemma RecaptureKeeps(l: Library, a: AttemptId, answers: bool)
    requires Inv(l) && a in l.attempts && l.attempts[a].phase == Caught
    ensures Inv(Recapture(l, a, answers))
  {
    hide Inv;
    var t := l.attempts[a];
    Use(l, t.input.rev, a);
    if !answers { GotoKeeps(l, a, Over); }
    else if t.input.rev !in l.captures {
      DropKeeps(l, a);
      GotoKeeps(l.(objects := l.objects - {OwnKey(a, t)}), a, Over);
    }
    else if t.input.given && l.captures[t.input.rev].key != OwnKey(a, t) {
      DropKeeps(l, a);
      FinishKeeps(l.(objects := l.objects - {OwnKey(a, t)}), a, Same(l.db, l.captures[t.input.rev], t.input));
    }
    else if t.input.given && !Same(l.db, l.captures[t.input.rev], t.input) { GotoKeeps(l, a, Over); }
    else { GotoKeeps(l, a, Creating); }
  }

  lemma InsertOne(db: Db, t: Attempt)
    ensures var d := Insert(db, t);
            d.revisions == db.revisions
            || (t.input.rev !in db.revisions && t.input.rev in d.revisions && d.revisions == db.revisions[t.input.rev := d.revisions[t.input.rev]]
                && d.revisions[t.input.rev].source == t.input.source && d.revisions[t.input.rev].hash == t.input.hash)
  {
  }

  lemma BatchKeeps(l: Library, a: AttemptId, committed: bool, acknowledged: bool)
    requires Inv(l) && a in l.attempts && l.attempts[a].phase == Kept
    ensures Inv(RunBatch(l, a, committed, acknowledged))
  {
    hide OwnIds, Insert;
    var t := l.attempts[a];
    var rev := t.input.rev;
    var db := Insert(l.db, t);
    InsertOne(l.db, t);
    Use(l, rev, a);
    if committed && rev !in l.db.revisions && rev in db.revisions {
      var d := RunBatch(l, a, committed, acknowledged);
      assert rev !in l.captures;
      forall r: RevId ensures RowOk(d, r) { Use(l, r, a); }
      forall b: AttemptId ensures AttemptOk(d, b) {
        Use(l, rev, b);
        if b != a && b in l.attempts && l.attempts[b].input.rev == rev { BatchOther(l, a, b); }
      }
      GotoOwn(l, a, if acknowledged then Creating else Caught);
      SameOwn(Goto(l, a, if acknowledged then Creating else Caught), d);
    } else {
      GotoKeeps(l, a, Caught);
    }
  }

  lemma BatchOther(l: Library, a: AttemptId, b: AttemptId)
    requires OwnIds(l) && a in l.attempts && b in l.attempts && a != b && l.attempts[a].input.rev == l.attempts[b].input.rev
    ensures !l.attempts[b].input.given ==> l.attempts[b].phase == Over || l.attempts[b].input.rev in l.captures
  {
  }

  lemma CreateKeeps(l: Library, a: AttemptId)
    requires Inv(l) && a in l.attempts && l.attempts[a].phase == Creating
    ensures Inv(CreateWorkflow(l, a))
  {
    hide OwnIds;
    var d := CreateWorkflow(l, a);
    Use(l, l.attempts[a].input.rev, a);
    forall r: RevId ensures RowOk(d, r) { Use(l, r, a); }
    forall b: AttemptId ensures AttemptOk(d, b) { Use(l, l.attempts[a].input.rev, b); }
    FinishOwn(l, a, true);
    SameOwn(Finish(l, a, true), d);
  }

  lemma StepKeeps(l: Library, e: Event)
    requires Inv(l)
    ensures Inv(Step(l, e))
  {
    hide Inv, Begin, PutObject, RunBatch, Recapture, CreateWorkflow;
    if e.Began? {
      BeginKeeps(l, e.a, e.input, e.no);
    } else if e.a in l.attempts {
      match e {
        case Looked(a) => if l.attempts[a].phase == Begun { LookUpKeeps(l, a); }
        case Checked(a) => if l.attempts[a].phase == Cleared { GotoKeeps(l, a, Over); GotoKeeps(l, a, Unique); }
        case Put(a, stored, acknowledged) => if l.attempts[a].phase == Unique { PutKeeps(l, a, stored, acknowledged); }
        case Ran(a, committed, acknowledged) => if l.attempts[a].phase == Kept { BatchKeeps(l, a, committed, acknowledged); }
        case Read(a, answers) => if l.attempts[a].phase == Caught { RecaptureKeeps(l, a, answers); }
        case Created(a) => if l.attempts[a].phase == Creating { CreateKeeps(l, a); }
        case GaveUp(a) => if l.attempts[a].phase != Over { GotoKeeps(l, a, Over); } else { assert Goto(l, a, Over) == l; }
      }
    }
  }

  lemma {:induction false} UploadedIsGood(events: seq<Event>)
    ensures Inv(Uploaded(events))
    decreases |events|
  {
    hide Inv, Step;
    if events == [] {
      NewIsGood();
    } else {
      UploadedIsGood(events[..|events| - 1]);
      StepKeeps(Uploaded(events[..|events| - 1]), events[|events| - 1]);
    }
  }

  lemma NewIsGood()
    ensures Inv(NewLibrary())
  {
  }

  // ---------------------------------------------------------------- what uploads promise

  /** However uploads race, are replayed or lose replies, the workflow of a revision is created at most once, and only for a stored revision. */
  lemma {:induction false} OneWorkflowPerRevision(events: seq<Event>, rev: RevId)
    ensures Uploaded(events).created[rev] <= 1
    ensures Uploaded(events).created[rev] == 1 ==> rev in Uploaded(events).db.revisions
  {
    hide Uploaded;
    UploadedIsGood(events);
    Use(Uploaded(events), rev, 0);
  }

  /** A caller that was given a receipt finds its file stored under its revision id, after any number of later steps. */
  lemma {:induction false} ReceiptIsStored(events: seq<Event>, a: AttemptId)
    requires a in Uploaded(events).attempts && Uploaded(events).attempts[a].receipt
    ensures IsStored(Uploaded(events), Uploaded(events).attempts[a].input)
  {
    hide Uploaded, IsStored;
    UploadedIsGood(events);
    Use(Uploaded(events), 0, a);
  }

  /** The object that a stored revision points to is there: it was stored before the row and is never deleted. */
  lemma {:induction false} StoredObjectStays(events: seq<Event>, rev: RevId)
    requires rev in Uploaded(events).db.revisions
    ensures rev in Uploaded(events).captures && Uploaded(events).captures[rev].key in Uploaded(events).objects
  {
    hide Uploaded;
    UploadedIsGood(events);
    Use(Uploaded(events), rev, 0);
  }

  /** No two sources ever hold an original with the same bytes. */
  lemma {:induction false} OriginalsAreUnshared(events: seq<Event>)
    ensures forall r, q :: r in Uploaded(events).db.revisions && q in Uploaded(events).db.revisions
                           && Uploaded(events).db.revisions[r].hash == Uploaded(events).db.revisions[q].hash
                           ==> Uploaded(events).db.revisions[r].source == Uploaded(events).db.revisions[q].source
    decreases |events|
  {
    hide Step;
    if events != [] {
      var n := |events| - 1;
      OriginalsAreUnshared(events[..n]);
      StepUnshared(Uploaded(events[..n]), events[n]);
    }
  }

  lemma StepUnshared(l: Library, e: Event)
    requires Unshared(l.db)
    ensures Unshared(Step(l, e).db)
  {
    hide Insert, HeldElsewhere, Same, SameFile, Unshared;
    if e.a in l.attempts { InsertUnshared(l.db, l.attempts[e.a]); }
  }

  ghost predicate Unshared(db: Db) {
    forall r, q :: r in db.revisions && q in db.revisions && db.revisions[r].hash == db.revisions[q].hash ==> db.revisions[r].source == db.revisions[q].source
  }

  lemma InsertUnshared(db: Db, t: Attempt)
    requires Unshared(db)
    ensures Unshared(Insert(db, t))
  {
  }
}
