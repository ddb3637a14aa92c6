/**
 * Publication over the versioned store: the rows that several writers move by conditional batches
 * (src/ingest-completion.ts, src/ocr.ts, src/pages.ts, src/proposals.ts, the batch of addSource in
 * src/library.ts). A batch is atomic; what its caller read earlier is a parameter.
 */
module Publication {
  import opened Text

  type SourceId = nat
  type RevId = nat
  type JobId = nat
  type PageId = nat
  type DraftId = nat
  type Reader = nat

  datatype ReadState = Pending | Readable | ReadableWithWarnings | NeedsConversion | Failed

  datatype Error = StorageFailure | StatusUnavailable | Reported(text: string)

  /** A warning of the conversion, the note that a newer revision is current, or both. */
  datatype Warning = Warning(own: string, superseded: bool)

  datatype Revision = Revision(
    source: SourceId, no: nat, hash: string, job: Option<JobId>,
    state: ReadState, converter: Option<string>, size: Option<nat>, blocks: Option<nat>,
    warning: Option<Warning>, error: Option<Error>, tokens: Option<nat>, calls: nat, ms: Option<nat>)

  datatype Outcome =
    | FailedWith(message: string)
    | Unconverted(reason: string)
    | Converted(converter: string, size: nat, blocks: nat, note: Option<string>)

  /** The stored result of a conversion. */
  datatype Stored = Stored(outcome: Outcome, tokens: Option<nat>, calls: nat, ms: nat)

  datatype JobState = Preparing | Queued | Running | Ready | Applied | JobFailed | Cancelled

  datatype Job = Job(source: SourceId, base: RevId, baseHead: Option<RevId>, state: JobState, applied: Option<RevId>)

  datatype Page = Page(project: nat, head: Option<DraftId>, current: bool)

  datatype DraftState = Proposed | Accepted | Rejected

  datatype Draft = Draft(page: PageId, status: DraftState, base: Option<DraftId>, inputs: seq<RevId>)

  datatype Db = Db(
    heads: map<SourceId, Option<RevId>>, revisions: map<RevId, Revision>, jobs: map<JobId, Job>,
    pages: map<PageId, Page>, drafts: map<DraftId, Draft>)

  predicate IsReadable(s: ReadState) { s == Readable || s == ReadableWithWarnings }

  // ---------------------------------------------------------------- what a stored result makes of its row

  function StateOf(stored: Stored): ReadState {
    match stored.outcome
    case FailedWith(_) => Failed
    case Unconverted(_) => NeedsConversion
    case Converted(_, _, _, note) => if note.Some? && note.value != "" then ReadableWithWarnings else Readable
  }

  function ErrorOf(stored: Stored): Option<Error> {
    if stored.outcome.FailedWith? then Some(Reported(stored.outcome.message)) else None
  }

  function WarningOf(stored: Stored): Option<Warning> {
    match stored.outcome
    case FailedWith(_) => None
    case Unconverted(reason) => Some(Warning(reason, false))
    case Converted(_, _, _, note) => if note.Some? then Some(Warning(note.value, false)) else None
  }

  function SupersededWarning(stored: Stored): Warning {
    if stored.outcome.Converted? && stored.outcome.note.Some? then Warning(stored.outcome.note.value, true) else Warning("", true)
  }

  /** The row says what the stored result says, up to the note that a newer revision is current. */
  predicate Matches(row: Revision, stored: Stored) {
    && ((row.state == StateOf(stored) && row.warning == WarningOf(stored))
        || (stored.outcome.Converted? && row.state == ReadableWithWarnings && row.warning == Some(SupersededWarning(stored))))
    && row.error == ErrorOf(stored) && row.calls >= stored.calls
    && (stored.tokens == None || row.tokens == stored.tokens) && row.ms == Some(stored.ms)
    && (stored.outcome.Converted? ==>
          row.converter == Some(stored.outcome.converter) && row.size == Some(stored.outcome.size) && row.blocks == Some(stored.outcome.blocks))
  }

  /** A result may still be written into the row. */
  predicate Writable(row: Revision) {
    row.state == Pending || (row.state == Failed && row.error == Some(StorageFailure))
  }

  function Or<T>(a: Option<T>, b: Option<T>): Option<T> { if a.Some? then a else b }

  function Max(a: nat, b: nat): nat { if a >= b then a else b }

  function Completed(row: Revision, stored: Stored): Revision {
    var done := row.(state := StateOf(stored), error := ErrorOf(stored), warning := WarningOf(stored),
                     tokens := Or(row.tokens, stored.tokens), calls := Max(row.calls, stored.calls), ms := Some(stored.ms));
    if stored.outcome.Converted?
    then done.(converter := Some(stored.outcome.converter), size := Some(stored.outcome.size), blocks := Some(stored.outcome.blocks))
    else done
  }

  // ---------------------------------------------------------------- the publication batch

  /** Same revision as the one that was loaded. */
  predicate SameIdentity(row: Revision, loaded: Revision) {
    row.source == loaded.source && row.no == loaded.no && row.hash == loaded.hash
  }

  /** The row carries exactly this result, as the caller computed it from what it had read. */
  predicate TerminalGuard(row: Revision, before: Revision, stored: Stored)
    requires stored.outcome.Converted?
  {
    && row.converter == Some(stored.outcome.converter) && row.size == Some(stored.outcome.size)
    && row.blocks == Some(stored.outcome.blocks) && row.ms == Some(stored.ms) && row.error == None
    && row.tokens == Or(before.tokens, stored.tokens) && row.calls == Max(before.calls, stored.calls)
    && ((row.state == StateOf(stored) && row.warning == WarningOf(stored))
        || (row.state == ReadableWithWarnings && row.warning == Some(SupersededWarning(stored))))
  }

  /** A readable revision of the source with a greater number. */
  predicate NewerReadable(revisions: map<RevId, Revision>, source: SourceId, no: nat) {
    exists r :: r in revisions && revisions[r].source == source && revisions[r].no > no && IsReadable(revisions[r].state)
  }

  predicate HeadGuard(db: Db, rev: RevId, before: Revision, stored: Stored)
    requires stored.outcome.Converted?
  {
    && before.source in db.heads
    && (db.heads[before.source].None? ||
        (var h := db.heads[before.source].value;
         h in db.revisions && db.revisions[h].source == before.source && db.revisions[h].no < before.no))
    && !NewerReadable(db.revisions, before.source, before.no)
    && rev in db.revisions && db.revisions[rev].source == before.source && TerminalGuard(db.revisions[rev], before, stored)
  }

  /** The page shows an accepted draft that cites this revision. */
  predicate ShowsInput(page: Page, drafts: map<DraftId, Draft>, input: RevId) {
    page.head.Some? && page.head.value in drafts
    && drafts[page.head.value].status == Accepted && input in drafts[page.head.value].inputs
  }

  function MarkStale(pages: map<PageId, Page>, drafts: map<DraftId, Draft>, input: Option<RevId>): (marked: map<PageId, Page>)
    ensures marked.Keys == pages.Keys
    ensures forall p :: p in pages ==>
              marked[p] == if input.Some? && ShowsInput(pages[p], drafts, input.value) then pages[p].(current := false) else pages[p]
  {
    map p | p in pages :: if input.Some? && ShowsInput(pages[p], drafts, input.value) then pages[p].(current := false) else pages[p]
  }

  function WriteResult(db: Db, rev: RevId, before: Revision, stored: Stored): Db {
    if rev in db.revisions && SameIdentity(db.revisions[rev], before) && Writable(db.revisions[rev])
    then db.(revisions := db.revisions[rev := Completed(db.revisions[rev], stored)]) else db
  }

  function StaleStep(db: Db, rev: RevId, before: Revision, stored: Stored): Db
    requires stored.outcome.Converted?
  {
    if HeadGuard(db, rev, before, stored) then db.(pages := MarkStale(db.pages, db.drafts, db.heads[before.source])) else db
  }

  function HeadStep(db: Db, rev: RevId, before: Revision, stored: Stored): Db
    requires stored.outcome.Converted?
  {
    if HeadGuard(db, rev, before, stored) then db.(heads := db.heads[before.source := Some(rev)]) else db
  }

  function ConflictStep(db: Db, rev: RevId, before: Revision, stored: Stored): Db
    requires stored.outcome.Converted?
  {
    if rev in db.revisions && db.revisions[rev].source == before.source && TerminalGuard(db.revisions[rev], before, stored)
       && NewerReadable(db.revisions, before.source, before.no)
    then db.(revisions := db.revisions[rev := db.revisions[rev].(state := ReadableWithWarnings, warning := Some(SupersededWarning(stored)))])
    else db
  }

  /** The whole batch of commitRevision; `before` is the row as it was read before the batch. */
  function CommitBatch(db: Db, rev: RevId, before: Revision, stored: Stored): Db {
    var written := WriteResult(db, rev, before, stored);
    if !stored.outcome.Converted? then written
    else ConflictStep(HeadStep(StaleStep(written, rev, before, stored), rev, before, stored), rev, before, stored)
  }

  /** recordStorageFailure: never downgrades a terminal row. */
  function FailureBatch(db: Db, rev: RevId, stored: Option<Stored>): Db {
    if rev in db.revisions && db.revisions[rev].state == Pending then
      var row := db.revisions[rev];
      var tokens := if stored.Some? then stored.value.tokens else None;
      var calls := if stored.Some? then stored.value.calls else 0;
      var ms := if stored.Some? then Some(stored.value.ms) else None;
      db.(revisions := db.revisions[rev := row.(state := Failed, error := Some(StorageFailure),
                                                tokens := Or(row.tokens, tokens), calls := Max(row.calls, calls), ms := Or(row.ms, ms))])
    else db
  }

  /** The notes that status checks leave on a pending row. */
  function StatusNote(db: Db, rev: RevId, error: Option<Error>): Db {
    if rev in db.revisions && db.revisions[rev].state == Pending
    then db.(revisions := db.revisions[rev := db.revisions[rev].(error := error)]) else db
  }

  /** A conversion claims the one paid call before it makes it. */
  function ClaimCall(db: Db, rev: RevId, converter: string): Db {
    if rev in db.revisions && db.revisions[rev].state == Pending && db.revisions[rev].calls == 0
    then db.(revisions := db.revisions[rev := db.revisions[rev].(calls := 1, converter := Some(converter))]) else db
  }

  // ---------------------------------------------------------------- uploads

  function NewRevision(source: SourceId, no: nat, hash: string): Revision {
    Revision(source, no, hash, None, Pending, None, None, None, None, None, None, 0, None)
  }

  /** Another live source holds these bytes. */
  predicate HeldElsewhere(revisions: map<RevId, Revision>, hash: string, source: SourceId) {
    exists r :: r in revisions && revisions[r].hash == hash && revisions[r].source != source
  }

  predicate NumberTaken(revisions: map<RevId, Revision>, source: SourceId, no: nat) {
    exists r :: r in revisions && revisions[r].source == source && revisions[r].no == no
  }

  /** addSource for a new source: the whole batch, or nothing when a key or the duplicate guard refuses it. */
  function NewSourceBatch(db: Db, source: SourceId, rev: RevId, hash: string): Db {
    if source in db.heads || rev in db.revisions || HeldElsewhere(db.revisions, hash, source) then db
    else db.(heads := db.heads[source := None], revisions := db.revisions[rev := NewRevision(source, 1, hash)])
  }

  /** addSource for a replacement; `no` was computed from an earlier read. */
  function ReplaceBatch(db: Db, source: SourceId, rev: RevId, no: nat, hash: string): Db {
    if source !in db.heads || rev in db.revisions || NumberTaken(db.revisions, source, no) || HeldElsewhere(db.revisions, hash, source) then db
    else db.(revisions := db.revisions[rev := NewRevision(source, no, hash)])
  }

  // ---------------------------------------------------------------- OCR jobs

  /** The base has no later revision. */
  predicate Newest(revisions: map<RevId, Revision>, base: RevId) {
    && base in revisions
    && forall r :: r in revisions && revisions[r].source == revisions[base].source ==> revisions[r].no <= revisions[base].no
  }

  function CreateJob(db: Db, job: JobId, base: RevId, baseHead: Option<RevId>): Db {
    if job in db.jobs || base !in db.revisions then db
    else db.(jobs := db.jobs[job := Job(db.revisions[base].source, base, baseHead, Preparing, None)])
  }

  function Active(jobs: map<JobId, Job>): set<JobId> {
    set j | j in jobs && (jobs[j].state == Queued || jobs[j].state == Running)
  }

  function StartJob(db: Db, job: JobId): Db {
    if job in db.jobs && db.jobs[job].state == Preparing && |Active(db.jobs)| < 2
       && db.jobs[job].source in db.heads && db.heads[db.jobs[job].source] == db.jobs[job].baseHead
       && Newest(db.revisions, db.jobs[job].base)
    then db.(jobs := db.jobs[job := db.jobs[job].(state := Queued)]) else db
  }

  /** What the worker and the owner may make of a job, short of applying it. */
  predicate MayMove(from: JobState, to: JobState) {
    || (to == Running && from == Queued)
    || (to == Ready && (from == Queued || from == Running || from == JobFailed))
    || (to == JobFailed && (from == Queued || from == Running || from == JobFailed))
    || (to == Cancelled && (from == Preparing || from == Queued || from == Running || from == Ready))
  }

  function MoveJob(db: Db, job: JobId, to: JobState): Db {
    if job in db.jobs && MayMove(db.jobs[job].state, to) then db.(jobs := db.jobs[job := db.jobs[job].(state := to)]) else db
  }

  /** What the reviewed text adds to the new revision. */
  datatype Reviewed = Reviewed(size: nat, blocks: nat, warning: Option<string>, tokens: Option<nat>, calls: nat, ms: Option<nat>)

  function ReviewedRevision(base: Revision, job: JobId, no: nat, text: Reviewed): Revision {
    Revision(base.source, no, base.hash, Some(job),
             if text.warning.Some? && text.warning.value != "" then ReadableWithWarnings else Readable,
             Some("reviewed_ocr"), Some(text.size), Some(text.blocks),
             if text.warning.Some? then Some(Warning(text.warning.value, false)) else None, None, text.tokens, text.calls, text.ms)
  }

  predicate ApplyGuard(db: Db, job: JobId) {
    && job in db.jobs && db.jobs[job].state == Ready
    && db.jobs[job].source in db.heads && db.heads[db.jobs[job].source] == db.jobs[job].baseHead
    && Newest(db.revisions, db.jobs[job].base) && db.revisions[db.jobs[job].base].source == db.jobs[job].source
  }

  function InsertReviewed(db: Db, job: JobId, rev: RevId, text: Reviewed): Db {
    if rev !in db.revisions && ApplyGuard(db, job)
    then var base := db.revisions[db.jobs[job].base];
         db.(revisions := db.revisions[rev := ReviewedRevision(base, job, base.no + 1, text)])
    else db
  }

  /** The head moves only when the new revision is really there. */
  function MoveHead(db: Db, job: JobId, rev: RevId): Db
    requires job in db.jobs
  {
    var j := db.jobs[job];
    if j.source in db.heads && db.heads[j.source] == j.baseHead && rev in db.revisions
    then db.(heads := db.heads[j.source := Some(rev)]) else db
  }

  function CloseJob(db: Db, job: JobId, rev: RevId): Db
    requires job in db.jobs
  {
    var j := db.jobs[job];
    if j.state == Ready && j.source in db.heads && db.heads[j.source] == Some(rev)
    then db.(jobs := db.jobs[job := j.(state := Applied, applied := Some(rev))]) else db
  }

  function StaleAfterApply(db: Db, job: JobId, rev: RevId): Db
    requires job in db.jobs
  {
    var j := db.jobs[job];
    if j.applied == Some(rev)
    then db.(pages := MarkStale(db.pages, db.drafts, Some(if j.baseHead.Some? then j.baseHead.value else j.base))) else db
  }

  /** The batch of applyOcrJob; `rev` is a new random id. */
  function ApplyBatch(db: Db, job: JobId, rev: RevId, text: Reviewed): Db {
    if job !in db.jobs || rev in db.revisions then db
    else StaleAfterApply(CloseJob(MoveHead(InsertReviewed(db, job, rev, text), job, rev), job, rev), job, rev)
  }

  // ---------------------------------------------------------------- pages and proposals

  /** Every input is readable and the current head of its source. */
  predicate FreshInputs(heads: map<SourceId, Option<RevId>>, revisions: map<RevId, Revision>, inputs: seq<RevId>) {
    forall k :: 0 <= k < |inputs| ==>
      && inputs[k] in revisions && IsReadable(revisions[inputs[k]].state)
      && revisions[inputs[k]].source in heads && heads[revisions[inputs[k]].source] == Some(inputs[k])
  }

  /** saveAnswer: the page, its first accepted draft and the head, in one batch. */
  function SaveBatch(db: Db, page: PageId, draft: DraftId, project: nat, inputs: seq<RevId>): Db {
    if page in db.pages || draft in db.drafts then db
    else db.(pages := db.pages[page := Page(project, Some(draft), FreshInputs(db.heads, db.revisions, inputs))],
             drafts := db.drafts[draft := Draft(page, Accepted, None, inputs)])
  }

  function ProposeNewBatch(db: Db, page: PageId, draft: DraftId, project: nat, inputs: seq<RevId>): Db {
    if page in db.pages || draft in db.drafts then db
    else db.(pages := db.pages[page := Page(project, None, true)], drafts := db.drafts[draft := Draft(page, Proposed, None, inputs)])
  }

  /** A proposal for a page that exists; `base` is a head that was read earlier. */
  function ProposeBatch(db: Db, page: PageId, draft: DraftId, base: Option<DraftId>, inputs: seq<RevId>): Db {
    if page !in db.pages || draft in db.drafts then db
    else db.(drafts := db.drafts[draft := Draft(page, Proposed, base, inputs)])
  }

  function RejectUpdate(db: Db, draft: DraftId): Db {
    if draft in db.drafts && db.drafts[draft].status == Proposed
    then db.(drafts := db.drafts[draft := db.drafts[draft].(status := Rejected)]) else db
  }

  function AcceptDraft(db: Db, draft: DraftId, project: nat, expected: Option<DraftId>): Db {
    if draft in db.drafts && db.drafts[draft].status == Proposed && db.drafts[draft].base == expected
       && db.drafts[draft].page in db.pages && db.pages[db.drafts[draft].page].project == project
       && db.pages[db.drafts[draft].page].head == expected
    then db.(drafts := db.drafts[draft := db.drafts[draft].(status := Accepted)]) else db
  }

  function MovePageHead(db: Db, page: PageId, draft: DraftId, project: nat, expected: Option<DraftId>): Db {
    if page in db.pages && db.pages[page].project == project && db.pages[page].head == expected
       && draft in db.drafts && db.drafts[draft].page == page && db.drafts[draft].status == Accepted && db.drafts[draft].base == expected
    then db.(pages := db.pages[page := db.pages[page].(head := Some(draft), current := FreshInputs(db.heads, db.revisions, db.drafts[draft].inputs))])
    else db
  }

  /** The two statements that accept a proposal; a proposal's page never changes after it was read. */
  function AcceptBatch(db: Db, draft: DraftId, project: nat, expected: Option<DraftId>): Db {
    if draft !in db.drafts then db
    else MovePageHead(AcceptDraft(db, draft, project, expected), db.drafts[draft].page, draft, project, expected)
  }

  // ---------------------------------------------------------------- the world and its events

  /** A commit that has read its row and has not run its batch yet. */
  datatype Reading = Reading(rev: RevId, row: Revision)

  datatype World = World(db: Db, results: map<RevId, Stored>, readings: map<Reader, Reading>)

  datatype Event =
    | NewSource(source: SourceId, rev: RevId, hash: string)
    | Replace(source: SourceId, rev: RevId, no: nat, hash: string)
    | Claim(rev: RevId, converter: string)
    | Convert(rev: RevId, stored: Stored)
    | ReadRow(reader: Reader, rev: RevId)
    | Commit(reader: Reader)
    | RecordFailure(rev: RevId, withResult: bool)
    | Note(rev: RevId, error: Option<Error>)
    | NewJob(job: JobId, from: RevId, baseHead: Option<RevId>)
    | Start(job: JobId)
    | Shift(job: JobId, to: JobState)
    | Apply(job: JobId, rev: RevId, text: Reviewed)
    | SaveAnswer(page: PageId, draft: DraftId, project: nat, inputs: seq<RevId>)
    | ProposeNew(page: PageId, draft: DraftId, project: nat, inputs: seq<RevId>)
    | Propose(page: PageId, draft: DraftId, base: Option<DraftId>, inputs: seq<RevId>)
    | Reject(draft: DraftId)
    | Accept(draft: DraftId, project: nat, expected: Option<DraftId>)

  /** A commit goes on only with a row that may take the result or already carries it. */
  predicate MayCommit(row: Revision, stored: Stored) { Writable(row) || Matches(row, stored) }

  function Step(w: World, e: Event): World {
    match e
    case NewSource(source, rev, hash) => w.(db := NewSourceBatch(w.db, source, rev, hash))
    case Replace(source, rev, no, hash) => w.(db := ReplaceBatch(w.db, source, rev, no, hash))
    case Claim(rev, converter) => if rev in w.results then w else w.(db := ClaimCall(w.db, rev, converter))
    case Convert(rev, stored) =>
      if rev in w.results || rev !in w.db.revisions || w.db.revisions[rev].job.Some? then w else w.(results := w.results[rev := stored])
    case ReadRow(reader, rev) =>
      if reader in w.readings || rev !in w.db.revisions || rev !in w.results || !MayCommit(w.db.revisions[rev], w.results[rev]) then w
      else w.(readings := w.readings[reader := Reading(rev, w.db.revisions[rev])])
    case Commit(reader) =>
      if reader !in w.readings || w.readings[reader].rev !in w.results then w
      else
        var g := w.readings[reader];
        w.(db := CommitBatch(w.db, g.rev, g.row, w.results[g.rev]))
    case RecordFailure(rev, withResult) =>
      w.(db := FailureBatch(w.db, rev, if withResult && rev in w.results then Some(w.results[rev]) else None))
    case Note(rev, error) => if error == Some(StatusUnavailable) || error == None then w.(db := StatusNote(w.db, rev, error)) else w
    case NewJob(job, base, baseHead) => w.(db := CreateJob(w.db, job, base, baseHead))
    case Start(job) => w.(db := StartJob(w.db, job))
    case Shift(job, to) => w.(db := MoveJob(w.db, job, to))
    case Apply(job, rev, text) => w.(db := ApplyBatch(w.db, job, rev, text))
    case SaveAnswer(page, draft, project, inputs) => w.(db := SaveBatch(w.db, page, draft, project, inputs))
    case ProposeNew(page, draft, project, inputs) => w.(db := ProposeNewBatch(w.db, page, draft, project, inputs))
    case Propose(page, draft, base, inputs) => w.(db := ProposeBatch(w.db, page, draft, base, inputs))
    case Reject(draft) => w.(db := RejectUpdate(w.db, draft))
    case Accept(draft, project, expected) => w.(db := AcceptBatch(w.db, draft, project, expected))
  }

  function NewWorld(): World { World(Db(map[], map[], map[], map[], map[]), map[], map[]) }

  /** The world after a sequence of events. */
  function Reached(events: seq<Event>): World {
    if events == [] then NewWorld() else Step(Reached(events[..|events| - 1]), events[|events| - 1])
  }
}
