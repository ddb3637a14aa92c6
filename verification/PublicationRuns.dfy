/** Every event of the versioned store keeps its invariant; what that means over whole runs. */
module PublicationRuns {
  import opened Text
  import opened Publication
  import opened PublicationProofs

  // ---------------------------------------------------------------- pending rows

  lemma PendingRow(w: World, rev: RevId, row: Revision)
    requires Inv(w) && rev in w.db.revisions && SameWho(w.db.revisions[rev], row) && w.db.revisions[rev].state == Pending
    requires Writable(row) && !IsReadable(row.state)
    requires row.tokens == w.db.revisions[rev].tokens || (rev in w.results && row.tokens == Or(w.db.revisions[rev].tokens, w.results[rev].tokens))
    requires rev in w.results ==> StillSince(w.db.revisions[rev], row, w.results[rev])
    ensures Inv(w.(db := w.db.(revisions := w.db.revisions[rev := row])))
  {
    hide Numbered, HeadsOk, Unshared, JobsOk, PagesOk, Chained, ReadingsOk, Matches;
    assert RowOk(w.db.revisions[rev], ResultOf(w.results, rev));
    QuietRow(w, rev, row);
  }

  lemma FailureKeeps(w: World, rev: RevId, withResult: bool)
    requires Inv(w)
    ensures Inv(Step(w, RecordFailure(rev, withResult)))
  {
    hide Inv;
    var stored := if withResult && rev in w.results then Some(w.results[rev]) else None;
    if rev in w.db.revisions && w.db.revisions[rev].state == Pending {
      PendingRow(w, rev, FailureBatch(w.db, rev, stored).revisions[rev]);
    } else {
      assert Step(w, RecordFailure(rev, withResult)) == w;
    }
  }

  lemma NoteKeeps(w: World, rev: RevId, error: Option<Error>)
    requires Inv(w)
    ensures Inv(Step(w, Note(rev, error)))
  {
    hide Inv;
    if rev in w.db.revisions && w.db.revisions[rev].state == Pending && (error == Some(StatusUnavailable) || error == None) {
      PendingRow(w, rev, w.db.revisions[rev].(error := error));
    } else {
      assert Step(w, Note(rev, error)) == w;
    }
  }

  lemma ClaimKeeps(w: World, rev: RevId, converter: string)
    requires Inv(w)
    ensures Inv(Step(w, Claim(rev, converter)))
  {
    hide Inv;
    if rev !in w.results && rev in w.db.revisions && w.db.revisions[rev].state == Pending && w.db.revisions[rev].calls == 0 {
      PendingRow(w, rev, w.db.revisions[rev].(calls := 1, converter := Some(converter)));
    } else {
      assert Step(w, Claim(rev, converter)) == w;
    }
  }

  // ---------------------------------------------------------------- results and readings

  lemma ConvertKeeps(w: World, rev: RevId, stored: Stored)
    requires Inv(w)
    ensures Inv(Step(w, Convert(rev, stored)))
  {
    hide Numbered, HeadsOk, Unshared, JobsOk, PagesOk, Chained, Matches;
    if rev !in w.results && rev in w.db.revisions && w.db.revisions[rev].job.None? {
      var results := w.results[rev := stored];
      forall r | r in w.db.revisions ensures RowOk(w.db.revisions[r], ResultOf(results, r)) {
        assert RowOk(w.db.revisions[r], ResultOf(w.results, r));
      }
    }
  }

  lemma ReadKeeps(w: World, reader: Reader, rev: RevId)
    requires Inv(w)
    ensures Inv(Step(w, ReadRow(reader, rev)))
  {
    hide Numbered, HeadsOk, Unshared, JobsOk, PagesOk, Chained, ResultsOk, Matches;
  }

  lemma CommitStep(w: World, reader: Reader)
    requires Inv(w)
    ensures Inv(Step(w, Commit(reader)))
  {
    hide Inv, CommitBatch;
    if reader in w.readings && w.readings[reader].rev in w.results {
      ReadingHolds(w, reader);
      CommitKeeps(w, w.readings[reader].rev, w.readings[reader].row);
    }
  }

  lemma ReadingHolds(w: World, reader: Reader)
    requires Inv(w) && reader in w.readings
    ensures Committing(w, w.readings[reader].rev, w.readings[reader].row)
  {
  }

  // ---------------------------------------------------------------- uploads

  lemma NewRowHeads(w: World, heads: map<SourceId, Option<RevId>>, rev: RevId, row: Revision)
    requires HeadsOk(w.db.heads, w.db.revisions) && Numbered(w.db.heads, w.db.revisions) && rev !in w.db.revisions && row.state == Pending
    requires heads == w.db.heads || (row.source !in w.db.heads && heads == w.db.heads[row.source := None])
    ensures HeadsOk(heads, w.db.revisions[rev := row])
  {
    var revs := w.db.revisions[rev := row];
    forall s: SourceId ensures HeadOk(heads, revs, s) { assert HeadOk(w.db.heads, w.db.revisions, s); }
  }

  lemma NewRowPages(w: World, heads: map<SourceId, Option<RevId>>, rev: RevId, row: Revision)
    requires PagesOk(w.db.heads, w.db.revisions, w.db.pages, w.db.drafts) && rev !in w.db.revisions
    requires heads == w.db.heads || (row.source !in w.db.heads && heads == w.db.heads[row.source := None])
    ensures PagesOk(heads, w.db.revisions[rev := row], w.db.pages, w.db.drafts)
  {
    var revs := w.db.revisions[rev := row];
    forall p | p in w.db.pages ensures PageOk(heads, revs, w.db.drafts, p, w.db.pages[p]) {
      assert PageOk(w.db.heads, w.db.revisions, w.db.drafts, p, w.db.pages[p]);
    }
  }

  lemma NewRowResults(w: World, rev: RevId, row: Revision)
    requires ResultsOk(w.db.revisions, w.results) && rev !in w.db.revisions && RowOk(row, None)
    ensures ResultsOk(w.db.revisions[rev := row], w.results)
  {
    hide RowOk;
    var revs := w.db.revisions[rev := row];
    forall r | r in revs ensures RowOk(revs[r], ResultOf(w.results, r)) {
      if r != rev { assert RowOk(w.db.revisions[r], ResultOf(w.results, r)); }
    }
  }

  lemma NewRowReadings(w: World, rev: RevId, row: Revision)
    requires ReadingsOk(w.db.revisions, w.results, w.readings) && rev !in w.db.revisions
    ensures ReadingsOk(w.db.revisions[rev := row], w.results, w.readings)
  {
  }

  lemma NewRowJobs(w: World, rev: RevId, row: Revision)
    requires JobsOk(w.db.jobs, w.db.revisions) && rev !in w.db.revisions && row.job.None?
    ensures JobsOk(w.db.jobs, w.db.revisions[rev := row])
  {
  }

  lemma NewRowIds(w: World, heads: map<SourceId, Option<RevId>>, rev: RevId, row: Revision)
    requires Numbered(w.db.heads, w.db.revisions) && Unshared(w.db.revisions)
    requires rev !in w.db.revisions && row.source in heads
    requires !NumberTaken(w.db.revisions, row.source, row.no) && !HeldElsewhere(w.db.revisions, row.hash, row.source)
    requires heads == w.db.heads || (row.source !in w.db.heads && heads == w.db.heads[row.source := None])
    ensures Numbered(heads, w.db.revisions[rev := row]) && Unshared(w.db.revisions[rev := row])
  {
  }

  lemma NewRowKeeps(w: World, heads: map<SourceId, Option<RevId>>, rev: RevId, row: Revision)
    requires Inv(w) && rev !in w.db.revisions && row.job.None? && row.state == Pending && row.tokens == None
    requires row.source in heads && !NumberTaken(w.db.revisions, row.source, row.no) && !HeldElsewhere(w.db.revisions, row.hash, row.source)
    requires heads == w.db.heads || (row.source !in w.db.heads && heads == w.db.heads[row.source := None])
    ensures Inv(w.(db := w.db.(heads := heads, revisions := w.db.revisions[rev := row])))
  {
    hide Numbered, HeadsOk, Unshared, JobsOk, PagesOk, Chained, ResultsOk, ReadingsOk, AtMostTwo, NumberTaken, HeldElsewhere;
    NewRowHeads(w, heads, rev, row);
    NewRowPages(w, heads, rev, row);
    NewRowResults(w, rev, row);
    NewRowReadings(w, rev, row);
    NewRowIds(w, heads, rev, row);
    NewRowJobs(w, rev, row);
  }

  lemma UploadKeeps(w: World, e: Event)
    requires Inv(w) && (e.NewSource? || e.Replace?)
    ensures Inv(Step(w, e))
  {
    hide HeadsOk, Unshared, JobsOk, PagesOk, Chained, ResultsOk, ReadingsOk;
    match e {
      case NewSource(source, rev, hash) =>
        if source !in w.db.heads && rev !in w.db.revisions && !HeldElsewhere(w.db.revisions, hash, source) {
          assert !NumberTaken(w.db.revisions, source, 1);
          NewRowKeeps(w, w.db.heads[source := None], rev, NewRevision(source, 1, hash));
        }
      case Replace(source, rev, no, hash) =>
        if ReplaceBatch(w.db, source, rev, no, hash) != w.db {
          NewRowKeeps(w, w.db.heads, rev, NewRevision(source, no, hash));
        }
    }
  }

  // ---------------------------------------------------------------- OCR jobs

  lemma JobRow(w: World, job: JobId, row: Job)
    requires Inv(w) && row.base in w.db.revisions && w.db.revisions[row.base].source == row.source
    requires row.state != Applied && row.applied == None
    requires job in w.db.jobs ==> w.db.jobs[job].state != Applied
    requires AtMostTwo(w.db.jobs[job := row])
    ensures Inv(w.(db := w.db.(jobs := w.db.jobs[job := row])))
  {
    hide Numbered, HeadsOk, Unshared, PagesOk, Chained, ResultsOk, ReadingsOk, AtMostTwo;
    assert forall r :: r in w.db.revisions && w.db.revisions[r].job.Some? ==> w.db.revisions[r].job.value != job;
  }

  predicate Runs(row: Job) { row.state == Queued || row.state == Running }

  lemma ActiveAfter(jobs: map<JobId, Job>, job: JobId, row: Job)
    ensures Active(jobs[job := row]) == if Runs(row) then Active(jobs) + {job} else Active(jobs) - {job}
    ensures job in Active(jobs) <==> job in jobs && Runs(jobs[job])
  {
  }

  lemma ActiveShift(jobs: map<JobId, Job>, job: JobId, row: Job)
    ensures |Active(jobs[job := row])| <= |Active(jobs)| + (if Runs(row) && !(job in jobs && Runs(jobs[job])) then 1 else 0)
  {
    hide Active, Runs;
    ActiveAfter(jobs, job, row);
    if Runs(row) {
      if job in Active(jobs) { assert Active(jobs) + {job} == Active(jobs); }
    } else {
      Smaller(Active(jobs), job);
    }
  }

  lemma Smaller(s: set<JobId>, job: JobId)
    ensures |s - {job}| <= |s|
  {
    if job in s { assert s == (s - {job}) + {job}; } else { assert s - {job} == s; }
  }

  lemma JobKeeps(w: World, e: Event)
    requires Inv(w) && (e.NewJob? || e.Start? || e.Shift?)
    ensures Inv(Step(w, e))
  {
    hide Inv, Active;
    var d := Step(w, e).db;
    var job := e.job;
    InvJobs(w);
    if d != w.db {
      ActiveShift(w.db.jobs, job, d.jobs[job]);
      JobRow(w, job, d.jobs[job]);
    } else {
      assert Step(w, e) == w;
    }
  }

  lemma InvJobs(w: World)
    requires Inv(w)
    ensures JobsOk(w.db.jobs, w.db.revisions) && AtMostTwo(w.db.jobs)
  {
  }

  /** The batch applies the reviewed text as a whole or changes nothing. */
  lemma ApplyIs(w: World, job: JobId, rev: RevId, text: Reviewed)
    requires Inv(w) && job in w.db.jobs && rev !in w.db.revisions
    ensures var j := w.db.jobs[job];
            ApplyBatch(w.db, job, rev, text) ==
              if ApplyGuard(w.db, job) then
                w.db.(revisions := w.db.revisions[rev := ReviewedRevision(w.db.revisions[j.base], job, w.db.revisions[j.base].no + 1, text)],
                      heads := w.db.heads[j.source := Some(rev)],
                      jobs := w.db.jobs[job := j.(state := Applied, applied := Some(rev))],
                      pages := MarkStale(w.db.pages, w.db.drafts, Some(if j.baseHead.Some? then j.baseHead.value else j.base)))
              else w.db
  {
    hide MarkStale, Newest, ReviewedRevision, Numbered, Unshared, PagesOk, Chained, ResultsOk, ReadingsOk, AtMostTwo;
    var j := w.db.jobs[job];
    assert HeadOk(w.db.heads, w.db.revisions, j.source);
  }

  lemma ApplyKeeps(w: World, job: JobId, rev: RevId, text: Reviewed)
    requires Inv(w)
    ensures Inv(Step(w, Apply(job, rev, text)))
  {
    hide Inv, ApplyBatch, MarkStale;
    if job in w.db.jobs && rev !in w.db.revisions {
      ApplyIs(w, job, rev, text);
      if ApplyGuard(w.db, job) { AppliedInv(w, job, rev, text); } else { assert Step(w, Apply(job, rev, text)) == w; }
    } else {
      assert Step(w, Apply(job, rev, text)) == w by { NoApply(w.db, job, rev, text); }
    }
  }

  lemma NoApply(db: Db, job: JobId, rev: RevId, text: Reviewed)
    requires job !in db.jobs || rev in db.revisions
    ensures ApplyBatch(db, job, rev, text) == db
  {
  }

  lemma ReviewedIs(base: Revision, job: JobId, no: nat, text: Reviewed)
    ensures var row := ReviewedRevision(base, job, no, text);
            row.source == base.source && row.hash == base.hash && row.no == no && row.job == Some(job) && IsReadable(row.state)
  {
  }

  lemma AppliedIds(w: World, job: JobId, rev: RevId, row: Revision)
    requires Numbered(w.db.heads, w.db.revisions) && Unshared(w.db.revisions)
    requires job in w.db.jobs && rev !in w.db.revisions && w.db.jobs[job].source in w.db.heads
    requires var base := w.db.jobs[job].base;
             && Newest(w.db.revisions, base) && w.db.revisions[base].source == w.db.jobs[job].source
             && row.source == w.db.revisions[base].source && row.hash == w.db.revisions[base].hash && row.no == w.db.revisions[base].no + 1
    ensures var revs := w.db.revisions[rev := row];
            Numbered(w.db.heads[w.db.jobs[job].source := Some(rev)], revs) && Unshared(revs)
  {
  }

  lemma AppliedJobs(w: World, job: JobId, rev: RevId, row: Revision)
    requires JobsOk(w.db.jobs, w.db.revisions) && job in w.db.jobs && w.db.jobs[job].state == Ready && rev !in w.db.revisions && row.job == Some(job)
    ensures JobsOk(w.db.jobs[job := w.db.jobs[job].(state := Applied, applied := Some(rev))], w.db.revisions[rev := row])
  {
  }

  lemma AppliedInv(w: World, job: JobId, rev: RevId, text: Reviewed)
    requires Inv(w) && job in w.db.jobs && rev !in w.db.revisions && ApplyGuard(w.db, job)
    ensures var j := w.db.jobs[job];
            Inv(w.(db := w.db.(revisions := w.db.revisions[rev := ReviewedRevision(w.db.revisions[j.base], job, w.db.revisions[j.base].no + 1, text)],
                               heads := w.db.heads[j.source := Some(rev)],
                               jobs := w.db.jobs[job := j.(state := Applied, applied := Some(rev))],
                               pages := MarkStale(w.db.pages, w.db.drafts, Some(if j.baseHead.Some? then j.baseHead.value else j.base)))))
  {
    hide Numbered, HeadsOk, Unshared, JobsOk, PagesOk, Chained, ResultsOk, ReadingsOk, MarkStale, ReviewedRevision, Active, Matches;
    var j := w.db.jobs[job];
    var base := w.db.revisions[j.base];
    var row := ReviewedRevision(base, job, base.no + 1, text);
    var input := Some(if j.baseHead.Some? then j.baseHead.value else j.base);
    ReviewedIs(base, job, base.no + 1, text);
    HeadTaken(w.db.heads, w.db.revisions, j.source, rev, row);
    PagesAfterMove(w.db.heads, w.db.revisions, w.db.pages, w.db.drafts, j.source, rev, row, input);
    ChainStale(w.db.pages, w.db.drafts, input);
    ActiveShift(w.db.jobs, job, j.(state := Applied, applied := Some(rev)));
    AppliedIds(w, job, rev, row);
    AppliedJobs(w, job, rev, row);
    NewRowResults(w, rev, row);
    NewRowReadings(w, rev, row);
  }

  // ---------------------------------------------------------------- pages and proposals

  lemma NewPageOk(db: Db, page: PageId, draft: DraftId, row: Page, sheet: Draft)
    requires PagesOk(db.heads, db.revisions, db.pages, db.drafts) && Chained(db.pages, db.drafts)
    requires page !in db.pages && draft !in db.drafts && sheet.page == page && sheet.base == None
    requires row.head == (if sheet.status == Accepted then Some(draft) else None)
    requires row.head.Some? && row.current ==> FreshInputs(db.heads, db.revisions, sheet.inputs)
    ensures PagesOk(db.heads, db.revisions, db.pages[page := row], db.drafts[draft := sheet])
    ensures Chained(db.pages[page := row], db.drafts[draft := sheet])
  {
    hide FreshInputs;
    var pages, drafts := db.pages[page := row], db.drafts[draft := sheet];
    forall p | p in pages ensures PageOk(db.heads, db.revisions, drafts, p, pages[p]) {
      if p != page { assert PageOk(db.heads, db.revisions, db.drafts, p, db.pages[p]); }
    }
  }

  /** A draft that is not accepted changes nothing about pages or chains. */
  lemma OpenDraftOk(db: Db, draft: DraftId, sheet: Draft)
    requires PagesOk(db.heads, db.revisions, db.pages, db.drafts) && Chained(db.pages, db.drafts)
    requires sheet.page in db.pages && sheet.status != Accepted && (draft in db.drafts ==> db.drafts[draft].status != Accepted)
    ensures PagesOk(db.heads, db.revisions, db.pages, db.drafts[draft := sheet]) && Chained(db.pages, db.drafts[draft := sheet])
  {
    hide FreshInputs;
    var drafts := db.drafts[draft := sheet];
    forall p | p in db.pages ensures PageOk(db.heads, db.revisions, drafts, p, db.pages[p]) {
      assert PageOk(db.heads, db.revisions, db.drafts, p, db.pages[p]);
    }
  }

  lemma SaveKeeps(w: World, e: Event)
    requires Inv(w) && (e.SaveAnswer? || e.ProposeNew? || e.Propose? || e.Reject?)
    ensures Inv(Step(w, e))
  {
    hide Numbered, HeadsOk, Unshared, JobsOk, ResultsOk, ReadingsOk, AtMostTwo, FreshInputs, PagesOk, Chained;
    match e {
      case SaveAnswer(page, draft, project, inputs) =>
        if page !in w.db.pages && draft !in w.db.drafts {
          NewPageOk(w.db, page, draft, Page(project, Some(draft), FreshInputs(w.db.heads, w.db.revisions, inputs)), Draft(page, Accepted, None, inputs));
        }
      case ProposeNew(page, draft, project, inputs) =>
        if page !in w.db.pages && draft !in w.db.drafts {
          NewPageOk(w.db, page, draft, Page(project, None, true), Draft(page, Proposed, None, inputs));
        }
      case Propose(page, draft, base, inputs) =>
        if page in w.db.pages && draft !in w.db.drafts { OpenDraftOk(w.db, draft, Draft(page, Proposed, base, inputs)); }
      case Reject(draft) =>
        if draft in w.db.drafts && w.db.drafts[draft].status == Proposed {
          DraftPage(w.db, draft);
          OpenDraftOk(w.db, draft, w.db.drafts[draft].(status := Rejected));
        }
    }
  }

  lemma DraftPage(db: Db, draft: DraftId)
    requires Chained(db.pages, db.drafts) && draft in db.drafts
    ensures db.drafts[draft].page in db.pages
  {
  }

  /** Accepting a proposal happens in both statements or in none. */
  lemma AcceptIs(db: Db, draft: DraftId, project: nat, expected: Option<DraftId>)
    requires Chained(db.pages, db.drafts) && draft in db.drafts
    ensures var page := db.drafts[draft].page;
            && page in db.pages
            && AcceptBatch(db, draft, project, expected) ==
                 if db.drafts[draft].status == Proposed && db.drafts[draft].base == expected
                    && db.pages[page].project == project && db.pages[page].head == expected
                 then db.(drafts := db.drafts[draft := db.drafts[draft].(status := Accepted)],
                          pages := db.pages[page := db.pages[page].(head := Some(draft),
                                            current := FreshInputs(db.heads, db.revisions, db.drafts[draft].inputs))])
                 else db
  {
    hide FreshInputs;
  }

  lemma AcceptPages(db: Db, draft: DraftId, project: nat, expected: Option<DraftId>)
    requires Chained(db.pages, db.drafts) && PagesOk(db.heads, db.revisions, db.pages, db.drafts) && draft in db.drafts
    ensures var d := AcceptBatch(db, draft, project, expected); PagesOk(d.heads, d.revisions, d.pages, d.drafts)
  {
    hide FreshInputs, AcceptBatch, Chained;
    AcceptIs(db, draft, project, expected);
    var d := AcceptBatch(db, draft, project, expected);
    forall p | p in d.pages ensures PageOk(d.heads, d.revisions, d.drafts, p, d.pages[p]) {
      assert PageOk(db.heads, db.revisions, db.drafts, p, db.pages[p]);
    }
  }

  lemma AcceptKeeps(w: World, draft: DraftId, project: nat, expected: Option<DraftId>)
    requires Inv(w)
    ensures Inv(Step(w, Accept(draft, project, expected)))
  {
    hide Numbered, HeadsOk, Unshared, JobsOk, ResultsOk, ReadingsOk, AtMostTwo, FreshInputs, AcceptBatch, PagesOk, Chained;
    if draft in w.db.drafts {
      AcceptIs(w.db, draft, project, expected);
      AcceptChains(w.db, AcceptBatch(w.db, draft, project, expected), w.db.drafts[draft].page, draft, expected);
      AcceptPages(w.db, draft, project, expected);
    } else {
      assert AcceptBatch(w.db, draft, project, expected) == w.db by { NoAccept(w.db, draft, project, expected); }
    }
  }

  lemma NoAccept(db: Db, draft: DraftId, project: nat, expected: Option<DraftId>)
    requires draft !in db.drafts
    ensures AcceptBatch(db, draft, project, expected) == db
  {
  }

  lemma AcceptChains(a: Db, d: Db, page: PageId, draft: DraftId, expected: Option<DraftId>)
    requires Chained(a.pages, a.drafts) && PagesOk(a.heads, a.revisions, a.pages, a.drafts)
    requires d == a || (
               && draft in a.drafts && a.drafts[draft].page == page && a.drafts[draft].status == Proposed && a.drafts[draft].base == expected
               && a.pages[page].head == expected
               && d.drafts == a.drafts[draft := a.drafts[draft].(status := Accepted)]
               && d.pages.Keys == a.pages.Keys && d.pages[page].head == Some(draft)
               && forall p :: p in a.pages && p != page ==> d.pages[p] == a.pages[p])
    ensures Chained(d.pages, d.drafts)
  {
    if d != a {
      assert PageOk(a.heads, a.revisions, a.drafts, page, a.pages[page]);
    }
  }

  // ---------------------------------------------------------------- every event

  lemma StepKeeps(w: World, e: Event)
    requires Inv(w)
    ensures Inv(Step(w, e))
  {
    hide Inv, Step;
    match e {
      case NewSource(_, _, _) => UploadKeeps(w, e);
      case Replace(_, _, _, _) => UploadKeeps(w, e);
      case Claim(rev, converter) => ClaimKeeps(w, rev, converter);
      case Convert(rev, stored) => ConvertKeeps(w, rev, stored);
      case ReadRow(reader, rev) => ReadKeeps(w, reader, rev);
      case Commit(reader) => CommitStep(w, reader);
      case RecordFailure(rev, withResult) => FailureKeeps(w, rev, withResult);
      case Note(rev, error) => NoteKeeps(w, rev, error);
      case NewJob(_, _, _) => JobKeeps(w, e);
      case Start(_) => JobKeeps(w, e);
      case Shift(_, _) => JobKeeps(w, e);
      case Apply(job, rev, text) => ApplyKeeps(w, job, rev, text);
      case SaveAnswer(_, _, _, _) => SaveKeeps(w, e);
      case ProposeNew(_, _, _, _) => SaveKeeps(w, e);
      case Propose(_, _, _, _) => SaveKeeps(w, e);
      case Reject(_) => SaveKeeps(w, e);
      case Accept(draft, project, expected) => AcceptKeeps(w, draft, project, expected);
    }
  }
}
