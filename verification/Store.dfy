/** The store whose rows the batches change in place, statement by statement. */
module Store {
  import opened Text
  import opened Publication

  class Database {
    var heads: map<SourceId, Option<RevId>>
    var revisions: map<RevId, Revision>
    var jobs: map<JobId, Job>
    var pages: map<PageId, Page>
    var drafts: map<DraftId, Draft>

    function Rows(): Db
      reads this
    {
      Db(heads, revisions, jobs, pages, drafts)
    }

    constructor ()
      ensures Rows() == NewWorld().db
    {
      heads, revisions, jobs, pages, drafts := map[], map[], map[], map[], map[];
    }

    /** Each page that shows an accepted draft citing `input` is marked stale. */
    method MarkPagesStale(input: Option<RevId>)
      modifies this`pages
      ensures pages == MarkStale(old(pages), drafts, input)
    {
      if input.None? {
        MarkNothing(pages, drafts);
        return;
      }
      var marked: map<PageId, Page> := map[];
      var left := pages.Keys;
      while left != {}
        invariant left <= pages.Keys && marked.Keys == pages.Keys - left
        invariant forall p :: p in marked ==>
                    marked[p] == if ShowsInput(pages[p], drafts, input.value) then pages[p].(current := false) else pages[p]
        decreases |left|
      {
        var p :| p in left;
        marked := marked[p := if ShowsInput(pages[p], drafts, input.value) then pages[p].(current := false) else pages[p]];
        left := left - {p};
      }
      pages := marked;
    }

    /** The batch of commitRevision; `before` is the row that was read before it. */
    method CommitRevision(rev: RevId, before: Revision, stored: Stored)
      modifies this
      ensures Rows() == CommitBatch(old(Rows()), rev, before, stored)
    {
      hide TerminalGuard, NewerReadable, Completed, MarkStale;
      if rev in revisions && SameIdentity(revisions[rev], before) && Writable(revisions[rev]) {
        revisions := revisions[rev := Completed(revisions[rev], stored)];
      }
      if stored.outcome.Converted? {
        if HeadGuard(Rows(), rev, before, stored) { MarkPagesStale(heads[before.source]); }
        if HeadGuard(Rows(), rev, before, stored) { heads := heads[before.source := Some(rev)]; }
        if rev in revisions && revisions[rev].source == before.source && TerminalGuard(revisions[rev], before, stored)
           && NewerReadable(revisions, before.source, before.no) {
          revisions := revisions[rev := revisions[rev].(state := ReadableWithWarnings, warning := Some(SupersededWarning(stored)))];
        }
      }
    }

    method RecordStorageFailure(rev: RevId, stored: Option<Stored>)
      modifies this
      ensures Rows() == FailureBatch(old(Rows()), rev, stored)
    {
      if rev in revisions && revisions[rev].state == Pending {
        var row := revisions[rev];
        var tokens := if stored.Some? then stored.value.tokens else None;
        var calls := if stored.Some? then stored.value.calls else 0;
        var ms := if stored.Some? then Some(stored.value.ms) else None;
        revisions := revisions[rev := row.(state := Failed, error := Some(StorageFailure),
                                           tokens := Or(row.tokens, tokens), calls := Max(row.calls, calls), ms := Or(row.ms, ms))];
      }
    }

    method StartOcrJob(job: JobId)
      modifies this
      ensures Rows() == StartJob(old(Rows()), job)
    {
      if job in jobs && jobs[job].state == Preparing && |Active(jobs)| < 2
         && jobs[job].source in heads && heads[jobs[job].source] == jobs[job].baseHead && Newest(revisions, jobs[job].base) {
        jobs := jobs[job := jobs[job].(state := Queued)];
      }
    }

    method CancelOcrJob(job: JobId)
      modifies this
      ensures Rows() == MoveJob(old(Rows()), job, Cancelled)
    {
      if job in jobs && jobs[job].state in {Preparing, Queued, Running, Ready} {
        jobs := jobs[job := jobs[job].(state := Cancelled)];
      }
    }

    method ApplyOcrJob(job: JobId, rev: RevId, text: Reviewed)
      modifies this
      ensures Rows() == ApplyBatch(old(Rows()), job, rev, text)
    {
      hide MarkStale, ReviewedRevision;
      if job !in jobs || rev in revisions { return; }
      if ApplyGuard(Rows(), job) {
        var base := revisions[jobs[job].base];
        revisions := revisions[rev := ReviewedRevision(base, job, base.no + 1, text)];
      }
      var j := jobs[job];
      if j.source in heads && heads[j.source] == j.baseHead && rev in revisions { heads := heads[j.source := Some(rev)]; }
      if j.state == Ready && j.source in heads && heads[j.source] == Some(rev) {
        jobs := jobs[job := j.(state := Applied, applied := Some(rev))];
      }
      if jobs[job].applied == Some(rev) {
        MarkPagesStale(Some(if j.baseHead.Some? then j.baseHead.value else j.base));
      }
    }

    /** saveAnswer inserts the page and its draft and then gives the page its head. */
    method SavePage(page: PageId, draft: DraftId, project: nat, inputs: seq<RevId>)
      modifies this
      ensures Rows() == SaveBatch(old(Rows()), page, draft, project, inputs)
    {
      if page in pages || draft in drafts { return; }
      pages := pages[page := Page(project, None, true)];
      drafts := drafts[draft := Draft(page, Accepted, None, inputs)];
      if pages[page].head.None? {
        pages := pages[page := pages[page].(head := Some(draft), current := FreshInputs(heads, revisions, drafts[draft].inputs))];
      }
    }

    /** decideProposal; true when the proposal is the head afterwards. */
    method AcceptProposal(draft: DraftId, project: nat, expected: Option<DraftId>) returns (accepted: bool)
      modifies this
      ensures Rows() == AcceptBatch(old(Rows()), draft, project, expected)
      ensures accepted == (draft in drafts && drafts[draft].status == Accepted)
    {
      hide FreshInputs;
      if draft !in drafts { return false; }
      var page := drafts[draft].page;
      if drafts[draft].status == Proposed && drafts[draft].base == expected
         && page in pages && pages[page].project == project && pages[page].head == expected {
        drafts := drafts[draft := drafts[draft].(status := Accepted)];
      }
      if page in pages && pages[page].project == project && pages[page].head == expected
         && drafts[draft].status == Accepted && drafts[draft].base == expected {
        pages := pages[page := pages[page].(head := Some(draft), current := FreshInputs(heads, revisions, drafts[draft].inputs))];
      }
      accepted := drafts[draft].status == Accepted;
    }

    method RejectProposal(draft: DraftId) returns (changed: bool)
      modifies this
      ensures Rows() == RejectUpdate(old(Rows()), draft)
      ensures changed == (draft in old(drafts) && old(drafts)[draft].status == Proposed)
    {
      changed := draft in drafts && drafts[draft].status == Proposed;
      if changed { drafts := drafts[draft := drafts[draft].(status := Rejected)]; }
    }
  }

  lemma MarkNothing(pages: map<PageId, Page>, drafts: map<DraftId, Draft>)
    ensures MarkStale(pages, drafts, None) == pages
  {
  }
}
