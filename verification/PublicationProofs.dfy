/** What every batch of the versioned store keeps, under any interleaving. */
module PublicationProofs {
  import opened Text
  import opened Publication

  // ---------------------------------------------------------------- the invariant

  /** A number names one revision of a source, and every revision has its source. */
  ghost predicate Numbered(heads: map<SourceId, Option<RevId>>, revs: map<RevId, Revision>) {
    && (forall r :: r in revs ==> revs[r].source in heads)
    && (forall r, q :: r in revs && q in revs && revs[r].source == revs[q].source && revs[r].no == revs[q].no ==> r == q)
  }

  /** The head is the newest readable revision; there is none only when none is readable. */
  ghost predicate HeadOk(heads: map<SourceId, Option<RevId>>, revs: map<RevId, Revision>, s: SourceId) {
    s in heads ==>
      match heads[s]
      case None => forall r :: r in revs && revs[r].source == s ==> !IsReadable(revs[r].state)
      case Some(h) =>
        && h in revs && revs[h].source == s && IsReadable(revs[h].state)
        && forall r :: r in revs && revs[r].source == s && IsReadable(revs[r].state) ==> revs[r].no <= revs[h].no
  }

  ghost predicate HeadsOk(heads: map<SourceId, Option<RevId>>, revs: map<RevId, Revision>) {
    forall s: SourceId :: HeadOk(heads, revs, s)
  }

  /** No two sources hold the same bytes. */
  ghost predicate Unshared(revs: map<RevId, Revision>) {
    forall r, q :: r in revs && q in revs && revs[r].hash == revs[q].hash ==> revs[r].source == revs[q].source
  }

  /** A job is applied exactly when it has its one revision. */
  ghost predicate JobsOk(jobs: map<JobId, Job>, revs: map<RevId, Revision>) {
    && (forall j :: j in jobs ==> jobs[j].base in revs && revs[jobs[j].base].source == jobs[j].source
                                  && (jobs[j].state == Applied <==> jobs[j].applied.Some?)
                                  && (jobs[j].applied.Some? ==> jobs[j].applied.value in revs && revs[jobs[j].applied.value].job == Some(j)))
    && (forall r :: r in revs && revs[r].job.Some? ==> revs[r].job.value in jobs && jobs[revs[r].job.value].applied == Some(r))
  }

  predicate AtMostTwo(jobs: map<JobId, Job>) { |Active(jobs)| <= 2 }

  predicate PageOk(heads: map<SourceId, Option<RevId>>, revs: map<RevId, Revision>, drafts: map<DraftId, Draft>, p: PageId, page: Page) {
    page.head.Some? ==>
      && page.head.value in drafts && drafts[page.head.value].page == p && drafts[page.head.value].status == Accepted
      && (page.current ==> FreshInputs(heads, revs, drafts[page.head.value].inputs))
  }

  /** A page that is marked current cites only readable current heads. */
  ghost predicate PagesOk(heads: map<SourceId, Option<RevId>>, revs: map<RevId, Revision>, pages: map<PageId, Page>, drafts: map<DraftId, Draft>) {
    forall p :: p in pages ==> PageOk(heads, revs, drafts, p, pages[p])
  }

  /** Two accepted drafts of one page on one base. */
  predicate SameStep(a: Draft, b: Draft) { a.status == Accepted && b.status == Accepted && a.page == b.page && a.base == b.base }

  /** Accepted drafts of a page form one chain on their bases that ends at the head. */
  ghost predicate Chained(pages: map<PageId, Page>, drafts: map<DraftId, Draft>) {
    && (forall d :: d in drafts ==> drafts[d].page in pages)
    && (forall d :: d in drafts && drafts[d].status == Accepted ==>
          && drafts[d].base != pages[drafts[d].page].head
          && (drafts[d].base.Some? ==> drafts[d].base.value in drafts && drafts[drafts[d].base.value].status == Accepted
                                       && drafts[drafts[d].base.value].page == drafts[d].page))
    && (forall d, e :: d in drafts && e in drafts && SameStep(drafts[d], drafts[e]) ==> d == e)
  }

  /** A row without a result can still take one; a row with a result takes it once. */
  predicate RowOk(row: Revision, result: Option<Stored>) {
    if result.None? then row.job.None? ==> Writable(row) && row.tokens == None
    else row.job.None? && (row.tokens == None || row.tokens == result.value.tokens) && (Writable(row) || Matches(row, result.value))
  }

  function ResultOf(results: map<RevId, Stored>, r: RevId): Option<Stored> { if r in results then Some(results[r]) else None }

  ghost predicate ResultsOk(revs: map<RevId, Revision>, results: map<RevId, Stored>) {
    && (forall r :: r in revs ==> RowOk(revs[r], ResultOf(results, r)))
    && (forall r :: r in results ==> r in revs)
  }

  /** What may have happened to a row between a commit's read and its batch. */
  predicate Since(before: Revision, row: Revision, stored: Stored) {
    && SameIdentity(row, before)
    && (row.tokens == before.tokens || row.tokens == Or(before.tokens, stored.tokens))
    && (row.calls == before.calls || row.calls == Max(before.calls, stored.calls))
  }

  ghost predicate ReadingsOk(revs: map<RevId, Revision>, results: map<RevId, Stored>, readings: map<Reader, Reading>) {
    forall g :: g in readings ==>
      readings[g].rev in results && readings[g].rev in revs && Since(readings[g].row, revs[readings[g].rev], results[readings[g].rev])
  }

  ghost predicate Inv(w: World) {
    && Numbered(w.db.heads, w.db.revisions) && HeadsOk(w.db.heads, w.db.revisions) && Unshared(w.db.revisions)
    && JobsOk(w.db.jobs, w.db.revisions) && AtMostTwo(w.db.jobs)
    && PagesOk(w.db.heads, w.db.revisions, w.db.pages, w.db.drafts) && Chained(w.db.pages, w.db.drafts)
    && ResultsOk(w.db.revisions, w.results) && ReadingsOk(w.db.revisions, w.results, w.readings)
  }

  // ---------------------------------------------------------------- one row changes

  /** A change of one row that keeps who it is. */
  predicate SameWho(a: Revision, b: Revision) { SameIdentity(a, b) && a.job == b.job }

  lemma RowChange(db: Db, rev: RevId, row: Revision)
    requires rev in db.revisions && SameWho(db.revisions[rev], row)
    requires Numbered(db.heads, db.revisions) && Unshared(db.revisions) && JobsOk(db.jobs, db.revisions)
    ensures var revs := db.revisions[rev := row]; Numbered(db.heads, revs) && Unshared(revs) && JobsOk(db.jobs, revs)
  {
  }

  /** Heads and pages care only about which rows are readable. */
  lemma SameReadability(db: Db, rev: RevId, row: Revision)
    requires rev in db.revisions && SameWho(db.revisions[rev], row) && IsReadable(row.state) == IsReadable(db.revisions[rev].state)
    requires HeadsOk(db.heads, db.revisions) && PagesOk(db.heads, db.revisions, db.pages, db.drafts)
    ensures HeadsOk(db.heads, db.revisions[rev := row]) && PagesOk(db.heads, db.revisions[rev := row], db.pages, db.drafts)
  {
    var revs := db.revisions[rev := row];
    forall s: SourceId ensures HeadOk(db.heads, revs, s) { assert HeadOk(db.heads, db.revisions, s); }
    forall p | p in db.pages ensures PageOk(db.heads, revs, db.drafts, p, db.pages[p]) {
      assert PageOk(db.heads, db.revisions, db.drafts, p, db.pages[p]);
    }
  }

  lemma ResultChange(revs: map<RevId, Revision>, results: map<RevId, Stored>, rev: RevId, row: Revision)
    requires rev in revs && ResultsOk(revs, results) && RowOk(row, ResultOf(results, rev))
    ensures ResultsOk(revs[rev := row], results)
  {
    hide RowOk;
  }

  lemma ReadingChange(revs: map<RevId, Revision>, results: map<RevId, Stored>, readings: map<Reader, Reading>, rev: RevId, row: Revision)
    requires rev in revs && ReadingsOk(revs, results, readings)
    requires SameIdentity(row, revs[rev])
    requires rev in results ==> StillSince(revs[rev], row, results[rev])
    ensures ReadingsOk(revs[rev := row], results, readings)
  {
  }

  predicate StillSince(old_: Revision, row: Revision, stored: Stored) {
    && (row.tokens == old_.tokens || row.tokens == Or(old_.tokens, stored.tokens))
    && (row.calls == old_.calls || row.calls == Max(old_.calls, stored.calls))
  }

  // ---------------------------------------------------------------- writing a result

  lemma CompletedIs(row: Revision, stored: Stored)
    requires Writable(row) && (row.tokens == None || row.tokens == stored.tokens)
    ensures var done := Completed(row, stored);
            && SameWho(row, done) && Matches(done, stored) && StillSince(row, done, stored)
            && (done.tokens == None || done.tokens == stored.tokens)
            && (IsReadable(done.state) <==> stored.outcome.Converted?) && !IsReadable(row.state)
  {
  }

  /** The written row passes the guard of the publishing statements. */
  lemma CompletedPasses(row: Revision, before: Revision, stored: Stored)
    requires stored.outcome.Converted? && Since(before, row, stored) && Writable(row)
    ensures TerminalGuard(Completed(row, stored), before, stored)
  {
  }

  lemma SupersededIs(row: Revision, stored: Stored, before: Revision)
    requires stored.outcome.Converted? && TerminalGuard(row, before, stored)
    ensures var next := row.(state := ReadableWithWarnings, warning := Some(SupersededWarning(stored)));
            && SameWho(row, next) && IsReadable(row.state) && IsReadable(next.state) && (Matches(row, stored) ==> Matches(next, stored))
  {
  }

  // ---------------------------------------------------------------- moving the head

  /** A row that becomes the newest readable one takes the head; pages that showed the old head go stale. */
  lemma HeadTaken(heads: map<SourceId, Option<RevId>>, revs: map<RevId, Revision>, s: SourceId, rev: RevId, row: Revision)
    requires HeadsOk(heads, revs) && s in heads && row.source == s && IsReadable(row.state)
    requires rev in revs ==> revs[rev].source == s
    requires forall r :: r in revs && revs[r].source == s && IsReadable(revs[r].state) && r != rev ==> revs[r].no <= row.no
    ensures HeadsOk(heads[s := Some(rev)], revs[rev := row])
  {
    var heads', revs' := heads[s := Some(rev)], revs[rev := row];
    forall t: SourceId ensures HeadOk(heads', revs', t) { assert HeadOk(heads, revs, t); }
  }

  lemma PagesAfterMove(heads: map<SourceId, Option<RevId>>, revs: map<RevId, Revision>, pages: map<PageId, Page>, drafts: map<DraftId, Draft>,
                       s: SourceId, rev: RevId, row: Revision, input: Option<RevId>)
    requires PagesOk(heads, revs, pages, drafts) && s in heads && row.source == s && IsReadable(row.state)
    requires rev in revs ==> revs[rev].source == s && (IsReadable(revs[rev].state) ==> heads[s] == Some(rev))
    requires heads[s].Some? ==> input == heads[s]
    ensures PagesOk(heads[s := Some(rev)], revs[rev := row], MarkStale(pages, drafts, input), drafts)
  {
    var heads', revs', marked := heads[s := Some(rev)], revs[rev := row], MarkStale(pages, drafts, input);
    forall p | p in marked ensures PageOk(heads', revs', drafts, p, marked[p]) {
      assert PageOk(heads, revs, drafts, p, pages[p]);
      if marked[p].head.Some? && marked[p].current {
        var inputs := drafts[pages[p].head.value].inputs;
        assert FreshInputs(heads, revs, inputs);
        forall k | 0 <= k < |inputs| ensures inputs[k] in revs' && IsReadable(revs'[inputs[k]].state)
                                            && revs'[inputs[k]].source in heads' && heads'[revs'[inputs[k]].source] == Some(inputs[k]) {
          assert inputs[k] in inputs;
        }
      }
    }
  }

  // ---------------------------------------------------------------- the publication batch, case by case

  function Superseded(row: Revision, stored: Stored): Revision {
    row.(state := ReadableWithWarnings, warning := Some(SupersededWarning(stored)))
  }

  /** A commit whose row was read before and whose result is the stored one. */
  ghost predicate Committing(w: World, rev: RevId, before: Revision) {
    && Inv(w) && rev in w.db.revisions && rev in w.results && Since(before, w.db.revisions[rev], w.results[rev])
  }

  lemma RowOfCommit(w: World, rev: RevId, before: Revision)
    requires Committing(w, rev, before)
    ensures var row := w.db.revisions[rev];
            && row.source == before.source && row.no == before.no && SameIdentity(row, before) && row.source in w.db.heads
            && RowOk(row, Some(w.results[rev])) && row.job.None?
    ensures HeadOk(w.db.heads, w.db.revisions, before.source)
  {
    hide RowOk, HeadOk;
    assert RowOk(w.db.revisions[rev], ResultOf(w.results, rev));
    assert RowOk(w.db.revisions[rev], Some(w.results[rev])) ==> w.db.revisions[rev].job.None? by { RowOkJob(w.db.revisions[rev], w.results[rev]); }
  }

  lemma RowOkJob(row: Revision, stored: Stored)
    ensures RowOk(row, Some(stored)) ==> row.job.None?
  {
  }

  lemma NewerAfter(revs: map<RevId, Revision>, rev: RevId, row: Revision, s: SourceId, no: nat)
    requires rev in revs && SameWho(revs[rev], row) && revs[rev].no == no
    ensures NewerReadable(revs[rev := row], s, no) == NewerReadable(revs, s, no)
  {
    var revs' := revs[rev := row];
    if NewerReadable(revs, s, no) {
      var r :| r in revs && revs[r].source == s && revs[r].no > no && IsReadable(revs[r].state);
      assert r in revs' && revs'[r].source == s && revs'[r].no > no && IsReadable(revs'[r].state);
    }
    if NewerReadable(revs', s, no) {
      var r :| r in revs' && revs'[r].source == s && revs'[r].no > no && IsReadable(revs'[r].state);
      assert r in revs && revs[r].source == s && revs[r].no > no && IsReadable(revs[r].state);
    }
  }

  /** A terminal row is not written again; at most it learns that a newer revision is current. */
  lemma CommitTerminal(w: World, rev: RevId, before: Revision)
    requires Committing(w, rev, before) && !Writable(w.db.revisions[rev])
    ensures var stored, row := w.results[rev], w.db.revisions[rev];
            CommitBatch(w.db, rev, before, stored) ==
              if stored.outcome.Converted? && TerminalGuard(row, before, stored) && NewerReadable(w.db.revisions, row.source, row.no)
              then w.db.(revisions := w.db.revisions[rev := Superseded(row, stored)]) else w.db
  {
    hide Inv, TerminalGuard, Matches, MarkStale, NewerReadable;
    RowOfCommit(w, rev, before);
    var stored := w.results[rev];
    if stored.outcome.Converted? {
      TerminalNoHead(w, rev, before);
      assert StaleStep(w.db, rev, before, stored) == w.db && HeadStep(w.db, rev, before, stored) == w.db;
    }
  }

  lemma TerminalNoHead(w: World, rev: RevId, before: Revision)
    requires Committing(w, rev, before) && w.results[rev].outcome.Converted? && !Writable(w.db.revisions[rev])
    ensures !HeadGuard(w.db, rev, before, w.results[rev])
  {
    hide Inv, TerminalGuard, Matches, NewerReadable;
    RowOfCommit(w, rev, before);
    MatchesReadable(w.db.revisions[rev], w.results[rev]);
  }

  lemma MatchesReadable(row: Revision, stored: Stored)
    requires Matches(row, stored) && stored.outcome.Converted?
    ensures IsReadable(row.state)
  {
  }

  /** A writable row takes the result; a readable one takes the head unless a newer one is readable. */
  lemma CommitWritable(w: World, rev: RevId, before: Revision)
    requires Committing(w, rev, before) && Writable(w.db.revisions[rev])
    ensures var stored, row := w.results[rev], w.db.revisions[rev];
            var done := Completed(row, stored);
            CommitBatch(w.db, rev, before, stored) ==
              if !stored.outcome.Converted? then w.db.(revisions := w.db.revisions[rev := done])
              else if NewerReadable(w.db.revisions, row.source, row.no) then w.db.(revisions := w.db.revisions[rev := Superseded(done, stored)])
              else w.db.(revisions := w.db.revisions[rev := done], heads := w.db.heads[row.source := Some(rev)],
                         pages := MarkStale(w.db.pages, w.db.drafts, w.db.heads[row.source]))
  {
    hide Inv, TerminalGuard, Matches, MarkStale, NewerReadable, Completed, HeadOk;
    RowOfCommit(w, rev, before);
    var stored, row := w.results[rev], w.db.revisions[rev];
    var done := Completed(row, stored);
    CompletedIs(row, stored);
    var written := w.db.(revisions := w.db.revisions[rev := done]);
    NewerAfter(w.db.revisions, rev, done, row.source, row.no);
    if stored.outcome.Converted? {
      CompletedPasses(row, before, stored);
      if !NewerReadable(w.db.revisions, row.source, row.no) {
        OlderHead(w, rev, before, done);
        var staled := StaleStep(written, rev, before, stored);
        assert HeadGuard(written, rev, before, stored);
        assert staled == written.(pages := MarkStale(w.db.pages, w.db.drafts, w.db.heads[row.source]));
        assert HeadStep(staled, rev, before, stored) == staled.(heads := w.db.heads[row.source := Some(rev)]);
      }
    }
  }

  /** Nothing newer is readable: the present head is older than the row, and the guard lets the row take over. */
  lemma OlderHead(w: World, rev: RevId, before: Revision, done: Revision)
    requires Committing(w, rev, before) && Writable(w.db.revisions[rev]) && SameWho(w.db.revisions[rev], done)
    requires !NewerReadable(w.db.revisions, before.source, before.no)
    ensures var h := w.db.heads[before.source];
            before.source in w.db.heads &&
            (h.Some? ==> h.value in w.db.revisions && h.value != rev && w.db.revisions[h.value].source == before.source
                         && w.db.revisions[h.value].no < before.no)
  {
    RowOfCommit(w, rev, before);
  }

  // ---------------------------------------------------------------- commits keep the invariant

  lemma QuietRow(w: World, rev: RevId, row: Revision)
    requires Inv(w) && rev in w.db.revisions && SameWho(w.db.revisions[rev], row)
    requires IsReadable(row.state) == IsReadable(w.db.revisions[rev].state) && RowOk(row, ResultOf(w.results, rev))
    requires rev in w.results ==> StillSince(w.db.revisions[rev], row, w.results[rev])
    ensures Inv(w.(db := w.db.(revisions := w.db.revisions[rev := row])))
  {
    hide Numbered, HeadsOk, Unshared, JobsOk, PagesOk, Chained, ResultsOk, ReadingsOk, RowOk, StillSince;
    RowChange(w.db, rev, row);
    SameReadability(w.db, rev, row);
    ResultChange(w.db.revisions, w.results, rev, row);
    ReadingChange(w.db.revisions, w.results, w.readings, rev, row);
  }

  lemma CommitKeeps(w: World, rev: RevId, before: Revision)
    requires Committing(w, rev, before)
    ensures Inv(w.(db := CommitBatch(w.db, rev, before, w.results[rev])))
  {
    hide Inv, RowOk, Matches, Completed, TerminalGuard, NewerReadable, MarkStale, CommitBatch;
    RowOfCommit(w, rev, before);
    var stored, row := w.results[rev], w.db.revisions[rev];
    var done := Completed(row, stored);
    if !Writable(row) {
      CommitTerminal(w, rev, before);
      if stored.outcome.Converted? && TerminalGuard(row, before, stored) && NewerReadable(w.db.revisions, row.source, row.no) {
        SupersededIs(row, stored, before);
        RowOkParts(row, stored);
        RowOkFrom(Superseded(row, stored), stored);
        QuietRow(w, rev, Superseded(row, stored));
      } else {
        assert w.(db := w.db) == w;
      }
    } else {
      CommitWritable(w, rev, before);
      RowOkParts(row, stored);
      CompletedIs(row, stored);
      RowOkFrom(done, stored);
      if !stored.outcome.Converted? {
        QuietRow(w, rev, done);
      } else if NewerReadable(w.db.revisions, row.source, row.no) {
        CompletedPasses(row, before, stored);
        SupersededIs(done, stored, before);
        RowOkFrom(Superseded(done, stored), stored);
        LateRow(w, rev, Superseded(done, stored));
      } else {
        PublishRow(w, rev, done);
      }
    }
  }

  lemma RowOkParts(row: Revision, stored: Stored)
    requires RowOk(row, Some(stored))
    ensures (row.tokens == None || row.tokens == stored.tokens) && row.job.None? && (Writable(row) || Matches(row, stored))
  {
  }

  lemma RowOkFrom(row: Revision, stored: Stored)
    ensures row.job.None? && (row.tokens == None || row.tokens == stored.tokens) && Matches(row, stored) ==> RowOk(row, Some(stored))
  {
  }

  /** A row that becomes readable after a newer one leaves the head alone. */
  lemma LateRow(w: World, rev: RevId, row: Revision)
    requires Inv(w) && rev in w.db.revisions && SameWho(w.db.revisions[rev], row) && !IsReadable(w.db.revisions[rev].state)
    requires NewerReadable(w.db.revisions, row.source, row.no) && RowOk(row, ResultOf(w.results, rev))
    requires rev in w.results ==> StillSince(w.db.revisions[rev], row, w.results[rev])
    ensures Inv(w.(db := w.db.(revisions := w.db.revisions[rev := row])))
  {
    hide Numbered, Unshared, JobsOk, Chained, ResultsOk, ReadingsOk, RowOk, StillSince;
    RowChange(w.db, rev, row);
    ResultChange(w.db.revisions, w.results, rev, row);
    ReadingChange(w.db.revisions, w.results, w.readings, rev, row);
    var revs := w.db.revisions[rev := row];
    var newer :| newer in w.db.revisions && w.db.revisions[newer].source == row.source && w.db.revisions[newer].no > row.no && IsReadable(w.db.revisions[newer].state);
    forall s: SourceId ensures HeadOk(w.db.heads, revs, s) { assert HeadOk(w.db.heads, w.db.revisions, s); }
    LatePages(w, rev, row);
  }

  lemma LatePages(w: World, rev: RevId, row: Revision)
    requires PagesOk(w.db.heads, w.db.revisions, w.db.pages, w.db.drafts) && rev in w.db.revisions && SameWho(w.db.revisions[rev], row)
    requires !IsReadable(w.db.revisions[rev].state)
    ensures PagesOk(w.db.heads, w.db.revisions[rev := row], w.db.pages, w.db.drafts)
  {
    var revs := w.db.revisions[rev := row];
    forall p | p in w.db.pages ensures PageOk(w.db.heads, revs, w.db.drafts, p, w.db.pages[p]) {
      assert PageOk(w.db.heads, w.db.revisions, w.db.drafts, p, w.db.pages[p]);
    }
  }

  /** The newest readable row takes the head. */
  lemma PublishRow(w: World, rev: RevId, row: Revision)
    requires Inv(w) && rev in w.db.revisions && SameWho(w.db.revisions[rev], row) && !IsReadable(w.db.revisions[rev].state) && IsReadable(row.state)
    requires !NewerReadable(w.db.revisions, row.source, row.no) && RowOk(row, ResultOf(w.results, rev)) && row.source in w.db.heads
    requires rev in w.results ==> StillSince(w.db.revisions[rev], row, w.results[rev])
    ensures Inv(w.(db := w.db.(revisions := w.db.revisions[rev := row], heads := w.db.heads[row.source := Some(rev)],
                               pages := MarkStale(w.db.pages, w.db.drafts, w.db.heads[row.source]))))
  {
    hide Numbered, HeadsOk, Unshared, JobsOk, PagesOk, Chained, ResultsOk, ReadingsOk, RowOk, StillSince, MarkStale;
    RowChange(w.db, rev, row);
    ResultChange(w.db.revisions, w.results, rev, row);
    ReadingChange(w.db.revisions, w.results, w.readings, rev, row);
    assert forall r :: r in w.db.revisions && w.db.revisions[r].source == row.source && IsReadable(w.db.revisions[r].state) && r != rev
                       ==> w.db.revisions[r].no <= row.no;
    HeadTaken(w.db.heads, w.db.revisions, row.source, rev, row);
    PagesAfterMove(w.db.heads, w.db.revisions, w.db.pages, w.db.drafts, row.source, rev, row, w.db.heads[row.source]);
    HeadsStay(w.db.heads, w.db.revisions[rev := row], row.source, Some(rev));
    ChainStale(w.db.pages, w.db.drafts, w.db.heads[row.source]);
  }

  lemma HeadsStay(heads: map<SourceId, Option<RevId>>, revs: map<RevId, Revision>, s: SourceId, h: Option<RevId>)
    requires Numbered(heads, revs)
    ensures Numbered(heads[s := h], revs)
  {
  }

  lemma ChainStale(pages: map<PageId, Page>, drafts: map<DraftId, Draft>, input: Option<RevId>)
    requires Chained(pages, drafts)
    ensures Chained(MarkStale(pages, drafts, input), drafts)
  {
  }
}
