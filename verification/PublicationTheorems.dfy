/** What publication promises over every run of uploads, conversions, OCR, saves and proposals. */
module PublicationTheorems {
  import opened Text
  import opened Publication
  import opened PublicationProofs
  import opened PublicationRuns

  lemma NewIsGood()
    ensures Inv(NewWorld())
  {
    assert Active(map[]) == {};
  }

  lemma {:induction false} ReachedIsGood(events: seq<Event>)
    ensures Inv(Reached(events))
    decreases |events|
  {
    hide Inv, Step;
    if events == [] {
      NewIsGood();
    } else {
      var n := |events| - 1;
      ReachedIsGood(events[..n]);
      StepKeeps(Reached(events[..n]), events[n]);
    }
  }

  // ---------------------------------------------------------------- heads

  /** In every reachable state a source's head is its newest readable revision, and it has none only when none is readable. */
  lemma {:induction false} HeadIsNewestReadable(events: seq<Event>, s: SourceId)
    requires s in Reached(events).db.heads
    ensures var db := Reached(events).db;
            match db.heads[s]
            case None => forall r :: r in db.revisions && db.revisions[r].source == s ==> !IsReadable(db.revisions[r].state)
            case Some(h) =>
              && h in db.revisions && db.revisions[h].source == s && IsReadable(db.revisions[h].state)
              && forall r :: r in db.revisions && db.revisions[r].source == s && IsReadable(db.revisions[r].state) && r != h
                             ==> db.revisions[r].no < db.revisions[h].no
  {
    hide Reached;
    ReachedIsGood(events);
    var db := Reached(events).db;
    assert HeadOk(db.heads, db.revisions, s);
  }

  /** No two sources ever hold the same bytes. */
  lemma {:induction false} BytesHaveOneSource(events: seq<Event>, r: RevId, q: RevId)
    requires var revs := Reached(events).db.revisions; r in revs && q in revs && revs[r].hash == revs[q].hash
    ensures Reached(events).db.revisions[r].source == Reached(events).db.revisions[q].source
  {
    hide Reached;
    ReachedIsGood(events);
  }

  /** Each OCR job has at most one revision, has it exactly when it is applied, and never more than two jobs run. */
  lemma {:induction false} OneRevisionPerJob(events: seq<Event>, r: RevId, q: RevId)
    requires var revs := Reached(events).db.revisions; r in revs && q in revs && revs[r].job.Some? && revs[q].job == revs[r].job
    ensures r == q
    ensures var db := Reached(events).db;
            var job := db.revisions[r].job.value;
            job in db.jobs && db.jobs[job].state == Applied && db.jobs[job].applied == Some(r)
  {
    hide Reached;
    ReachedIsGood(events);
  }

  lemma {:induction false} AtMostTwoJobsRun(events: seq<Event>)
    ensures |Active(Reached(events).db.jobs)| <= 2
  {
    hide Reached;
    ReachedIsGood(events);
  }

  /** A page that has a head and is marked current cites only readable revisions that are the heads of their sources. */
  lemma {:induction false} CurrentPagesAreFresh(events: seq<Event>, p: PageId, k: nat)
    requires var db := Reached(events).db;
             p in db.pages && db.pages[p].head.Some? && db.pages[p].current
    ensures var db := Reached(events).db;
            && db.pages[p].head.value in db.drafts
            && var inputs := db.drafts[db.pages[p].head.value].inputs;
               k < |inputs| ==> inputs[k] in db.revisions && IsReadable(db.revisions[inputs[k]].state)
                                && db.revisions[inputs[k]].source in db.heads && db.heads[db.revisions[inputs[k]].source] == Some(inputs[k])
  {
    hide Reached;
    ReachedIsGood(events);
    var db := Reached(events).db;
    assert PageOk(db.heads, db.revisions, db.drafts, p, db.pages[p]);
  }

  // ---------------------------------------------------------------- one step

  /** What one step may do to the row of a revision. */
  predicate RowMoves(before: Revision, after: Revision, result: Option<Stored>) {
    && SameWho(before, after)
    && (IsReadable(before.state) ==> IsReadable(after.state))
    && (!Writable(before) ==> after == before || (result.Some? && result.value.outcome.Converted? && after == Superseded(before, result.value)))
  }

  ghost predicate RowsMove(w: World, v: World) {
    && (forall r :: r in w.db.revisions ==> r in v.db.revisions && RowMoves(w.db.revisions[r], v.db.revisions[r], ResultOf(w.results, r)))
    && (forall r :: r in w.results ==> r in v.results && v.results[r] == w.results[r])
  }

  ghost predicate HeadsMove(w: World, v: World) {
    forall s :: s in w.db.heads ==>
      && s in v.db.heads
      && (w.db.heads[s].Some? && v.db.heads[s] != w.db.heads[s] ==>
            && v.db.heads[s].Some? && w.db.heads[s].value in v.db.revisions && v.db.heads[s].value in v.db.revisions
            && v.db.revisions[w.db.heads[s].value].no < v.db.revisions[v.db.heads[s].value].no)
  }

  lemma SameRow(row: Revision, result: Option<Stored>)
    ensures RowMoves(row, row, result)
  {
  }

  lemma OneRowMoves(w: World, v: World, rev: RevId, row: Revision)
    requires rev in w.db.revisions ==> RowMoves(w.db.revisions[rev], row, ResultOf(w.results, rev))
    requires v.db.revisions == w.db.revisions[rev := row] && v.results == w.results
    ensures RowsMove(w, v)
  {
    hide RowMoves;
    forall r | r in w.db.revisions ensures RowMoves(w.db.revisions[r], v.db.revisions[r], ResultOf(w.results, r)) {
      SameRow(w.db.revisions[r], ResultOf(w.results, r));
    }
  }

  lemma NoRowMoves(w: World, v: World)
    requires v.db.revisions == w.db.revisions && forall r :: r in w.results ==> r in v.results && v.results[r] == w.results[r]
    ensures RowsMove(w, v)
  {
    hide RowMoves;
    forall r | r in w.db.revisions ensures RowMoves(w.db.revisions[r], v.db.revisions[r], ResultOf(w.results, r)) {
      SameRow(w.db.revisions[r], ResultOf(w.results, r));
    }
  }

  lemma CommitMoves(w: World, rev: RevId, before: Revision)
    requires Committing(w, rev, before)
    ensures var v := w.(db := CommitBatch(w.db, rev, before, w.results[rev])); RowsMove(w, v) && HeadsMove(w, v)
  {
    hide Inv, RowOk, Matches, Completed, TerminalGuard, NewerReadable, MarkStale, CommitBatch, RowMoves;
    RowOfCommit(w, rev, before);
    var stored, row := w.results[rev], w.db.revisions[rev];
    var done := Completed(row, stored);
    var v := w.(db := CommitBatch(w.db, rev, before, stored));
    if !Writable(row) {
      CommitTerminal(w, rev, before);
      if stored.outcome.Converted? && TerminalGuard(row, before, stored) && NewerReadable(w.db.revisions, row.source, row.no) {
        SupersededIs(row, stored, before);
        TerminalMoves(row, stored);
        OneRowMoves(w, v, rev, Superseded(row, stored));
      } else {
        NoRowMoves(w, v);
      }
    } else {
      CommitWritable(w, rev, before);
      RowOkParts(row, stored);
      CompletedIs(row, stored);
      WritableMoves(row, done, ResultOf(w.results, rev));
      WritableMoves(row, Superseded(done, stored), ResultOf(w.results, rev));
      if !stored.outcome.Converted? {
        OneRowMoves(w, v, rev, done);
      } else if NewerReadable(w.db.revisions, row.source, row.no) {
        OneRowMoves(w, v, rev, Superseded(done, stored));
      } else {
        OneRowMoves(w, v, rev, done);
        OlderHead(w, rev, before, done);
      }
    }
  }

  lemma TerminalMoves(row: Revision, stored: Stored)
    requires stored.outcome.Converted? && IsReadable(row.state)
    ensures RowMoves(row, Superseded(row, stored), Some(stored))
  {
  }

  lemma WritableMoves(row: Revision, next: Revision, result: Option<Stored>)
    requires Writable(row) && SameWho(row, next)
    ensures RowMoves(row, next, result)
  {
  }

  lemma ApplyMoves(w: World, job: JobId, rev: RevId, text: Reviewed)
    requires Inv(w)
    ensures RowsMove(w, Step(w, Apply(job, rev, text))) && HeadsMove(w, Step(w, Apply(job, rev, text)))
  {
    hide Inv, ApplyBatch, MarkStale, ReviewedRevision, RowMoves;
    var v := Step(w, Apply(job, rev, text));
    if job in w.db.jobs && rev !in w.db.revisions {
      ApplyIs(w, job, rev, text);
      if ApplyGuard(w.db, job) {
        var base := w.db.revisions[w.db.jobs[job].base];
        ReviewedIs(base, job, base.no + 1, text);
        OneRowMoves(w, v, rev, ReviewedRevision(base, job, base.no + 1, text));
        HeadBelowBase(w, w.db.jobs[job].source, w.db.jobs[job].base);
      } else {
        NoRowMoves(w, v);
      }
    } else {
      NoApply(w.db, job, rev, text);
      NoRowMoves(w, v);
    }
  }

  lemma HeadBelowBase(w: World, s: SourceId, base: RevId)
    requires Inv(w) && s in w.db.heads && Newest(w.db.revisions, base) && w.db.revisions[base].source == s
    ensures w.db.heads[s].Some? ==> w.db.heads[s].value in w.db.revisions && w.db.revisions[w.db.heads[s].value].no <= w.db.revisions[base].no
  {
    assert HeadOk(w.db.heads, w.db.revisions, s);
  }

  lemma UploadMoves(w: World, e: Event)
    requires e.NewSource? || e.Replace?
    ensures RowsMove(w, Step(w, e)) && HeadsMove(w, Step(w, e))
  {
    hide RowMoves;
    var v := Step(w, e);
    match e {
      case NewSource(source, rev, hash) => if v.db != w.db { OneRowMoves(w, v, rev, NewRevision(source, 1, hash)); } else { NoRowMoves(w, v); }
      case Replace(source, rev, no, hash) => if v.db != w.db { OneRowMoves(w, v, rev, NewRevision(source, no, hash)); } else { NoRowMoves(w, v); }
    }
  }

  lemma PendingMoves(w: World, e: Event)
    requires e.Claim? || e.RecordFailure? || e.Note?
    ensures RowsMove(w, Step(w, e)) && HeadsMove(w, Step(w, e))
  {
    hide RowMoves;
    var v := Step(w, e);
    var rev := e.rev;
    if v.db.revisions == w.db.revisions {
      NoRowMoves(w, v);
    } else {
      var row := v.db.revisions[rev];
      WritableMoves(w.db.revisions[rev], row, ResultOf(w.results, rev));
      OneRowMoves(w, v, rev, row);
    }
  }

  lemma AcceptRows(db: Db, draft: DraftId, project: nat, expected: Option<DraftId>)
    ensures var d := AcceptBatch(db, draft, project, expected); d.revisions == db.revisions && d.heads == db.heads
  {
  }

  lemma OtherMoves(w: World, e: Event)
    requires e.Convert? || e.ReadRow? || e.NewJob? || e.Start? || e.Shift? || e.SaveAnswer? || e.ProposeNew? || e.Propose? || e.Reject? || e.Accept?
    ensures Step(w, e).db.revisions == w.db.revisions && Step(w, e).db.heads == w.db.heads
    ensures forall r :: r in w.results ==> r in Step(w, e).results && Step(w, e).results[r] == w.results[r]
  {
    hide MayCommit, FreshInputs, Newest, Active, AcceptBatch;
    if e.Accept? { AcceptRows(w.db, e.draft, e.project, e.expected); }
  }

  lemma StepMoves(w: World, e: Event)
    requires Inv(w)
    ensures RowsMove(w, Step(w, e)) && HeadsMove(w, Step(w, e))
  {
    hide Inv, RowMoves, CommitBatch, ApplyBatch, AcceptBatch, Step;
    var v := Step(w, e);
    match e {
      case Commit(reader) => CommitStepMoves(w, reader);
      case Apply(job, rev, text) => ApplyMoves(w, job, rev, text);
      case NewSource(_, _, _) => UploadMoves(w, e);
      case Replace(_, _, _, _) => UploadMoves(w, e);
      case Claim(_, _) => PendingMoves(w, e);
      case RecordFailure(_, _) => PendingMoves(w, e);
      case Note(_, _) => PendingMoves(w, e);
      case _ => OtherMoves(w, e); NoRowMoves(w, v);
    }
  }

  lemma CommitStepMoves(w: World, reader: Reader)
    requires Inv(w)
    ensures RowsMove(w, Step(w, Commit(reader))) && HeadsMove(w, Step(w, Commit(reader)))
  {
    hide Inv, RowMoves, CommitBatch;
    if reader in w.readings && w.readings[reader].rev in w.results {
      ReadingHolds(w, reader);
      CommitMoves(w, w.readings[reader].rev, w.readings[reader].row);
    } else {
      NoRowMoves(w, w);
    }
  }

  // ---------------------------------------------------------------- whole runs

  lemma WhoMoves(w: World, v: World, r: RevId)
    requires RowsMove(w, v) && r in w.db.revisions
    ensures r in v.db.revisions && SameWho(w.db.revisions[r], v.db.revisions[r])
  {
    assert RowMoves(w.db.revisions[r], v.db.revisions[r], ResultOf(w.results, r));
  }

  lemma {:induction false} RunMoves(events: seq<Event>, more: seq<Event>)
    ensures HeadsMove(Reached(events), Reached(events + more))
    ensures forall r :: r in Reached(events).db.revisions ==>
              r in Reached(events + more).db.revisions && SameWho(Reached(events).db.revisions[r], Reached(events + more).db.revisions[r])
              && (IsReadable(Reached(events).db.revisions[r].state) ==> IsReadable(Reached(events + more).db.revisions[r].state))
    decreases |more|
  {
    hide Inv, Step, RowMoves, HeadsMove, RowsMove;
    if more == [] {
      assert events + more == events;
      HeadsStayPut(Reached(events));
    } else {
      var n := |more| - 1;
      var w, v := Reached(events + more[..n]), Reached(events + more);
      assert (events + more)[..|events + more| - 1] == events + more[..n];
      assert (events + more)[|events + more| - 1] == more[n];
      RunMoves(events, more[..n]);
      ReachedIsGood(events + more[..n]);
      StepMoves(w, more[n]);
      HeadsThrough(Reached(events), w, v);
      forall r | r in Reached(events).db.revisions
        ensures r in v.db.revisions && SameWho(Reached(events).db.revisions[r], v.db.revisions[r])
                && (IsReadable(Reached(events).db.revisions[r].state) ==> IsReadable(v.db.revisions[r].state)) {
        ReadableMoves(w, v, r);
      }
    }
  }

  lemma ReadableMoves(w: World, v: World, r: RevId)
    requires RowsMove(w, v) && r in w.db.revisions
    ensures r in v.db.revisions && SameWho(w.db.revisions[r], v.db.revisions[r]) && (IsReadable(w.db.revisions[r].state) ==> IsReadable(v.db.revisions[r].state))
  {
    assert RowMoves(w.db.revisions[r], v.db.revisions[r], ResultOf(w.results, r));
  }

  lemma HeadsStayPut(w: World)
    ensures HeadsMove(w, w)
  {
  }

  lemma HeadsThrough(w: World, v: World, u: World)
    requires HeadsMove(w, v) && HeadsMove(v, u) && RowsMove(v, u)
    ensures HeadsMove(w, u)
  {
    hide RowMoves;
    forall s | s in w.db.heads && w.db.heads[s].Some? && u.db.heads[s] != w.db.heads[s]
      ensures u.db.heads[s].Some? && w.db.heads[s].value in u.db.revisions && u.db.heads[s].value in u.db.revisions
              && u.db.revisions[w.db.heads[s].value].no < u.db.revisions[u.db.heads[s].value].no
    {
      if v.db.heads[s] != w.db.heads[s] {
        WhoMoves(v, u, v.db.heads[s].value);
        WhoMoves(v, u, w.db.heads[s].value);
      }
    }
  }

  /** Whatever happens later, a head stays or gives way to one with a greater number. */
  lemma {:induction false} HeadNumbersGrow(events: seq<Event>, more: seq<Event>, s: SourceId)
    requires s in Reached(events).db.heads && Reached(events).db.heads[s].Some?
    ensures var w, v := Reached(events), Reached(events + more);
            && s in v.db.heads && v.db.heads[s].Some?
            && w.db.heads[s].value in w.db.revisions && v.db.heads[s].value in v.db.revisions
            && (v.db.heads[s] == w.db.heads[s] || w.db.revisions[w.db.heads[s].value].no < v.db.revisions[v.db.heads[s].value].no)
  {
    hide Reached;
    RunMoves(events, more);
    HeadIsNewestReadable(events, s);
    HeadIsNewestReadable(events + more, s);
  }

  // ---------------------------------------------------------------- terminal results

  /** What may become of a terminal row: nothing, or the note that a newer revision is current. */
  predicate Kept(before: Revision, after: Revision, result: Option<Stored>) {
    after == before || (result.Some? && result.value.outcome.Converted? && after == Superseded(before, result.value))
  }

  /** A terminal conversion result never changes again, except for the note that a newer revision is current. */
  lemma {:induction false} TerminalResultStays(events: seq<Event>, more: seq<Event>, r: RevId)
    requires r in Reached(events).db.revisions && !Writable(Reached(events).db.revisions[r])
    ensures var w, v := Reached(events), Reached(events + more);
            && r in v.db.revisions && !Writable(v.db.revisions[r])
            && Kept(w.db.revisions[r], v.db.revisions[r], ResultOf(v.results, r))
    decreases |more|
  {
    hide Inv, Step, RowMoves, RowsMove, HeadsMove, Kept, Writable;
    if more == [] {
      assert events + more == events;
      StaysKept(Reached(events).db.revisions[r], ResultOf(Reached(events).results, r));
    } else {
      var n := |more| - 1;
      var w, v := Reached(events + more[..n]), Reached(events + more);
      assert (events + more)[..|events + more| - 1] == events + more[..n];
      assert (events + more)[|events + more| - 1] == more[n];
      TerminalResultStays(events, more[..n], r);
      ReachedIsGood(events + more[..n]);
      StepMoves(w, more[n]);
      KeptTwice(Reached(events).db.revisions[r], w, v, r);
    }
  }

  lemma StaysKept(row: Revision, result: Option<Stored>)
    ensures Kept(row, row, result)
  {
  }

  lemma KeptTwice(first: Revision, w: World, v: World, r: RevId)
    requires RowsMove(w, v) && r in w.db.revisions && !Writable(w.db.revisions[r]) && Kept(first, w.db.revisions[r], ResultOf(w.results, r))
    ensures r in v.db.revisions && !Writable(v.db.revisions[r]) && Kept(first, v.db.revisions[r], ResultOf(v.results, r))
  {
    assert RowMoves(w.db.revisions[r], v.db.revisions[r], ResultOf(w.results, r));
  }

  // ---------------------------------------------------------------- a commit is confirmed

  /**
   * Once the batch of a commit has run, acknowledged or not, the read-back finds the stored result in the
   * row, and a readable revision is the head of its source or a newer one is readable.
   */
  lemma {:induction false} CommitIsConfirmed(events: seq<Event>, reader: Reader)
    requires reader in Reached(events).readings
    ensures var g := Reached(events).readings[reader];
            var w := Reached(events + [Commit(reader)]);
            && g.rev in w.results && g.rev in w.db.revisions
            && var row := w.db.revisions[g.rev];
               && Matches(row, w.results[g.rev])
               && (w.results[g.rev].outcome.Converted? ==>
                     && row.source in w.db.heads
                     && (w.db.heads[row.source] == Some(g.rev) || NewerReadable(w.db.revisions, row.source, row.no)))
  {
    hide Inv, CommitBatch, Matches, NewerReadable;
    ReachedIsGood(events);
    var w := Reached(events);
    ReadingHolds(w, reader);
    var g := w.readings[reader];
    assert (events + [Commit(reader)])[..|events|] == events;
    var v := Reached(events + [Commit(reader)]);
    assert v == w.(db := CommitBatch(w.db, g.rev, g.row, w.results[g.rev]));
    ReachedIsGood(events + [Commit(reader)]);
    CommitMatches(w, g.rev, g.row);
    if w.results[g.rev].outcome.Converted? {
      MatchesReadable(v.db.revisions[g.rev], w.results[g.rev]);
      ReadableIsHead(v, g.rev);
    }
  }

  lemma CommitMatches(w: World, rev: RevId, before: Revision)
    requires Committing(w, rev, before)
    ensures var d := CommitBatch(w.db, rev, before, w.results[rev]); rev in d.revisions && Matches(d.revisions[rev], w.results[rev])
  {
    hide Inv, RowOk, Matches, Completed, TerminalGuard, NewerReadable, MarkStale, CommitBatch;
    RowOfCommit(w, rev, before);
    var stored, row := w.results[rev], w.db.revisions[rev];
    RowOkParts(row, stored);
    if !Writable(row) {
      CommitTerminal(w, rev, before);
      if stored.outcome.Converted? && TerminalGuard(row, before, stored) { SupersededIs(row, stored, before); }
    } else {
      CommitWritable(w, rev, before);
      CompletedIs(row, stored);
      if stored.outcome.Converted? {
        CompletedPasses(row, before, stored);
        SupersededIs(Completed(row, stored), stored, before);
      }
    }
  }

  lemma ReadableIsHead(w: World, rev: RevId)
    requires Inv(w) && rev in w.db.revisions && IsReadable(w.db.revisions[rev].state)
    ensures var row := w.db.revisions[rev];
            row.source in w.db.heads && (w.db.heads[row.source] == Some(rev) || NewerReadable(w.db.revisions, row.source, row.no))
  {
    var row := w.db.revisions[rev];
    assert HeadOk(w.db.heads, w.db.revisions, row.source);
    if w.db.heads[row.source] != Some(rev) {
      var h := w.db.heads[row.source].value;
      assert w.db.revisions[h].no > row.no;
    }
  }

  // ---------------------------------------------------------------- accepted heads

  /** The heads a page has had, oldest first. */
  function HeadHistory(events: seq<Event>, p: PageId): seq<DraftId>
    decreases |events|
  {
    if events == [] then []
    else
      var before := HeadHistory(events[..|events| - 1], p);
      var pages := Reached(events).db.pages;
      if p in pages && pages[p].head.Some? && (before == [] || before[|before| - 1] != pages[p].head.value)
      then before + [pages[p].head.value] else before
  }

  function Last(h: seq<DraftId>): Option<DraftId> { if h == [] then None else Some(h[|h| - 1]) }

  /** The history is a chain on the bases, ends at the head, and holds every accepted draft of the page. */
  ghost predicate ChainIs(db: Db, p: PageId, h: seq<DraftId>) {
    && Last(h) == HeadOf(db, p)
    && (forall k :: 0 <= k < |h| ==> AcceptedFor(db, h[k], p) && db.drafts[h[k]].base == Last(h[..k]))
    && (forall d: DraftId :: AcceptedFor(db, d, p) ==> d in h)
  }

  function HeadOf(db: Db, p: PageId): Option<DraftId> { if p in db.pages then db.pages[p].head else None }

  predicate AcceptedFor(db: Db, d: DraftId, p: PageId) { d in db.drafts && db.drafts[d].page == p && db.drafts[d].status == Accepted }

  /** Drafts keep their page and base, and stay accepted. */
  ghost predicate DraftsKeep(a: Db, b: Db) {
    forall d :: d in a.drafts ==>
      d in b.drafts && b.drafts[d].page == a.drafts[d].page && b.drafts[d].base == a.drafts[d].base
      && (a.drafts[d].status == Accepted ==> b.drafts[d].status == Accepted)
  }

  /** What a step may do to a page's head and accepted drafts. */
  ghost predicate HeadSteps(a: Db, b: Db, p: PageId) {
    && (p in a.pages ==> p in b.pages) && DraftsKeep(a, b)
    && (forall d: DraftId :: AcceptedFor(b, d, p) ==> AcceptedFor(a, d, p) || HeadOf(b, p) == Some(d))
    && (HeadOf(b, p) == HeadOf(a, p)
        || (HeadOf(b, p).Some? && AcceptedFor(b, HeadOf(b, p).value, p) && b.drafts[HeadOf(b, p).value].base == HeadOf(a, p)))
  }

  lemma SamePages(a: Db, b: Db, p: PageId)
    requires b.drafts == a.drafts && b.pages.Keys == a.pages.Keys && forall q :: q in a.pages ==> b.pages[q].head == a.pages[q].head
    ensures HeadSteps(a, b, p)
  {
  }

  lemma AcceptHeads(db: Db, draft: DraftId, project: nat, expected: Option<DraftId>, p: PageId)
    requires Chained(db.pages, db.drafts)
    ensures HeadSteps(db, AcceptBatch(db, draft, project, expected), p)
  {
    hide AcceptBatch, FreshInputs;
    if draft in db.drafts { AcceptIs(db, draft, project, expected); } else { NoAccept(db, draft, project, expected); }
  }

  lemma NewPageHeads(a: Db, b: Db, page: PageId, draft: DraftId, row: Page, sheet: Draft, p: PageId)
    requires Chained(a.pages, a.drafts) && page !in a.pages && draft !in a.drafts && sheet.page == page && sheet.base == None
    requires row.head == (if sheet.status == Accepted then Some(draft) else None)
    requires b.pages == a.pages[page := row] && b.drafts == a.drafts[draft := sheet]
    ensures HeadSteps(a, b, p)
  {
  }

  lemma OpenHeads(a: Db, b: Db, draft: DraftId, sheet: Draft, p: PageId)
    requires b.pages == a.pages && b.drafts == a.drafts[draft := sheet] && sheet.status != Accepted
    requires draft in a.drafts ==> sheet.page == a.drafts[draft].page && sheet.base == a.drafts[draft].base && a.drafts[draft].status != Accepted
    ensures HeadSteps(a, b, p)
  {
  }

  lemma SaveHeads(w: World, e: Event, p: PageId)
    requires Chained(w.db.pages, w.db.drafts) && (e.SaveAnswer? || e.ProposeNew? || e.Propose? || e.Reject?)
    ensures HeadSteps(w.db, Step(w, e).db, p)
  {
    hide FreshInputs, HeadSteps, Chained;
    var a, b := w.db, Step(w, e).db;
    if b == a {
      SamePages(a, b, p);
    } else {
      match e {
        case SaveAnswer(page, draft, _, _) => NewPageHeads(a, b, page, draft, b.pages[page], b.drafts[draft], p);
        case ProposeNew(page, draft, _, _) => NewPageHeads(a, b, page, draft, b.pages[page], b.drafts[draft], p);
        case Propose(_, draft, _, _) => OpenHeads(a, b, draft, b.drafts[draft], p);
        case Reject(draft) => OpenHeads(a, b, draft, b.drafts[draft], p);
      }
    }
  }

  lemma OtherHeads(w: World, e: Event, p: PageId)
    requires e.NewSource? || e.Replace? || e.Claim? || e.Convert? || e.ReadRow? || e.RecordFailure? || e.Note? || e.NewJob? || e.Start? || e.Shift?
    ensures Step(w, e).db.pages == w.db.pages && Step(w, e).db.drafts == w.db.drafts
  {
    hide MayCommit, Newest, Active, NumberTaken, HeldElsewhere;
  }

  lemma BatchHeads(w: World, e: Event, p: PageId)
    requires Inv(w) && (e.Commit? || e.Apply?)
    ensures HeadSteps(w.db, Step(w, e).db, p)
  {
    hide Inv, CommitBatch, ApplyBatch, HeadSteps;
    match e {
      case Commit(reader) =>
        if reader in w.readings && w.readings[reader].rev in w.results {
          ReadingHolds(w, reader);
          CommitPages(w, w.readings[reader].rev, w.readings[reader].row);
        }
      case Apply(job, rev, text) =>
        if job in w.db.jobs && rev !in w.db.revisions { ApplyIs(w, job, rev, text); } else { NoApply(w.db, job, rev, text); }
    }
    SamePages(w.db, Step(w, e).db, p);
  }

  lemma StepHeads(w: World, e: Event, p: PageId)
    requires Inv(w)
    ensures HeadSteps(w.db, Step(w, e).db, p)
  {
    hide Inv, HeadSteps, Chained, PagesOk, CommitBatch, ApplyBatch, AcceptBatch;
    InvPages(w);
    if e.Accept? {
      AcceptHeads(w.db, e.draft, e.project, e.expected, p);
    } else if e.Commit? || e.Apply? {
      BatchHeads(w, e, p);
    } else if e.SaveAnswer? || e.ProposeNew? || e.Propose? || e.Reject? {
      SaveHeads(w, e, p);
    } else {
      OtherHeads(w, e, p);
      SamePages(w.db, Step(w, e).db, p);
    }
  }

  lemma InvPages(w: World)
    requires Inv(w)
    ensures Chained(w.db.pages, w.db.drafts) && PagesOk(w.db.heads, w.db.revisions, w.db.pages, w.db.drafts)
  {
  }

  lemma CommitPages(w: World, rev: RevId, before: Revision)
    requires Committing(w, rev, before)
    ensures var d := CommitBatch(w.db, rev, before, w.results[rev]);
            d.drafts == w.db.drafts && d.pages.Keys == w.db.pages.Keys && forall p :: p in d.pages ==> d.pages[p].head == w.db.pages[p].head
  {
    hide Inv, RowOk, Matches, Completed, TerminalGuard, NewerReadable, CommitBatch;
    if Writable(w.db.revisions[rev]) { CommitWritable(w, rev, before); } else { CommitTerminal(w, rev, before); }
  }

  lemma ChainStays(a: Db, b: Db, p: PageId, h: seq<DraftId>)
    requires ChainIs(a, p, h) && HeadSteps(a, b, p) && HeadOf(b, p) == HeadOf(a, p)
    ensures ChainIs(b, p, h)
  {
  }

  lemma ChainExtends(a: Db, b: Db, p: PageId, h: seq<DraftId>, d: DraftId)
    requires ChainIs(a, p, h) && HeadSteps(a, b, p) && HeadOf(b, p) == Some(d) && HeadOf(a, p) != Some(d)
    ensures ChainIs(b, p, h + [d])
  {
    var g := h + [d];
    assert g[..|h|] == h;
    forall k | 0 <= k < |g| ensures AcceptedFor(b, g[k], p) && b.drafts[g[k]].base == Last(g[..k]) {
      if k < |h| { assert g[..k] == h[..k] && AcceptedFor(a, h[k], p); }
    }
    forall x | AcceptedFor(b, x, p) ensures x in g {
      if AcceptedFor(a, x, p) { assert x in h; } else { assert g[|h|] == d; }
    }
  }

  lemma ChainGrows(a: Db, b: Db, p: PageId, h: seq<DraftId>)
    requires ChainIs(a, p, h) && HeadSteps(a, b, p)
    ensures ChainIs(b, p, if HeadOf(b, p).Some? && HeadOf(b, p) != Last(h) then h + [HeadOf(b, p).value] else h)
  {
    hide ChainIs, HeadSteps;
    assert Last(h) == HeadOf(a, p) by { ChainEnd(a, p, h); }
    assert HeadOf(b, p) == HeadOf(a, p) || HeadOf(b, p).Some? by { HeadGoesOn(a, b, p); }
    if HeadOf(b, p) == HeadOf(a, p) { ChainStays(a, b, p, h); } else { ChainExtends(a, b, p, h, HeadOf(b, p).value); }
  }

  lemma ChainEnd(db: Db, p: PageId, h: seq<DraftId>)
    requires ChainIs(db, p, h)
    ensures Last(h) == HeadOf(db, p)
  {
  }

  lemma HeadGoesOn(a: Db, b: Db, p: PageId)
    requires HeadSteps(a, b, p)
    ensures HeadOf(b, p) == HeadOf(a, p) || HeadOf(b, p).Some?
  {
  }

  /**
   * The accepted drafts of a page are exactly its heads in the order they were accepted, each on the
   * base of the one before: nothing accepted is skipped, replaced or branched from.
   */
  lemma {:induction false} AcceptedHeadsAreAChain(events: seq<Event>, p: PageId)
    ensures ChainIs(Reached(events).db, p, HeadHistory(events, p))
    decreases |events|
  {
    hide Inv, Step, ChainIs, HeadSteps;
    if events == [] {
      assert ChainIs(NewWorld().db, p, []) by { EmptyChain(p); }
    } else {
      var n := |events| - 1;
      AcceptedHeadsAreAChain(events[..n], p);
      ReachedIsGood(events[..n]);
      StepHeads(Reached(events[..n]), events[n], p);
      ChainGrows(Reached(events[..n]).db, Reached(events).db, p, HeadHistory(events[..n], p));
    }
  }

  lemma EmptyChain(p: PageId)
    ensures ChainIs(NewWorld().db, p, [])
  {
  }
}
