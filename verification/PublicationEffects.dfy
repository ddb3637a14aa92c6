/** What each batch does to the rows in every reached state, spelled out over the tables. */
module PublicationEffects {
  import opened Text
  import opened Publication
  import opened PublicationProofs
  import opened PublicationRuns
  import opened PublicationTheorems

  lemma {:induction false} OneMore(events: seq<Event>, e: Event)
    ensures Reached(events + [e]) == Step(Reached(events), e)
  {
    hide Step;
    assert (events + [e])[..|events|] == events;
  }

  // ---------------------------------------------------------------- freshness

  /** The revision can be read and is the current one of its source. */
  predicate Current(db: Db, r: RevId) {
    && r in db.revisions && db.revisions[r].state in {Readable, ReadableWithWarnings}
    && db.revisions[r].source in db.heads && db.heads[db.revisions[r].source] == Some(r)
  }

  predicate AllCurrent(db: Db, inputs: seq<RevId>) { forall k :: 0 <= k < |inputs| ==> Current(db, inputs[k]) }

  lemma FreshIs(db: Db, inputs: seq<RevId>)
    ensures FreshInputs(db.heads, db.revisions, inputs) == AllCurrent(db, inputs)
  {
  }

  /** Nothing of the sources changed. */
  predicate SourcesStay(a: Db, b: Db) { b.heads == a.heads && b.revisions == a.revisions && b.jobs == a.jobs }

  /**
   * A saved answer is a page with its draft as head, current exactly when every revision that the answer was scoped to
   * can be read and is the current one of its source; nothing happens when one of the ids is taken.
   */
  lemma {:induction false} SavedPageIsFresh(events: seq<Event>, page: PageId, draft: DraftId, project: nat, inputs: seq<RevId>)
    ensures var a, b := Reached(events).db, Reached(events + [SaveAnswer(page, draft, project, inputs)]).db;
            if page in a.pages || draft in a.drafts then b == a
            else
              && SourcesStay(a, b)
              && b.pages == a.pages[page := Page(project, Some(draft), AllCurrent(a, inputs))]
              && b.drafts == a.drafts[draft := Draft(page, Accepted, None, inputs)]
  {
    hide Reached, FreshInputs, AllCurrent;
    OneMore(events, SaveAnswer(page, draft, project, inputs));
    FreshIs(Reached(events).db, inputs);
  }

  /** A proposal waits beside its page, on the head that was read for it; a new page of a proposal has no head. */
  lemma {:induction false} ProposalWaits(events: seq<Event>, page: PageId, draft: DraftId, project: nat, base: Option<DraftId>, inputs: seq<RevId>)
    ensures var a, b := Reached(events).db, Reached(events + [ProposeNew(page, draft, project, inputs)]).db;
            if page in a.pages || draft in a.drafts then b == a
            else SourcesStay(a, b) && b.pages == a.pages[page := Page(project, None, true)] && b.drafts == a.drafts[draft := Draft(page, Proposed, None, inputs)]
    ensures var a, b := Reached(events).db, Reached(events + [Propose(page, draft, base, inputs)]).db;
            if page !in a.pages || draft in a.drafts then b == a
            else SourcesStay(a, b) && b.pages == a.pages && b.drafts == a.drafts[draft := Draft(page, Proposed, base, inputs)]
  {
    hide Reached, Step;
    OneMore(events, ProposeNew(page, draft, project, inputs));
    OneMore(events, Propose(page, draft, base, inputs));
    ProposeIs(Reached(events), page, draft, project, base, inputs);
  }

  lemma ProposeIs(w: World, page: PageId, draft: DraftId, project: nat, base: Option<DraftId>, inputs: seq<RevId>)
    ensures Step(w, ProposeNew(page, draft, project, inputs)).db == ProposeNewBatch(w.db, page, draft, project, inputs)
    ensures Step(w, Propose(page, draft, base, inputs)).db == ProposeBatch(w.db, page, draft, base, inputs)
  {
    hide ProposeNewBatch, ProposeBatch;
  }

  /** The proposal can be accepted: it is open, and the head that the owner saw is its base and still the head of its page. */
  predicate Acceptable(db: Db, draft: DraftId, project: nat, expected: Option<DraftId>) {
    && draft in db.drafts && db.drafts[draft].status == Proposed && db.drafts[draft].base == expected
    && db.drafts[draft].page in db.pages && db.pages[db.drafts[draft].page].project == project
    && db.pages[db.drafts[draft].page].head == expected
  }

  /**
   * An acceptance takes effect exactly when the proposal can be accepted: then the draft is the head of its page, which
   * is current exactly when all its inputs are; otherwise nothing changes.
   */
  lemma {:induction false} AcceptedPageIsFresh(events: seq<Event>, draft: DraftId, project: nat, expected: Option<DraftId>)
    ensures var a, b := Reached(events).db, Reached(events + [Accept(draft, project, expected)]).db;
            if !Acceptable(a, draft, project, expected) then b == a
            else
              && SourcesStay(a, b)
              && b.drafts == a.drafts[draft := a.drafts[draft].(status := Accepted)]
              && b.pages == a.pages[a.drafts[draft].page := Page(project, Some(draft), AllCurrent(a, a.drafts[draft].inputs))]
  {
    hide Reached, FreshInputs, AllCurrent, Inv, AcceptBatch, Chained;
    var a := Reached(events).db;
    OneMore(events, Accept(draft, project, expected));
    ReachedIsGood(events);
    InvPages(Reached(events));
    if draft in a.drafts {
      AcceptIs(a, draft, project, expected);
      FreshIs(a, a.drafts[draft].inputs);
    } else {
      NoAccept(a, draft, project, expected);
    }
  }

  /** Only an open proposal is rejected. */
  lemma {:induction false} RejectedStays(events: seq<Event>, draft: DraftId)
    ensures var a, b := Reached(events).db, Reached(events + [Reject(draft)]).db;
            if draft in a.drafts && a.drafts[draft].status == Proposed
            then SourcesStay(a, b) && b.pages == a.pages && b.drafts == a.drafts[draft := a.drafts[draft].(status := Rejected)] else b == a
  {
    hide Reached;
    OneMore(events, Reject(draft));
  }

  /** The page shows a revision that was the current one of its source and is not any more. */
  ghost predicate LostInput(a: Db, b: Db, p: PageId) {
    && p in a.pages && a.pages[p].head.Some? && a.pages[p].head.value in a.drafts
    && exists k :: 0 <= k < |a.drafts[a.pages[p].head.value].inputs| && Current(a, a.drafts[a.pages[p].head.value].inputs[k])
                   && !Current(b, a.drafts[a.pages[p].head.value].inputs[k])
  }

  /** The head of one source moves, and the pages that show its old head are marked. */
  predicate Moves(a: Db, b: Db, s: SourceId, new_: RevId, input: Option<RevId>) {
    && s in a.heads && b.heads == a.heads[s := Some(new_)] && a.heads[s] != Some(new_) && b.drafts == a.drafts
    && b.pages == MarkStale(a.pages, a.drafts, input)
    && (a.heads[s].Some? ==> input == a.heads[s])
    && (input.Some? ==> input.value in a.revisions && a.revisions[input.value].source == s)
  }

  /** No head moves, and the page and its draft are left alone. */
  ghost predicate Leaves(a: Db, b: Db, p: PageId) {
    && (forall s :: s in a.heads ==> s in b.heads && b.heads[s] == a.heads[s])
    && p in a.pages && p in b.pages && b.pages[p] == a.pages[p]
  }

  predicate Cites(db: Db, p: PageId, r: RevId) {
    && p in db.pages && db.pages[p].head.Some? && db.pages[p].head.value in db.drafts && r in db.drafts[db.pages[p].head.value].inputs
  }

  lemma RowStaysReadable(w: World, v: World, r: RevId)
    requires RowsMove(w, v) && r in w.db.revisions
    ensures r in v.db.revisions && v.db.revisions[r].source == w.db.revisions[r].source
    ensures IsReadable(w.db.revisions[r].state) ==> IsReadable(v.db.revisions[r].state)
  {
    assert RowMoves(w.db.revisions[r], v.db.revisions[r], ResultOf(w.results, r));
  }

  lemma StaysCurrent(w: World, v: World, r: RevId)
    requires RowsMove(w, v) && Current(w.db, r)
    ensures var s := w.db.revisions[r].source;
            Current(v.db, r) <==> s in v.db.heads && v.db.heads[s] == w.db.heads[s]
  {
    hide RowsMove;
    RowStaysReadable(w, v, r);
  }

  /** A current page with a head shows only current revisions. */
  lemma ShowsCurrent(w: World, p: PageId)
    requires PagesOk(w.db.heads, w.db.revisions, w.db.pages, w.db.drafts) && p in w.db.pages && w.db.pages[p].current && w.db.pages[p].head.Some?
    ensures w.db.pages[p].head.value in w.db.drafts && w.db.drafts[w.db.pages[p].head.value].status == Accepted
    ensures AllCurrent(w.db, w.db.drafts[w.db.pages[p].head.value].inputs)
  {
    hide FreshInputs, AllCurrent;
    assert PageOk(w.db.heads, w.db.revisions, w.db.drafts, p, w.db.pages[p]);
    FreshIs(w.db, w.db.drafts[w.db.pages[p].head.value].inputs);
  }

  /** What StaleExactly says of one step. */
  ghost predicate StaleStepIs(a: Db, b: Db, p: PageId) {
    && p in a.pages && p in b.pages && b.pages[p].project == a.pages[p].project
    && (b.pages[p].head == a.pages[p].head ==> (!b.pages[p].current <==> LostInput(a, b, p)))
    && (b.pages[p].head != a.pages[p].head ==>
          b.pages[p].head.Some? && b.pages[p].head.value in b.drafts && b.pages[p].current == AllCurrent(b, b.drafts[b.pages[p].head.value].inputs))
  }

  lemma LeftAlone(w: World, v: World, p: PageId)
    requires PagesOk(w.db.heads, w.db.revisions, w.db.pages, w.db.drafts) && RowsMove(w, v) && Leaves(w.db, v.db, p) && w.db.pages[p].current
    ensures StaleStepIs(w.db, v.db, p)
  {
    hide RowsMove, Current, FreshInputs, PagesOk;
    if w.db.pages[p].head.Some? {
      ShowsCurrent(w, p);
      forall r | Current(w.db, r) ensures Current(v.db, r) { StaysCurrent(w, v, r); assert w.db.revisions[r].source in w.db.heads by { CurrentHas(w.db, r); } }
    }
  }

  lemma CurrentHas(db: Db, r: RevId)
    requires Current(db, r)
    ensures r in db.revisions && db.revisions[r].source in db.heads && db.heads[db.revisions[r].source] == Some(r)
  {
  }

  lemma MovedAway(w: World, v: World, p: PageId, s: SourceId, new_: RevId, input: Option<RevId>)
    requires PagesOk(w.db.heads, w.db.revisions, w.db.pages, w.db.drafts) && RowsMove(w, v) && Moves(w.db, v.db, s, new_, input)
    requires p in w.db.pages && w.db.pages[p].current
    ensures StaleStepIs(w.db, v.db, p)
  {
    hide RowsMove, Current, FreshInputs, PagesOk;
    if w.db.pages[p].head.Some? {
      ShowsCurrent(w, p);
      var inputs := w.db.drafts[w.db.pages[p].head.value].inputs;
      forall k | 0 <= k < |inputs| ensures !Current(v.db, inputs[k]) <==> Some(inputs[k]) == input {
        assert Current(w.db, inputs[k]);
        CurrentHas(w.db, inputs[k]);
        StaysCurrent(w, v, inputs[k]);
      }
      assert (input.Some? && input.value in inputs) <==> LostInput(w.db, v.db, p);
    }
  }

  lemma CommitStale(w: World, v: World, reader: Reader, p: PageId)
    requires Inv(w) && v == Step(w, Commit(reader)) && RowsMove(w, v) && p in w.db.pages && w.db.pages[p].current
    ensures StaleStepIs(w.db, v.db, p)
  {
    hide Inv, RowsMove, PagesOk, StaleStepIs, Completed, Matches, TerminalGuard, NewerReadable, MarkStale, CommitBatch;
    InvPages(w);
    if reader !in w.readings || w.readings[reader].rev !in w.results {
      LeftAlone(w, v, p);
    } else {
      var g := w.readings[reader];
      ReadingHolds(w, reader);
      RowOfCommit(w, g.rev, g.row);
      var row, stored := w.db.revisions[g.rev], w.results[g.rev];
      if !Writable(row) {
        CommitTerminal(w, g.rev, g.row);
        LeftAlone(w, v, p);
      } else {
        CommitWritable(w, g.rev, g.row);
        if !stored.outcome.Converted? || NewerReadable(w.db.revisions, row.source, row.no) {
          LeftAlone(w, v, p);
        } else {
          OlderHead(w, g.rev, g.row, row);
          MovedAway(w, v, p, row.source, g.rev, w.db.heads[row.source]);
        }
      }
    }
  }

  lemma ApplyStale(w: World, v: World, job: JobId, rev: RevId, text: Reviewed, p: PageId)
    requires Inv(w) && v == Step(w, Apply(job, rev, text)) && RowsMove(w, v) && p in w.db.pages && w.db.pages[p].current
    ensures StaleStepIs(w.db, v.db, p)
  {
    hide Inv, RowsMove, PagesOk, StaleStepIs, MarkStale, ApplyBatch, ReviewedRevision, Newest;
    InvPages(w);
    if job !in w.db.jobs || rev in w.db.revisions {
      NoApply(w.db, job, rev, text);
      LeftAlone(w, v, p);
    } else {
      ApplyIs(w, job, rev, text);
      if ApplyGuard(w.db, job) {
        var j := w.db.jobs[job];
        BaseIs(w, job);
        MovedAway(w, v, p, j.source, rev, Some(if j.baseHead.Some? then j.baseHead.value else j.base));
      } else {
        LeftAlone(w, v, p);
      }
    }
  }

  lemma BaseIs(w: World, job: JobId)
    requires Inv(w) && job in w.db.jobs && ApplyGuard(w.db, job)
    ensures var j := w.db.jobs[job];
            var input := if j.baseHead.Some? then j.baseHead.value else j.base;
            input in w.db.revisions && w.db.revisions[input].source == j.source
  {
    assert HeadOk(w.db.heads, w.db.revisions, w.db.jobs[job].source);
  }

  lemma AcceptStale(w: World, v: World, draft: DraftId, project: nat, expected: Option<DraftId>, p: PageId)
    requires Inv(w) && v == Step(w, Accept(draft, project, expected)) && RowsMove(w, v) && p in w.db.pages && w.db.pages[p].current
    ensures StaleStepIs(w.db, v.db, p)
  {
    hide Inv, RowsMove, PagesOk, Chained, StaleStepIs, AcceptBatch, FreshInputs, AllCurrent;
    InvPages(w);
    AcceptRows(w.db, draft, project, expected);
    if draft !in w.db.drafts {
      NoAccept(w.db, draft, project, expected);
      LeftAlone(w, v, p);
    } else {
      AcceptIs(w.db, draft, project, expected);
      if w.db.drafts[draft].page == p && v.db != w.db {
        FreshIs(w.db, w.db.drafts[draft].inputs);
        assert AllCurrent(v.db, w.db.drafts[draft].inputs) == AllCurrent(w.db, w.db.drafts[draft].inputs) by { SameCurrent(w.db, v.db, w.db.drafts[draft].inputs); }
        OwnAcceptance(w, v, draft, p);
      } else {
        LeftAlone(w, v, p);
      }
    }
  }

  lemma SameCurrent(a: Db, b: Db, inputs: seq<RevId>)
    requires a.heads == b.heads && a.revisions == b.revisions
    ensures AllCurrent(a, inputs) == AllCurrent(b, inputs)
  {
  }

  lemma OwnAcceptance(w: World, v: World, draft: DraftId, p: PageId)
    requires p in w.db.pages && draft in w.db.drafts && w.db.drafts[draft].status == Proposed && w.db.drafts[draft].page == p
    requires PagesOk(w.db.heads, w.db.revisions, w.db.pages, w.db.drafts)
    requires v.db.drafts == w.db.drafts[draft := w.db.drafts[draft].(status := Accepted)]
    requires v.db.pages == w.db.pages[p := w.db.pages[p].(head := Some(draft), current := AllCurrent(v.db, w.db.drafts[draft].inputs))]
    ensures StaleStepIs(w.db, v.db, p)
  {
    hide FreshInputs, AllCurrent;
    assert PageOk(w.db.heads, w.db.revisions, w.db.drafts, p, w.db.pages[p]);
  }

  lemma QuietStale(w: World, v: World, e: Event, p: PageId)
    requires Inv(w) && v == Step(w, e) && RowsMove(w, v) && p in w.db.pages && w.db.pages[p].current
    requires !e.Commit? && !e.Apply? && !e.Accept?
    ensures StaleStepIs(w.db, v.db, p)
  {
    hide Inv, RowsMove, PagesOk, StaleStepIs;
    InvPages(w);
    assert Leaves(w.db, v.db, p) by { QuietLeaves(w, e, p); }
    LeftAlone(w, v, p);
  }

  lemma QuietLeaves(w: World, e: Event, p: PageId)
    requires p in w.db.pages && !e.Commit? && !e.Apply? && !e.Accept?
    ensures Leaves(w.db, Step(w, e).db, p)
  {
    hide MayCommit, FreshInputs, Newest, Active, NumberTaken, HeldElsewhere;
  }

  lemma StepStale(w: World, e: Event, p: PageId)
    requires Inv(w) && p in w.db.pages && w.db.pages[p].current
    ensures StaleStepIs(w.db, Step(w, e).db, p)
  {
    hide Inv, Step, StaleStepIs, RowsMove, HeadsMove;
    StepMoves(w, e);
    match e {
      case Commit(reader) => CommitStale(w, Step(w, e), reader, p);
      case Apply(job, rev, text) => ApplyStale(w, Step(w, e), job, rev, text, p);
      case Accept(draft, project, expected) => AcceptStale(w, Step(w, e), draft, project, expected, p);
      case _ => QuietStale(w, Step(w, e), e, p);
    }
  }

  /**
   * No step takes a page away, and a step makes a current page stale exactly when the page loses an input: a revision
   * that it shows stops being the current one of its source. When the page itself takes a new head, the inputs of that
   * head decide.
   */
  lemma {:induction false} StaleExactly(events: seq<Event>, e: Event, p: PageId)
    requires p in Reached(events).db.pages && Reached(events).db.pages[p].current
    ensures var a, b := Reached(events).db, Reached(events + [e]).db;
            && p in b.pages && b.pages[p].project == a.pages[p].project
            && (b.pages[p].head == a.pages[p].head ==> (!b.pages[p].current <==> LostInput(a, b, p)))
            && (b.pages[p].head != a.pages[p].head ==>
                  b.pages[p].head.Some? && b.pages[p].head.value in b.drafts && b.pages[p].current == AllCurrent(b, b.drafts[b.pages[p].head.value].inputs))
  {
    hide Reached, Inv, Step, AllCurrent, LostInput;
    ReachedIsGood(events);
    OneMore(events, e);
    StepStale(Reached(events), e, p);
  }

  // ---------------------------------------------------------------- conversions

  /** The row that a conversion's result makes of the row that was waiting for it. */
  predicate Says(before: Revision, after: Revision, stored: Stored, newer: bool) {
    && after.source == before.source && after.no == before.no && after.hash == before.hash && after.job == before.job
    && after.ms == Some(stored.ms) && after.calls == (if before.calls >= stored.calls then before.calls else stored.calls)
    && after.tokens == (if before.tokens.Some? then before.tokens else stored.tokens)
    && match stored.outcome
       case FailedWith(message) =>
         after.state == Failed && after.error == Some(Reported(message)) && after.warning == None
         && after.converter == before.converter && after.size == before.size && after.blocks == before.blocks
       case Unconverted(reason) =>
         after.state == NeedsConversion && after.error == None && after.warning == Some(Warning(reason, false))
         && after.converter == before.converter && after.size == before.size && after.blocks == before.blocks
       case Converted(converter, size, blocks, note) =>
         && after.converter == Some(converter) && after.size == Some(size) && after.blocks == Some(blocks) && after.error == None
         && if newer then after.state == ReadableWithWarnings && after.warning == Some(Warning(if note.Some? then note.value else "", true))
            else if note.None? then after.state == Readable && after.warning == None
            else after.state == (if note.value == "" then Readable else ReadableWithWarnings) && after.warning == Some(Warning(note.value, false))
  }

  /** The row may still take its result. */
  predicate Waits(row: Revision) { row.state == Pending || (row.state == Failed && row.error == Some(StorageFailure)) }

  /** Another revision of the source can be read and has a greater number. */
  predicate Newer(db: Db, s: SourceId, no: nat) {
    exists r :: r in db.revisions && db.revisions[r].source == s && db.revisions[r].no > no && db.revisions[r].state in {Readable, ReadableWithWarnings}
  }

  /**
   * The first commit of a result writes exactly that result into its row. The row becomes the head of its source exactly
   * when it can be read and no newer one can; then, and only then, the pages that show the old head are marked.
   */
  lemma {:induction false} CommitStores(events: seq<Event>, reader: Reader)
    requires reader in Reached(events).readings
    requires var rev := Reached(events).readings[reader].rev; rev in Reached(events).db.revisions && Waits(Reached(events).db.revisions[rev])
    ensures var w := Reached(events);
            var a, b, rev := w.db, Reached(events + [Commit(reader)]).db, w.readings[reader].rev;
            && rev in a.revisions && rev in w.results && rev in b.revisions
            && var row := a.revisions[rev];
               var newer := Newer(a, row.source, row.no);
               && row.source in a.heads && b.revisions == a.revisions[rev := b.revisions[rev]] && b.jobs == a.jobs && b.drafts == a.drafts
               && Says(row, b.revisions[rev], w.results[rev], newer)
               && (if w.results[rev].outcome.Converted? && !newer
                   then b.heads == a.heads[row.source := Some(rev)] && b.pages == MarkStale(a.pages, a.drafts, a.heads[row.source])
                   else b.heads == a.heads && b.pages == a.pages)
  {
    hide Inv, Reached, CommitBatch, MarkStale, NewerReadable, Completed, Newer, Says;
    var w := Reached(events);
    ReachedIsGood(events);
    OneMore(events, Commit(reader));
    ReadingHolds(w, reader);
    var g := w.readings[reader];
    var row, stored := w.db.revisions[g.rev], w.results[g.rev];
    RowOfCommit(w, g.rev, g.row);
    CommitWritable(w, g.rev, g.row);
    NewerIs(w.db, row.source, row.no);
    CompletedSays(row, stored);
  }

  lemma NewerIs(db: Db, s: SourceId, no: nat)
    ensures NewerReadable(db.revisions, s, no) == Newer(db, s, no)
  {
  }

  lemma CompletedSays(row: Revision, stored: Stored)
    ensures Says(row, Completed(row, stored), stored, false)
    ensures stored.outcome.Converted? ==> Says(row, Superseded(Completed(row, stored), stored), stored, true)
    ensures !stored.outcome.Converted? ==> Says(row, Completed(row, stored), stored, true)
  {
  }

  /** A storage failure ends only a row that was waiting, and keeps the usage that is known. */
  lemma {:induction false} FailureStores(events: seq<Event>, rev: RevId, withResult: bool)
    ensures var w := Reached(events);
            var a, b := w.db, Reached(events + [RecordFailure(rev, withResult)]).db;
            var known := withResult && rev in w.results;
            if rev !in a.revisions || a.revisions[rev].state != Pending then b == a
            else
              && b == a.(revisions := a.revisions[rev := b.revisions[rev]]) && rev in b.revisions
              && var row, next := a.revisions[rev], b.revisions[rev];
              && next == row.(state := Failed, error := Some(StorageFailure), tokens := next.tokens, calls := next.calls, ms := next.ms)
              && next.tokens == (if row.tokens.Some? || !known then row.tokens else w.results[rev].tokens)
              && next.calls == (if known && w.results[rev].calls > row.calls then w.results[rev].calls else row.calls)
              && next.ms == (if row.ms.Some? || !known then row.ms else Some(w.results[rev].ms))
  {
    hide Reached;
    OneMore(events, RecordFailure(rev, withResult));
  }

  // ---------------------------------------------------------------- OCR jobs

  /** The base of the job is the newest revision, and the head is the one the job was made for. */
  predicate Unmoved(db: Db, j: Job) {
    && j.source in db.heads && db.heads[j.source] == j.baseHead && j.base in db.revisions && db.revisions[j.base].source == j.source
    && forall r :: r in db.revisions && db.revisions[r].source == j.source ==> db.revisions[r].no <= db.revisions[j.base].no
  }

  /** The revision after the base, with the base's bytes and the reviewed text. */
  function NextText(s: SourceId, base: Revision, job: JobId, text: Reviewed): Revision {
    Revision(s, base.no + 1, base.hash, Some(job),
             if text.warning == None || text.warning == Some("") then Readable else ReadableWithWarnings,
             Some("reviewed_ocr"), Some(text.size), Some(text.blocks),
             if text.warning == None then None else Some(Warning(text.warning.value, false)), None, text.tokens, text.calls, text.ms)
  }

  /**
   * Applying a job under a new id takes effect exactly when the job is ready and its source has not moved: then the
   * reviewed text is the next revision and the head of the source, the job has it, and the pages that showed the old
   * head are marked; otherwise nothing changes.
   */
  lemma {:induction false} AppliedTextIsHead(events: seq<Event>, job: JobId, rev: RevId, text: Reviewed)
    requires job in Reached(events).db.jobs && rev !in Reached(events).db.revisions
    ensures var a, b := Reached(events).db, Reached(events + [Apply(job, rev, text)]).db;
            var j := a.jobs[job];
            && j.base in a.revisions
            && if j.state != Ready || !Unmoved(a, j) then b == a
               else
                 && b.revisions == a.revisions[rev := NextText(j.source, a.revisions[j.base], job, text)]
                 && b.heads == a.heads[j.source := Some(rev)] && b.jobs == a.jobs[job := Job(j.source, j.base, j.baseHead, Applied, Some(rev))]
                 && b.drafts == a.drafts && b.pages == MarkStale(a.pages, a.drafts, Some(if j.baseHead.Some? then j.baseHead.value else j.base))
  {
    hide Inv, Reached, ApplyBatch, MarkStale, Unmoved, Newest;
    var w := Reached(events);
    ReachedIsGood(events);
    OneMore(events, Apply(job, rev, text));
    ApplyIs(w, job, rev, text);
    InvJobs(w);
    assert ApplyGuard(w.db, job) <==> w.db.jobs[job].state == Ready && Unmoved(w.db, w.db.jobs[job]) by { GuardIs(w.db, job); }
  }

  lemma GuardIs(db: Db, job: JobId)
    requires job in db.jobs
    ensures ApplyGuard(db, job) <==> db.jobs[job].state == Ready && Unmoved(db, db.jobs[job])
  {
  }

  /** A job is queued exactly when it is prepared, fewer than two are queued or running, and its source has not moved. */
  lemma {:induction false} StartedJobIsQueued(events: seq<Event>, job: JobId)
    requires job in Reached(events).db.jobs
    ensures var a, b := Reached(events).db, Reached(events + [Start(job)]).db;
            var active := set k | k in a.jobs && a.jobs[k].state in {Queued, Running};
            b == if a.jobs[job].state == Preparing && |active| < 2 && Unmoved(a, a.jobs[job])
                 then a.(jobs := a.jobs[job := a.jobs[job].(state := Queued)]) else a
  {
    hide Inv, Reached, Newest, Unmoved;
    var w := Reached(events);
    ReachedIsGood(events);
    OneMore(events, Start(job));
    InvJobs(w);
    assert Active(w.db.jobs) == set k | k in w.db.jobs && w.db.jobs[k].state in {Queued, Running};
    UnmovedIs(w.db, w.db.jobs[job]);
  }

  lemma UnmovedIs(db: Db, j: Job)
    requires j.base in db.revisions && db.revisions[j.base].source == j.source
    ensures Unmoved(db, j) <==> j.source in db.heads && db.heads[j.source] == j.baseHead && Newest(db.revisions, j.base)
  {
  }

  /** A stop ends a job exactly while it is prepared, queued, running or waits for its review. */
  lemma {:induction false} StoppedJobIsCancelled(events: seq<Event>, job: JobId)
    requires job in Reached(events).db.jobs
    ensures var a, b := Reached(events).db, Reached(events + [Shift(job, Cancelled)]).db;
            b == if a.jobs[job].state in {Preparing, Queued, Running, Ready} then a.(jobs := a.jobs[job := a.jobs[job].(state := Cancelled)]) else a
  {
    hide Reached;
    OneMore(events, Shift(job, Cancelled));
  }

  // ---------------------------------------------------------------- uploads

  /** A row of an upload that waits for its conversion. */
  function Uploaded(s: SourceId, no: nat, hash: string): Revision {
    Revision(s, no, hash, None, Pending, None, None, None, None, None, None, 0, None)
  }

  predicate Elsewhere(db: Db, s: SourceId, hash: string) { exists r :: r in db.revisions && db.revisions[r].hash == hash && db.revisions[r].source != s }

  /** An upload adds its rows unless an id or a number is taken or another source has these bytes. */
  lemma {:induction false} UploadAdds(events: seq<Event>, s: SourceId, rev: RevId, no: nat, hash: string)
    ensures var a, b := Reached(events).db, Reached(events + [NewSource(s, rev, hash)]).db;
            b == if s in a.heads || rev in a.revisions || Elsewhere(a, s, hash) then a
                 else a.(heads := a.heads[s := None], revisions := a.revisions[rev := Uploaded(s, 1, hash)])
    ensures var a, b := Reached(events).db, Reached(events + [Replace(s, rev, no, hash)]).db;
            b == if s !in a.heads || rev in a.revisions || Elsewhere(a, s, hash) || (exists r :: r in a.revisions && a.revisions[r].source == s && a.revisions[r].no == no)
                 then a else a.(revisions := a.revisions[rev := Uploaded(s, no, hash)])
  {
    hide Reached;
    OneMore(events, NewSource(s, rev, hash));
    OneMore(events, Replace(s, rev, no, hash));
  }
}
