# Verification model of the reading library

The repository stores sources as versioned text, lets an owner ask questions over a frozen set of
them, and keeps answers, citations and pages that can be checked against exact bytes. This project
models the parts of it whose promises concern every input, every interleaving or every crash, and
proves them in Dafny 4.11. `dafny verify dfyconfig.toml` checks the whole project. Nothing was executed:
what the code does was read from the source, and the model follows the code.

Code that computes is modelled by functions; code that changes things step by step by methods and
classes, each proved against a function of its inputs or of the state before. The theorems are about
those functions. The modules named `*Laws`, `*Effects`, `*Reports`, `*Accept` and `*Scripts` say what the functions
mean without them: over texts, rows and the events of a run.

## The five parts

**Chat turns** (`Chat*`). One chat object keeps a running turn and a waiting question, calls a model
and settles usage into a separate row. `Chat` is the state and what each step does to it, cut at the
awaits of the code; `ChatAgent.Agent` is the object whose methods change that state in place and whose `Perform` is one step. A step
has a number of durable writes left and the instance is gone when it is used up, so that a crash can
fall before any write; a D1 write commits or not, and its reply may be lost. `Reached` are the states
after any sequence of such steps from an empty chat.

**Publication** (`Publication*`, `Store`, `Upload*`). Uploads, conversions, OCR jobs, saved answers and
proposals move rows by conditional batches. A batch is atomic, what its caller read earlier is stale,
and batches interleave freely. A lost reply is a batch whose caller goes on as if it knew nothing.

**Context budgets** (`Json`, `Evidence`, `ModelInput`, `Budget`, `History`, `HistoryReader`, `RequestLaws`, `Capacity`). A token
estimate is planned without building the request, must equal the estimate of the request that is
sent, and decides which exchanges and which sources fit. Sizes are of UTF-8 (section 3 of RFC 3629)
over UTF-16 texts (section 2 of RFC 2781) and of JSON strings (section 7 of RFC 8259).

**Blocks and quotes** (`Blocks`, `Scan`, `Captions`, `ScanLaws`, `Decoding`, `Fold`, `FoldLaws`, `Quotes`, `QuoteLaws`). A source is cut into blocks at
line and byte boundaries, and a quote is searched exactly or folded and mapped back to exact bytes.
The line patterns are parameters: the results hold whatever they say.

**Code ranges, labels and pages** (`Text`, `CodeRanges`, `FenceLaws`, `CodeComplete`, `Splice`, `CodeShift`, `Labels`, `Atoms`, `Tokens`, `Citations`, `CitationLaws`,
`Idempotence`, `Persist`, `Mentions`, `Repeats`, `Resolver`, `Uncovered`, `PageLabels`, `PageReader`, `PageLaws`, `PageSession`). Labels outside
code (a subset of sections 4.5 and 6.1 of CommonMark) are rewritten to the passages they name, to a
lasting form, and read back; a page is read in chunks that never cut a label.

## Where the code does not do what one expects

- Resolving an answer twice is not resolving it once: from `[S1:[S9]5]` the rejected label is removed,
  and what remains is a label that cites (`Uncovered.RemovalUncoversALabel`). Text and citations stay as they are exactly
  when the labels of the resolved text, each at its first occurrence, are the labels of the citations in their order
  (`Repeats.RepeatsExactly`). The whole result, with the number of rejected labels, stays exactly when no label was
  rejected (`Idempotence.IdempotentExactly`): for `[S9]` alone only that number differs.
- The budget that the page reader advises leaves out the list of stored citations and the note that they are hidden, and may
  be greater than the 4000 tokens that the next call may ask for (src/tools.ts:27-31). Following it gives a chunk exactly when no
  citation of a label in the next unit is stored and it is at most 4000 (`PageSession.AdviceExactly`). A greater one is refused, as
  for a label of 12000 digits (`PageSession.LongAdviceIsRefused`); otherwise the same advice is given again, as for every page of
  one cited label (`PageSession.AdviceNeverWorks`).
- A finished turn does not always settle, even with a working D1. When text has arrived and the stream then reports
  `AI_InvalidPromptError` or `AI_InvalidArgumentError` (src/chat.ts:454), the turn counts as not sent and claims a zero limit,
  which migrations/0012_model_admission.sql refuses once a first token was timed. `ChatScripts.SomeRunIsStuck` is such a run,
  and `ChatConverge.OnePassSettlesExactly` says that nothing else keeps one recovery pass from settling everything.
- An upload whose id was not chosen cannot be replayed by that id: the file is the same, and the answer is a collision
  (`UploadStore.UnchosenIdCollides`).

## Model

| member | source | states |
|---|---|---|
| ChatTheorems.SentAtMostOnce | src/chat.ts:385-451 | over every run with crashes and lost replies, a turn is sent to the model at most once |
| ChatTheorems.SentIsAdmitted | src/chat.ts:419-451 | a turn that was sent holds the admission of its row for good |
| ChatTheorems.RetainedIsUndispatched | src/chat.ts:148-176 | while the claimed question is retained it was neither admitted nor sent, and only its first payload or its preserved form is saved |
| ChatTheorems.NothingIsLost | src/chat.ts:318-376 | every accepted question is saved as a turn with its own text, or durably queued, or was withdrawn by the owner while it waited |
| ChatTheorems.WithdrawnIsUntouched | src/chat.ts:377-384 | a withdrawn question has no turn and no row and was never sent |
| ChatTheorems.PendingTurnIsActive | src/chat.ts:245-274 | only the active turn awaits settlement |
| ChatTheorems.SettledTurnAgrees | src/chat.ts:215-228 | a finished turn that awaits nothing equals its D1 row in every field, or has no row, known zero usage and was never sent |
| ChatTheorems.TerminalRowIsTheTurn | src/chat.ts:205-213 | a terminal row equals the receipt of its turn, also before the turn is confirmed |
| ChatTheorems.NothingKnownIsTakenBack | src/chat.ts:183-236 | whatever follows, terminal rows stay, turns stay, a finished turn keeps its answer, its state, its error and its citations, known counts stay known and dispatches are never undone |
| ChatTheorems.RunIsActive | src/chat.ts:318-351 | a live run belongs to the active turn; an idle chat is active only for a saved turn that awaits settlement, and queues nothing |
| ChatTheorems.StopIsEffective | src/chat.ts:377-406 | a stop that was accepted before the active turn was sent keeps it from ever being sent, whatever follows |
| ChatTheorems.WaitingQuestionIsNext | src/chat.ts:327-376 | no step lets a later question pass the waiting one, and the only run a step can start is that of the waiting one |
| ChatConverge.OnePassSettlesExactly | src/chat.ts:245-274 | after any run, one recovery pass of an idle chat with a working D1 clears the desk and settles every turn in agreement with its row, if and only if the active turn is not stuck on a zero limit with a timed first token over an open row with another bound; a stuck turn stays pending over every such pass |
| ChatConverge.HonestRunsSettle | src/chat.ts:454-455 | when the transport refuses a prompt only before any text, and sends none after, no turn is stuck |
| ChatConverge.SettlesExactly | src/chat.ts:183-236 | with a working D1 a finished turn settles if and only if its row is open and fits it, or is terminal and says the same, or is missing and nothing or zero usage was recorded |
| ChatScripts.AnsweredTurn | src/chat.ts:318-563 | whatever happened before, a chat with no active turn answers a new question in one run when nothing fails: every field of the saved turn and of its row, one dispatch, no other turn or row changed, and the chat is free again |
| ChatScripts.SomeRunIsStuck | src/chat.ts:454-455 | from every chat with no active turn, whatever is asked and whatever bound is admitted, a run in which text precedes the refusal ends with a stuck turn |
| ChatReports.FinishedTurnReports | src/chat.ts:472-560 | after any run, a finished turn has the answer and labels as resolved; its counts are those that the end of its stream reported, none if none, zero with the limit if it was not sent or its prompt refused; it is completed exactly when the stream ended normally with text and the answer cites, and otherwise its state and error say how the stream ended |
| ChatAccept.SubmitStarts | src/chat.ts:352-376 | in every reached state, a new question to a chat with no active turn starts its run and is retained |
| ChatAccept.SubmitWhileRunning | src/chat.ts:352-376 | while a turn runs, a new question is queued exactly when its caller does not wait and none is queued; any other submit changes nothing |
| ChatAccept.SubmitAfterFailure | src/chat.ts:352-376 | after a failed settlement, a new question starts once D1 works, unless the active turn is stuck, which keeps it out |
| ChatAccept.StopWhileRunning | src/chat.ts:377-384 | a stop aborts the active run unless it is being validated, withdraws a waiting question, and changes nothing for any other id |
| ChatAccept.EndOfRun | src/chat.ts:327-351 | at the end of a settled run the waiting question starts or the chat becomes free; an unsettled turn stays active and the waiting question is kept unsent with zero usage |
| ChatAccept.RestartInterrupts | src/chat.ts:64-95 | a restart ends the turn that was running, with the text that was saved, as partial exactly when it has some |
| ChatAccept.RecoveryFills | src/chat.ts:183-236 | a pass that settles the active turn keeps what the turn knows, takes the rest from its open row and leaves both the same; without a row it has used nothing |
| ChatSteps.RunKeeps | src/chat.ts:64-351 | the invariant of the protocol holds after every run of steps |
| ChatGrowth.RunGrows | src/chat.ts:148-236 | over every continuation of a run, rows and turns only grow in what is known |
| ChatAgent.Agent.constructor | src/chat.ts:60-63 | the object starts as the empty chat with no steps behind it |
| ChatAgent.Agent.Perform | src/chat.ts:60-565 | every step of the object is the protocol's step on its fields, and leads from a reached state to a reached state that keeps the invariant |
| ChatAgent.Agent.SendsOnce | src/chat.ts:385-451 | in every state of the object no turn was sent twice |
| ChatAgent.Agent.LosesNothing | src/chat.ts:318-376 | in every state of the object each accepted question is saved, waits or was withdrawn |
| ChatAgent.Agent.SettledAgrees | src/chat.ts:215-228 | in every state of the object a settled turn agrees with its row, or has none and known zero usage |
| ChatAgent.Agent.WriteTurn | src/chat.ts:112-124 | a turn is saved under its id, keeping its place in the order, or the instance is gone |
| ChatAgent.Agent.ChangeState | src/chat.ts:127-131 | the durable desk is replaced as a whole, or the instance is gone |
| ChatAgent.Agent.PreserveUndispatched | src/chat.ts:148-162 | a question that was not sent is saved as failed with zero usage, and nothing else is ever rewritten |
| ChatAgent.Agent.RecoverStoppedHandoff | src/chat.ts:163-173 | the retained self-handoff is saved and cleared, and never graded again once admitted |
| ChatAgent.Agent.Settle | src/chat.ts:183-236 | the new turn and row are those of the settlement function, for every fault of the reads and the update |
| ChatAgent.Agent.PreserveWaitingQuestion | src/chat.ts:237-244 | the waiting question is saved unsent and leaves the queue |
| ChatAgent.Agent.RecoverFinishedTurn | src/chat.ts:245-274 | the pass settles at most eight pending turns, the active one first, then releases or reclaims the desk |
| ChatAgent.Agent.OnStart | src/chat.ts:64-95 | restart preserves the queued question, marks the interrupted turn pending, clears the desk and recovers |
| ChatAgent.Agent.Start | src/chat.ts:318-326 | acceptance writes the claimed question before the run begins |
| ChatAgent.Agent.SubmitTurn | src/chat.ts:352-376 | the new state for every branch: known, active, busy, queued, queued again, started |
| ChatAgent.Agent.StopTurn | src/chat.ts:377-384 | a waiting question is withdrawn; a stop of the active turn is recorded and aborts its run |
| ChatAgent.Agent.Advance | src/chat.ts:327-351 | after a run the desk is cleared, kept for settlement, or claimed for the waiting question |
| ChatAgent.Agent.ValidateProject | src/chat.ts:385-406 | the first payload is written and then the retained question cleared; a failed validation preserves it unsent |
| ChatAgent.Agent.ChooseModel | src/chat.ts:410-418 | the turn is named and marked pending before its row can exist |
| ChatAgent.Agent.InsertRow | src/chat.ts:419-420 | the started row exists exactly when the insert committed, whatever the reply |
| ChatAgent.Agent.AdmitTurn | src/cost.ts:12-20 | the bound is recorded by one conditional update of a started, unreserved row |
| ChatAgent.Agent.PrepareContext | src/chat.ts:424-447 | the frozen scope is saved with the turn before it is written to the row; what does not fit fails the turn |
| ChatAgent.Agent.FreezeScope | src/chat.ts:448-451 | the scope goes into a started row; an aborted run stops here, and only otherwise is the turn sent |
| ChatAgent.Agent.ReceiveText | src/chat.ts:472-480 | text is appended and a checkpoint of the resolved answer saved unless the run is aborted |
| ChatAgent.Agent.CompleteStream | src/chat.ts:481-501 | a normal end completes, a cut one is partial, a blank one fails |
| ChatAgent.Agent.RefusePrompt | src/chat.ts:454 | a refused prompt makes the run count as not sent |
| ChatAgent.Agent.BreakStream | src/chat.ts:502-510 | an error ends the stream as partial, cancelled or failed, with the usage that was reported |
| ChatAgent.Agent.FinishTurn | src/chat.ts:512-560 | the turn is saved as the protocol's finishing step makes it, which FinishedTurnReports spells out |
| ChatAgent.Agent.EndRun | src/chat.ts:561-563 | the run ends by settling its turn |
| PublicationTheorems.HeadIsNewestReadable | src/ingest-completion.ts:62-88 | in every reachable state the head of a source is its newest readable revision, and there is none only when none is readable |
| PublicationTheorems.HeadNumbersGrow | src/ingest-completion.ts:71-83 | whatever follows, a head stays or gives way to a greater revision number |
| PublicationTheorems.TerminalResultStays | src/ingest-completion.ts:53-88 | a terminal conversion result never changes except for the note that a newer revision is current |
| PublicationTheorems.CommitIsConfirmed | src/ingest-completion.ts:90-100 | once the batch has run, acknowledged or not, the read-back matches the stored result, and readable text is the head or older than a readable one |
| PublicationTheorems.BytesHaveOneSource | src/library.ts:185-200 | revisions with the same original hash belong to one source |
| PublicationTheorems.OneRevisionPerJob | src/ocr.ts:219-241 | each OCR job has at most one revision, and is applied with exactly that one |
| PublicationTheorems.AtMostTwoJobsRun | src/ocr.ts:169-174 | never more than two jobs are queued or running |
| PublicationTheorems.CurrentPagesAreFresh | src/pages.ts:35-45 | a page marked current cites only readable revisions that are the heads of their sources, over save, acceptance, commit and OCR apply |
| PublicationTheorems.AcceptedHeadsAreAChain | src/proposals.ts:359-373 | the accepted drafts of a page are exactly its heads in the order of acceptance, each based on the one before |
| PublicationEffects.SavedPageIsFresh | src/pages.ts:123-128 | a saved page has its draft as head and is current if and only if every input is readable and the head of its source; taken ids change nothing |
| PublicationEffects.AcceptedPageIsFresh | src/proposals.ts:356-373 | an acceptance takes effect if and only if the proposal is open on the head that was seen; then the page is current if and only if every input is |
| PublicationEffects.StaleExactly | src/ingest-completion.ts:78-81 | no step takes a page away, and a step makes a current page stale if and only if a revision that the page shows stops being the head of its source; a new head of the page is judged by its own inputs |
| PublicationEffects.ProposalWaits | src/proposals.ts:258-264 | a proposal waits on the head that was read for it, and a proposed page has no head |
| PublicationEffects.RejectedStays | src/proposals.ts:349-354 | only an open proposal is rejected, and nothing else changes |
| PublicationEffects.CommitStores | src/ingest-completion.ts:42-90 | the first commit of a result writes exactly that result into its row, with the note exactly when a newer revision is readable; the row becomes the head exactly when it is readable and none is newer |
| PublicationEffects.FailureStores | src/ingest-completion.ts:103-108 | a storage failure ends only a pending row and keeps the usage that is known |
| PublicationEffects.AppliedTextIsHead | src/ocr.ts:219-236 | applying takes effect if and only if the job is ready and its source has not moved: the next revision with the reviewed text is the head and the job has it |
| PublicationEffects.StartedJobIsQueued | src/ocr.ts:169-174 | a job is queued if and only if it is prepared, fewer than two are active and its source has not moved |
| PublicationEffects.StoppedJobIsCancelled | src/ocr.ts:203-208 | a stop cancels exactly the jobs that are not finished |
| PublicationEffects.UploadAdds | src/library.ts:185-200 | an upload adds its pending rows unless an id or number is taken or another source has the bytes |
| Store.Database.constructor | src/ingest-completion.ts:42-101 | the store starts empty |
| Store.Database.CommitRevision | src/ingest-completion.ts:53-90 | statement by statement, the new rows are those of the commit batch |
| Store.Database.MarkPagesStale | src/ingest-completion.ts:78-81 | exactly the pages whose accepted head cites the old head are marked stale |
| Store.Database.RecordStorageFailure | src/ingest-completion.ts:103-108 | only a pending row fails, and known usage is kept |
| Store.Database.StartOcrJob | src/ocr.ts:169-174 | a prepared job is queued only while fewer than two are active and its base is still the newest |
| Store.Database.CancelOcrJob | src/ocr.ts:203-208 | only an unfinished job is cancelled |
| Store.Database.ApplyOcrJob | src/ocr.ts:219-236 | the guarded batch inserts the reviewed revision, moves the head, closes the job and marks pages stale, or does nothing |
| Store.Database.SavePage | src/pages.ts:123-128 | statement by statement, the rows of the save batch, which SavedPageIsFresh spells out |
| Store.Database.AcceptProposal | src/proposals.ts:356-373 | acceptance is a compare-and-set on base and head, and reports whether the proposal is accepted afterwards |
| Store.Database.RejectProposal | src/proposals.ts:349-354 | only a proposed draft is rejected, and the change is reported |
| Upload.OneWorkflowPerRevision | src/library.ts:201-230 | however uploads race, replay or lose replies, the workflow of a revision is created at most once and only for a stored one |
| Upload.StoredObjectStays | src/library.ts:179-217 | the object that a stored revision points to was stored before the row and is never deleted |
| Upload.OriginalsAreUnshared | src/library.ts:175-200 | no two sources ever hold an original with the same hash |
| Upload.ReceiptIsStored | src/library.ts:161-230 | whoever was given a receipt finds exactly that file stored under its revision id, after any later steps |
| UploadStore.ReplayWritesNothing | src/library.ts:171-174 | a chosen id that is stored is answered without a write, with a receipt exactly when the stored row is this file under a key of a chosen id |
| UploadStore.UnchosenIdCollides | src/library.ts:166-181 | an id that was not chosen when it was stored is answered with a collision |
| UploadLaws.AttemptFollows | src/library.ts:144-230 | every undisturbed attempt, whatever the services do: a stored chosen id is answered from its row, held bytes end it, rows are added exactly when the batch commits and they can be, and the receipt, the workflow and the deletion of the object follow what is known |
| UploadLaws.ReceiptHoldsFile | src/library.ts:161-230 | whoever was given a receipt finds source, bytes, size, name and type of its file under its revision id |
| UploadStore.Uploads.LookUpChosen | src/library.ts:171-174 | the lookup of a chosen id ends in a receipt, a collision or nothing |
| UploadStore.Uploads.GuardDuplicate | src/library.ts:175-178 | an original that another source holds is refused before anything is stored |
| UploadStore.Uploads.PutOriginal | src/library.ts:179-184 | the object is stored under the attempt's own key |
| UploadStore.Uploads.Batch | src/library.ts:185-200 | statement by statement, the batch inserts the source and the revision, or leaves nothing |
| UploadStore.Uploads.Recover | src/library.ts:201-217 | the stored key says whose upload won; only an object that lost is deleted, and a receipt is given only for this file |
| UploadStore.Uploads.AddSource | src/library.ts:144-230 | one undisturbed attempt is exactly its steps in order, and its reply is a receipt exactly when the attempt ends with one |
| Json.StringBytesIsSize | src/model-input.ts:16-28 | the size counted unit by unit is the UTF-8 size of the JSON literal, for every string with any surrogates |
| Json.CountStringBytes | src/model-input.ts:16-28 | the counting loop computes that size |
| Json.JoinedCost | src/model-input.ts:30-43 | two texts joined by a blank line cost four bytes more than apart, whatever surrogates they end in |
| Evidence.EvidenceJsonLength | src/context.ts:206-216 | the length that is counted before serializing is the length of the encoded text |
| Evidence.BodyIsReplaced | src/context.ts:217-239 | serializing and replacing brackets writes each unit as the record does, without a bracket |
| Evidence.RecordIsExact | src/context.ts:206-239 | a record is as long as was reserved, is a JSON object whose label and text read back as the originals for every string, and its only brackets are those of its label |
| ModelInput.ChatModelMessages | src/model-input.ts:1-14 | no system message, adjacent user messages joined, the question last |
| RequestLaws.SentTurns | src/model-input.ts:1-12 | the messages that are sent are the spoken ones and the question, with exactly the runs of user messages merged, in order, with blank lines |
| ModelInput.RequestSize | src/model-input.ts:30-43 | the counted bytes are the UTF-8 bytes of the request's JSON text |
| ModelInput.EstimateModelInput | src/model-input.ts:30-43 | the estimate over a skeleton without contents is the estimate of the whole JSON text, with or without joining |
| Budget.TokensAreTheEstimate | src/context.ts:162-169 | the planned number is counted from exactly the bytes of the request's JSON text |
| Budget.PlannedTokens | src/context.ts:162-169 | what assembly plans, without joining, is the estimate of the joined request |
| Budget.DispatchedTokens | src/chat.ts:441-444 | what the chat computes before it sends is the same number |
| RequestLaws.InstructionsSay | src/chat.ts:441-442 | the instructions are the system messages that say something, in order, and then the project's, with blank lines |
| Budget.InsertionBound | src/model-input.ts:45-49 | inserting whole exchanges before the question raises the estimate by at most the sum of their bounds |
| Budget.NoticeGrows | src/context.ts:433-446 | one more system message never makes a request smaller |
| History.DropOlder | src/context.ts:447-470 | exchanges are dropped one at a time until the bound of the rest is within the budget or only the newest is left; one fewer dropped was over it |
| History.FitHistory | src/context.ts:433-472 | it fails exactly when not even the newest exchange fits; else it keeps everything if that fits and otherwise the longest suffix by the bound, with the notice exactly when something was omitted |
| RequestLaws.FittedSays | src/context.ts:433-472 | a fitted history has each notice exactly when it is true, and then the kept exchanges as they are |
| HistoryReader.Assembly.constructor | src/context.ts:349-361 | the plan starts before the newest row, with nothing read, paid for or limited |
| HistoryReader.Assembly.Next | src/model-history.ts:26-91 | a step is limited exactly when memory, an id or the row's payload refuses it, ends exactly when it ended before or no older row is left, and otherwise visits the next older row and says what that row is; every query is paid for |
| HistoryReader.Assembly.Inspect | src/model-history.ts:51-91 | a row is turned away exactly when an allowance is too small for it; otherwise its fate follows from its metadata, and its payload is counted once, or twice for a candidate |
| HistoryReader.Assembly.At | src/context.ts:363-372 | exchanges are planned on demand and no further; the plan is exactly the given exchanges and the candidates among the visited rows; it fails exactly at a row that broke, and something is omitted exactly when it was before, a visited row is out of scope or the reader was limited |
| HistoryReader.Assembly.Load | src/model-history.ts:93-118 | an exchange is charged and read once |
| HistoryReader.Assembly.Fetch | src/context.ts:382-399 | an exchange is loaded and paid for once, or the reason why not holds: none is left, memory is too small, or exactly then a row broke |
| HistoryReader.Assembly.SelectHistory | src/context.ts:374-414 | exchanges are taken newest first until none is left, one is over the budget or its memory is not there; it fails exactly when a row broke, omission and an unfit newest exchange are reported exactly for these reasons, and memory use is monotone and bounded by what was considered |
| Capacity.OutputStaysWithin | src/models.ts:107-150 | a request within the input limit gets a usable output limit that stays in the window and the admitted bound and keeps the reserve |
| Capacity.InputLimitIsGreatest | src/models.ts:107-117 | the input limit is the greatest request that fits into the context and, with the reserve, into the window; there is none exactly when a number is unusable or no room is left |
| Capacity.OutputIsGreatest | src/models.ts:118-133 | the output limit is the greatest answer within the model's maximum that fits into the window with the request, and unusable exactly when a number is or there is no room |
| Capacity.BoundIsGreatest | src/models.ts:139-150 | the admitted bound is the greatest total of a request in the context and an answer that fits with it |
| Capacity.Assemble | src/context.ts:720-751 | a context is the evidence and the fitted history under the cap, and there is none exactly when the newest exchange does not fit |
| Capacity.BestRemaining | src/context.ts:755-761 | the uncompressed source that saves most, the first by index |
| Capacity.Precompress | src/context.ts:707-715 | the shortest prefix of candidates that brings the projection under the cap, or all of them; of these the sources that save |
| Capacity.AssembleWith | src/context.ts:736-751 | the history of a context is what SelectHistory takes from the conversation within the cap that its evidence leaves, with its reason to stop; it is an error if and only if a row broke since the call |
| Capacity.BuildMixed | src/context.ts:706-767 | sources are compressed greedily over one shared conversation, the first context that fits is taken, it gives up only when no source is left to compress, and fails if and only if a row broke |
| Capacity.PlanNewest | src/context.ts:420-426 | the newest exchange is refused exactly when reading broke or was limited before one was found |
| Capacity.AddOrientation | src/context.ts:844-866 | orientation is added exactly when it fits under the cap |
| Capacity.BuildWhole | src/context.ts:792-866 | all sources whole, with their history and orientation where it fits; none when the newest exchange does not fit, and an error if and only if a row broke |
| Capacity.BuildUnder | src/context.ts:788-884 | the tries in their order, each with its own history; the context is that of the last try, and there is none only when it left no room and no source is left |
| Capacity.BuildContext | src/context.ts:769-884 | whatever branch builds it, a context is the evidence and history of the last try, oriented only with whole sources, and under the input limit; there is none only when the instructions do not fit or every try left no room for the newest exchange, and an error if and only if a row broke or reading was limited before an exchange was found |
| Capacity.CheckBeforeDispatch | src/chat.ts:443-447 | the check before dispatch never refuses a context that assembly returned; the output limit is the greatest that fits, and none exactly when the model publishes no maximum |
| Blocks.SplitLines | src/blocks.ts:110-126 | lines tile the text in characters and bytes; a line is the text up to the next break, has no break inside, and ends after that break, with CR LF as one |
| Blocks.LinesAreUnique | src/blocks.ts:110-126 | a text has one such list of lines, so every result about lines is about its own text |
| Blocks.Utf8IsEncoded | src/blocks.ts:11 | in every encoded text a boundary is at most three bytes away |
| Blocks.NextStop | src/blocks.ts:144-160 | a chunk stops at the end, at the last sentence end, or after the last break before the size limit, between characters |
| Blocks.Emit | src/blocks.ts:134-167 | a run becomes one block or chunks that follow each other without a gap and stop by that rule |
| Scan.FenceEnd | src/blocks.ts:177-184 | code ends at the first line that closes its fence, or with the source |
| Scan.ScanBlocks | src/blocks.ts:128-212 | the blocks are those of the runs of the lines of the source under the nearest heading; ids count from 1, ranges are apart, bounded and between characters, and every byte of a line that is not blank is covered |
| Scan.BlocksApart | src/blocks.ts:128-212 | no byte is in two blocks |
| ScanLaws.SegmentsAreCut | src/blocks.ts:168-212 | the runs of a source are those of its lines: code to its closing line, one- and two-line headings, longest runs of one kind, blank lines between, each under the last heading |
| ScanLaws.BlockSizes | src/blocks.ts:134-140 | a run of at most 1536 bytes, or 4096 unless it is a paragraph, is one block and no block is longer |
| ScanLaws.ChunkSizes | src/blocks.ts:141-160 | a chunk that is not the last ends with a sentence or at most 1024 bytes on, 4096 unless it is a paragraph |
| Captions.ChooseJoins | src/blocks.ts:57-98 | a caption joins a table exactly when it is its only caption and the joint range fits into one block |
| ScanLaws.CaptionExactly | src/blocks.ts:57-98 | a paragraph is a caption exactly when it begins like one, touches this table and no other, and both are whole |
| ScanLaws.JoinExactly | src/blocks.ts:57-98 | a table takes a paragraph exactly when that is its only caption and both fit into 4096 bytes |
| Captions.JoinCaptions | src/blocks.ts:57-108 | joining keeps blocks ordered, apart, bounded and between characters, and every byte covered |
| Captions.JoiningCovers | src/blocks.ts:100-107 | every byte that a block covered is still covered |
| Captions.KeptIsShaped | src/blocks.ts:100-107 | ids are counted anew and ranges stay apart |
| Captions.BlocksOf | src/blocks.ts:128-213 | the whole scan: runs, chunks and joined captions with all of the above |
| Decoding.SliceUtf8 | src/blocks.ts:13-18 | a range is read exactly when it lies between characters |
| Decoding.DecodesBack | src/blocks.ts:9-10 | encoding and strict decoding give the text back |
| Decoding.EncodesBack | src/blocks.ts:9-10 | what can be decoded is the encoding of what is read |
| Decoding.PartBytes | src/quotes.ts:237-244 | a part of a text has its own bytes at its own place |
| Decoding.SliceDecodes | src/tools.ts:531-536 | the bytes between two boundaries of an encoded text can always be read |
| Fold.FoldText | src/quotes.ts:207-236 | the loop computes the folded text and, for each unit, its place |
| FoldLaws.FoldsAlike | src/quotes.ts:207-236 | two texts fold to the same if and only if they differ only in quotation marks of a kind, dashes, the white space in runs, and soft hyphens |
| FoldLaws.AlikeIsEquivalence | src/quotes.ts:207-236 | which is an equivalence of texts |
| Fold.MatchFolds | src/quotes.ts:287-306 | a match in the folded text maps to a part of the source that folds to it |
| Fold.FoldIsWellformed | src/quotes.ts:207-236 | folding keeps surrogate pairs together |
| Quotes.LoadSlices | src/quotes.ts:246-261 | the slices are those of the readable blocks, a later block replacing an earlier one of its id |
| Quotes.SlicesAreTheBlocks | src/quotes.ts:246-261 | exactly the ids of readable blocks have a slice, and it is the start and the text of the last such block |
| Quotes.ByteOffset | src/quotes.ts:237-244 | the bytes before a position, counted code point by code point, are those of the prefix |
| Quotes.OccurrencesExact | src/quotes.ts:270-286 | the occurrences that are searched one after the other are all of them |
| Quotes.FindHits | src/quotes.ts:270-306 | the first two hits over the stated block and its neighbours, exact or folded |
| Quotes.DecidingHits | src/quotes.ts:357-362 | folded search decides only when there is no exact hit |
| Quotes.VerifyQuote | src/quotes.ts:350-370 | the verdict over all occurrences, found with a search that stops at two |
| Quotes.VerifiedIsExact | src/quotes.ts:345-415 | a matched quote is the exact text of its bytes, which lie between start and end of the stated or a neighbouring block of the list, equals the quote or folds to the same, and is ambiguous exactly when the deciding stage has two hits |
| QuoteLaws.VerdictExactly | src/quotes.ts:345-370 | a quote is unmatched if and only if no part of the stated or a neighbouring block of the list is alike; the match is in the first of these that has it, as it is if one of them does |
| QuoteLaws.AmbiguousExactly | src/quotes.ts:350-415 | a match is ambiguous if and only if the deciding stage finds the quote twice in one of these blocks or in two of them |
| Quotes.VerifyClaims | src/quotes.ts:333-418 | over the listed blocks, the loop keeps and drops exactly the candidates that the rules say, with their reasons and the number of cleared values |
| QuoteLaws.RulesInOrder | src/quotes.ts:345-417 | the first rule that fails is the reason why a candidate is dropped; a kept one has its quote, its place and the values that are supported |
| QuoteLaws.InOrder | src/quotes.ts:345-417 | claims and dropped candidates are in the order of the candidates |
| Quotes.ClaimsAreSound | src/quotes.ts:345-417 | every claim that is kept is exact and inside a listed block, and every number text it keeps is supported by its quote |
| Quotes.EveryCandidateOnce | src/quotes.ts:345-417 | every candidate is kept as one claim or dropped once |
| CodeRanges.FencedCodeRanges | src/code-ranges.ts:5-33 | the loop computes the fenced ranges line by line |
| CodeRanges.FencesAreOrdered | src/code-ranges.ts:5-33 | fenced ranges start at line starts, are in order and do not meet |
| FenceLaws.FencesAreExact | src/code-ranges.ts:5-33 | a fence begins exactly at a line with at most three spaces and then three or more backticks or tildes, outside earlier fences, and ends with the first later line that is only its mark, at least as long, or with the text |
| CodeRanges.InlineCodeRanges | src/code-ranges.ts:40-69 | the index loop computes the inline ranges |
| CodeRanges.InlineRangesAreSpans | src/code-ranges.ts:40-69 | an inline range pairs an opener with the first later run of equal length before the next fence, and meets no fence |
| CodeComplete.InlineIsExact | src/code-ranges.ts:40-69 | an inline range begins exactly where an unescaped run opens that a run of its length closes before the next fence, unless an earlier range is around it |
| CodeRanges.CodeIsOrdered | src/citations.ts:132-134 | the sorted ranges of both kinds are in order and apart |
| CodeRanges.Inside | src/citations.ts:136-141 | the one-pass index answers as the containment test does |
| CodeShift.CodeMoves | src/code-ranges.ts:5-69 | replacing a label outside code by another leaves the code before it and moves the code after it |
| Labels.RewritingIsCanonical | src/citations.ts:130-207 | rewriting labels to good labels makes a text that reads as exactly the rewritten pieces |
| Labels.ReplaceOne | src/citations.ts:130-207 | one accepted label may give way to any good labels |
| CitationLaws.LabelAtExactly | src/citations.ts:51 | what the label pattern finds, unit by unit |
| CitationLaws.PiecesAreLabels | src/citations.ts:149-152 | the labels that are judged are exactly those of the text that begin outside code |
| Atoms.BuildScopeMaps | src/citations.ts:60-75 | the maps hold the sources of each alias and revision and the last block of each id |
| Atoms.SinglePosition | src/citations.ts:85-114 | a name belongs to one source exactly when its group has one entry |
| Atoms.DecimalReads | src/citations.ts:85-114 | a number that is written is read as itself |
| Atoms.SpelledIsParsed | src/citations.ts:85-114 | the spelling of a known block is parsed as that block |
| Atoms.ParseTokenExact | src/citations.ts:85-114 | a token is parsed to a passage if and only if it spells a block of exactly one source |
| Tokens.SplitJoins | src/citations.ts:116-121 | splitting a group loses nothing |
| Tokens.AcceptToken | src/citations.ts:149-178 | a token is accepted as a label, a group or an adjacent pair, or rejected |
| CitationLaws.AcceptExactly | src/citations.ts:153-168 | a label is accepted for exactly these passages if and only if it is a comma group of labels, a dash between two labels of consecutive blocks of one source, or one label, each naming a block of exactly one source |
| Tokens.AcceptedAtoms | src/citations.ts:155-166 | every atom of an accepted token names the passage it is cited for |
| Tokens.AcceptedIsInert | src/citations.ts:149-199 | an accepted label neither opens nor closes code |
| Citations.ResolvedPieces | src/citations.ts:130-207 | the resolved text reads as exactly the labels that were put out |
| Citations.ResolvesOnce | src/citations.ts:130-207 | without a rejected label, resolving again changes nothing |
| CitationLaws.CitationsAreFirstMentions | src/citations.ts:180-197 | the citations are the passages of the accepted labels, each at its first mention, with source, title, place and label |
| Idempotence.RejectedLabelsShrink | src/citations.ts:166-178 | each rejected label takes a reference letter out of the text |
| Idempotence.CountsRejected | src/citations.ts:155-178 | no invalid label is reported if and only if every label outside code names passages of the sources |
| Idempotence.IdempotentExactly | src/citations.ts:130-207 | the whole result, with its count of rejected labels, is that of resolving again if and only if every label outside code names passages of the sources |
| Repeats.RepeatsExactly | src/citations.ts:130-207 | text and citations stay when an answer is resolved again if and only if the labels of the resolved text, at their first occurrences, are those of the citations in order |
| Repeats.UncoveringNoneRepeats | src/citations.ts:166-178 | they stay when removing the rejected labels neither uncovers nor hides a label |
| Repeats.PersistentFormOfRepeating | src/citations.ts:215-244 | with rejected labels too, the persistent form of an answer that repeats resolves to itself and to the passages of the resolved text |
| Repeats.PersistentFormKeepsMentions | src/citations.ts:215-244 | when removing the rejected labels changes no piece that is read, the persistent form mentions the passages of the answer in their order |
| Uncovered.RemovalUncoversALabel | src/citations.ts:130-207 | whenever S1 names one source with a block 5, resolving `[S1:[S9]5]` twice cites that block, and once cites nothing |
| Mentions.RunOneEach | src/citations.ts:180-197 | each passage gets one citation, at its first mention |
| Mentions.ResolvingKeepsMentions | src/citations.ts:130-207 | without a rejected label the sequence of mentioned passages stays the same |
| Mentions.PersistentFormResolves | src/citations.ts:215-244 | without a rejected label, the persistent answer resolves to itself and to the same sequence of passages |
| Resolver.ResolveCitations | src/citations.ts:130-207 | the one-pass loop with its index computes the resolution of the text |
| Resolver.FrozenUnique | src/citations.ts:60-75 | the scope maps are determined by the sources |
| Resolver.PersistentResolvedAnswer | src/citations.ts:215-244 | the loop computes the persistent form with one citation for each lasting label |
| CitationLaws.PersistentCitations | src/citations.ts:215-226 | each citation is kept under its revision id and block |
| PageLabels.PersistentLabels | src/tools.ts:81-93 | the loop lists the labels of a page with their places in bytes |
| PageLabels.LabelIsSpelled | src/tools.ts:85 | what is found spells a revision id and a number |
| PageLabels.SpellingIsFound | src/tools.ts:85 | every such spelling is found |
| PageLabels.LabelsComplete | src/tools.ts:81-93 | every label of the text is in the list |
| PageLabels.LabelsAreApart | src/tools.ts:81-93 | labels are whole characters, in order, without overlap |
| PageLabels.SafeChunkEnd | src/tools.ts:94-98 | the last acceptable cursor up to the proposed end |
| PageLabels.FirstUnitEnd | src/tools.ts:99-106 | the first acceptable cursor after the start |
| PageReader.MinimumTokens | src/tools.ts:33 | the smallest budget that a text fits |
| PageReader.ReadFrom | src/tools.ts:514-568 | the longest chunk that fits with the most citations that fit, or the advised budget when no chunk fits at all |
| PageReader.NothingLongerFits | src/tools.ts:521 | beginning the search at three bytes a token loses no chunk that fits |
| PageLaws.ShownExactly | src/tools.ts:543-546 | the citations of a chunk are those of the page whose label stands in it as a whole, in order |
| PageLaws.CursorIsWritten | src/tools.ts:538-540 | behind every chunk but the last stands the next cursor in decimal digits |
| PageReader.GetPage | src/tools.ts:496-568 | every refusal in its order, and otherwise the answer above |
| PageSession.CursorsAreAccepted | src/tools.ts:505-513 | every next cursor is accepted by the next call and every chunk moves on |
| PageSession.ChunksAreTheBody | src/tools.ts:496-568 | from byte 0 to the end the chunks concatenate to the body, with any budgets |
| PageSession.LabelsStayWhole | src/tools.ts:94-98 | no label is cut by a cursor |
| PageSession.AdviceSuffices | src/tools.ts:525-567 | the advised budget is enough for its chunk if and only if no citation of a label in it is stored |
| PageSession.AdviceExactly | src/tools.ts:525-567 | with a UUID for a head, the next call with the advised budget gives a chunk if and only if no citation of a label in the first unit is stored and the budget is at most 4000; it is refused if and only if the budget is greater, and otherwise gives the same advice again |
| PageSession.AdviceNeverWorks | src/tools.ts:525-567 | whatever its title, head and citation say and however many digits it has, a page of one cited label yields the same advice again, or is refused what was advised |
| PageSession.LongAdviceIsRefused | src/tools.ts:27-31 | the advice for a page of one label of 12000 or more digits is refused though no citation is stored |
| PageSession.AdviceAtTheEnd | src/tools.ts:525-567 | at the end of the body the advised budget gives the last chunk exactly when a call may have it |

## Left out

- HTTP routes, MCP registration, authentication, sockets and browser code: plumbing around the modelled parts.
- Model transports, catalogue and quota reads: the model call is a nondeterministic sequence of chunks and an end.
- Durable writes that throw while the instance lives (the `checkpointFailed` branch and the catch branches around storage): a durable write succeeds or the instance is gone.
- Overlapping recovery passes of one chat object: a pass is one step, interleaved with the phases of a run.
- Chat rows and turns of older workers, the history clock, notifications, warnings and `invalidLabelExamples`: no modelled step reads them.
- Source deletion and archiving: the deleted states, and the guards that mention them, do not occur.
- Malformed stored JSON, missing or changed artifacts and their etags: rows hold well-formed values, and blob contents matter only by key and size.
- The UNIQUE constraint on source and revision number, unique ids and one stored conversion result per revision are built into the rows.
- OCR page uploads and their retries, deadlines and workflow start: jobs move between the states by any allowed transition.
- `decideProposal` title and kind checks, mutation ids and paging: they would add easy members.
- Upload.ReceiptIsStored: does not model the note that conversion status could not be checked, which changes no modelled field.
- Capacity.BuildContext: does not model how evidence texts and normalized exchanges are made for a set of compressed sources; they are parameters, and so are the estimates that rank sources.
- Capacity.BuildUnder: the orientation and where it goes are parameters; what it costs in memory is not modelled.
- `estimatedInputTokens` and the estimates that only route between branches: they bound nothing that is sent.
- HistoryReader.Assembly.Load: does not model a row that changes between planning and reading, which raises an error.
- HistoryReader.Assembly.SelectHistory: normalized exchanges are a parameter; label stripping and retention are not modelled.
- Budget.PlannedTokens: the wording of the two notices is a parameter, because the bounds hold for any wording.
- Scan.ScanBlocks: the regular expressions for lines and sentence ends are parameters, and headings are not cut to 500 characters.
- Captions.BlocksOf: whether a block is a caption and whether only white space lies between are parameters; character ranges are not kept.
- Quotes.VerifyClaims: number support, compound measurements and split contradictions are parameters; memory charges and advisory claim fields are left out.
- Sentence segmentation, statement warnings, heading lists and glossaries: advisory text heuristics.
- PageReader.GetPage: the header and the titles of citations come as texts of one line.
- `singleLine`, search and the other tools: the same budget rule without cursors into a text.
- Eval scripts, build configuration and legacy packages: not part of this model.
