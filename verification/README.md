# A verified model of the research gateway

This project models the parts of the gateway whose correctness is hardest to see
from reading one function, and proves what their code and documentation promise.
`dafny verify dfyconfig.toml` checks everything with Dafny 4.11.

**The durable task ledger and its worker.** `Ledger` holds the task row and the
guarded updates of the store, as functions on the table and as the class
`TaskStore` that performs them in place. `Protocol` turns them into a transition
system: one step a transaction, the two statements of `cancel` and the two
transactions of `reserve` apart, a monotone database clock, and fenced steps that
read `now` before they evaluate their guard. Any caller may take any step at any
time, so its theorems hold under every interleaving. `Execute` adds the program
counter of `execute`; `Delivery` adds service processes with their queue, worker,
submits in flight, start-up recovery and death; `Fence` relates a run's trace of
checkpoints and calls to the ledger; `Research` and `RoundRobin` are the run
itself and its fair URL merge, against an outside world that replies as it likes;
`FencedRun` puts the run under the ledger's fence.

**History compaction.** `Compaction` is the budgeted choice of messages, closed
under tool-call/result pairing, with the repair loop for alternating roles;
`CompactionRepair` and `CompactionTheorems` say what is removed and what is kept.
`Truncation` is the truncation of long tool results. Token counts are a parameter.

**Stream and history repair.** `Sse` and `SseFrame` are the incremental frame
filter, and `SsePrinted` says what it makes of a printed stream. `ToolStream`
prints tool blocks as an event stream and reads such a stream back, and
`ToolStreamTheorem` shows that the two are inverse. `History` and
`HistoryTheorems` are the history rewriter, `Plan` the planned-step tracker,
`Clamp` the token clamp, `ToolIndex` the tool-call index normaliser. Frame syntax
is that of section 9.2.5 of the HTML Living Standard, restricted to LF line ends.

**Fallback pruning.** `Prune` and `PruneTheorems` model the pruning of fallback
chains and complexity routers, and its two uses.

`Prelude`, `Text`, `Json` and `ToolInput` hold shared vocabulary.

## Where the code does less than its documentation says

Each item has a lemma with a failing input and one with the exact condition.

- With a floor of one recent message or less, compaction can drop the newest
  message: `CompactionTheorems.NewestIsLost` is a conversation of three turns,
  `NewestSurvivesLowFloor` the condition.
- One pass of the token clamp may leave a thinking budget that `max_tokens` does
  not exceed, under a provider's cap and also without one when `max_tokens` is
  fractional: `Clamp.OnePassMayNotFit`, and `OnePassFitsIff` for the condition.
  A second pass repairs it unless the cap truncates to zero: `ZeroCapBreaks` and
  `TwoPassesSufficeIff`.
- Budgets are compared in whole tokens, so the fraction of a budget may exceed
  `max_tokens`: `Clamp.FractionMayExceed` and `FractionFitsIff`.
- Pruning twice differs from pruning once for a router whose default is gone and
  whose tiers empty only in the second pass: `PruneTheorems.StagesMayDiffer` and
  `TwoStagesAreOneIff`.
- A tier given as a scalar (`runtime/config/litellm.yaml.tmpl:2893-2896`) is read
  character by character and dropped: `PruneTheorems.ScalarTierIsLost` and
  `ScalarTierIsLostIff`.
- The history rewriter is no fixpoint on Read paths in nested quotes:
  `HistoryTheorems.NestedQuotesChangeAgain` and `SecondPassOnlyTrims`; for one
  path, `ToolInput.NestedQuotes` and `TrimIsIdempotentIff`.
- The run manifest's `model_calls` is an upper bound, since an iteration whose
  plan was rejected counts two calls and makes one:
  `Research.RejectedPlanIsCounted` and `CountModelCalls`.
- `execute` may report `working` after a timeout: `Execute.TimeoutMayReportWorking`,
  `LateReturnWorkingIff` and `LateReturnOutlastsSweeps`.

## Model

| member | source | states |
|---|---|---|
| Ledger.TaskStore.Reserve | research_agent/a2a_store.py:166-178 | inserts a fresh submitted row unless the message is bound; reports which, and changes nothing else |
| Ledger.TaskStore.ClaimTask | research_agent/a2a_store.py:212-222 | claims a submitted row for the owner with a lease from the clock, and only then returns the run id |
| Ledger.TaskStore.Beat | research_agent/a2a_store.py:224-234 | extends exactly an unexpired lease of this owner and run; false when there is none |
| Ledger.TaskStore.TerminalUpdate | research_agent/a2a_store.py:236-257 | completes or fails exactly an active run, clearing the lease; false stands for LeaseLost |
| Ledger.TaskStore.Cancel | research_agent/a2a_store.py:259-270 | both statements in order: cancels a queued task, asks a running one to stop |
| Ledger.TaskStore.AcknowledgeCancellation | research_agent/a2a_store.py:272-287 | cancels exactly a running task that was asked to stop, under its owner's live lease |
| Ledger.TaskStore.ExpireLeases | research_agent/a2a_store.py:306-313 | fails exactly the working rows whose lease is over |
| Ledger.TaskStore.Recoverable | research_agent/a2a_store.py:315-319 | expires leases, then lists every submitted task once, oldest first |
| Protocol.StepKeepsInv | research_agent/a2a_store.py:166-319 | every transaction keeps the row invariant: lease iff working, artifact iff completed, error iff failed, runs and messages unique |
| Protocol.ReachableInv | research_agent/a2a_store.py:166-319 | the invariant holds in every reachable store |
| Protocol.FenceIsSticky | research_agent/a2a_store.py:289-300 | once `run_active` is false for an issued run it is false for ever; a lost lease is never revived |
| Protocol.SuccessImpliesCheckpoints | research_agent/a2a_store.py:244-257 | a `complete` or `fail` that succeeds proves that every checkpoint since would have passed |
| Protocol.RunCountCountsClaims | research_agent/a2a_store.py:212-222 | the row's counter is exactly the number of successful claims |
| Protocol.AtMostOneClaim | research_agent/a2a_store.py:212-222 | in every run from the empty store a task is claimed at most once |
| Protocol.TerminalRowsAreFrozen | research_agent/a2a_store.py:236-287 | no column of a terminal row ever changes |
| Protocol.IdentityIsStable | research_agent/a2a_store.py:166-319 | a task keeps its message, commitment, run and owner, never becomes submitted again, and a cancel request is never withdrawn |
| Protocol.ReservationIsIdempotent | research_agent/a2a_store.py:166-184 | a resend changes no row and finds the one task of its message, with the first send's commitment |
| Protocol.CanceledOnlyByItsOwner | research_agent/a2a_store.py:272-287 | a working task becomes canceled only by an acknowledgement of its owner and run under a live lease, after a request |
| Protocol.SettledNeverCompletes | research_agent/a2a_store.py:259-270 | a task canceled, failed or asked to stop never becomes completed |
| Protocol.CancelPreventsCompletion | research_agent/a2a_store.py:259-270 | when both statements of `cancel` have run, with any steps between, an uncompleted task never completes |
| Protocol.HeartbeatsKeepRunAlive | research_agent/a2a_service.py:214-219 | a run whose heartbeats come before its lease ends stays active, whatever sweepers and others do, until it ends itself or is asked to stop |
| Protocol.RowsAppear | research_agent/a2a_store.py:166-178 | a row appears exactly for a reservation of an unbound message, submitted, unclaimed and stamped; none disappears |
| Protocol.SubmittedRowMoves | research_agent/a2a_store.py:212-222 | a submitted row leaves its state only for a claim, which grants exactly the lease asked for, or for a cancel |
| Protocol.WorkingRowEnds | research_agent/a2a_store.py:236-313 | a working row completes, fails or is canceled exactly by an end, a sweep or an acknowledgement, to the moment of its lease and with the texts given |
| Protocol.WorkingRowChanges | research_agent/a2a_store.py:224-270 | while it works only a heartbeat under the lease moves the lease, to exactly its own, and only a cancel sets the request |
| Protocol.ClaimGrantsLease | research_agent/a2a_store.py:212-222 | after a claim the run is active until exactly the claim's time plus its lease |
| Protocol.CrashedRunExpires | research_agent/a2a_store.py:212-222 | without heartbeat, end or acknowledgement a claimed task is failed by the first sweep at or past that time, and not before |
| Execute.MoveKeepsInv | research_agent/a2a_service.py:151-212 | every step of `execute`, and every transaction of anybody else, keeps what each program point knows about the row |
| Execute.AcknowledgementSpends | research_agent/a2a_service.py:178-179 | after a refused fence, acknowledgement leaves the row terminal or its lease expired |
| Execute.ClaimedReturnIsTerminal | research_agent/a2a_service.py:151-212 | a call that claimed and returns outside the timeout branch reports a terminal state, and that is what the store holds |
| Execute.CompletionIsReported | research_agent/a2a_service.py:177-212 | a successful `complete` stores its artifact for good, and a return reports it |
| Execute.FailureIsReported | research_agent/a2a_service.py:189-205 | a successful `fail` stores its failure for good, and a return reports it |
| Execute.CancellationIsReported | research_agent/a2a_service.py:178-205 | so does an effective acknowledgement of a cancel |
| Execute.ReportWasStored | research_agent/a2a_service.py:151-212 | whatever branch is taken and whatever others do, what a call reports is a row the store held meanwhile |
| Execute.UnclaimedChangesNothing | research_agent/a2a_service.py:152-154 | a call that finds its task not claimable changes no row and only reads |
| Execute.RefusalStopsRun | research_agent/a2a_service.py:160-179 | a checkpoint passes exactly while the fence is open; a refused one, or a refused `complete`, ends the body for good |
| Execute.TimeoutMayReportWorking | research_agent/a2a_service.py:186-188 | the timeout branch is rightly excluded: from any claimable task there is a run that reports `working` |
| Execute.LateReturnWorkingIff | research_agent/a2a_service.py:208-211 | whatever others do, a late return that had to settle reports `working` exactly when its lease outlasts the settling sweep and no transaction before the last read ends the run |
| Execute.LateReturnOutlastsSweeps | research_agent/a2a_service.py:208-211 | when nobody updates, acknowledges or prolongs the run in between, that is exactly when the lease outlasts the settling sweep and every sweep after it |
| Delivery.NextKeepsInv | research_agent/a2a_service.py:123-149 | every event keeps the account: a submitted task is in a queue, a hand or a submit, or recorded as dropped |
| Delivery.NothingIsStranded | research_agent/a2a_service.py:123-149 | without deaths and failed submits every submitted task is in a queue, in a worker's hand or in a submit after its insert |
| Delivery.EveryTaskIsAccountedFor | research_agent/a2a_service.py:222-243 | with any deaths and failures, a submitted task that is in no queue, hand or submit is recorded as dropped |
| Delivery.HeldUntilLost | research_agent/a2a_service.py:123-149 | along any history a task that is held stays held until it is claimed, canceled or lost with its holder |
| Delivery.ReadBackDecides | research_agent/a2a_store.py:179-184 | a submit hands its task on exactly when the commitment it reads back is its own and the task still submitted |
| Delivery.ConflictNeverEnqueues | research_agent/a2a_store.py:179-184 | a submit under another commitment than the message is bound to never enqueues anything |
| Delivery.QueueMovesOn | research_agent/a2a_service.py:222-243 | a queue loses its head to its worker only, and grows at its end, a task at a time |
| Delivery.ResendRecovers | research_agent/a2a_service.py:123-137 | under every interleaving a task resent, however it was dropped, is held from the insert on until it is claimed, canceled or lost again |
| Delivery.RestartRecovers | research_agent/a2a_service.py:145-149 | under every interleaving, once a process has enqueued its start-up listing every submitted task, dropped before or not, is held, but for those lost since; without losses all are |
| Delivery.RecoveryIsInOrder | research_agent/a2a_service.py:145-149 | under every interleaving `recover_pending` enqueues its listing in order, one task each, and serving starts only at its end |
| Delivery.HistoryIsProtocolRun | research_agent/a2a_service.py:123-243 | seen from the store, any service history is a run of the ledger protocol |
| Delivery.DuplicatesNeverClaimTwice | research_agent/a2a_service.py:222-243 | duplicate queue entries, retries and restarts never cause a second claim |
| Delivery.WorkerDrainsQueue | research_agent/a2a_service.py:222-243 | under every interleaving, when the worker has taken more than i tasks the i-th entry of its queue is submitted no more or is in its hand, unless an attempt raised |
| Fence.AtMostOneCallAfterClose | research_agent/research.py:52-107 | a trace in which every call follows a passed checkpoint has at most one call after the last pass |
| Fence.ClosedFenceStopsRun | research_agent/a2a_service.py:160-162 | in a guarded trace whose checkpoints answer what the ledger says, a run whose fence is closed begins at most one further call |
| Fence.PrefixIsGuarded | research_agent/research.py:52-107 | a timeout or cancellation only cuts the trace short, so the bound survives it |
| FencedRun.HonestIsObserved | research_agent/a2a_service.py:160-162 | a trace whose checkpoints were honest about the fence has been observed against that ledger, whatever transactions came between |
| FencedRun.ResearchUnderLedger | research_agent/research.py:41-112 | `research_cluster` under any ledger history and any world begins at most one further call once the fence of its run is closed |
| RoundRobin.SkipSeen | research_agent/search_tavily.py:52-53 | drops exactly the leading URLs that were seen |
| RoundRobin.Turn | research_agent/search_tavily.py:51-57 | one category's turn takes at most one new URL, the first unseen of the category that is next, and keeps progress and fairness |
| RoundRobin.Merge | research_agent/search_tavily.py:48-58 | terminates with a fair merge: distinct, not excluded, at most capacity; exhaustive when short; each URL the first unseen one of the category that has given least; the poorer of two at most one behind unless used up |
| RoundRobin.MergeIsDetermined | research_agent/search_tavily.py:48-58 | there is only one fair merge of given categories |
| RoundRobin.FairMeansBalanced | research_agent/search_tavily.py:48-58 | the round invariant implies that balance |
| Research.StoreKeepsDistinct | research_agent/research.py:94-94 | storing a record under its id keeps ids distinct |
| Research.StoreAt | research_agent/research.py:94-94 | a stored record takes the place of the one with its id or comes last; the others stay where they are |
| Research.FreshInOrder | research_agent/search_tavily.py:40-46 | a category is the rows that are not excluded, in their order |
| Research.Run.PostAll | research_agent/search_tavily.py:28-47 | a checkpoint and one post a query, each a valid query of the last plan; each category is what its post returned, less the excluded |
| Research.Run.SearchAll | research_agent/search_tavily.py:18-58 | the posts of all queries, then a fair merge of the categories they returned, within the remaining budget; stops exactly at a refused checkpoint |
| Research.Run.FetchOne | research_agent/research.py:84-94 | a fetch, after a passed checkpoint, of a URL not seen; a dead hit leaves no put and no record, any other is archived after one more checkpoint; a page of which no record can be built ends the run |
| Research.Run.Capture | research_agent/research.py:81-95 | the fetches the trace gains are of hits not seen before, and a hit not fetched was seen or found the budget used up; the records and seen URLs are exactly what the trace archived, within the source budget |
| Research.Run.VerifyAll | research_agent/research.py:105-107 | a guarded archive read of each record in order; goes on only if none raised |
| Research.Run.MakePlan | research_agent/research.py:66-74 | a guarded planning call whose reply decides: the first of the four queries, as many as the policy allows, or a rejection that ends the run only in the last iteration |
| Research.Run.Gather | research_agent/research.py:66-95 | plan, search and capture, carried out in full, with exact book-keeping of plans, rejections, posts and records; a failure has one of the reasons named |
| Research.Run.Conclude | research_agent/research.py:96-112 | a guarded synthesis, then the verification of every record the result reports; finishes only if the draft was accepted, no read raised and the result was not refused |
| Research.Run.ResearchCluster | research_agent/research.py:41-112 | every call follows a passed checkpoint that said what the fence says, and the run stops exactly at a refused one; no faulty reply is passed over; a finished run kept its budgets and reports what its trace did; a failed one has a reason |
| Research.CallsAreProper | research_agent/research.py:66-95 | however the run ends, every post was a valid query of its last plan, and every fetched URL was listed by an earlier search of its own, is no seed's and was not archived before |
| Research.ErrorsAreHeeded | research_agent/research.py:41-112 | whatever call is followed by anything came back as it must; in a finished run every call did, the last draft was accepted, and request, seeds and result were acceptable |
| Research.PlansAreCarriedOut | research_agent/research.py:66-98 | in a finished run every accepted plan was carried out: its queries posted in order, what they found merged, and every hit fetched, seen or out of budget, before the synthesis |
| Research.RecordsAreArchived | research_agent/research.py:88-95 | the reported records are seeds or pages the trace archived, and no id of these is missing |
| Research.BreachesAreCounted | research_agent/research.py:82-83 | no breach is counted exactly when every post and fetch on the trace was such |
| Research.CountModelCalls | research_agent/research.py:96-112 | a finished run's `model_calls` are the plans and syntheses it began exactly when none of its plans was rejected; each rejected plan adds one |
| Research.RejectedPlanIsCounted | research_agent/research.py:66-74 | a run of two iterations whose first plan is rejected finishes and reports a call it did not make |
| Research.RejectedIsCounted | research_agent/research.py:66-74 | no rejection is counted exactly when every planning call on the trace was used |
| Compaction.PairToolExchanges | runtime/config/claude_aware_compression.py:794-814 | two messages are paired iff one holds the last use of an id and the other its last result |
| Compaction.FindClash | runtime/config/claude_aware_compression.py:782-785 | the first two adjacent kept messages of one role, or none |
| Compaction.EnforceAlternation | runtime/config/claude_aware_compression.py:764-792 | terminates with the repaired set: no two equal adjacent roles |
| CompactionRepair.RemovedOnlyForAClash | runtime/config/claude_aware_compression.py:780-792 | for every kept set a message is removed only if it, or a partner of it, had the role of the next message kept, or followed the first message with its role |
| CompactionRepair.RepairKeepsLastOfRun | runtime/config/claude_aware_compression.py:764-792 | without tool exchanges exactly the newest message of each run of one role is left, and of the first message's run the first |
| CompactionRepair.NewestOutlives | runtime/config/claude_aware_compression.py:786-789 | then the newest message survives exactly when one of another role is kept before it, or it is the first |
| CompactionRepair.SystemMessagesGo | runtime/config/claude_aware_compression.py:722-748 | once anything is dropped, what survives is no system message, or a partner of one that is not |
| Compaction.Choose | runtime/config/claude_aware_compression.py:742-759 | the loop with its running token count computes the budgeted choice |
| Compaction.DropOldMessages | runtime/config/claude_aware_compression.py:719-762 | returns the messages that survive choice and repair, in order |
| CompactionTheorems.SelectIsClosedAndBounded | runtime/config/claude_aware_compression.py:742-759 | for a matching, the choice is closed under pairing and stops at most one unit past its floor when over target |
| CompactionTheorems.RepairIsClosed | runtime/config/claude_aware_compression.py:764-792 | for a matching, the repair keeps the set closed under pairing |
| CompactionTheorems.CompactionIsSound | runtime/config/claude_aware_compression.py:719-814 | for a matching: closed, no equal adjacent roles, and within target or at most the floor and two more |
| CompactionTheorems.CutIsWellFormed | runtime/config/claude_aware_compression.py:719-814 | cutting from the first user message to an assistant message keeps every use next to its result |
| CompactionTheorems.CompactionKeepsConversationValid | runtime/config/claude_aware_compression.py:719-814 | a well-formed conversation, floor at least two: the result is well formed, begins with the first and ends with the newest message, and one stretch is cut |
| CompactionTheorems.NewestSurvivesLowFloor | runtime/config/claude_aware_compression.py:742-759 | for every floor of one or less: the newest message survives exactly when the floor is one or it fits next to the first (with a call it answers), and it is not an unanswering user message behind one that does not fit |
| CompactionTheorems.NewestIsLost | runtime/config/claude_aware_compression.py:755-792 | three turns of one token, a target of two and a floor of one: only the first message is left |
| Truncation.SummaryFitsIff | runtime/config/claude_aware_compression.py:895-953 | a summary keeps the limit exactly when a structured form or the marker fits it |
| Truncation.FirstFittingIsFirst | runtime/config/claude_aware_compression.py:913-936 | of the structured forms the first that fits is taken |
| Truncation.SummaryKeepsEnds | runtime/config/claude_aware_compression.py:939-953 | otherwise head and tail of equal length surround the marker and fill the limit up to one character |
| Truncation.MarkerLength | runtime/config/claude_aware_compression.py:948-948 | what the marker takes besides the digits and the digest |
| Truncation.DigitsSpellNumber | runtime/config/claude_aware_compression.py:948-948 | the count in the marker is the number of characters over the limit, in decimal |
| Truncation.ReplacedIsExtracted | runtime/config/claude_aware_compression.py:854-890 | a replaced tool-result text is extracted again from where it was put, with the same extras |
| Truncation.TruncateOne | runtime/config/claude_aware_compression.py:669-687 | one block truncated, unchanged when it reports no change |
| Truncation.TruncateContent | runtime/config/claude_aware_compression.py:667-689 | the loop truncates every block |
| Truncation.TruncateToolResults | runtime/config/claude_aware_compression.py:643-694 | truncates every unprotected user message and no other |
| Truncation.TruncatedFits | runtime/config/claude_aware_compression.py:643-694 | with room for the markers no text of a truncated user message exceeds the limit; other messages stay |
| Truncation.NoLongTextIsLeft | runtime/config/claude_aware_compression.py:643-694 | then no text field, string content or text item of a block a client reads is longer than the limit |
| Truncation.OnlyTextChanges | runtime/config/claude_aware_compression.py:667-689 | a block keeps its keys and every field but that text |
| Truncation.OnlyContentChanges | runtime/config/claude_aware_compression.py:643-694 | a message keeps every field but its content, and its number of blocks |
| Truncation.ListIsParted | runtime/config/claude_aware_compression.py:862-872 | a content list is parted into its texts and its other items, each in order |
| Truncation.TruncatingTwice | runtime/config/claude_aware_compression.py:643-694 | with room for the markers of the unprotected user messages truncation is idempotent |
| Truncation.ProtectedStays | runtime/config/claude_aware_compression.py:587-592 | truncation leaves the same message protected |
| Truncation.PrefixIsStable | runtime/config/claude_aware_compression.py:593-602 | the truncation of a longer history begins with that of the shorter one |
| Sse.BreakIsFirst | runtime/config/ccshims/repair.py:2631-2632 | a frame ends at the first blank line |
| Sse.Sanitizer.SanitizeFrame | runtime/config/ccshims/repair.py:2566-2618 | a frame passes or is dropped by the map of open blocks, which it updates |
| Sse.Sanitizer.Feed | runtime/config/ccshims/repair.py:2620-2636 | outputs the complete frames of buffer and chunk, filtered, and keeps the remainder |
| Sse.Sanitizer.Flush | runtime/config/ccshims/repair.py:2638-2644 | filters the remainder as a frame |
| Sse.SanitizeItems | runtime/config/ccshims/repair.py:2646-2652 | output, block map and drop count depend on the concatenated text alone |
| Sse.FramesAppend | runtime/config/ccshims/repair.py:2629-2636 | splitting a text with a continuation is splitting the text, then its remainder with the continuation |
| Sse.ChunkingIsInvisible | runtime/config/ccshims/repair.py:2620-2636 | any two ways of cutting a text into chunks give the same output, map, count and remainder |
| Sse.FilterRemovesStrays | runtime/config/ccshims/repair.py:2566-2592 | exactly the frames with a thinking delta for a block not open as `thinking` are removed, and the map is exactly the open blocks |
| Sse.TextIsFiltered | runtime/config/ccshims/repair.py:2620-2652 | the whole stream's frames and, if it ends in an unended one, that without its line feeds, are output, but for the stray ones |
| Sse.FramesMakeUpText | runtime/config/ccshims/repair.py:2631-2636 | frames with their blank lines and the remainder make up the text |
| Sse.IdenticalIffClean | runtime/config/ccshims/repair.py:2620-2644 | the output is the input, character for character, exactly when nothing is dropped and the text ends on a frame boundary |
| SseFrame.EmptyFrameIsSilent | runtime/config/ccshims/repair.py:2594-2605 | an empty frame is passed on |
| SsePrinted.PrintedSignal | runtime/config/ccshims/repair.py:2566-2618 | the frame of a printed event reads as a start, a stop or a thinking delta at an index exactly when the event is one |
| SsePrinted.TwoDataLinesAreSilent | runtime/config/ccshims/repair.py:2604-2605 | a frame with two data lines is passed on unread |
| SsePrinted.NoDictIsSilent | runtime/config/ccshims/repair.py:2606-2616 | so is one whose data is the end marker or no dict |
| SsePrinted.LineByLine | runtime/config/ccshims/repair.py:2597-2597 | a frame is read line by line |
| SsePrinted.LastNameWins | runtime/config/ccshims/repair.py:2598-2601 | of several event names in a frame the last counts |
| SsePrinted.PrintedStreamIsFiltered | runtime/config/ccshims/repair.py:2559-2652 | of a printed stream exactly the thinking deltas outside an open thinking block are removed and counted; every other event passes as printed |
| SseFrame.StreamUntouchedIffClean | runtime/config/ccshims/repair.py:2559-2652 | the output of the gateway's own reader is the input exactly when nothing is dropped and the text ends on a frame boundary |
| ToolInput.DecodesIff | runtime/config/ccshims/repair.py:1040-1058 | an input decodes exactly when it is a dict, nothing, blank text or text that loads to a dict, and to that; blanks around it do not matter, and a decoded input decodes to itself |
| ToolInput.TrimPathTight | runtime/config/ccshims/repair.py:1074-1083 | a trimmed path has no blank ends, and is not blank unless empty |
| ToolInput.TrimTakesArtifacts | runtime/config/ccshims/repair.py:1074-1083 | trimming a path takes blanks and quotes off its ends and nothing else |
| ToolInput.PlainPathStays | runtime/config/ccshims/repair.py:1074-1083 | a path without a quote at its ends is only stripped |
| ToolInput.OnlyReadPathsChange | runtime/config/ccshims/repair.py:1085-1098 | only the two path fields of a Read call are trimmed |
| ToolInput.TrimIsIdempotentIff | runtime/config/ccshims/repair.py:1074-1083 | trimming a path is idempotent exactly when what its matched quotes are around does not begin or end with a quote |
| ToolInput.NestedQuotes | runtime/config/ccshims/repair.py:1081-1082 | a path in single around double quotes loses one pair a trim |
| ToolInput.TrimInputTwiceIff | runtime/config/ccshims/repair.py:1085-1098 | trimming a tool input is idempotent exactly when neither path of a Read call is in nested quotes with something in them |
| ToolInput.OnePair | runtime/config/ccshims/repair.py:1081-1082 | of matched quotes around a path exactly one pair goes |
| ToolInput.TrimmingKeepsBlank | runtime/config/ccshims/repair.py:1085-1098 | trimming makes no required field blank and fills none |
| ToolStream.PrintBlocks | runtime/config/ccshims/repair.py:2666-2679 | the loop prints three events for every named block, at its own index |
| ToolStream.ToolBlocksStream | runtime/config/ccshims/repair.py:2654-2681 | nothing for no blocks, else start, blocks, delta and stop |
| ToolStream.FrameParses | runtime/config/ccshims/repair.py:2520-2557 | a printed event parses to its own name and payload |
| ToolStream.ParsePrinted | runtime/config/ccshims/repair.py:2520-2557 | the concatenated print of any events with good names parses to those events, in order |
| ToolStreamTheorem.EachDatumParses | runtime/config/ccshims/repair.py:2536-2546 | each datum of a frame that is a dict and no end marker is an event of its own |
| ToolStreamTheorem.DeltaOpensEntry | runtime/config/ccshims/repair.py:2773-2784 | a fragment for an index no start has opened begins an entry without id and name |
| ToolStreamTheorem.FragmentsOverlay | runtime/config/ccshims/repair.py:2787-2794 | the joined fragments overlay the start's input where they decode; otherwise that stands |
| ToolStreamTheorem.BlocksReadBack | runtime/config/ccshims/repair.py:2753-2784 | reading the blocks' events back adds one entry a named block, at its index, with its one fragment |
| ToolStreamTheorem.StreamRoundTrip | runtime/config/ccshims/repair.py:2654-2784 | printing any blocks and reading the stream back gives the start, the usage and exactly the named blocks in order |
| ToolStreamTheorem.EntriesAreNamedBlocks | runtime/config/ccshims/repair.py:2753-2784 | the entries are the named blocks, no more and no fewer, in index order |
| ToolStreamTheorem.EntryFinishes | runtime/config/ccshims/repair.py:2787-2794 | an entry finishes to the input that was sent |
| ToolStreamTheorem.BlocksComeBack | runtime/config/ccshims/repair.py:2654-2794 | every block whose name is not blank comes back at its index with its name, its id or else the one made for it, and its input up to Read path trimming |
| ToolStreamTheorem.OthersAreSkipped | runtime/config/ccshims/repair.py:2666-2669 | no entry comes from a block whose name is blank |
| ToolStreamTheorem.StreamTellsStartAndUsage | runtime/config/ccshims/repair.py:2654-2681 | the stream read back tells the start with its message emptied and nothing else changed, and the usage given if there was any |
| ToolStreamTheorem.StreamEndsForToolUse | runtime/config/ccshims/repair.py:2676-2681 | the stream ends with a message delta whose stop reason is tool use, and a message stop |
| History.TrimmingKeepsMissing | runtime/config/ccshims/repair.py:1060-1098 | which required fields are missing does not depend on trimming first |
| History.SanitizeBlock | runtime/config/ccshims/repair.py:1132-1158 | one block kept, trimmed, rewritten or removed, its id and patches recorded; raises exactly on a result with an unhashable id |
| History.SanitizeCall | runtime/config/ccshims/repair.py:1139-1157 | one named call: trimmed when its input reads, rewritten to text when it does not or misses a field |
| History.SanitizeContent | runtime/config/ccshims/repair.py:1132-1158 | the loop over blocks: content, dropped ids and patch count |
| History.SanitizeMessage | runtime/config/ccshims/repair.py:1122-1166 | one message: untouched without list content, never left with an empty list |
| History.SanitizeHistory | runtime/config/ccshims/repair.py:1108-1167 | every message rewritten with the ids dropped before it; nothing at all without a list or required fields |
| HistoryTheorems.ShapeIsKept | runtime/config/ccshims/repair.py:1108-1167 | message count, roles and other fields stay; no list content is left empty |
| HistoryTheorems.NothingMalformedIsLeft | runtime/config/ccshims/repair.py:1139-1158 | no malformed assistant call is left, and no result of a call rewritten in an earlier message |
| HistoryTheorems.GoneIsRewritten | runtime/config/ccshims/repair.py:1151-1154 | the dropped ids are exactly those of the malformed calls |
| HistoryTheorems.NoResultWithoutCall | runtime/config/ccshims/repair.py:1137-1138 | when results follow their calls, no result survives whose call was rewritten |
| HistoryTheorems.EverythingElseIsKept | runtime/config/ccshims/repair.py:1108-1167 | a rewritten message holds the original's blocks in order, but for results of calls rewritten earlier: sound blocks up to Read path trimming, malformed calls as text |
| HistoryTheorems.BlocksInPlainTerms | runtime/config/ccshims/repair.py:1132-1158 | one block: a result of a dropped call goes, a named call that decodes and misses nothing is trimmed, another becomes the text that names its tool and what it lacks, anything else stays |
| HistoryTheorems.CallsAreUsable | runtime/config/ccshims/repair.py:1139-1157 | every call of a named tool that is left decodes and has every required field, not blank |
| HistoryTheorems.FieldsAreListed | runtime/config/ccshims/repair.py:1100-1106 | the text lists every missing field between back quotes, in order |
| HistoryTheorems.PatchesAreCounted | runtime/config/ccshims/repair.py:1139-1157 | the patch count is the number of calls trimmed and of calls rewritten |
| HistoryTheorems.UnpatchedIffUnchanged | runtime/config/ccshims/repair.py:1108-1167 | in a history without empty contents nothing is counted exactly when nothing is changed |
| HistoryTheorems.SecondPassOnlyTrims | runtime/config/ccshims/repair.py:1108-1167 | a second pass rewrites and removes nothing; it changes the history, and counts a patch, exactly when a kept call of the original held a Read path in nested quotes |
| HistoryTheorems.StableIffSettled | runtime/config/ccshims/repair.py:1108-1167 | no call of the rewritten history would be trimmed exactly when no kept call of the original held such a path |
| HistoryTheorems.NestedQuotesChangeAgain | runtime/config/ccshims/repair.py:1108-1167 | for any required fields a history of one Read call that the second pass changes |
| Plan.CountCompletedAfter | runtime/config/ccshims/repair.py:2145-2158 | the nested loops compute the greedy count over the messages after the given one |
| Plan.OnlyUsesSinceCount | runtime/config/ccshims/repair.py:2149-2290 | what is proposed depends on the latest plan and the uses after it alone: nothing done before the plan counts |
| Plan.GreedyIsOptimal | runtime/config/ccshims/repair.py:2145-2158 | the first k steps are a subsequence of the uses exactly when k is at most the count |
| Plan.NextIsFirstOpen | runtime/config/ccshims/repair.py:2284-2290 | the proposed step is the one after the longest prefix of the plan that the uses contain in order |
| Plan.LatestPlanIsLast | runtime/config/ccshims/repair.py:2224-2235 | the plan found is that of the last message that has one |
| Plan.NextPlannedToolValue | runtime/config/ccshims/repair.py:2277-2290 | the value of the first step not completed, if the tool is the one asked for |
| Plan.OneUseOn | runtime/config/ccshims/repair.py:2153-2157 | a use raises the count by exactly one if it is the proposed step, else not at all |
| Plan.ObedientIsInOrder | runtime/config/ccshims/repair.py:2145-2158 | uses that are always the proposed step are the remaining steps in order |
| Plan.PlanFinishes | runtime/config/ccshims/repair.py:2277-2290 | with a plan and any uses since, whoever performs what is proposed, with any tool results in between, performs the remaining steps one by one, and after as many uses, not before, nothing is proposed |
| Plan.PlanCanBeFinished | runtime/config/ccshims/repair.py:2277-2290 | every plan can be finished by alternating a use and its result, two messages a remaining step |
| Clamp.Available | runtime/config/ccshims/repair.py:824-858 | all that is left of the window after prompt and margin, in whole tokens and at least one; nothing exactly when the window is unknown or used up |
| Clamp.AvailableInNumbers | runtime/config/ccshims/repair.py:824-858 | the same in numbers, by window, character count and margin |
| Clamp.Payload.ClampThinking | runtime/config/ccshims/repair.py:859-894 | thinking block and `max_tokens` fitted in place |
| Clamp.Payload.CutToWindow | runtime/config/ccshims/repair.py:895-902 | both token fields cut to what is left |
| Clamp.Payload.CapOutput | runtime/config/ccshims/repair.py:907-935 | both token fields cut to the provider's cap, or to what `max_tokens` asks for |
| Clamp.Payload.ClampTokens | runtime/config/ccshims/repair.py:817-935 | the whole clamp in place; untouched when the budget is unknown or used up |
| Clamp.WindowPassFits | runtime/config/ccshims/repair.py:859-902 | before the provider cap every field fits, and a surviving budget, in whole tokens, is at least 1024 and below `max_tokens` |
| Clamp.FractionFitsIff | runtime/config/ccshims/repair.py:859-894 | the budget with its fraction stays below `max_tokens` exactly when the limit does not lie within the fraction |
| Clamp.FractionMayExceed | runtime/config/ccshims/repair.py:859-894 | a budget of 2000.7 is kept beside a `max_tokens` of 2000.5 |
| Clamp.WindowPassIsMinimal | runtime/config/ccshims/repair.py:859-902 | nothing is cut without need: fields, budget and thinking change only where they must, and to the values stated |
| Clamp.LimitInNumbers | runtime/config/ccshims/repair.py:868-882 | the limit a budget is held against: `max_tokens`, else `max_completion_tokens`, else one more than the budget, and no more than there is |
| Clamp.MaxTokensBeforeCap | runtime/config/ccshims/repair.py:859-902 | what becomes of both token fields before the cap, with thinking kept, given up or absent |
| Clamp.CapInNumbers | runtime/config/ccshims/repair.py:907-935 | both token fields cut to the provider's whole tokens, or to the whole tokens of `max_tokens`; thinking is left |
| Clamp.OutputFitsWindow | runtime/config/ccshims/repair.py:817-823 | after a pass prompt, margin and output fit the declared window |
| Clamp.PassIsCapped | runtime/config/ccshims/repair.py:907-935 | after a pass no field exceeds the window or the cap |
| Clamp.TwoPassesSettle | runtime/config/ccshims/repair.py:817-935 | with a cap of at least one, two passes make everything fit and a third changes nothing |
| Clamp.OnePassMayNotFit | runtime/config/ccshims/repair.py:929-935 | one pass is not enough: the cap can fall below the budget, and so can a fractional `max_tokens` without a cap |
| Clamp.OnePassFitsIff | runtime/config/ccshims/repair.py:859-935 | one pass makes the budget fit exactly when thinking is off, unusable or without room, or the budget it keeps is below the cap to come |
| Clamp.TwoPassesSufficeIff | runtime/config/ccshims/repair.py:921-935 | two passes suffice for every request exactly when the cap does not truncate to zero or the window allows no thinking |
| Clamp.ZeroCapBreaks | runtime/config/ccshims/repair.py:921-935 | a cap below one token: after two passes the budget still does not fit |
| ToolIndex.Normalizer.Normalize | runtime/config/sitecustomize.py:4092-4153 | one chunk: fragments kept, reindexed or skipped, state updated; no chunk when all were skipped |
| ToolIndex.RunsCompose | runtime/config/sitecustomize.py:4092-4153 | chunk boundaries do not matter |
| ToolIndex.IdsAreNumberedInOrder | runtime/config/sitecustomize.py:4118-4127 | ids map one to one onto 0 to next - 1 in first-seen order |
| ToolIndex.NothingIsLost | runtime/config/sitecustomize.py:4128-4139 | no fragment that carries a name or arguments is dropped, changed or moved |
| ToolIndex.OnlyClosingFragmentsGo | runtime/config/sitecustomize.py:4128-4147 | exactly the fragments go whose id came before and that carry neither name nor arguments; any other passes unchanged but for its index |
| ToolIndex.GroupsAreCalls | runtime/config/sitecustomize.py:4140-4147 | grouping the output by index rebuilds each call's argument text exactly, after any text that preceded the first id |
| Prune.CatalogFile.PruneLists | scripts/render-litellm-config.py:77-87 | the loop prunes the three fallback lists and no other key |
| Prune.CatalogFile.PruneRouters | scripts/render-litellm-config.py:92-118 | the loop prunes every router and replaces lost defaults |
| Prune.CatalogFile.Prune | scripts/render-litellm-config.py:68-118 | the whole catalog pruned in place |
| PruneTheorems.ListKeepsGoodHops | scripts/render-litellm-config.py:77-87 | exactly the hops between resolvable models survive, in order |
| PruneTheorems.TierSurvivesIff | scripts/render-litellm-config.py:98-103 | a tier survives exactly when one of its models is resolvable, with just those |
| PruneTheorems.TierModelsAreKept | scripts/render-litellm-config.py:98-103 | a pruned router names the resolvable models it named, in order |
| PruneTheorems.DefaultResolves | scripts/render-litellm-config.py:112-118 | a router that keeps a tier model has a resolvable default; a resolvable one is not touched |
| PruneTheorems.LostDefaultIsReplaced | scripts/render-litellm-config.py:112-118 | a default that does not resolve is replaced, wherever it stood, by the first model the tiers keep, if any |
| PruneTheorems.PrunedIsResolvable | scripts/render-litellm-config.py:68-118 | after pruning every source, target, default fallback, tier model and default is resolvable, and other keys are unchanged |
| PruneTheorems.RestIsFiltered | scripts/render-litellm-config.py:75-111 | default fallbacks and tier configurations keep exactly what resolves, in order; fallback lists exactly their good hops; nothing else is touched |
| PruneTheorems.ScalarTierIsLostIff | scripts/render-litellm-config.py:98-103 | a scalar tier is dropped exactly when no character of it is a resolvable name, even if its model is there; as a list it stays |
| PruneTheorems.ScalarTierIsLost | scripts/render-litellm-config.py:98-103 | such a tier, with its model rendered |
| PruneTheorems.ListTwice | scripts/render-litellm-config.py:154-182 | pruning a fallback list in two stages is pruning it once |
| PruneTheorems.ModelTwice | scripts/render-litellm-config.py:154-182 | so is pruning a router, exactly when its default does not drift |
| PruneTheorems.TwoStagesAreOneIff | scripts/render-litellm-config.py:154-182 | pruning with A, then B within A, equals pruning with B exactly when no remote router drifts |
| PruneTheorems.StagesMayDiffer | scripts/render-litellm-config.py:112-182 | a remote router with a lost default and a local tier model, for which the two differ |
| PruneTheorems.RenderedTwice | scripts/render-litellm-config.py:149-182 | in particular when every remote router keeps a tier model and no model or alias has an empty name |

## Left out

- HTTP, SQL dialect, S3, DNS pinning, FastAPI, subprocess and file I/O: a transaction is one atomic step, an outside call is a reply.
- The bodies of exits by TimeoutError and CancelledError in `execute` beyond what they leave in the store: they wait for lease expiry by design.
- Fresh uuids are counters, and `expire_leases` evaluates the clock once for all rows.
- `_executions`, `worker_healthy`, the submission payload and the snapshot builders of the service: book-keeping without influence on the protocol.
- Content hashes and archive keys: a record is its id and two URLs, a commitment is an opaque text.
- The search's own errors other than bad counts, queries and URLs; the check that hits exceed the source budget, which the merge rules out.
- Compaction.PairToolExchanges: ids are texts; an id of another type, and a message that is no dict, are not modelled.
- Compaction with a negative floor and no message to keep raises an IndexError, which the caller catches; the model returns the history, as the caller does.
- Image dropping, the byte budget, token counting, thresholds and their overrides in the compression callback: uses of the parts modelled here, or single checks.
- The structured forms that `_summarize` tries on JSON texts, and its side cache: a list of candidate texts is a parameter.
- Truncation.TruncatingTwice: assumes that the marker of every long text in an unprotected user message fits the limit; below that, a marker is itself truncated again, and equality would depend on the digest.
- Sse.SanitizeItems: streams of text only; dict items pass the real filter at once and overtake buffered text. Bytes decoded chunk by chunk are not modelled.
- JSON text: the codec is a hypothesis (what `json.dumps` and `json.loads` promise for dicts), a float is a literal that loads as itself, and no value is cyclic.
- ToolStreamTheorem.StreamRoundTrip: the start event given must have no type or the type `message_start`, as every caller's has; the reader's final step is taken block by block, where the caller accepts one block only.
- In `History` the input messages are values: that the rewriter also updates the caller's dicts in place is not modelled.
- The extraction of planned steps and of tool values from messages, the text-to-tool extractors and all regular expressions.
- Clamp.Available: the character count is a parameter, and the window, like every token field, is a finite number or absent; a field of another type makes the code raise.
- The lookup of the provider's cap among candidate names: the model takes the cap that is found.
- In `ToolIndex` a fragment has the fields the normaliser reads; an id that is no text, and chunks without choices, are not modelled.
- The rest of `sitecustomize.py`: patches over library internals that are not visible here.
- In `Prune`, what `model_group_alias` entries point to, values that are neither lists nor scalars where names are iterated (the code raises), and `resolve_environment` between the two prunings.
- Policies, models, OAuth, headers, telemetry, usage, adapters, probes, archiver and RunPod scripts: mostly single checks or I/O.
