# Verified models of the orchestrator's cores

The repository orchestrates agents. Most of it moves data between SQLite, HTTP and processes;
a few cores decide what happens, and these are modelled here in Dafny and proved correct over
every input or every run.

| file | core |
|---|---|
| `BoundSessionQueue.dfy`, `BoundSessionQueueTheorems.dfy` | the durable per-session queue of automation runs as a state machine with crashes, other tasks and a clock; what holds over all runs |
| `BoundSessionQueueCopies.dfy` | the same queue with the copies that the worker writes from, and receipts written back at any time |
| `BoundSessionQueueRepository.dfy`, `BoundSessionQueueEvents.dfy`, `BoundSessionQueueService.dfy` | its table and its service as objects; every method is shown to be a legal run of the machine |
| `AutomationDelivery.dfy`, `AutomationDeliveryTheorems.dfy`, `AutomationDeliveryService.dfy` | the outbox of run notifications: two legs with claims, leases, bounded attempts and a fallback |
| `TextTime.dfy` | times stored as ISO text and compared by SQLite as text |
| `JsonScanner.dfy` | finding the first JSON object in a model's answer, against the grammar of RFC 8259 |
| `A2aBus.dfy`, `A2aBusTasks.dfy` | the publish/subscribe bus between agents, one operation at a time and under concurrent tasks |
| `AuditPaging.dfy` | cursor paging over the audit log |
| `AnswerMatching.dfy` | greedy tolerant matching of database answers |
| `EvalCheckpoint.dfy`, `Utf8.dfy` | the append-only result log of an evaluation, as bytes, its replay and resuming |
| `EvalRunner.dfy` | retries of an evaluation item and the accounting of workspaces |
| `McpCorrelation.dfy` | correlation of responses in a hosted MCP connection |
| `ToolCallIds.dfy` | the ids under which an external agent's tool calls are shown |
| `Options.dfy`, `Ordering.dfy`, `Passes.dfy`, `Sums.dfy`, `Whitespace.dfy` | shared helpers |

How the two automation services are modelled: a state holds the table, the run statuses, the
clock and what the worker is in the middle of. An event is one SQL statement, one call to an
outside service, a crash, or a change made by somebody else. A crash may come between any two
statements of a worker, run statuses change at will, and the clock only moves forward. In the
machine of the queue the creator's write-back of a receipt comes in time, that is, before the row is
claimed; `BoundSessionQueueCopies.dfy` is about runs in which it may come late as well. The
theorems speak of every legal run. The service classes carry the state as a ghost field; each
method states the exact events it goes through, so the theorems hold of the objects. In the
theorems about runs, the history of an item (claims, starts, calls, messages) is recorded
beside the table and is never read by the service.

What a run service, a channel, `json.loads`, pydantic or SHA-256 answers is a parameter. Of
`json.loads` nothing is used but its answer: a text is accepted, refused, or raises something
other than JSONDecodeError. Of the digest, cut to 24 hexadecimal digits, it is used that it has no
collision among the ids that occur in a run and that none of those ids is one made from another;
of a start that ends in a RuntimeError, that it has started no run; of a new run, that its id is new.

Ten properties that the code might be expected to have are false. For each there is a concrete
input, and the condition under which it holds:

- The creator of a queue row writes its whole copy back after sending a message. If the row has
  been claimed by then, it is queued again, even when it was completed, and may be started a second
  time, though not a third (`WriteBackSafeIff`, `WriteBackReopens`, `LateWriteBackStartsTwice`,
  `StartedAtMostTwice`).
- Five calls of `resume_run` are not the most there can be: a call that does not come back leaves
  no trace, and the next pass calls again at once (`CallsAgree`, `LostCallsRepeat`, `SixCalls`).
- Skipping a terminal delivery while a message of that row is being sent is overwritten by the
  attempt's write-back (`SkipLastsIff`, `SkippedIsSentAgain`).
- The result log is read with `str.splitlines()`, which also breaks at U+0085, U+2028 and
  U+2029; these may stand unescaped in a JSON string, and then loading raises
  (`ReplayIffBreakFree`, `SeparatorRaises`).
- A log that a dying process cut inside its last record loads only if the cut does not fall inside
  a character; and once a resumed process has appended to the torn line, its first record is
  lost or loading raises (`TornLogReplays`, `TornCharacterRaises`, `AppendAfterTear`).
- A JSON object in an answer is not found when `json.loads` raises something other than
  JSONDecodeError on an earlier candidate (`ExtractionSucceeds`, `HugeNumberBreaks`).
- A message on the bus does not reach exactly the subscriptions in force when it was published.
  While it waits for its log entry, a role that joins and stays gets it and one that leaves does not;
  while it is handed round, a role that joins before anybody leaves gets it and one that leaves
  still does (`PublishReachesIff`, `EarlyLeaverMissesIt`, `LateJoinerGetsIt`, `LeaverStillGetsIt`).
- Greedy matching accepts every list that can be paired if and only if unequal expected numbers
  are more than 0.02 apart (`CompleteIffSeparated`, `GreedyCanReject`).
- Tool calls without an id are published once only if no request for permission follows an
  update of such a call (`BlankIdsOnceIff`, `BlankCallShownTwice`).
- A prepared workspace is left behind by a KeyboardInterrupt, which the cleanup does not see
  (`EveryWorkspaceCleanedOnce`, `InterruptLeaks`).

## Model

| member | source | states |
|---|---|---|
| `BoundSessionQueue.StepKeepsInv` | src/relay_teams/automation/automation_bound_session_queue_service.py:161-699 | every statement of the worker, every change by other tasks but a late write-back, the clock and every crash keep the invariant: attempts and claims agree, calls keep the resume schedule, of two unfinished items of a session the later one is queued, starts go up in id |
| `BoundSessionQueueTheorems.HeadOfLine` | src/relay_teams/automation/automation_bound_session_queue_service.py:338-351 | over every run without a late write-back: an item that is starting or waiting for its result has no unfinished item before it in its session, so at most one item per session is in flight |
| `BoundSessionQueueTheorems.StartsInOrder` | src/relay_teams/automation/automation_bound_session_queue_service.py:338-399 | over every run without a late write-back: the items of a session are started in the order in which they were queued, each at most once |
| `BoundSessionQueueTheorems.AttemptsAgree` | src/relay_teams/automation/automation_bound_session_queue_service.py:350-389 | over every run without a late write-back: claims are the recorded start attempts and one more while starting, at most five; a queued item has attempts left and has never been started |
| `BoundSessionQueueTheorems.FinishedStays` | src/relay_teams/automation/automation_bound_session_queue_service.py:264-336 | over every run without a late write-back: COMPLETED and FAILED are never left |
| `BoundSessionQueueTheorems.GoneStays` | src/relay_teams/automation/automation_bound_session_queue_repository.py:869-883 | ids are never used again: a deleted row does not come back |
| `BoundSessionQueueTheorems.ResumeSchedule` | src/relay_teams/automation/automation_bound_session_queue_service.py:519-626 | over every run without a late write-back: at most five calls of `resume_run` besides those whose outcome was lost; the n-th no sooner than 10 * (2^n - 1) seconds after the item was last armed |
| `BoundSessionQueueTheorems.CallsAgree` | src/relay_teams/automation/automation_bound_session_queue_service.py:519-626 | over every run without a late write-back: the calls of an item are its recorded resume attempts, those whose outcome was lost, and one under way |
| `BoundSessionQueueTheorems.LostCallsRepeat` | src/relay_teams/automation/automation_bound_session_queue_service.py:579-582 | for every n, n calls of one item at one instant, none of which comes back, are a legal run: lost calls have no bound |
| `BoundSessionQueueTheorems.SixCalls` | src/relay_teams/automation/automation_bound_session_queue_service.py:579-582 | a reachable state from which six calls are made for one item at one instant |
| `BoundSessionQueueTheorems.AnnouncedPosition` | src/relay_teams/automation/automation_bound_session_queue_service.py:161-190 | the announced number is the unfinished items ahead of the new row, plus one if the active run is not represented by an item |
| `BoundSessionQueueTheorems.AheadNeverGrows` | src/relay_teams/automation/automation_bound_session_queue_repository.py:465-479 | over every run without a late write-back: the set of items ahead of a row only ever shrinks |
| `BoundSessionQueueTheorems.StartableStays` | src/relay_teams/automation/automation_bound_session_queue_service.py:345-356 | what the worker has listed and counted cannot be undone by other tasks before it claims, short of deleting the row or a late write-back; that the session has no active run can change in between, and the claim does not look again |
| `BoundSessionQueueTheorems.StepPays` | src/relay_teams/automation/automation_bound_session_queue_service.py:251-256 | each progress step lowers a measure over status, attempts left, arming and receipt, and only new items (and late write-backs, see BoundSessionQueueCopies) raise it |
| `BoundSessionQueueTheorems.ProgressIsBounded` | src/relay_teams/automation/automation_bound_session_queue_service.py:843-850 | over every run without a late write-back: progress steps are bounded by the weight of the first rows plus seventeen per item created |
| `BoundSessionQueueTheorems.WorkerCannotSpin` | src/relay_teams/automation/automation_bound_session_queue_service.py:843-850 | from the empty table and without late write-backs, at most seventeen progress steps per item ever created, whatever the clock and the runs do |
| `BoundSessionQueueTheorems.WriteBackSafeIff` | src/relay_teams/automation/automation_bound_session_queue_service.py:191-203 | the write-back of the receipt keeps the invariant if and only if the row is still queued with no start attempt |
| `BoundSessionQueueTheorems.LateWriteBackStartsTwice` | src/relay_teams/automation/automation_bound_session_queue_service.py:191-203 | a run in which a late write-back makes the worker start the same item twice |
| `BoundSessionQueueTheorems.WriteBackReopens` | src/relay_teams/automation/automation_bound_session_queue_service.py:191-203 | a reachable state in which a write-back puts a completed item back into the queue |
| `BoundSessionQueueTheorems.WriteBackGetsAhead` | src/relay_teams/automation/automation_bound_session_queue_service.py:191-203 | a reachable state in which the reopened item gets ahead of a later one, whether that is free to start or already claimed |
| `BoundSessionQueueCopies.ActKeepsInv` | src/relay_teams/automation/automation_bound_session_queue_service.py:191-699 | with the copies that the worker writes from, and write-backs at any time: every act keeps it that a copy is the row, unless the row was put back into the queue |
| `BoundSessionQueueCopies.ProgressIsBounded` | src/relay_teams/automation/automation_bound_session_queue_service.py:843-850 | over every run, write-backs at any time included: progress steps are at most thirty-four per item created, besides what the first rows and drafts allow |
| `BoundSessionQueueCopies.WorkerCannotSpin` | src/relay_teams/automation/automation_bound_session_queue_service.py:843-850 | the same from the empty table |
| `BoundSessionQueueCopies.StartedAtMostTwice` | src/relay_teams/automation/automation_bound_session_queue_service.py:191-399 | over every run, write-backs at any time included: an item is started at most twice, and at most once before its receipt is written back |
| `BoundSessionQueueCopies.FinishedStaysUnless` | src/relay_teams/automation/automation_bound_session_queue_service.py:191-336 | over every run, write-backs at any time included: COMPLETED and FAILED are left only by the item's own write-back |
| `BoundSessionQueueCopies.InTimeIsMachine` | src/relay_teams/automation/automation_bound_session_queue_service.py:161-699 | a run in which no write-back is late is a legal run of the machine without copies, with the same table, so the theorems about that machine hold of it |
| `BoundSessionQueueRepository.ListedIsSelection` | src/relay_teams/automation/automation_bound_session_queue_repository.py:499-522 | a listing by id holds exactly the rows that satisfy the condition, ascending |
| `BoundSessionQueueRepository.LimitedIsSelection` | src/relay_teams/automation/automation_bound_session_queue_repository.py:505-522 | the limited listing holds the least ids that satisfy the condition, each once, ascending; a row is left out only when the limit is used up |
| `BoundSessionQueueRepository.QueueRepository.Create` | src/relay_teams/automation/automation_bound_session_queue_repository.py:135-183 | a new row gets an id one above any that was given out before, whether or not the row is still there (that a gone row stays gone over every run is GoneStays) |
| `BoundSessionQueueRepository.QueueRepository.ClaimStarting` | src/relay_teams/automation/automation_bound_session_queue_repository.py:592-630 | a claim succeeds exactly for a queued row or one whose start is stale, and changes status and time only |
| `BoundSessionQueueRepository.QueueRepository.ListPendingQueueCleanup` | src/relay_teams/automation/automation_bound_session_queue_repository.py:682-719 | only rows whose cleanup is due, oldest first, at most the limit; a due row is left out only when the limit is used up and it is no older than any listed one |
| `BoundSessionQueueRepository.QueueRepository.CountNonTerminalAhead` | src/relay_teams/automation/automation_bound_session_queue_repository.py:465-479 | for an unfinished row, its position in the listing of the unfinished rows of its session, which is the number of them with a smaller id; zero for an unknown id |
| `BoundSessionQueueRepository.QueueRepository.CountNonTerminalBySession` | src/relay_teams/automation/automation_bound_session_queue_repository.py:437-448 | reading the table row by row gives the length of the listing of the unfinished rows of the session |
| `BoundSessionQueueRepository.QueueRepository.HasNonTerminalItemForRun` | src/relay_teams/automation/automation_bound_session_queue_repository.py:403-417 | reading up to the first hit finds one exactly when some unfinished row stands for the run |
| `BoundSessionQueueRepository.CountIsPosition` | src/relay_teams/automation/automation_bound_session_queue_repository.py:465-479 | for every table and condition: the number of selected rows with a smaller id is where the row stands in the listing by id |
| `Ordering.CutIsOldest` | src/relay_teams/automation/automation_bound_session_queue_repository.py:703-718 | ordering by time and cutting at the limit gives the oldest rows: no row that is left out is older than a listed one |
| `BoundSessionQueueEvents.StartReaches` | src/relay_teams/automation/automation_bound_session_queue_service.py:352-399 | the events of one start, with every way it can end, are legal and lead to exactly the rows, runs and clock that the statements write |
| `BoundSessionQueueEvents.RecoverReaches` | src/relay_teams/automation/automation_bound_session_queue_service.py:519-626 | the same for arming, waiting, giving up and resuming |
| `BoundSessionQueueEvents.FinalizeReaches` | src/relay_teams/automation/automation_bound_session_queue_service.py:264-336 | the same for finalising one row, with the repair of a dirty runtime before it |
| `BoundSessionQueueService.PassIsRun` | src/relay_teams/automation/automation_bound_session_queue_service.py:251-256 | a pass is one legal run of the machine, and it contains a progress step exactly when some row's turn does |
| `BoundSessionQueueService.AutomationBoundSessionQueueService.NormalizeRecoveryRuntime` | src/relay_teams/automation/automation_bound_session_queue_service.py:638-661 | a failed run that awaits recovery becomes paused; any other runtime is left alone |
| `BoundSessionQueueService.AutomationBoundSessionQueueService.ActiveRecoverableRunId` | src/relay_teams/automation/automation_bound_session_queue_service.py:502-517 | the most recently updated active run of the session, or none if there is none; only that run may have been repaired |
| `BoundSessionQueueService.AutomationBoundSessionQueueService.MaterializeExecution` | src/relay_teams/automation/automation_bound_session_queue_service.py:161-244 | turned away without a usable binding, configuration or session, with nothing changed; otherwise queued exactly when something is ahead, and started if not; the events and the announced number |
| `BoundSessionQueueService.AutomationBoundSessionQueueService.StoreQueueReceipt` | src/relay_teams/automation/automation_bound_session_queue_service.py:191-203 | the whole-row write-back of the receipt, at any time and whatever has become of the row; it keeps the invariant exactly when the row is gone or untouched |
| `BoundSessionQueueService.AutomationBoundSessionQueueService.DeleteProjectQueue` | src/relay_teams/automation/automation_bound_session_queue_service.py:261-262 | exactly the rows of the project go, at any time, also in the middle of an attempt |
| `BoundSessionQueueService.AutomationBoundSessionQueueService.HandleStartFailure` | src/relay_teams/automation/automation_bound_session_queue_service.py:461-500 | back off, or after the fifth attempt give up, and drop the receipt only when the message went out |
| `BoundSessionQueueService.AutomationBoundSessionQueueService.StartQueuedRun` | src/relay_teams/automation/automation_bound_session_queue_service.py:345-399 | one row of the starting loop: nothing if something is ahead or the session is busy, else claim and start; started, refused, or an exception before or after the run was created |
| `BoundSessionQueueService.AutomationBoundSessionQueueService.StartQueuedRuns` | src/relay_teams/automation/automation_bound_session_queue_service.py:338-399 | the starting pass over the ready rows in order of id; progress exactly when some row made some |
| `BoundSessionQueueService.AutomationBoundSessionQueueService.HandleRecoverableRuntime` | src/relay_teams/automation/automation_bound_session_queue_service.py:519-626 | arm, wait, give up or call, with the row, the clock and the exceptions of each |
| `BoundSessionQueueService.AutomationBoundSessionQueueService.FinalizeRecord` | src/relay_teams/automation/automation_bound_session_queue_service.py:267-335 | one row of the finalising loop |
| `BoundSessionQueueService.AutomationBoundSessionQueueService.FinalizeWaitingResults` | src/relay_teams/automation/automation_bound_session_queue_service.py:264-336 | the finalising pass over the waiting rows in order of id |
| `BoundSessionQueueService.AutomationBoundSessionQueueService.CleanupQueueReceipts` | src/relay_teams/automation/automation_bound_session_queue_service.py:682-699 | the cleanup pass: the due rows, oldest first, within the limit, each skipped; a row is left out only when the limit is used up |
| `BoundSessionQueueService.AutomationBoundSessionQueueService.ProcessPending` | src/relay_teams/automation/automation_bound_session_queue_service.py:251-256 | the three passes in order; it reports progress exactly when a progress step was taken |
| `AutomationDelivery.StepKeepsInv` | src/relay_teams/automation/automation_delivery_service.py:140-477 | every statement of the worker, every change by other tasks, also a skip in the middle of an attempt, and every crash keep the accounting, the lease and the fallback invariants |
| `AutomationDelivery.FailureMessageNotBlank` | src/relay_teams/automation/automation_delivery_service.py:651-679 | the message of a failed run is never blank |
| `AutomationDeliveryTheorems.DeliveryAccounting` | src/relay_teams/automation/automation_delivery_service.py:298-460 | over every run and for each leg: messages handed over are the recorded attempts, those lost in a crash and one in flight; attempts never exceed three and five; only a leg with attempts left is open |
| `AutomationDeliveryTheorems.FinalLegStays` | src/relay_teams/automation/automation_delivery_service.py:298-307 | over every run: a leg that is SENT, SKIPPED or FAILED, also in a copy that the worker will write back, never sends again; SENT is never left, FAILED and SKIPPED only for each other, and SKIPPED not at all when the copy has it too |
| `AutomationDeliveryTheorems.FallbackOnlyOnGivingUp` | src/relay_teams/automation/automation_delivery_service.py:531-562 | the fallback notification goes out at most once, never blank, and only when the terminal leg has used up its attempts |
| `AutomationDeliveryTheorems.OnlyGivingUpFails` | src/relay_teams/automation/automation_delivery_service.py:418-441 | only recording the last refused attempt makes the terminal leg FAILED anew, and the duty to notify comes from nowhere else |
| `AutomationDeliveryTheorems.LeaseIsExclusive` | src/relay_teams/automation/automation_delivery_repository.py:531-576 | over every run: two claims of a leg with no release between them are at least 60 seconds apart, although both legs share one time of update |
| `AutomationDeliveryTheorems.ProgressIsBounded` | src/relay_teams/automation/automation_delivery_service.py:618-640 | over every run, recorded attempts, skips and cleanups are at most eight for each row registered, besides what the first rows allow: the worker cannot spin |
| `AutomationDeliveryTheorems.SkipLastsIff` | src/relay_teams/automation/automation_delivery_service.py:270-296 | after a skip from outside the row stays skipped over every later run if and only if no attempt in flight can write back a copy that is not skipped |
| `AutomationDeliveryTheorems.SkippedStaysQuiet` | src/relay_teams/automation/automation_delivery_service.py:270-296 | when no attempt is in flight at the skip, the leg sends nothing more in any run |
| `AutomationDeliveryTheorems.SkippedIsSentAgain` | src/relay_teams/automation/automation_delivery_service.py:270-296 | a run in which a skip during a send is overwritten and the message is handed over again |
| `AutomationDeliveryService.AutomationDeliveryRepository.Create` | src/relay_teams/automation/automation_delivery_repository.py:130-175 | a second row for a run is refused |
| `AutomationDeliveryService.AutomationDeliveryRepository.Claim` | src/relay_teams/automation/automation_delivery_repository.py:531-576 | a claim succeeds exactly for a pending leg or one whose lease has run out |
| `AutomationDeliveryService.AutomationDeliveryRepository.ListOldest` | src/relay_teams/automation/automation_delivery_repository.py:381-425 | the oldest due rows up to the limit: a due row is left out only when the limit is used up and it is no older than any listed one |
| `AutomationDeliveryService.StartedLeads` | src/relay_teams/automation/automation_delivery_service.py:298-352 | the events of an attempt of the started leg are legal and lead to exactly the row that is written back |
| `AutomationDeliveryService.TerminalLeads` | src/relay_teams/automation/automation_delivery_service.py:354-460 | the same for the terminal leg: unwanted or blank, sent, refused, given up and notified |
| `AutomationDeliveryService.AutomationDeliveryService.RegisterRun` | src/relay_teams/automation/automation_delivery_service.py:140-205 | which legs of a new row are pending |
| `AutomationDeliveryService.AutomationDeliveryService.MarkTerminalDeliverySkipped` | src/relay_teams/automation/automation_delivery_service.py:270-296 | nothing for an unknown run or a message that is out, else the skip; at any time, also while the worker waits in an attempt |
| `AutomationDeliveryService.AutomationDeliveryService.AttemptStartedDelivery` | src/relay_teams/automation/automation_delivery_service.py:298-352 | exactly the events of one attempt, and whether it made progress |
| `AutomationDeliveryService.AutomationDeliveryService.AttemptTerminalDelivery` | src/relay_teams/automation/automation_delivery_service.py:354-460 | exactly the events of one attempt, and the notification that went out instead of the message |
| `AutomationDeliveryService.AutomationDeliveryService.AttemptStartedCleanup` | src/relay_teams/automation/automation_delivery_service.py:462-477 | one cleanup of a row that is due |
| `AutomationDeliveryService.AutomationDeliveryService.EmitFallbackTerminalNotification` | src/relay_teams/automation/automation_delivery_service.py:531-562 | a notification goes out exactly when a service is bound and the body is not blank |
| `AutomationDeliveryService.AutomationDeliveryService.ProcessPending` | src/relay_teams/automation/automation_delivery_service.py:207-225 | the three passes over their listings; progress exactly when a progress step was taken |
| `TextTime.IsoOrder` | src/relay_teams/automation/automation_bound_session_queue_repository.py:507-521 | text order of `isoformat()` is chronological order and text equality is equality of instants, although a zero fraction is not printed |
| `TextTime.IsoMicroOrder` | src/relay_teams/audit/repository.py:397-398 | the same for the form with six digits of microseconds |
| `TextTime.MixedFormsDisagree` | src/relay_teams/audit/repository.py:397-398 | the two forms must not be mixed in one column: an instant without a fraction is not equal to itself across the forms |
| `TextTime.StaleTestDecides` | src/relay_teams/automation/automation_bound_session_queue_repository.py:598-620 | the SQL test of staleness on texts decides the comparison of the datetimes |
| `TextTime.AuditWindowDecides` | src/relay_teams/audit/repository.py:391-403 | since and until on stored texts decide the comparison of instants, for naive and for aware datetimes |
| `TextTime.BeforeIsMicros` | src/relay_teams/audit/repository.py:391-398 | the order of the calendar fields is the order of microseconds, and an instant has one stamp |
| `JsonScanner.ScanJsonObject` | benchmarks/common/json_protocol.py:165-192 | the loop computes the scan of the text from its start: the first balance outside strings, and what `json.loads` says to it: accepted, refused, or another exception |
| `JsonScanner.ExtractFirstJsonObject` | benchmarks/common/json_protocol.py:143-148 | the scan at the least opening brace that decides, by being accepted or by an exception other than JSONDecodeError; the error for a missing object exactly when none does |
| `JsonScanner.ScanFindsObject` | benchmarks/common/json_protocol.py:165-192 | for every object of RFC 8259 (sections 4, 5 and 7; NaN, Infinity and -Infinity allowed), every prefix and every suffix, scanning from its first brace returns exactly its printed text |
| `JsonScanner.ExtractionSucceeds` | benchmarks/common/json_protocol.py:143-162 | if an object that `json.loads` accepts occurs anywhere, some brace at or before it decides; extraction succeeds if and only if no earlier candidate breaks before another one is found |
| `JsonScanner.EarlierCandidateBreaks` | benchmarks/common/json_protocol.py:143-192 | a printed object on which `json.loads` raises something else makes extraction raise, whatever follows it |
| `JsonScanner.HugeNumberBreaks` | benchmarks/common/json_protocol.py:143-192 | an integer of 4301 digits in one object, an object without fault after it: extraction raises, although the second would be found |
| `JsonScanner.ScanIsLocal` | benchmarks/common/json_protocol.py:165-192 | a scan depends only on the text from its start |
| `JsonScanner.FirstCloseIsFirstBalance` | benchmarks/common/json_protocol.py:165-192 | where the scan stops, stated without the automaton's recursion: the first position that closes |
| `JsonScanner.ObjectsArePrefixFree` | benchmarks/common/json_protocol.py:165-192 | no printed object is a proper prefix of another text that begins with a printed object |
| `JsonScanner.ValueKeeps` | benchmarks/common/json_protocol.py:165-192 | by mutual induction over values, elements and members: a printed value inside an object neither closes it nor changes the state |
| `A2aBus.Conservation` | src/relay_teams/agent_runtimes/bus.py:58-120 | after any run, per role and topic, the messages received followed by those still queued are, in order, the messages delivered, one copy for each subscription in force at publication |
| `A2aBus.NothingLost` | src/relay_teams/agent_runtimes/bus.py:58-120 | per role, received and queued together are the delivered messages as a multiset |
| `A2aBus.UnfilteredIsFifo` | src/relay_teams/agent_runtimes/bus.py:107-120 | a role that never filters receives in the order of delivery over all topics |
| `A2aBus.SubscriptionsAreInForce` | src/relay_teams/agent_runtimes/bus.py:92-105 | the table of subscriptions is what the history of subscribing and unsubscribing says is in force |
| `A2aBus.HistoryIsNewest` | src/relay_teams/agent_runtimes/bus.py:68-70 | the history is the newest published messages, in order, up to its capacity |
| `A2aBus.PickSplitsTopic` | src/relay_teams/agent_runtimes/bus.py:107-120 | a filtered receive splits the queue of each topic without changing its order |
| `A2aBus.A2ABus.PublishMessage` | src/relay_teams/agent_runtimes/bus.py:58-90 | publishing is the specified step on the whole bus, when the event log does not make it wait |
| `A2aBus.A2ABus.AddSubscription` | src/relay_teams/agent_runtimes/bus.py:92-94 | subscribing is the specified step |
| `A2aBus.A2ABus.RemoveSubscription` | src/relay_teams/agent_runtimes/bus.py:96-105 | unsubscribing is the specified step, with the empty topic dropped |
| `A2aBus.A2ABus.ReceiveMessages` | src/relay_teams/agent_runtimes/bus.py:107-120 | receiving returns and removes exactly the matching messages |
| `A2aBusTasks.PublicationServes` | src/relay_teams/agent_runtimes/bus.py:58-90 | under any interleaving of other tasks: from the step that begins its loop on, a publication hands one copy each, in order, to the subscriptions that take the message among those in force then and those that joined the topic before anybody left it; leaving in that time does not help |
| `A2aBusTasks.ServesInForceIff` | src/relay_teams/agent_runtimes/bus.py:58-90 | it reaches exactly those in force when its loop began if and only if nobody who takes the message joins before anybody leaves |
| `A2aBusTasks.PublishServes` | src/relay_teams/agent_runtimes/bus.py:58-90 | the same from the publication on: those in force when it was published and not taken off while it waited for its log entry, then those that joined in that time and stayed, then those that joined the loop before anybody left |
| `A2aBusTasks.PublishReachesIff` | src/relay_teams/agent_runtimes/bus.py:58-90 | that is exactly the subscriptions in force when it was published if and only if those taken off in the wait are the last of them and exactly these join again; when nobody joins who was there, if and only if nobody who takes it is taken off in the wait and nobody who takes it joins and stays |
| `A2aBusTasks.InForceLater` | src/relay_teams/agent_runtimes/bus.py:92-105 | what is in force after any events: the subscriptions that nobody took off, then those that joined and were not taken off |
| `A2aBusTasks.NobodyToServe` | src/relay_teams/agent_runtimes/bus.py:77-84 | a publication ends at its first step if and only if no subscription in force takes the message |
| `A2aBusTasks.TasksConserve` | src/relay_teams/agent_runtimes/bus.py:58-120 | under any interleaving, also with tasks that are cancelled: per role and topic, what was received followed by what is queued is, in order, what was handed over |
| `A2aBusTasks.StepKeepsInv` | src/relay_teams/agent_runtimes/bus.py:58-105 | every step of every task keeps it that a publication has served exactly the part of its list that lies behind it |
| `A2aBusTasks.AloneIsAtomic` | src/relay_teams/agent_runtimes/bus.py:58-90 | a publication whose steps follow each other is one publishing step of the bus |
| `A2aBusTasks.JoinIsSubscribe` | src/relay_teams/agent_runtimes/bus.py:92-94 | subscribing is that step of the bus at any time, whatever list objects are shared with loops |
| `A2aBusTasks.LeaveIsUnsubscribe` | src/relay_teams/agent_runtimes/bus.py:96-105 | and so is unsubscribing |
| `A2aBusTasks.TakeIsReceive` | src/relay_teams/agent_runtimes/bus.py:107-120 | and receiving |
| `A2aBusTasks.LateJoinerGetsIt` | src/relay_teams/agent_runtimes/bus.py:77-94 | a role that joins while a message is being handed round gets it |
| `A2aBusTasks.LeaverStillGetsIt` | src/relay_teams/agent_runtimes/bus.py:77-105 | and one that leaves while it is being handed round still gets it |
| `A2aBusTasks.EarlyLeaverMissesIt` | src/relay_teams/agent_runtimes/bus.py:68-84 | one that leaves while the publication waits for its log entry does not get it |
| `AnswerMatching.CompareDbAnswers` | benchmarks/agentbench/run_agentbench.py:2037-2050 | the nested loops compute greedy first-free matching |
| `AnswerMatching.AcceptsOnlyPairings` | benchmarks/agentbench/run_agentbench.py:2037-2050 | acceptance always yields a one-to-one pairing within tolerance |
| `AnswerMatching.AcceptsExactlyPairings` | benchmarks/agentbench/run_agentbench.py:2037-2095 | acceptance if and only if such a pairing exists, when unequal expected numbers are more than 0.02 apart |
| `AnswerMatching.CompleteIffSeparated` | benchmarks/agentbench/run_agentbench.py:2037-2095 | the separation is exactly the condition: greedy matching accepts every pairable list if and only if the expected values are separated |
| `AnswerMatching.SeparationIsNeeded` | benchmarks/agentbench/run_agentbench.py:2079-2086 | without separation there are candidates that can be paired and are rejected |
| `AnswerMatching.GreedyCanReject` | benchmarks/agentbench/run_agentbench.py:2037-2050 | a concrete pair of lists that can be paired and is rejected |
| `AuditPaging.ClausesMean` | src/relay_teams/audit/repository.py:278-312 | the WHERE clauses and parameters select exactly the rows that match the filter |
| `AuditPaging.ListQueryParts` | src/relay_teams/audit/repository.py:278-312 | the appended clauses are the specified list, in order |
| `AuditPaging.SelectRows` | src/relay_teams/audit/repository.py:304-312 | ordering by id with a limit |
| `AuditPaging.PageFromRows` | src/relay_teams/audit/repository.py:315-324 | one row more than the limit decides the cursor |
| `AuditPaging.PageSplits` | src/relay_teams/audit/repository.py:315-324 | a page and what follows its cursor are together the selection |
| `AuditPaging.FollowReadsSelection` | src/relay_teams/audit/repository.py:278-324 | following the cursor to the end, with appends between fetches, reads every matching row that was present at the first fetch, once, and nothing that does not match |
| `AuditPaging.FollowIsOrdered` | src/relay_teams/audit/repository.py:278-324 | ids strictly increase over all pages |
| `AuditPaging.FollowTerminates` | src/relay_teams/audit/repository.py:315-324 | on a fixed table the cursor ends |
| `AuditPaging.AuditEventRepository.Append` | src/relay_teams/audit/repository.py:156-174 | appending stores the text of the instant under the next id |
| `AuditPaging.AuditEventRepository.ListEvents` | src/relay_teams/audit/repository.py:226-230 | a listing is the page of the selection |
| `EvalCheckpoint.LoadResults` | src/relay_teams_evals/checkpoint.py:361-380 | the replay loop computes the replay of the bytes of the log: strict decoding, text mode, lines, records |
| `EvalCheckpoint.ReplayIffBreakFree` | src/relay_teams_evals/checkpoint.py:361-388 | loading the bytes that were appended gives the in-memory map if and only if no record holds a character at which `str.splitlines()` breaks; otherwise it raises |
| `EvalCheckpoint.BrokenLogRaises` | src/relay_teams_evals/checkpoint.py:361-380 | otherwise loading raises |
| `EvalCheckpoint.TornLogReplays` | src/relay_teams_evals/checkpoint.py:361-380 | a log cut anywhere in the bytes of its last record replays to all complete records if and only if the cut does not fall before a continuation byte; inside a character it raises |
| `EvalCheckpoint.TornCharacterRaises` | src/relay_teams_evals/checkpoint.py:361-380 | a record with U+00E9 cut after the first of its two bytes: loading raises |
| `EvalCheckpoint.AppendAfterTear` | src/relay_teams_evals/checkpoint.py:361-388 | a process that resumes from a torn log appends to the torn line: what the next load gives, in every case; unless the pieces make a record, the first new result is lost, and with more records it raises |
| `EvalCheckpoint.SeparatorRaises` | src/relay_teams_evals/checkpoint.py:361-380 | U+2028 stands in the text of an RFC 8259 object, and a log of that one record does not load |
| `Utf8.DecodesIffEncoded` | src/relay_teams_evals/checkpoint.py:366 | strict UTF-8 decoding (RFC 3629): bytes decode to a text if and only if they are its encoding |
| `Utf8.CutDecodesIff` | src/relay_teams_evals/checkpoint.py:366 | a prefix of an encoded text decodes if and only if it does not end before a continuation byte, and then to a prefix of the text |
| `EvalCheckpoint.JsonCodecIsFramed` | src/relay_teams_evals/checkpoint.py:382-388 | what replay needs of the JSON codec follows from its accepting nothing but objects (NaN, Infinity and -Infinity allowed): a printed object is not accepted when it is cut |
| `EvalCheckpoint.EvalCheckpointStore.AppendResult` | src/relay_teams_evals/checkpoint.py:382-388 | one record and one newline more, at the end of whatever the file holds |
| `EvalCheckpoint.EvalCheckpointStore.Resume` | src/relay_teams_evals/run.py:506-513 | from any file: it stops when loading raises, with the file unchanged; otherwise it runs exactly the unfinished items and appends their results |
| `EvalCheckpoint.NeverRunTwice` | src/relay_teams_evals/run.py:506-508 | over any number of processes that each load the file the earlier ones left, no item is run twice |
| `EvalCheckpoint.OnlyPlannedItems` | src/relay_teams_evals/run.py:506-513 | and nothing is run that is not planned |
| `EvalCheckpoint.ResumeEqualsUninterrupted` | src/relay_teams_evals/run.py:585-623 | the file after any number of processes loads if and only if its records hold no break character, and the report made from it, in planned order, is that of one uninterrupted run, for every order of completion |
| `McpCorrelation.IdsCountUp` | src/relay_teams/agent_runtimes/host_tool_bridge.py:989-991 | internal ids count 1, 2, 3, ... over the life of a connection, across sends that fail, closing and starting again |
| `McpCorrelation.RequestIsCorrelated` | src/relay_teams/agent_runtimes/host_tool_bridge.py:851-956 | whatever came before, the outcome of a request is given by the first later event that concerns it: a response or error with its own id (JSON-RPC 2.0, section 5), an exception of the transport, close, or its caller going away |
| `McpCorrelation.OutcomeIsFirst` | src/relay_teams/agent_runtimes/host_tool_bridge.py:935-956 | the same from any state, for any run |
| `McpCorrelation.OutcomeStays` | src/relay_teams/agent_runtimes/host_tool_bridge.py:935-956 | a settled future is never settled again |
| `McpCorrelation.EntryStaysIff` | src/relay_teams/agent_runtimes/host_tool_bridge.py:851-905 | an entry is in the table until its caller goes on or away or the connection is closed, and no longer; after a send that failed there is no caller, so only the close takes it out |
| `McpCorrelation.StraysChangeNothing` | src/relay_teams/agent_runtimes/host_tool_bridge.py:940-947 | over every run: responses and errors with unknown, duplicate or textual ids can be left out without changing the outcome of the run |
| `McpCorrelation.HostedMcpConnection.SendMessage` | src/relay_teams/agent_runtimes/host_tool_bridge.py:851-884 | sending is the specified step, also when the send fails; a notification takes no id |
| `McpCorrelation.HostedMcpConnection.TakeOutcome` | src/relay_teams/agent_runtimes/host_tool_bridge.py:885-889 | the caller gets the outcome and the entry is dropped |
| `McpCorrelation.HostedMcpConnection.PumpMessage` | src/relay_teams/agent_runtimes/host_tool_bridge.py:928-987 | each item of the pump is the specified step; a request of the server is answered under its own id |
| `McpCorrelation.HostedMcpConnection.CloseConnection` | src/relay_teams/agent_runtimes/host_tool_bridge.py:891-905 | closing cancels what is not done and forgets all entries |
| `ToolCallIds.PublishedOnce` | src/relay_teams/agent_runtimes/provider.py:2081-2123 | every announced call with an id is published exactly once, under the id that its first announcement decides, as long as the digest has no collision among the ids that occur |
| `ToolCallIds.IdStays` | src/relay_teams/agent_runtimes/provider.py:2081-2115 | that id never changes |
| `ToolCallIds.ResultsCarryTheId` | src/relay_teams/agent_runtimes/provider.py:1713-1747 | every result after the announcement carries it |
| `ToolCallIds.BlankIdsOnceIff` | src/relay_teams/agent_runtimes/provider.py:2087-2096 | calls without an id are published at most once if and only if no request for permission follows an update |
| `ToolCallIds.BlankCallShownTwice` | src/relay_teams/agent_runtimes/provider.py:2087-2096 | an update without an id and a request for permission with a blank one: two publications |
| `ToolCallIds.ActivePromptState.BindAcpToolCallId` | src/relay_teams/agent_runtimes/provider.py:2081-2109 | the id bound to a call |
| `ToolCallIds.ActivePromptState.ResolveHostToolCallId` | src/relay_teams/agent_runtimes/provider.py:2111-2115 | the id a call resolves to |
| `ToolCallIds.ActivePromptState.MarkToolCallPublished` | src/relay_teams/agent_runtimes/provider.py:2117-2122 | true exactly the first time |
| `ToolCallIds.ActivePromptState.HandleToolCall` | src/relay_teams/agent_runtimes/provider.py:1699-1712 | an update of a call |
| `ToolCallIds.ActivePromptState.HandleToolResult` | src/relay_teams/agent_runtimes/provider.py:1713-1747 | a result is published under the id that its call resolves to |
| `ToolCallIds.ActivePromptState.HandleRequestPermission` | src/relay_teams/agent_runtimes/provider.py:1160-1188 | a request for permission |
| `EvalRunner.EveryWorkspaceCleanedOnce` | src/relay_teams_evals/runner.py:278-359 | unless workspaces are kept, every prepared workspace is cleaned up exactly once, in order, if and only if no script of the retried attempts is interrupted with its workspace there; that one is left behind |
| `EvalRunner.InterruptLeaks` | src/relay_teams_evals/runner.py:278-359 | an interrupt while the backend runs: the workspace is prepared and never cleaned up |
| `EvalRunner.MetadataOnlyInTheLast` | src/relay_teams_evals/runner.py:126-135 | once an attempt has shown a run's ids nothing is prepared or tried again |
| `EvalRunner.DecisiveIsFinal` | src/relay_teams_evals/runner.py:286-335 | the deciding attempt is the first that succeeded or may not be retried, or the last there is |
| `EvalRunner.UsageStopsAtTheEnd` | src/relay_teams_evals/runner.py:175-204 | text, token usage and outcome are those of the events up to the one that ends the run |
| `EvalRunner.EvalRunner.ReadStream` | src/relay_teams_evals/runner.py:175-204 | the accumulating loop computes the summary of the consumed events |
| `EvalRunner.EvalRunner.RunItemOnce` | src/relay_teams_evals/runner.py:137-276 | one attempt: its stage of failure, its workspace and its calls |
| `EvalRunner.EvalRunner.RunItem` | src/relay_teams_evals/runner.py:278-359 | the retry loop makes exactly the specified calls and returns the deciding attempt |

## Left out

- BoundSessionQueue.StepKeepsInv: a receipt write-back over a row that has been claimed is not a legal step, since the invariant does not survive it; its exact effect is WriteBackSafeIff.
- BoundSessionQueueTheorems.HeadOfLine: false with a late write-back, which can put an earlier item back into the queue (WriteBackGetsAhead).
- BoundSessionQueueTheorems.StartsInOrder: false with a late write-back (LateWriteBackStartsTwice); at most two starts remain, by StartedAtMostTwice.
- BoundSessionQueueTheorems.AttemptsAgree: false with a late write-back, which resets the recorded attempts.
- BoundSessionQueueTheorems.FinishedStays: false with a late write-back (WriteBackReopens); what remains is FinishedStaysUnless.
- BoundSessionQueueTheorems.AheadNeverGrows: false with a late write-back, which makes a finished item unfinished again (WriteBackGetsAhead).
- BoundSessionQueueTheorems.StartableStays: false with a late write-back of a row ahead (WriteBackGetsAhead).
- BoundSessionQueueTheorems.CallsAgree: false with a late write-back, which resets the recorded attempts.
- BoundSessionQueueTheorems.StepPays: a late write-back raises the measure; ActPays of BoundSessionQueueCopies counts the outstanding draft.
- BoundSessionQueueTheorems.ProgressIsBounded: seventeen per item need write-backs in time; with late ones it is thirty-four, by BoundSessionQueueCopies.ProgressIsBounded.
- BoundSessionQueueTheorems.WorkerCannotSpin: the same.
- BoundSessionQueueTheorems.ResumeSchedule: without late write-backs; lost calls are not on record, so they are not counted among the five, and the bound from the last arming is stated for items with no lost call; each single call is on time in any case.
- BoundSessionQueueService.AutomationBoundSessionQueueService.MaterializeExecution: sending the message is awaited; what comes after it is the separate method StoreQueueReceipt.
- BoundSessionQueueService.AutomationBoundSessionQueueService.HandleRecoverableRuntime: a row that is deleted while `resume_run` is awaited is an event of the machine and not of this method.
- BoundSessionQueueService.AutomationBoundSessionQueueService.FinalizeWaitingResults: no other task runs between the turns of the object; interleavings are covered by the machines.
- BoundSessionQueueService.AutomationBoundSessionQueueService.ProcessPending: the passes of the object run without other tasks between their statements; interleavings are covered by the machine.
- AutomationDeliveryService.AutomationDeliveryService.AttemptTerminalDelivery: two workers at once are not modelled; crashes and late takeover by one worker are.
- A2aBus.A2ABus.PublishMessage: one step of the object; publications that wait for the event log while other tasks run are the state machine of A2aBusTasks.
- EvalCheckpoint.NeverRunTwice: processes that end between records, as in ResumeEqualsUninterrupted; a record that is torn is not on file, and its item is run again.
- EvalCheckpoint.ResumeEqualsUninterrupted: processes that end between records; what a tear inside a record does to the next processes is TornLogReplays and AppendAfterTear.
- EvalRunner.EvalRunner.RunItem: an interrupt inside a cleanup or a backoff is not modelled.
- Run ids are never blank in the model of the queue.
- A queue row left STARTING by a crash is never listed again; no liveness is claimed for it.
- The order in which two rows with the same time of update are listed is arbitrary.
- The start of an item whose project is deleted between claim and start is not in the log of starts.
- `get_history` and `snapshot` of the bus, and the queries for project records, are plain filters and counts.
- Parsing of stored datetimes: the calendar is modelled for printing and comparing only.
- Normalisation of database answers before they are compared (quotes, case, percent signs, number syntax); numbers are exact reals.
- The checkpoint's signature check, the rerun options and report contents.
- SQLite retries, migrations and the duplicated asynchronous methods; HTTP, Docker, git, prompts and wordings; the sleeping and waking of the worker loops.
