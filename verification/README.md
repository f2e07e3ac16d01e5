# The durable core, as a Dafny model

A verification model of the durable execution layer: runs and their checkpoints, the automatic
memory of a user, the streams that carry an answer to the browser, the retrieval of evidence, the
ingestion queue and the capability catalog. Database transactions are modelled as atomic steps;
workers may stop between any two of them and go on later. `dafny verify dfyconfig.toml` checks
everything.

Each mutable component comes in two forms. A class holds the fields the source updates, and its
methods follow the source's loops and branches; each is proved equal to a step function on values.
The theorems are about histories: sequences of such steps in any order, by live and by late workers.

## Runs

`RunModel` and `RunSteps` describe one run, its journal, checkpoint and receipts, and every
transaction on it; `RunStore` performs them on the table; `RunInvoke` is the boundary around a
call. `RunJournal`, `RunFencing`, `RunBudget`, `RunOperations`, `RunResume`, `RunRequests` and
`RunAdmission` prove what holds over all histories, and `OrderedSections` the order of parallel
tool calls. `RunService` projects a log of the whole service, admissions, polls and sweeps included,
onto each run: `RunService.ServiceHistory` says that a run is where its own part of the log leads it
from its creation, so a theorem about every history of one run holds of every run of the service;
four of them are stated there. A transaction reads the clock up to twice (`Tick`): once in its guard,
once for what it writes; readings never go back from one transaction to the next.

Three results differ from what the comments in the source suggest. The reserve in the journal
covers one final event, but neither the announcement of a cancellation nor that of a takeover: once
the ordinary allowance is spent both are refused, and an abandoned run cannot be taken over
(`RunService.AllowanceCanBeSpent` is such a history). A stored outcome with integer keys in a
dictionary can come back in another key order: the replayed outcome always equals the first one as a
value, and is identical, order included, under an exact condition. And a pause can find the budget
spent only when the deadline falls between its two readings of the clock.

## Automatic memory

`MemoryModel` has the rows and transactions of one user, `MemoryService` performs them,
`MemorySync` adds workers with their own copy of a receipt and the remote writes they send.
`MemoryQueue` proves the order of the queue and that remote writes happen at most once,
`MemoryConsent` that nothing deleted returns, `MemoryPurge` what a successful purge means. Jobs are
listed in the order they were created, taken to be the order of commit; users do not share rows, so
one user is enough. A purge that succeeded rules out every later commit, but not every later
message: a worker that had saved its permission to append can still use it
(`MemoryPurge.LateAppendExactly`, `MemoryPurge.LateAppendHappens`).

## Streams

`AnswerStream` is the incremental parser of the answer field (section 7 of RFC 8259);
`EventStream` the printer of server-sent events and the client that reads them (sections 9.2.5 and
9.2.6 of the WHATWG HTML standard, "Server-sent events"), `EventReplay` the journal of a run carried
over any series of connections, up to the reconnecting loop of the client, and `EventCodec` a codec
with the properties asked of JSON.

What the answer parser returns, the text and whether the answer has started, is independent of the
cut if and only if the part it scans has no raw control character and only hex digits in its escapes
(`AnswerStream.ChunkInvarianceExactly`); for JSON documents that always holds
(`AnswerStream.AnswerIsStreamed`). Otherwise the text shown depends on the cut, or, when the answer
opens with the undecodable part, whether a start is announced does
(`AnswerStream.ControlCharactersMatter`).

## Evidence

`EvidenceBook` and `EvidenceRegistry` number the sources of an answer under a token budget;
`HierarchyTree`, `HierarchyMerge` and `HierarchyService` merge hits into their ancestors; `Retriever`
deduplicates, ranks and expands the hits of several owners with one budget. Counting tokens is a
parameter.

## Ingestion and capabilities

`IngestionModel`, `IngestionQueue`, `IngestionReceipts` and `IngestionRuns` are the queue with its
receipts and parents. `CapabilityCatalog`, `CapabilityService` and `CapabilityExecution` are the
versioned catalog and the executions frozen from it. `ImportCycles` is the cycle check of the
architecture script. `Outcomes`, `PythonText`, `CanonicalJson` and `OrderedDict` are shared.

## Model

| member | source | states |
|---|---|---|
| CanonicalJson.CanonicalIsIdempotent | app/core/serialization.py:7-19 | Storing a canonical value again returns the same value, key order included, if and only if no dictionary in it has integer keys whose decimal texts sort differently from the integers |
| CanonicalJson.IntegerKeysAreReordered | app/core/serialization.py:7-19 | A concrete dictionary (integer keys 9 and 10) that a second canonicalisation reorders |
| CanonicalJson.CanonicalKeepsSize | app/core/serialization.py:15-19 | A canonical value is accepted again and has the same encoded size |
| CanonicalJson.SortPermutes | app/core/serialization.py:7-13 | Sorting the keys of a dictionary loses and adds no entry |
| CanonicalJson.SortOrders | app/core/serialization.py:7-13 | On distinct keys of one kind the entries come out in key order |
| CanonicalJson.DecimalIsInjective | app/core/serialization.py:7-13 | Different integer keys never become the same text key |
| CanonicalJson.RestoredDict | app/core/serialization.py:7-19 | A canonical dictionary is a fixed point exactly when its keys are in text order and its values are fixed points |
| CanonicalJson.StoredAgainIsSame | app/core/serialization.py:7-19 | Storing a canonical value again returns an equal value, for every value that is accepted at all: only the order of dictionary entries can differ |
| CanonicalJson.CanonicalDecidesEquality | app/core/serialization.py:7-19 | Two values read from JSON are equal, whatever the order of their entries, if and only if their canonical forms are identical |
| CanonicalJson.AscendingIsUnique | app/core/serialization.py:7-13 | A dictionary in key order is determined by its entries |
| RunJournal.StepKeepsSound | app/service/runs.py:79-92 | Every transaction keeps the journal numbered 1..n, its byte count the sum of the stored sizes within both limits, one outbox row an event, and a final event only, and last, in a finished Run |
| RunJournal.JournalAlways | app/service/runs.py:79-92 | The same over every history of transactions |
| RunJournal.CreationStartsJournal | app/service/runs.py:147-159 | A new Run starts with a sound journal |
| RunJournal.FinalEventAlwaysFits | app/service/runs.py:83-88 | While a Run is unfinished one final event of at most two million bytes is always accepted |
| RunJournal.FailureIsNeverRefused | app/service/runs.py:341-354 | A worker holding its claim can always settle a failure: the Run ends, cancelled exactly when cancellation was requested and clean-up worked, and the claim is over |
| RunJournal.CancellationIsRefusedExactlyWhenFull | app/service/runs.py:329-339 | The announcement of a cancellation is refused exactly when the ordinary allowance is spent and the Run is not cancelled at once: the reserve does not cover it |
| RunJournal.TakeoverIsRefusedExactlyWhenFull | app/service/runs.py:250-281 | A takeover is refused exactly when budget is left and the ordinary allowance is spent: the reserve does not cover it |
| RunJournal.TerminalIsAbsorbing | app/service/runs.py:227-239 | No transaction changes a finished Run in any column |
| RunJournal.StatesFollow | app/service/runs.py:94-101 | Every transaction moves the state only along the edges of the state machine |
| RunJournal.CancellationIsFinal | app/service/runs.py:341-354 | Once cancellation is requested a Run can only end cancelled or failed, over every history |
| RunJournal.JournalOnlyGrows | app/service/runs.py:79-92 | Published events are never rewritten or removed, over every history |
| RunJournal.CompleteKeepsSound | app/service/runs.py:181-198 | Completion writes its events and the final one in order, or nothing |
| RunJournal.ReceiptsKeepSound | app/service/runs.py:436-504 | The receipt transactions, which announce and finish tools, keep the journal sound |
| RunFencing.StaleWriteIsRefused | app/service/runs.py:227-239 | A fenced transaction under a claim that does not hold changes nothing and raises |
| RunFencing.StepRevivesNothing | app/service/runs.py:227-239 | No transaction revives a claim that does not hold, nor one refused for cancellation or the deadline |
| RunFencing.HandoverEndsClaims | app/service/runs.py:283-292 | Releasing, pausing, completing, failing and settling end every claim, and a new claim ends all earlier ones |
| RunFencing.RevokedForever | app/service/runs.py:227-281 | Once a claim has stopped holding it never holds again, over every chronological history |
| RunFencing.StaleWorkerWritesNothing | app/service/runs.py:227-239 | Every transaction a stale worker still issues, at any later point of any history, leaves the Run unchanged and is refused |
| RunFencing.OneWriter | app/service/runs.py:227-281 | At most one claim holds at any moment, and generations never decrease |
| RunFencing.ClaimIsNew | app/service/runs.py:270-281 | A new claim has a generation no earlier claim had, and passes the guard at once |
| RunFencing.GenerationStep | app/service/runs.py:270-281 | The generation rises by one exactly when a claim is issued |
| RunBudget.BudgetIsConserved | app/service/runs.py:227-292 | Over every history the remaining time plus all charged working intervals is the initial budget, the intervals are disjoint, and no waiting is charged |
| RunBudget.StepKeepsBalance | app/service/runs.py:250-292 | Every transaction keeps that balance |
| RunBudget.CreationIsBalanced | app/service/runs.py:147-150 | A new Run starts with its whole budget |
| RunBudget.WritesStayWithinBudget | app/service/runs.py:227-239 | A deadline-checked write happens strictly inside the budget, counted over all claims the Run ever had |
| RunBudget.TakeoverChargesTheLease | app/service/runs.py:255-262 | A takeover charges the abandoned claim up to the end of its lease, not up to the takeover |
| RunBudget.PauseTimesOutOnlyBetweenReadings | app/service/runs.py:356-376 | A pause under a valid claim finds the budget spent exactly when the deadline falls between the two readings of the clock |
| RunBudget.ClosedSpanFits | app/service/runs.py:255-292 | An interval is charged once, for exactly its length, and starts after every earlier one ended |
| RunOperations.BodiesStartAtMostOnce | app/service/runs.py:436-473 | Whatever crashes, takeovers and duplicate calls occur, and whatever the bodies return, the body of a side-effecting key starts at most once and that of a readonly key at most three times, in rising generations |
| RunOperations.ReplaysAgree | app/manager/run_checkpoint.py:79-99 | Of two callers told an outcome for one key the later got a replay; two replays are identical whatever the workers did; a fresh outcome and its replay are equal when the worker stored what it returned, and identical, key order included, when the outcome is order stable; outcomes of other keys do not matter |
| RunOperations.ReceiptsAlwaysAgree | app/service/runs.py:436-473 | The receipt of each key agrees with the starts of its body, over every history whatsoever |
| RunOperations.CallersAlwaysAgree | app/service/runs.py:436-504 | What the callers of a key were told agrees with its recorded receipt, over every history, and only the first of them can have been its own body |
| RunOperations.RecordedIsAbsorbing | app/service/runs.py:475-504 | A recorded outcome is never overwritten |
| RunOperations.FreshEqualsReplayedExactly | app/manager/run_checkpoint.py:91-99 | The fresh and the replayed outcome are the same value, key order included, exactly when the outcome is order stable |
| RunOperations.OtherReceiptsStay | app/service/runs.py:436-504 | A transaction touches no receipt but the one it names |
| RunOperations.NewRunIsReceipted | app/service/runs.py:147-159 | A new Run has no receipts, nothing was started for it and nobody was told anything |
| RunSteps.ReceiptsTouchOnlyReceipts | app/service/runs.py:436-504 | The receipt transactions leave state, fence, clock and checkpoint columns alone |
| RunResume.InputsAreExactlyTheAccepted | app/service/runs.py:378-434 | Over every history the checkpoint holds exactly the accepted inputs, in order and each resume key once, and the public inputs, once present, one entry an input |
| RunResume.ConsumedKeyWritesNothing | app/service/runs.py:378-434 | A consumed resume key is dead: resent with any text at any time it writes nothing |
| RunResume.ExactRetrySucceeds | app/service/runs.py:384-397 | An exact retry of the accepted request is answered like the original and writes nothing |
| RunResume.RevisionRises | app/service/runs.py:304-314 | The checkpoint revision rises by one whenever the checkpoint changes, and never otherwise |
| RunResume.NewRunIsConsistent | app/service/runs.py:147-159 | A new Run has accepted no input |
| RunRequests.SameInputExactly | app/service/runs.py:103-118 | Two requests have the same canonical input if and only if they differ at most in the order of the approved tools |
| RunRequests.SortedIsUnique | app/service/runs.py:103-118 | A sorted list of names is determined by its contents |
| RunAdmission.TransactionKeepsOrder | app/service/runs.py:103-163 | Every transaction keeps one active Run a session, one Run a client key, and the active Runs of a user within capacity |
| RunAdmission.RepeatedRequest | app/service/runs.py:127-133 | A request repeated under its client key never creates a second Run: it gets the original when session and canonical input agree and is refused otherwise |
| RunAdmission.AdmissionKeepsOrder | app/service/runs.py:125-163 | Creating a Run respects the client key, the session and the capacity |
| RunAdmission.DispatchDevelops | app/service/runs.py:241-281 | The dispatcher, with its two sweeps, changes no identity and activates no finished Run |
| RunService.ServiceHistory | app/service/runs.py:103-504 | Over every history of the service every Run it has at the end, admitted before or during it, is where exactly the transactions of the log on that Run lead it, in their order, from the state it had or was created with |
| RunService.TransactionProjects | app/service/runs.py:241-281 | One transaction of the service, sweeps and expiries included, does to each Run exactly the single-Run transactions listed for it, and nothing when it was rolled back |
| RunService.ServiceStaysOrderly | app/service/runs.py:103-163 | Over every history the service keeps one active Run a session, one Run a client key, and capacity |
| RunService.EveryBudgetIsConserved | app/service/runs.py:227-292 | In a service that started empty, the budget of every Run it ever admitted is conserved over all that happened to it |
| RunService.RevokedEverywhere | app/service/runs.py:227-239 | Whatever the service does in between, a claim that stopped holding is refused at any later time and leaves the whole table as it is |
| RunService.CancellationIsFinalEverywhere | app/service/runs.py:341-354 | Whatever the service does, a Run whose cancellation was requested ends nowhere but cancelled or failed |
| RunService.BodiesStartAtMostOnceEverywhere | app/service/runs.py:436-473 | In a service that started empty, the body of a side effect starts at most once in the whole life of its Run, and a readonly one at most three times |
| RunService.AllowanceCanBeSpent | app/service/runs.py:79-92 | A concrete history, from creation on, after which a cancellation request and every takeover are refused |
| RunStore.RunStore.ClaimNext | app/service/runs.py:241-281 | The dispatcher as its loops: table and answer are those of the specification, and an exceeded event limit rolls everything back |
| RunStore.RunStore.SweepAll | app/service/runs.py:241-256 | The sweep over expired or abandoned Runs does to each what one transaction would |
| RunStore.RunStore.ReleaseBusy | app/service/runs.py:283-292 | Gives the Run back, charging the time used, under the fence |
| RunStore.RunStore.Heartbeat | app/service/runs.py:294-298 | Renews the lease under the fence and changes nothing else |
| RunStore.RunStore.Append | app/service/runs.py:165-179 | Appends one ordinary event under the fence |
| RunStore.RunStore.SaveCheckpoint | app/service/runs.py:304-321 | Replaces the checkpoint and counts a revision under the fence |
| RunStore.RunStore.Complete | app/service/runs.py:181-198 | Writes the closing events and settles the Run |
| RunStore.RunStore.RequestCancel | app/service/runs.py:329-339 | Cancels at once when no worker can hold the Run, otherwise asks for cancellation |
| RunStore.RunStore.FinishFailure | app/service/runs.py:341-354 | Settles a failure or a cancellation |
| RunStore.RunStore.Pause | app/service/runs.py:356-376 | Stops the clock, stores the question and waits |
| RunStore.RunStore.Resume | app/service/runs.py:378-434 | Accepts one human input and queues the Run again |
| RunStore.RunStore.BeginOperation | app/service/runs.py:436-473 | Answers a recorded key from its receipt, starts a fresh one, or refuses an uncertain one |
| RunStore.RunStore.CompleteOperation | app/service/runs.py:475-504 | Records the canonical outcome of a started key |
| RunStore.RunStore.BeginRow | app/service/runs.py:440-473 | The transaction of `begin_operation` on the row and its receipt |
| RunStore.RunStore.FinishRow | app/service/runs.py:477-504 | The transaction of `complete_operation` on the row and its receipt |
| RunStore.RunStore.Create | app/service/runs.py:103-163 | Looks up the client key and the session, then creates, answers or refuses |
| RunInvoke.RunCheckpoint.Invoke | app/manager/run_checkpoint.py:77-99 | A recorded key is delivered without running the body or writing; a body runs only for the holder and a side effect only without a receipt; what a body delivered is recorded, and a replay reads an equal result, an identical one when it is order stable |
| RunInvoke.RecordedOutcomeReadsBack | app/manager/run_checkpoint.py:84-99 | A recorded value or failure reads back as the value or failure it was |
| RunInvoke.ReplayDeliversTheSame | app/manager/run_checkpoint.py:91-99 | The replayed outcome is the first one if and only if the outcome is order stable |
| RunInvoke.ReplayIsEqual | app/manager/run_checkpoint.py:91-99 | What a replay reads out of the receipt is equal to the first result for every result that can be recorded, the same error or an equal value, and identical when the result is order stable |
| RunInvoke.DigestDecidesEquality | app/service/runs.py:439-440 | The digest of a receipt tells two calls apart if and only if their inputs differ as JSON values |
| RunInvoke.CanonicalKeepsMembers | app/manager/run_checkpoint.py:91-99 | Canonicalising an outcome keeps its members, each with its canonical value |
| RunInvoke.RunCheckpoint.Conclude | app/manager/run_checkpoint.py:93-99 | Canonicalises, records and reads the outcome of a body that ended |
| OrderedSections.CallsRunInOrder | app/manager/run_checkpoint.py:33-52 | However threads are scheduled and whichever give up, the calls of a group never run together and start in the order of their indexes, when no index is used twice |
| OrderedSections.SharedIndexOverlaps | app/manager/run_checkpoint.py:33-52 | Two calls under one index can be inside together |
| OrderedSections.GivingUpStopsTheRest | app/manager/run_checkpoint.py:36-52 | A call that fails its check while waiting is never finished, so no later call of its group ever starts |
| OrderedSections.StepKeepsFits | app/manager/run_checkpoint.py:36-52 | Whoever is inside found every lower index finished, and what is finished was finished by a call that left |
| OrderedSections.Ordering.MayEnter | app/manager/run_checkpoint.py:42-45 | One turn of the waiting loop lets a call in exactly when all lower indexes are finished |
| OrderedSections.Ordering.Finish | app/manager/run_checkpoint.py:49-52 | Leaving adds the index to its group and nothing else |
| AnswerStream.ChunkInvariance | app/manager/agent_runtime.py:32-92 | However a text is cut whose scanned part has no raw control character and only true hex digits, the deltas join to the decoding of its longest token-aligned part, the start is announced once, and no lone high surrogate is emitted |
| AnswerStream.ChunkInvarianceExactly | app/manager/agent_runtime.py:40-55 | What feed returns, deltas and starts together, is the same under every cut if and only if the scanned part has no raw control character and only true hex digits |
| AnswerStream.CuttingMatters | app/manager/agent_runtime.py:40-55 | Otherwise a cut under which the text or the announced start differs is constructed |
| AnswerStream.DeltaInvarianceExactly | app/manager/agent_runtime.py:40-55 | The deltas alone are the same under every cut in exactly one case more: when the very first token cannot be decoded |
| AnswerStream.ControlCharactersMatter | app/service/agent/supervisor.py:360-364 | Concrete texts with U+0001: behind a letter, the letter is shown only under one of two cuts; behind the quote, the start is announced only under one of two |
| AnswerStream.AnswerIsStreamed | app/manager/agent_runtime.py:40-92 | For every JSON document, however cut, the start is announced once and the deltas join to a beginning of the decoded answer, to all of it if and only if no lone high surrogate stands in it |
| AnswerStream.PlainDecodes | app/manager/agent_runtime.py:46-50 | The token-aligned part of a string body is JSON if and only if its tokens have no raw control character and only true hex digits |
| AnswerStream.ScanOfJson | app/manager/agent_runtime.py:57-92 | The scan of a JSON string goes no further than its closing quote, whatever follows |
| AnswerStream.ScanIsWhole | app/manager/agent_runtime.py:77-86 | It reaches the closing quote if and only if no lone high surrogate stands in the string |
| AnswerStream.FieldIsStable | app/manager/agent_runtime.py:33-46 | Once the field is found it stays where it is, whatever follows |
| AnswerStream.FieldIsFoundEarly | app/manager/agent_runtime.py:33-46 | The field is found as soon as it is complete |
| AnswerStream.SafeGrows | app/manager/agent_runtime.py:57-92 | The safe prefix of a longer text is the safe prefix, followed by that of the remainder with the new text |
| AnswerStream.DecodeSplits | app/manager/agent_runtime.py:46-56 | Decoding splits at the end of every safe prefix |
| AnswerStream.VisibleGrows | app/manager/agent_runtime.py:40-56 | More text never takes back what was shown and never repairs what could not be decoded |
| AnswerStream.NoLoneHighSurrogate | app/manager/agent_runtime.py:57-92 | Decoded safe text contains no lone high surrogate |
| AnswerStream.TokenStandsAlone | app/manager/agent_runtime.py:57-92 | A complete token decodes by itself to one code point, never half an escape |
| AnswerStream.AnswerStreamParser.Feed | app/manager/agent_runtime.py:40-56 | One call appends, searches, decodes the safe part and emits what is new |
| AnswerStream.AnswerStreamParser.SafePrefix | app/manager/agent_runtime.py:57-92 | The scanning loop computes the longest prefix made of complete tokens |
| AnswerStream.AnswerStreamParser.ScanToken | app/manager/agent_runtime.py:62-91 | The branches of the scan: the length of the token, or where to stop |
| EventReplay.ReplayIsExact | frontend/src/sse.ts:4-27 | For every journal, printing, cut, keep-alive and series of reconnects the callback is given exactly the events after the starting cursor, in order, no gap and no duplicate; and when the reading ends, all of them, or all that its connection carried when it ends at a current pause |
| EventReplay.ResumeRun | frontend/src/api.ts:99-112 | The reconnecting loop over the server loop, the network and the reader: the callback is given exactly the rows after the cursor, and once the reading ends it has every row of the journal, or every row the server saw when it saw the Run waiting |
| EventReplay.ReadOnce | frontend/src/api.ts:102-106 | One turn of that loop |
| EventReplay.SettledRunIsFinished | frontend/src/sse.ts:12-17 | A connection that carries the rest of a settled Run and is not cut off ends the reading with every row delivered |
| EventReplay.ConnectionIsExact | frontend/src/sse.ts:4-27 | Whatever arrives of one connection continues the log without gap or repeat, and when it ends the reading nothing is missing |
| EventReplay.EndIsShown | frontend/src/sse.ts:15-17 | The reading ends at an event that settles the Run or is a current pause, with the cursor at that event |
| EventReplay.FullConnectionDeliversAll | frontend/src/sse.ts:4-27 | A connection that is not cut off delivers every event it carries, unless one ends the reading |
| EventCodec.FaithfulCodec | app/web/routes.py:158-159 | A codec with the properties asked of JSON exists, so the stream theorems are not empty |
| EventStream.ReadEventStream | frontend/src/sse.ts:19-27 | The reading loop over chunks gives the result of reading the joined text: the cut does not matter |
| EventStream.CutTextIsReceived | frontend/src/sse.ts:20-25 | Text cut off anywhere is read as a number of whole events, never a damaged one |
| EventStream.WholeTextIsReceived | frontend/src/sse.ts:7-18 | Whole printed events are read as printed |
| EventReplay.ReceiveFollows | frontend/src/sse.ts:12-15 | Repeats are skipped and the rest appended in order, from any cursor at or after where the stream starts |
| EventReplay.ReceiveIsComplete | frontend/src/sse.ts:12-17 | When nothing ends the reading everything sent has arrived |
| EventStream.ItemIsOneBlock | app/web/routes.py:158-159 | A printed event contains no blank line before its end |
| EventStream.ParseEvent | frontend/src/sse.ts:7-11 | Parsing a printed event gives back its name and its data |
| EventStream.BlockIsRead | frontend/src/sse.ts:22-23 | Reading begins with the first complete block whatever follows |
| EventReplay.DurableStream | app/web/routes.py:496-533 | The server loop sends consecutive journal rows from the cursor on, closes only once a settled or waiting Run is shown in full, and flags a pause as current only as its last row |
| ImportCycles.CycleSearch.Run | scripts/check_architecture.py:67-78 | Every reported list is a simple cycle of the import graph, and something is reported if and only if the graph has a directed cycle |
| ImportCycles.CycleSearch.Walk | scripts/check_architecture.py:68-76 | The recursion terminates, restores the stack, and finishes its module after all its imports unless a cycle was reported |
| ImportCycles.CycleSearch.WalkImports | scripts/check_architecture.py:74-75 | The inner loop finishes every import |
| ImportCycles.CycleSearch.Report | scripts/check_architecture.py:69-70 | A module already on the stack closes a cycle |
| ImportCycles.OrderedIsAcyclic | scripts/check_architecture.py:67-78 | A finishing order of all modules rules out every cycle |
| ImportCycles.PathDescends | scripts/check_architecture.py:67-78 | Along a path of finished modules the finishing position falls |
| MemoryQueue.RunningIsOldest | app/dao/postgres/automatic_memory.py:120-143 | In every reachable state a running job is the oldest unfinished one of its generation and every job behind it has never been claimed |
| MemoryQueue.CleanupSeesNoLiveCapture | app/service/automatic_memory.py:241-270 | While a deletion or purge runs every capture of its generation has ended or never began |
| MemoryQueue.RemoteWritesHappenOnce | app/service/automatic_memory.py:176-219 | Whatever crashes, expiries and late workers there are, each message is appended at most once, each commit sent at most once and only after its message, and no two workers are ever both about to send |
| MemoryQueue.StepKeepsSound | app/service/automatic_memory.py:123-305 | Every step of users, live workers and late workers keeps the queue first in first out, the holder of a job in agreement with its row, and permissions to send unique |
| MemoryQueue.ClaimKeepsSound | app/dao/postgres/automatic_memory.py:120-134 | Claiming keeps it |
| MemoryQueue.AdvanceKeepsSound | app/service/automatic_memory.py:199-214 | Moving a receipt on under the fence keeps it |
| MemoryQueue.SendKeepsSound | app/service/automatic_memory.py:202-210 | Sending, which no fence guards, keeps it |
| MemoryQueue.RemoveMarks | app/service/automatic_memory.py:246-270 | The sweep marks only captures that were started, have ended, and whose outcome is known |
| MemoryQueue.RunningIsHead | app/dao/postgres/automatic_memory.py:120-143 | The running job is the head of its generation |
| MemoryPurge.PurgeIsComplete | app/service/automatic_memory.py:241-279 | A purge that reports success has removed every capture that was ever started, and every row of its generation is deleted and blank |
| MemoryPurge.NoCommitAfterPurge | app/service/automatic_memory.py:250-253 | After a purge has succeeded no commit for its generation is ever sent, by any late worker |
| MemoryPurge.LateAppendExactly | app/service/automatic_memory.py:199-203 | Only a worker that had saved its permission and not used it can append a message after a purge, and its capture has then ended with its receipt still appending |
| MemoryPurge.LateAppendHappens | app/service/automatic_memory.py:199-203 | A concrete history in which that happens |
| MemoryPurge.StepKeepsTidy | app/service/automatic_memory.py:241-279 | Every step keeps each purge the last job of a generation left behind, and a finished purge complete |
| MemoryPurge.SweptPurgeIsEmpty | app/service/automatic_memory.py:246-270 | A sweep that reached its end has seen every capture of its generation |
| MemoryPurge.RowStays | app/service/automatic_memory.py:123-133 | A job keeps its identity, and its state once it has ended |
| MemoryConsent.NeverResurrected | app/service/automatic_memory.py:135-174 | Under any order of publishing, deleting, clearing, disabling, enabling and late workers a row that left the ready state never returns to it |
| MemoryConsent.ReadyMeansConsent | app/service/automatic_memory.py:38-64 | Every ready row belongs to the current generation of a user with consent on, and every other row is blank |
| MemoryConsent.ClearForgetsAll | app/service/automatic_memory.py:49-64 | Everything a user had before clearing is forgotten from then on, whatever follows |
| MemoryConsent.ForgottenIsNeverRecalled | app/service/automatic_memory.py:85-110 | An answer to a recall holds only rows the user agrees to when it is given: nothing forgotten before or during it |
| MemoryConsent.StepKeepsAgreed | app/service/automatic_memory.py:38-83 | Every step keeps that agreement, loses no row and never lowers the generation |
| MemoryConsent.ChangesExtend | app/service/automatic_memory.py:143-172 | Published changes touch one generation, keep its tombstones, blank what they drop, and lower no version |
| MemoryConsent.RowsAreReady | app/service/automatic_memory.py:105-110 | Every hit returned is a ready row, its content cut to the limit |
| MemoryService.MemoryService.ClearAll | app/service/automatic_memory.py:49-64 | Clears in place: new generation, tombstones and one purge job |
| MemoryService.MemoryService.SetEnabled | app/service/automatic_memory.py:38-47 | Changes consent, clearing first when it is withdrawn |
| MemoryService.MemoryService.Delete | app/service/automatic_memory.py:73-83 | Tombstones one row of the current generation and queues its deletion |
| MemoryService.MemoryService.CaptureMessage | app/dao/postgres/automatic_memory.py:89-103 | Queues a capture when consent is on and the message is eligible |
| MemoryService.MemoryService.AddJob | app/dao/postgres/automatic_memory.py:78-86 | Adds a job unless its key is queued in that generation |
| MemoryService.MemoryService.Tombstone | app/service/automatic_memory.py:275-277 | The loop over rows blanks exactly the rows chosen |
| MemoryService.MemoryService.Claim | app/dao/postgres/automatic_memory.py:120-134 | Claims the oldest claimable job, or reports that none is |
| MemoryService.MemoryService.SaveProgress | app/service/automatic_memory.py:123-133 | Writes receipt, state and lease under the fence, or nothing |
| MemoryService.MemoryService.Publish | app/service/automatic_memory.py:135-174 | Applies all changes in order, or cancels without consent, or rolls back |
| MemoryService.MemoryService.MarkSourceRemoved | app/dao/postgres/automatic_memory.py:57-61 | Marks one capture under the fence |
| MemoryService.MemoryService.FinishCleanup | app/service/automatic_memory.py:273-279 | Deletes the rows of a purge, or the one row of a deletion, and succeeds |
| MemoryService.MemoryService.Fail | app/service/automatic_memory.py:293-303 | Counts the attempt and decides between uncertain, failed and pending |
| EvidenceBook.BooksAlwaysBalance | app/manager/evidence.py:76-213 | After any series of additions the used tokens are those of all sources and contexts and within the budget, contexts within a third of it, and entries, keys and sources numbered 1..n in step |
| EvidenceBook.NumbersNeverMove | app/manager/evidence.py:76-108 | A number, once given to a key, denotes that key for ever |
| EvidenceBook.RestoreReproduces | app/manager/evidence.py:58-74 | Restoring a snapshot gives the registry back exactly, and is refused under another budget |
| EvidenceBook.InterruptionIsInvisible | app/manager/evidence.py:58-74 | A run interrupted after any additions and restored answers all later additions as one never interrupted |
| EvidenceBook.AddKeepsBooks | app/manager/evidence.py:76-90 | Adding one piece of evidence keeps the books |
| EvidenceBook.ReviseKeepsBooks | app/manager/evidence.py:97-108 | Rewriting a known page keeps the books |
| EvidenceBook.FrameKeepsBooks | app/manager/evidence.py:142-160 | Sharing a parent context keeps the books |
| EvidenceBook.RevisionFits | app/manager/evidence.py:98-104 | The new content of a known page is a beginning of the page that fits what the old content leaves |
| EvidenceBook.HalvedFits | app/manager/evidence.py:100-101 | Halving ends with a beginning that fits, and cuts nothing that fits already |
| EvidenceRegistry.EvidenceRegistry.Add | app/manager/evidence.py:76-90 | Adds one piece of evidence in place |
| EvidenceRegistry.EvidenceRegistry.AddEach | app/manager/evidence.py:168-185 | The loop over offers keeps the books and reports each as new, known or refused |
| EvidenceRegistry.EvidenceRegistry.AddWebPage | app/manager/evidence.py:92-108 | Adds a page or rewrites the one known under its address |
| EvidenceRegistry.EvidenceRegistry.Rewrite | app/manager/evidence.py:97-108 | Halves the page until it fits and replaces source and entry |
| EvidenceRegistry.EvidenceRegistry.AddKnowledge | app/manager/evidence.py:110-166 | Adds the evidence of all hits, then the contexts they share |
| EvidenceRegistry.EvidenceRegistry.AddContext | app/manager/evidence.py:142-160 | One turn of the context loop |
| EvidenceRegistry.EvidenceRegistry.Save | app/manager/evidence.py:58-63 | The snapshot is the saved registry |
| EvidenceRegistry.EvidenceRegistry.Restore | app/manager/evidence.py:65-74 | Replaces every field, or refuses and changes nothing |
| OrderedDict.RebuiltFromItems | app/manager/evidence.py:69-73 | Listing a dictionary and rebuilding it from the list gives it back, order and all |
| OrderedDict.PutWeighs | app/manager/evidence.py:85-89 | An assignment adds the weight of the new value and takes out that of the value replaced |
| HierarchyMerge.ChoiceIsHighest | app/manager/hierarchy.py:179-201 | The ancestor chosen is the root when it is eligible and paid for or fitting, else the parent when that is, else none; only a new choice is paid for |
| HierarchyMerge.ChosenCovers | app/manager/hierarchy.py:179-201 | The chosen context contains the very chunk that was hit, and its text contains the text of the chunk |
| HierarchyMerge.CoversExactlyLeaves | app/manager/hierarchy.py:179-201 | A chosen context contains its hit if and only if the hit names a leaf fetched |
| HierarchyMerge.EligibilityIsMonotone | app/manager/hierarchy.py:143-159 | More hits never make an ancestor ineligible |
| HierarchyMerge.EligibleExactly | app/manager/hierarchy.py:150-159 | An ancestor is eligible if and only if enough of its children were hit, or for a root are eligible |
| HierarchyMerge.MergeIsFaithful | app/manager/hierarchy.py:176-213 | The output keeps the hits in order with their chunks and scores, each in a context that holds it |
| HierarchyMerge.MergeBalances | app/manager/hierarchy.py:176-201 | What the contexts given out cost is taken from the budget once each, and the budget is never overdrawn |
| HierarchyMerge.MergeStaysWithinBudget | app/manager/hierarchy.py:176-201 | The distinct contexts given out never cost more than the budget |
| HierarchyMerge.LeavesHaveAncestors | app/manager/hierarchy.py:118-142 | After validation every leaf hangs below a parent and a root whose texts contain its own |
| HierarchyMerge.RootsDoNotCount | app/manager/hierarchy.py:156-159 | Counting a root against the set under construction counts no root |
| HierarchyService.MergeHits | app/manager/hierarchy.py:104-213 | The validation, coverage and merging loops compute the merge, or raise on any inconsistent row |
| HierarchyService.Validate | app/manager/hierarchy.py:117-142 | The structural checks accept exactly the well-shaped trees and build the child lists |
| HierarchyService.FindMatched | app/manager/hierarchy.py:143-149 | Collects the leaves hit, refusing a hit that differs from its row |
| HierarchyService.FindParents | app/manager/hierarchy.py:151-155 | The loop over parents computes eligibility |
| HierarchyService.AddRoots | app/manager/hierarchy.py:156-159 | The loop over roots computes eligibility |
| HierarchyService.Pick | app/manager/hierarchy.py:180-203 | The inner loop tries the root, then the parent |
| HierarchyService.MergeEach | app/manager/hierarchy.py:179-213 | The last loop merges every hit in turn |
| HierarchyTree.SortedHolds | app/manager/hierarchy.py:161-165 | A context holds exactly the chunks of the leaves below its node |
| Retriever.IndexedAnswerStaysWithinBudget | app/manager/retriever.py:105-132 | For owners whose documents are indexed, their rows told apart by primary key, or whose hits stay as they are: the distinct contexts of the answer, over all owners, cost no more than its one budget, and without one no more than the default for each owner |
| Retriever.OfferedAreCoherent | app/manager/retriever.py:111-118 | Contexts of one identity have one text across all owners, because they are rows of the database |
| Retriever.BatchIsFromRows | app/manager/hierarchy.py:179-201 | Every context an owner offers is a row of the tree fetched for it, with the text of that row |
| Retriever.AnswerCostsWhatIsSpent | app/manager/retriever.py:105-132 | The distinct contexts of an answer cost no more than the owners were charged |
| Retriever.AnswerStaysWithinBudget | app/manager/retriever.py:105-132 | The same for any expanders that stay within the budget they are given and agree on the text of a context |
| Retriever.OwnersShareTheBudget | app/manager/retriever.py:107-118 | Passing the leftover from owner to owner keeps the total within the budget, for expanders that each stay within theirs |
| Retriever.OwnersWithoutABudget | app/manager/retriever.py:107-118 | Without a budget every owner starts over from the default |
| Retriever.IndexedAnswerIsAccepted | app/manager/retriever.py:105-132 | Hits on indexed leaves, one a chunk, are never rejected by the final checks and never missed: the answer keeps them in order with their chunks and scores, unless the deadline passes or the hierarchy is found inconsistent |
| Retriever.GatheredIsKept | app/manager/retriever.py:106-118 | What the loop over owners gathers is kept evidence and covers every hit of an owner |
| Retriever.MergedLeavesPass | app/manager/retriever.py:116-132 | Hits on leaves merged by the hierarchy always pass the final checks |
| Retriever.MergingIsThrifty | app/manager/retriever.py:111-112 | The hierarchy merge, and an owner without expansion, stays within the budget it is given |
| Retriever.UniqueKeepsEveryKey | app/manager/retriever.py:90-98 | Deduplication says nothing twice, loses no text and makes nothing up |
| Retriever.Deduplicate | app/manager/retriever.py:90-98 | The loop with its set of seen keys computes it |
| Retriever.ExpandOwners | app/manager/retriever.py:106-118 | The loop over owners, stopping at a deadline, an error or changed evidence |
| Retriever.Finish | app/manager/retriever.py:89-132 | The whole of `_finish`, with its tolerated errors |
| IngestionRuns.BodiesAreBounded | app/worker.py:32-89 | However often workers crash, stall or give a busy document back, the body of an ingestion or a backfill is started at most as often as its receipt allows attempts |
| IngestionRuns.ReceiptsMirrorJobs | app/service/ingestion_jobs.py:87-103 | In every reachable state the current receipt shows its job's state, attempts, limit and error, and 0 <= attempts <= limit |
| IngestionRuns.ReplacedReceiptsAreFinal | app/service/ingestion_jobs.py:37-65 | Once replaced, a receipt never changes again |
| IngestionRuns.SeriesSucceedsExactly | app/service/ingestion_jobs.py:67-85 | A series retirement has succeeded if and only if the current receipt of each of its versions has, counts each version once, and then every version is retired |
| IngestionRuns.StepKeeps | app/service/ingestion_jobs.py:37-236 | Every step of users and workers keeps the queue orderly and replaced receipts unchanged |
| IngestionRuns.EndKeeps | app/service/ingestion_jobs.py:167-236 | Finishing, in every branch, keeps it |
| IngestionRuns.GiveBackKeeps | app/service/ingestion_jobs.py:154-165 | Giving a busy document back returns the attempt it took and keeps it |
| IngestionRuns.TakeKeeps | app/service/ingestion_jobs.py:118-135 | Claiming charges one attempt, unless they are used up, and keeps it |
| IngestionReceipts.PutKeepsSound | app/service/ingestion_jobs.py:87-103 | A transaction on a job keeps it, its receipt and its parent in step, and never finds the history divided |
| IngestionReceipts.EnqueueKeepsSound | app/service/ingestion_jobs.py:37-65 | Enqueuing keeps everything in step |
| IngestionReceipts.RetireKeepsSound | app/service/document_tasks.py:82-112 | Retiring one document keeps everything in step, its parent included |
| IngestionReceipts.RetireSeriesKeepsSound | app/service/document_tasks.py:139-157 | Retiring a series gives every pending version one new receipt and a parent that counts them |
| IngestionReceipts.SyncRestores | app/service/ingestion_jobs.py:67-85 | Bringing a parent up to date makes it agree with its children again |
| IngestionQueue.IngestionQueue.Enqueue | app/service/ingestion_jobs.py:37-65 | Closes the previous receipt, opens a new one and resets the job, or rolls back |
| IngestionQueue.IngestionQueue.SyncParent | app/service/ingestion_jobs.py:67-85 | Counts the children and sets the parent, or reports a divided history |
| IngestionQueue.CountDone | app/service/ingestion_jobs.py:76 | The number of children that have succeeded |
| IngestionQueue.IngestionQueue.Store | app/service/ingestion_jobs.py:87-103 | Stores a job, mirrors it in its receipt and brings the parent up to date |
| IngestionQueue.IngestionQueue.ClaimNext | app/service/ingestion_jobs.py:118-135 | Claims a job, charging an attempt unless they are used up |
| IngestionQueue.IngestionQueue.Beat | app/service/ingestion_jobs.py:148-152 | Renews a live lease and changes nothing else |
| IngestionQueue.IngestionQueue.Release | app/service/ingestion_jobs.py:154-165 | Gives the job back with its attempt, when the lease still holds at the end |
| IngestionQueue.IngestionQueue.Judge | app/service/ingestion_jobs.py:174-231 | The branches of `finish` for the three kinds of job |
| IngestionQueue.IngestionQueue.End | app/service/ingestion_jobs.py:167-236 | Finishes a job, when the lease still holds at the end |
| CapabilityCatalog.OneVersionOneMeaning | app/service/capabilities.py:61-160 | After any updates the catalog in force is its own newest revision, every revision is kept, and a version of a skill, tool or policy has one declaration in all of them |
| CapabilityCatalog.RetiredStaysRetired | app/service/capabilities.py:137-147 | A deleted name never means anything again |
| CapabilityCatalog.AfterKeeps | app/service/capabilities.py:61-69 | Revisions are only ever added |
| CapabilityCatalog.UpdateKeeps | app/service/capabilities.py:90-160 | Every accepted update adds one revision and keeps the catalog coherent and its versions unambiguous |
| CapabilityCatalog.UpdateMoves | app/service/capabilities.py:109-155 | From one revision to the next an entry stays, takes the next version, appears when it was never retired, or is retired |
| CapabilityCatalog.InitialIsKept | app/entity/bo/capabilities.py:253-272 | A coherent first revision satisfies all of this |
| CapabilityExecution.FrozenValidates | app/service/capabilities.py:291-323 | An execution just frozen passes validation, as a whole and for each of its tools |
| CapabilityExecution.FrozenValidatesLaterExactly | app/service/capabilities.py:291-323 | After any updates and changes of role or settings it passes if and only if what is in force then still authorizes it |
| CapabilityExecution.FrozenIsWellFormed | app/entity/bo/capabilities.py:296-320 | What freezing returns always passes its own validation |
| CapabilityExecution.FrozenAreChosen | app/service/capabilities.py:235-251 | A frozen tool was a candidate, fits the mode, is available, and is approved when it must be |
| CapabilityExecution.FilteredAre | app/service/capabilities.py:235-251 | The tools frozen are exactly the candidates allowed, and no candidate was blocked |
| CapabilityExecution.Filter | app/service/capabilities.py:235-251 | The accumulating loop keeps the allowed candidates in order and raises at the first blocked one |
| CapabilityExecution.Judge | app/service/capabilities.py:236-250 | The branches of that loop |
| CapabilityService.CapabilityService.ChangePolicy | app/service/capabilities.py:90-113 | Updates a runtime policy under its next version, or refuses and changes nothing |
| CapabilityService.CapabilityService.Register | app/service/capabilities.py:115-160 | Creates or updates a declaration, or refuses and changes nothing |
| CapabilityService.CapabilityService.RemoveTool | app/service/capabilities.py:137-144 | Retires a tool no skill refers to, or refuses and changes nothing |
| CapabilityService.CapabilityService.RemoveSkill | app/service/capabilities.py:137-144 | Retires a skill, or refuses and changes nothing |
| CapabilityService.CapabilityService.Persist | app/service/capabilities.py:62-69 | Counts a revision, puts it in force and keeps it |

## Left out

- The path of runs that are not queued (generation 0, `guard`, `fail`) and the stream that is not durable: the durable path supersedes them.
- Reading a run (`read`, `list_for_session`), the dispatch of outbox rows and the messages of a session: they read, or copy state the model already has. The outbox row of each event is in the journal.
- Authorization of users and of public input in `RunSteps`: their verdicts are parameters of the request.
- Sizes of events and payloads, hashes and digests: sizes are parameters, and a digest is represented by what it is taken of, so hashes are taken to be injective.
- The artifact and failure flags of a tool event: parameters of the closing step, `sandbox_enabled` among them.
- Floating-point numbers, and dictionaries with boolean, null or float keys, in `CanonicalJson`; reordering of keys by the JSON column of the database.
- Honesty of workers: `RunResume` takes checkpoints saved by a worker to keep the input fields, and the equality of fresh and replayed outcomes in `RunOperations.ReplaysAgree` takes a worker to store what it returned; `RunInvoke.RunCheckpoint.Conclude` is proved to.
- `int(text, 16)` beyond four hex digits in `AnswerStream`: a parameter constrained on true hex digits only.
- Decoding bytes and rewriting CRLF in `EventStream`: the printed text has no carriage return, and the JSON codec is a parameter with the properties of `EventStream.Faithful`.
- Waiting times and the number of reconnects of the client: any series of connections is allowed. HTTP errors of `resumeRun` and the renewal of its access token are not modelled.
- Building the import graph from source files: `ImportCycles` takes the graph, with the imports of each module in the order they are walked.
- Remote reads of the memory service (creating the session, polling the extraction, reading the difference, listing tombstones): steps without an effect on the rows, whose outcome is any of the steps that may follow.
- Source and message identities of memory rows, and the message checks of `enqueue_capture`, which are a parameter.
- `search` of `OpenViking` itself: its hits are any list.
- MemoryModel.DeleteMemory: states no result for a missing row, because the error changes nothing; `MemoryService.MemoryService.Delete` reports it.
- Evidence of tools and of SQL results, which is one call of `_add` each; `validate`, which only reads; trace events of reranking and hierarchy; the extra fields of citations; and the aliasing of lists between a registry and its snapshot.
- Warnings of the registry are a set; the snapshot's sorted list of them is the same set.
- The split of `expand` into indexed, legacy and stale hits, and its row checks: `HierarchyMerge` starts from the rows fetched, whose identities are primary keys read in one snapshot.
- Decoding of node metadata: a row says whether it decodes. The legacy expander in `Retriever` is any function.
- Searching, embedding and reranking in `Retriever`: functions of the hits.
- HierarchyMerge.ChosenCovers: says nothing of a hit that names an inner row of the tree; `HierarchyMerge.CoversExactlyLeaves` gives the exact condition.
- Rows of the ingestion queue without a receipt (older than receipts), document metadata, error messages shown to users, index pins and the physical clean-up of files and vectors.
- IngestionRuns.BodiesAreBounded: does not bound retirements, because a retirement that finds its index pinned gives its attempt back and may start again any number of times.
- Fields of declarations that the capability service never looks at, the size limits of a catalog (a parameter), JSON schemas and endpoints, and the trial connection to the database (a parameter).
- Locks within one process (`ModelRuntime` counters), the Vue client beyond its stream reader, web routing, and every external service: not part of this model.
