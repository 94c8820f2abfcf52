# Verification of Swazz's delivery protocol and of the algorithms around it

Swazz runs API scans on agents that report to a coordinator over a WebSocket. This project models, in
Dafny, how an agent delivers a scan's events — numbered, queued, written, kept until acknowledged,
replayed after a reconnect — and proves what the code's comments promise of it. Around that core it
models seven algorithms of the repository whose fast or loop form should agree with a simple one.

## What is modelled

The delivery protocol, `packages/container/internal/agent/`:

- `DeliverySpec.dfy`: the delivery log as a value, one function for each operation, and what every
  history of operations keeps.
- `DeliveryLog.dfy`: the log as objects, a run's kept events a slice of a backing array — the binary
  search of `sort.Search`, insertion by shifting, growth by copying, and the three ways of letting go —
  each method proved against the function of `DeliverySpec`. `DeliveryLate.dfy`: a history in which
  recording an event twice is not recording it once. `DeliveryAge.dfy`: when a log is discarded, told from
  its history.
- `Pipeline.dfy`: everything an event passes through (sender, queue, pump, channel, write loop,
  carry-over, log) as a state machine of 21 actions. Writes fail or succeed, connections come and go,
  acks and late messages are arbitrary. `PipelineView.dfy` looks at one run at a time,
  `PipelineInvariant.dfy` proves the invariant action by action, and `PipelineTheorems.dfy` draws the
  conclusions for every reachable state. `PipelineNumbers.dfy`: when numbers repeat. `PipelineReplay.dfy`:
  what a new connection is sent first. `PipelineSent.dfy`: what the log and the ack requests say of the
  wire. `PipelineReplies.dfy`: replies are conserved.
- `AckMarks.dfy`: the write loop's marks and ack timer. `Dispatcher.dfy`: which runs a connection
  claims, and the wait before an agent recycles itself. `Recycle.dfy`: that wait and the pipeline
  together.
- `Outbox.dfy`: the queue as an object. `OutboxThreads.dfy`: any number of senders, the pump and scans
  that register late, interleaved, with the hold that a full queue puts on scans. `OutboxHold.dfy`: when
  that hold comes and when it goes.

The other algorithms: `Similarity.dfy` (edit distance in one column), `Prefilter.dfy` (substring search
behind an index of byte pairs), `BoundedMap.dfy` (linked list and index as a recency list),
`SplitSql.dfy` (SQL statements), `Chunker.dfy` (source files into chunks), `Collector.dfy` (capped
findings), `Har.dfy` (export and import of captured requests). `SqlGrammar.dfy` and `BraceGrammar.dfy` say
what the two scanners compute from what a text is made of: code, quotations and comments. `JsText.dfy` and
`Options.dfy` hold what several of them share.

## What was found

Three promises hold only under a condition. Each is proved to hold exactly then, with a history that
fails it.

- *Unwritten events are `writtenSeq+1..nextSeq`.* Not always: when the ack of a queued event overtakes
  its write and that write then fails, the write loop lets the event go (`agent_client.go:273-288`)
  and nobody records it as written. The numbering stays gapless, but `writtenSeq` stays behind.
  `UnwrittenExactly` says when the promise holds. If that was the last event
  (`AckedFailureStaysQueued`), the agent counts it as queued whatever else happens, until the run has a
  new event or a new dispatch (`QueuedForGood`), and for that long an idle agent does not exit
  (`StuckNeverExits`).
- *Recording a written event twice is recording it once.* Not for an event that a full log drops as it
  inserts it. `WrittenTwice` gives the exact case, and `LateWriteForgotten` a history that leads to it:
  the oldest event is recorded last. Only overlapping write loops can do that; with one at a time it
  never happens (`OneLoopRecordsOnce`).
- *No two events share run, execution and number.* Over every history this holds if and only if no
  event came for a run without a log, naming an execution that had events before
  (`NumbersDistinctExactly`). After `gc` has discarded a log such an event starts again at 1
  (`DiscardedLogRenumbers`).

## Model

| member | source | states |
|---|---|---|
| DeliverySpec.LogInvariant | packages/container/internal/agent/agent_delivery.go:20-52 | after any history of operations the kept events of a run are strictly ascending, at most 10,000, of its current execution, above the acknowledged number, not above the written one, and none while acks are off |
| DeliverySpec.ApplyKeepsValid | packages/container/internal/agent/agent_delivery.go:100-317 | each single operation, with any arguments, keeps that invariant |
| DeliverySpec.WrittenTwice | packages/container/internal/agent/agent_delivery.go:150-184 | recording a written event again changes nothing, if and only if the bound does not drop that very event: exact condition on a full log |
| DeliveryLate.LateWriteForgotten | packages/container/internal/agent/agent_delivery.go:150-184 | a history after which the log is full and the first event, numbered and not acknowledged, is forgotten by one record of it and changes the log again by a second one |
| PipelineTheorems.OneLoopRecordsOnce | packages/container/internal/agent/agent_client.go:282-297 | in every run of the pipeline, what the one write loop is about to record of a live execution is not dropped by the bound as it is inserted: recording it again would change nothing |
| DeliverySpec.TrimmedInsertion | packages/container/internal/agent/agent_delivery.go:172-183 | trimming a full log halves it, keeps it ascending, and keeps the inserted event exactly when fewer than half the bound are newer |
| DeliverySpec.InsertedFacts | packages/container/internal/agent/agent_delivery.go:163-171 | the sorted insertion of a late event keeps the order, adds exactly that event, and changes nothing when its number is there |
| DeliverySpec.AboveFacts | packages/container/internal/agent/agent_delivery.go:212-225 | keeping what is above an acknowledged number drops exactly the events up to it and keeps the order |
| DeliverySpec.ForeignChangesNothing | packages/container/internal/agent/agent_delivery.go:126-226 | a call that names another execution of a run than its current one leaves the run as it was |
| DeliverySpec.ExecutionIsolation | packages/container/internal/agent/agent_delivery.go:111-160 | over any history in which an execution goes on, leaving out every call that names another execution of its run leads to the same entry for the run |
| DeliveryLog.Search | packages/container/internal/agent/agent_delivery.go:164-166 | the binary search of sort.Search returns the first kept event at or above a number |
| DeliveryLog.RunLog.Insert | packages/container/internal/agent/agent_delivery.go:163-184 | shifting the later elements of the backing array one place up puts the event at its sorted position, in a larger array when the old one is full; a number kept already changes nothing, and a full log is cut to its newest half in a new array |
| DeliveryLog.RunLog.Acknowledge | packages/container/internal/agent/agent_delivery.go:204-226 | dropping the array, copying the rest to a new one or moving the slice's start: each leaves exactly the events above the number, in order |
| DeliveryLog.Log.SetEnabled | packages/container/internal/agent/agent_delivery.go:100-109 | turning acks off clears every run's kept events and nothing else |
| DeliveryLog.Log.Reset | packages/container/internal/agent/agent_delivery.go:113-119 | a new execution starts an empty log at zero and leaves other runs alone |
| DeliveryLog.Log.Stamp | packages/container/internal/agent/agent_delivery.go:126-145 | an event of the current execution, or naming none, gets the next number; one of another execution is refused and changes nothing |
| DeliveryLog.Log.Written | packages/container/internal/agent/agent_delivery.go:150-184 | a written event is recorded as the specification says, trimmed and late ones included |
| DeliveryLog.Log.Kept | packages/container/internal/agent/agent_delivery.go:188-200 | whether the log will bring an event back: kept, or acknowledged already |
| DeliveryLog.Log.Ack | packages/container/internal/agent/agent_delivery.go:204-226 | an ack keeps what is above it, and one of another execution changes nothing |
| DeliveryLog.Log.AckRequest | packages/container/internal/agent/agent_delivery.go:230-238 | whether to ask: the execution is current and some kept event is not above the number |
| DeliveryLog.Log.AnyQueued | packages/container/internal/agent/agent_delivery.go:241-250 | true exactly when some run has an event numbered and not recorded as written |
| DeliveryLog.Log.UndeliveredRuns | packages/container/internal/agent/agent_delivery.go:254-271 | exactly the runs with an undelivered event, each once, most recently active first |
| DeliveryLog.Log.Replay | packages/container/internal/agent/agent_delivery.go:275-303 | the kept events of all runs, run by run, each run's in order: executing runs first, then the most recently active |
| DeliveryLog.Log.Gc | packages/container/internal/agent/agent_delivery.go:307-317 | discards exactly the logs that are idle for longer than the limit and not active |
| DeliveryAge.CollectedExactly | packages/container/internal/agent/agent_delivery.go:305-317 | over every history, a collection discards a run's log if and only if the run is not active, every number given was recorded, and its last start, number, record or ack lies more than fifteen minutes back |
| DeliveryAge.RecentStaysLive | packages/container/internal/agent/agent_delivery.go:305-317 | in the pipeline, a run that at every collection is executing, queued or touched within fifteen minutes, and is not dispatched again, keeps its log and its execution |
| PipelineInvariant.Reachable | packages/container/internal/agent/agent_client.go:244-361 | every state reached by any interleaving of the 21 actions satisfies the pipeline invariant |
| PipelineInvariant.StepKeepsInv | packages/container/internal/agent/agent_client.go:244-361 | one action of any kind keeps the invariant |
| PipelineTheorems.NoLoss | packages/container/internal/agent/agent_client.go:244-333 | with an acknowledging coordinator an event numbered in a live execution and not acknowledged is still unwritten in the pipeline or kept in the log, unless no message could carry it or the bound trimmed it |
| PipelineTheorems.NothingLiveOverflows | packages/container/internal/agent/agent_client.go:273-288 | in every reachable state, no event of a live execution was ever given up on because the resend buffer was full |
| PipelineTheorems.UnwrittenInOrder | packages/container/internal/agent/agent_client.go:327-360 | the unwritten events, over carry-over, write loop, channel, pump and queue, are the last ones numbered, in order and without a gap |
| PipelineTheorems.UnwrittenExactly | packages/container/internal/agent/agent_client.go:273-288 | they are exactly the numbers after the last recorded write if and only if no later event was let go because its ack came first |
| PipelineTheorems.WireIncreases | packages/container/internal/agent/agent_client.go:327-360 | on one connection the numbers written for an execution strictly increase across replay, carry-over and queue |
| PipelineReplay.KeptIsReplayed | packages/container/internal/agent/agent_client.go:327-333 | while a write loop is up, every event kept of a live execution was written on this connection or is still to be replayed on it, unless no message can carry it |
| PipelineReplay.ReplayGoesFirst | packages/container/internal/agent/agent_client.go:327-347 | once anything was taken from the resend buffer or the queue, everything kept of a live execution has been written on this connection, unless no message can carry it |
| PipelineTheorems.NumbersAreUnique | packages/container/internal/agent/agent_delivery.go:121-145 | in a live execution later events get larger numbers, so none is given twice |
| PipelineNumbers.NumbersDistinctExactly | packages/container/internal/agent/agent_delivery.go:121-145 | over every history, all events numbered differ in run, execution or number if and only if no event was numbered for a run without a log that named an execution with events before |
| PipelineTheorems.LogAndQueueApart | packages/container/internal/agent/agent_client.go:327-360 | no event is both kept in the log and on its way to a first write |
| PipelineSent.KeptWasWritten | packages/container/internal/agent/agent_delivery.go:150-184 | an event is kept only if it was written, on this connection or an earlier one |
| PipelineSent.NumberedAsGiven | packages/container/internal/agent/agent_delivery.go:121-145 | a message is numbered with nothing else of it changed, for the execution it names, or refused without a trace because it names another one |
| PipelineReplies.RepliesConserved | packages/container/internal/agent/agent_client.go:244-360 | over every run each reply queued was written, found unsendable or is on its way, as often as it was queued: none is lost or sent twice |
| PipelineTheorems.TailIsAskedFor | packages/container/internal/agent/agent_client.go:289-326 | an event written on this connection and still kept has its run waiting, or a request at least as far was sent |
| PipelineTheorems.TimerCoversWaiting | packages/container/internal/agent/agent_client.go:282-326 | while a run waits the timer is armed, and it fires no later than any waiting run is due: a streaming run cannot hold back another's tail |
| PipelineSent.AskedRightly | packages/container/internal/agent/agent_client.go:302-326 | an ack request is made at least a second after the last write to its run, names an event written on this connection, and is made only when something up to that event is kept |
| PipelineTheorems.OnTheirWayAreClaimed | packages/container/internal/agent/agent_dispatcher.go:155-167 | a run with an event on its way is undelivered, so a reconnect claims it, and the output counts as pending |
| PipelineTheorems.UndeliveredExactly | packages/container/internal/agent/agent_delivery.go:252-271 | a run of a live execution is undelivered if and only if an event of it is unwritten or kept, or a later one was let go because its ack came first |
| PipelineTheorems.NothingPendingNothingLost | packages/container/internal/agent/agent_client.go:101-111 | when nothing is pending every event of a live execution was acknowledged, found unsendable or trimmed by the bound |
| PipelineTheorems.AckedFailureStaysQueued | packages/container/internal/agent/agent_client.go:273-288 | a reachable state with everything acknowledged and nothing anywhere in the pipeline in which output still counts as unwritten |
| PipelineTheorems.QueuedForGood | packages/container/internal/agent/agent_client.go:273-288 | from a state in which the last event of a live execution was let go unrecorded, every continuation without a new event or dispatch of that run keeps nothing of it on its way and its output unwritten |
| PipelineTheorems.DiscardedLogRenumbers | packages/container/internal/agent/agent_delivery.go:305-317 | a run in which a discarded log makes two events of one execution share a number |
| AckMarks.Marks.Sent | packages/container/internal/agent/agent_client.go:282-297 | after a write the mark only moves forward within an execution, the run waits from now, and the timer is armed if it was not |
| AckMarks.Marks.LookAt | packages/container/internal/agent/agent_client.go:306-324 | a run quiet for the delay leaves the wait and is asked about exactly if its tail is unacknowledged; another one lowers the next due time |
| AckMarks.Marks.RequestAcks | packages/container/internal/agent/agent_client.go:302-326 | all waiting runs are looked at once, in any order, and the timer is set to the soonest due time of those that still wait |
| Dispatcher.ActiveRunIDs | packages/container/internal/agent/agent_dispatcher.go:140-149 | the executing runs, each once, sorted |
| Dispatcher.ResumeRunIDs | packages/container/internal/agent/agent_dispatcher.go:155-167 | exactly the executing runs and those with an undelivered event, without duplicates, executing ones first, the rest most recently active first |
| Dispatcher.WaitToRecycle | packages/container/internal/agent/agent_dispatcher.go:331-367 | the agent exits if and only if at some look nothing is pending, or nothing is unwritten and the drain timeout since the last unwritten look is over, with no run active then or at an earlier look and no earlier look like it |
| Dispatcher.WaitOverExactly | packages/container/internal/agent/agent_dispatcher.go:350-357 | with looks in time order the wait is over if and only if nothing is pending, or nothing is unwritten and two minutes have passed since it began and since every look that found something unwritten |
| Recycle.NothingUnwrittenAtExit | packages/container/internal/agent/agent_dispatcher.go:331-367 | at the exit no event of a live execution is unwritten in the pipeline |
| Recycle.NothingLostAtEarlyExit | packages/container/internal/agent/agent_dispatcher.go:331-367 | an exit before the deadline finds every event of a live execution acknowledged, unsendable or trimmed |
| Recycle.StuckNeverExits | packages/container/internal/agent/agent_dispatcher.go:331-367 | once the last event of a live execution was let go unrecorded, no look in any continuation without a new event or dispatch of that run is the one the agent exits at |
| OutboxSpec.BoxOpsKeepRoom | packages/container/internal/agent/agent_outbox.go:49-134 | every operation keeps: a waiting room exists only while the queue is at or above its limit |
| Outbox.Outbox.CheckRoom | packages/container/internal/agent/agent_outbox.go:53-67 | a sender may pass exactly while the queue is below its limit, and otherwise gets the current room |
| Outbox.Outbox.Push | packages/container/internal/agent/agent_outbox.go:71-81 | the event goes last and the sender learns whether the queue reached the high mark |
| Outbox.Outbox.PushReply | packages/container/internal/agent/agent_outbox.go:84-92 | the reply goes last among the replies |
| Outbox.Outbox.TryTake | packages/container/internal/agent/agent_outbox.go:96-134 | the first reply, or else the first event, leaves; room is given at the limit |
| Outbox.Outbox.Handed | packages/container/internal/agent/agent_outbox.go:138-143 | the message in flight is counted off |
| OutboxThreads.HoldIsReleased | packages/container/internal/agent/agent_dispatcher.go:204-244 | no interleaving of senders and pump leaves the scans held with the queue at or below the low mark, once nobody is holding, releasing or handing on |
| OutboxThreads.ScansFollowHold | packages/container/internal/agent/agent_dispatcher.go:204-244 | whenever the lock is free every registered scan, one registered late included, is held exactly when the hold is on |
| OutboxHold.FullQueueHolds | packages/container/internal/agent/agent_dispatcher.go:181-220 | after a push that leaves 8,000 messages or more, with no release since, the hold is on or some sender is on its way to it |
| OutboxHold.FullQueueHoldsScans | packages/container/internal/agent/agent_dispatcher.go:181-220 | with no such sender left and the lock free, every registered scan is then held |
| OutboxHold.HeldOnlyWhenFull | packages/container/internal/agent/agent_dispatcher.go:181-220 | no scan is held before a push has left 8,000 messages or more |
| OutboxHold.HoldEndsAfterDrain | packages/container/internal/agent/agent_dispatcher.go:221-244 | the hold is ended only by a goroutine that has been about it since the queue was at 4,000 messages or fewer |
| OutboxThreads.EveryWaitHasAWaker | packages/container/internal/agent/agent_outbox.go:52-134 | a sender waits only on a closed or the current room of a full queue, and a parked pump with something queued has a signal pending or coming |
| OutboxThreads.QueueIsBounded | packages/container/internal/agent/agent_outbox.go:52-81 | with n senders the queue never exceeds the limit by more than n - 1 |
| OutboxThreads.TwoClassFifo | packages/container/internal/agent/agent_outbox.go:69-181 | until the pump stops events leave in push order and replies in theirs, none twice and none lost, and pending is pushed minus handed on |
| OutboxThreads.RepliesGoAhead | packages/container/internal/agent/agent_outbox.go:83-134 | a reply and an event queued at the same time leave in that order in every continuation |
| OutboxThreads.Reachable | packages/container/internal/agent/agent_outbox.go:52-181 | every state reached by any interleaving satisfies the queue's invariant |
| Similarity.NoCheaperScript | packages/container/internal/bola/similarity.go:132-177 | no sequence of single edits is cheaper than the recursive distance |
| Similarity.CheapestScript | packages/container/internal/bola/similarity.go:132-177 | some sequence of single edits costs exactly the recursive distance |
| Similarity.LevenshteinDistance | packages/container/internal/bola/similarity.go:132-177 | one column updated in place computes the recursive distance of the capped inputs |
| Similarity.DistanceSymmetric | packages/container/internal/bola/similarity.go:132-177 | the distance does not depend on the order of its arguments |
| Similarity.DistanceBounds | packages/container/internal/bola/similarity.go:132-177 | between the difference of the lengths and the longer length, and zero exactly for equal texts |
| Similarity.NormalizedLevenshtein | packages/container/internal/bola/similarity.go:186-210 | lies between 0 and 1 |
| Similarity.NormalizedSymmetric | packages/container/internal/bola/similarity.go:186-210 | symmetric, truncation included |
| Similarity.JaccardSymmetric | packages/container/internal/bola/similarity.go:118-130 | symmetric |
| Similarity.Tokenize | packages/container/internal/bola/similarity.go:99-116 | the loop finds exactly the lowered maximal runs of word characters |
| Similarity.CheckSimilarity | packages/container/internal/bola/similarity.go:18-73 | lies between 0 and 1 |
| Similarity.SimilaritySymmetric | packages/container/internal/bola/similarity.go:18-73 | symmetric, for JSON and for text |
| Similarity.SimilarToItself | packages/container/internal/bola/similarity.go:18-73 | a body is fully similar to itself if and only if it is within the size limit |
| Similarity.PathsExactly | packages/container/internal/bola/similarity.go:75-97 | the key paths are exactly the ways through the keys of nested objects, those inside arrays included |
| Similarity.StructureWeighs | packages/container/internal/bola/similarity.go:38-62 | of two JSON bodies the same key paths make them at least 0.8 similar, 0.8 without a common word; no path in common at most 0.2, 0.2 with the same words |
| Similarity.LargerMeasure | packages/container/internal/bola/similarity.go:64-73 | other bodies are as similar as the larger of their two text measures |
| Prefilter.IndexExact | packages/container/internal/analyzer/analyzer.go:113-148 | the finished bit index has a pair exactly when its two bytes are neighbours in the body |
| Prefilter.SetAddsOne | packages/container/internal/analyzer/analyzer.go:116-124 | setting one bit of the 65,536 adds that pair and no other |
| Prefilter.OccurringPairsIndexed | packages/container/internal/analyzer/prefilter.go:31-48 | every pair of a needle that occurs is in the index, so it is never turned away |
| Prefilter.IndexPairs | packages/container/internal/analyzer/analyzer.go:133-148 | a pooled, dirty index is cleared and filled with exactly the pairs of the body |
| Prefilter.LowercasedContains | packages/container/internal/analyzer/analyzer.go:47-56 | searching the lowered body for the lowered needle is searching without regard to letter case |
| Prefilter.AnalysisInput.ContainsAnyLower | packages/container/internal/analyzer/prefilter.go:27-64 | whatever was cached or asked before, the answer is whether some needle occurs, letter case aside |
| Prefilter.AnalysisInput.LowerBody | packages/container/internal/analyzer/analyzer.go:50-56 | the lowered body, computed once |
| Prefilter.AnalysisInput.BodyBigrams | packages/container/internal/analyzer/analyzer.go:133-148 | the index of the body held now, computed once |
| Prefilter.AnalysisInput.Release | packages/container/internal/analyzer/analyzer.go:60-71 | the input stays usable and holds nothing cached |
| Prefilter.AnalysisInput.Acquire | packages/container/internal/analyzer/analyzer.go:86-91 | an input taken for another response holds nothing of the one before |
| Prefilter.LowerNeedle | packages/container/internal/analyzer/prefilter.go:80-88 | the lowered needle, copied or not |
| Prefilter.LowerASCIIInto | packages/container/internal/analyzer/prefilter.go:67-76 | the buffer holds the lowered bytes, index for index |
| Prefilter.IndexFoldASCII | packages/container/internal/analyzer/prefilter.go:91-135 | the leftmost match without regard to letter case, or -1 when there is none |
| Prefilter.FindFrom | packages/container/internal/analyzer/prefilter.go:149-164 | the leftmost match of an anchored pattern, if skipped positions cannot start one |
| BoundedMapSpec.MostRecentKept | packages/container/internal/boundedmap/boundedmap.go:8-45 | after any history of Sets the map is exactly the last `limit` of the latest Sets of each key, in order |
| BoundedMapSpec.LatestSetsAppend | packages/container/internal/boundedmap/boundedmap.go:33-45 | a Set moves its key to the end of the list of latest Sets |
| BoundedMapSpec.OneSet | packages/container/internal/boundedmap/boundedmap.go:33-45 | one Set keeps keys distinct and the size within the limit, and leaves its entry most recent |
| BoundedMapSpec.OneDrop | packages/container/internal/boundedmap/boundedmap.go:32-45 | a Set drops an entry of another key if and only if it reports a drop |
| BoundedMapSpec.DropsExactly | packages/container/internal/boundedmap/boundedmap.go:32-45 | which Set of a history reports a drop: a full map whose most recent keys do not include the new one |
| BoundedMap.Map.constructor | packages/container/internal/boundedmap/boundedmap.go:25-30 | empty, with a limit of at least one |
| BoundedMap.Map.Set | packages/container/internal/boundedmap/boundedmap.go:33-47 | relinking the list and updating the index does to the recency list what the specification says, and reports the drop |
| BoundedMap.Map.Get | packages/container/internal/boundedmap/boundedmap.go:49-55 | the value of the key, or nothing exactly when there is none |
| BoundedMap.Map.Delete | packages/container/internal/boundedmap/boundedmap.go:57-66 | exactly that key's entry leaves, and its value is returned |
| BoundedMap.Map.NewestKeys | packages/container/internal/boundedmap/boundedmap.go:71-77 | walking back over the links gives the reversed end of the recency list, at most n keys, none for a negative n |
| BoundedMap.Map.Clear | packages/container/internal/boundedmap/boundedmap.go:79-82 | empty |
| BoundedMap.Unlink | packages/container/internal/boundedmap/boundedmap.go:57-66 | the list's removal keeps the links of all other elements in order |
| BoundedMap.MoveToBack | packages/container/internal/boundedmap/boundedmap.go:34-37 | the list's move keeps all other elements in order and the index right |
| SplitSql.SplitStatements | packages/edge/src/splitSql.ts:6-99 | the loop with four flags gives the trimmed, non-empty texts between top-level semicolons, comments left out |
| SqlGrammar.SplitBySegments | packages/edge/src/splitSql.ts:6-99 | of a text made of code, quotations, semicolons and comments, one of them open at its end or none, splitting gives the trimmed, non-empty texts of code and quotations between the semicolons, and nothing of the comments |
| SqlGrammar.SplitOfEveryText | packages/edge/src/splitSql.ts:6-99 | every text is made of those, so this says what splitting any text gives |
| SplitSql.SplitUndoesJoin | packages/edge/src/splitSql.ts:6-99 | splitting the statements joined by semicolons returns them if and only if each is trimmed, not empty, free of comments and top-level semicolons, and only the last leaves a quote open |
| SplitSql.WalkEmits | packages/edge/src/splitSql.ts:33-87 | a clean statement, quotes doubled or holding anything, passes through the scan unchanged |
| SplitSql.EmitsWalk | packages/edge/src/splitSql.ts:20-87 | a text that passes through unchanged was clean |
| Chunker.ScanLine | packages/rag/src/parser.ts:101-155 | the character loop equals the recursive scan of strings, comments and braces |
| BraceGrammar.AfterByParts | packages/rag/src/parser.ts:98-155 | of lines made of code, strings and comments, across line ends, the scan counts exactly the braces of the code, and knows what is open at their end |
| BraceGrammar.ClosesByParts | packages/rag/src/parser.ts:98-160 | a line closes a declaration if and only if by then a brace was opened outside strings and comments and as many were closed as opened |
| BraceGrammar.LinesRead | packages/rag/src/parser.ts:98-155 | every stretch of lines is made of code, strings and comments |
| Chunker.MatchBraces | packages/rag/src/parser.ts:88-169 | the line loop finds the first line that closes the braces, or cuts off after 151 lines, or leaves one line at the end of the file |
| Chunker.StopFound | packages/rag/src/parser.ts:157-169 | where the brace scan stops is the first closing line, and the cut-off and the end of the file come only when there is none before |
| Chunker.IncludesSomewhere | packages/rag/src/parser.ts:78-84 | the keyword test finds a keyword exactly when it stands somewhere in the line |
| Chunker.BlocksOrdered | packages/rag/src/parser.ts:69-206 | the declaration blocks are in order, disjoint, not empty and inside the file |
| Chunker.BlockStartsExactly | packages/rag/src/parser.ts:69-206 | a line starts a block if and only if it declares something, a brace is opened from it on, and no earlier block reaches it |
| Chunker.BlockExtent | packages/rag/src/parser.ts:157-169 | a block ends with the first line that closes its braces, or after 152 lines, or with its first line when the file ends before either |
| Chunker.BlockOrGap | packages/rag/src/parser.ts:208-228 | every line is in a block or in a gap between blocks, never in both |
| Chunker.ChunkBraceLanguages | packages/rag/src/parser.ts:64-248 | the loops give exactly the chunks of the blocks and of the gaps, sorted by first line |
| Chunker.EveryLineCovered | packages/rag/src/parser.ts:64-248 | every line that is not blank is in some chunk |
| Chunker.EveryChunkGood | packages/rag/src/parser.ts:64-248 | unless the file is blank, a chunk's content is exactly its lines, at most 51 of them, all of one block or of one gap, and chunks are sorted |
| Chunker.NeighboursTogether | packages/rag/src/parser.ts:172-246 | up to eleven consecutive lines of one block or one gap, not all blank, are together in some chunk: windows overlap |
| Chunker.BlankFileWhole | packages/rag/src/parser.ts:64-248 | a blank file is one chunk, however long |
| Chunker.FlushOrphan | packages/rag/src/parser.ts:223-248 | the chunks of a gap, blank windows left out |
| Chunker.ChunkGaps | packages/rag/src/parser.ts:205-221 | scanning the marked lines finds exactly the gaps between the blocks |
| Chunker.ChunkFallback | packages/rag/src/parser.ts:250-272 | every line is in some chunk; files over 60 lines are cut into chunks of their own lines of at most 50 |
| Classifier.New | packages/container/internal/classifier/classifier.go:79-128 | user codes add to the built-in ignored ones, user defaults override the built-in ones key by key |
| Classifier.SameStatusRule | packages/container/internal/classifier/classifier.go:203-211 | two results share a status rule if and only if they share the status and, without one, whether they timed out |
| Classifier.DefaultLevel | packages/container/internal/classifier/classifier.go:168-200 | without rules a result is ignored if and only if its status is 100 to 399 or one of six ignored codes; all others are errors |
| Classifier.RuleDecides | packages/container/internal/classifier/classifier.go:168-200 | the ignored codes decide first, then a rule for the very status, then one for its hundred, then error |
| Collector.Collector.Add | packages/container/internal/classifier/collector.go:39-90 | skipping a full defect before any work leaves the collector as the simple form would |
| Collector.Collector.Keep | packages/container/internal/classifier/collector.go:98-104 | the finding is appended, only a long text body cut, and counted |
| Collector.ClassifyAll | packages/container/internal/classifier/classifier.go:160-166 | all findings of all results that are not ignored, in order, limited to five for each rule, method and endpoint |
| Collector.FirstFiveOfEach | packages/container/internal/classifier/collector.go:13-15 | of every defect exactly the first five findings are kept, in order, status and analyzer findings counted together |
| Collector.NothingTakenBack | packages/container/internal/classifier/collector.go:22-30 | later results never take back or reorder a finding |
| Har.BuildEntries | packages/extension/har.js:42-159 | the nested loops give the entries of every endpoint, queries by bodies, and none for a malformed URL |
| Har.ParseEntries | packages/extension/har.js:222-385 | the loop gives the records that folding the entries gives |
| Har.ParsedByKey | packages/extension/har.js:242-275 | the record of an endpoint depends on its own entries only |
| Har.CountRoundTrip | packages/extension/har.js:122-131 | export and import give an endpoint's count back if and only if it was positive |
| Har.StatusesRoundTrip | packages/extension/har.js:335-345 | and its status counts if and only if there are some and the exported status is positive, or neither |
| Har.ResponseRoundTrip | packages/extension/har.js:353-360 | and its last response if and only if there is one, with a positive status, at most 10,000 characters, and not a 200 without a status text |
| Har.TimeRoundTrip | packages/extension/har.js:299-305 | and the time of its last capture if and only if there is one |
| Har.NamesReadBack | packages/extension/har.js:307-318 | the parameter names read back are those of the exported queries, each once |
| Har.VariationsRoundTrip | packages/extension/har.js:308-330 | and its queries and bodies, in order, if and only if they are distinct, within the caps, as URL parsing leaves them, trimmed and not long |

## Left out

- Sequence numbers are unbounded; the 64-bit wrap-around is not modelled. Run and execution ids are
  numbers: only their equality, and for run ids their order, matters.
- WebSocket dialling, TLS, authentication, JSON and logging: a write succeeds or fails, an ack is any
  message. A message that cannot be sent at all is given up without being kept, as in the code; an ack
  request is never of that kind.
- PipelineTheorems.WireIncreases: one write loop at a time; a dying loop that still holds a message while
  the next one starts is not modelled, and the order on the wire would not hold for it.
- PipelineTheorems.NumbersAreUnique: the order of the numbers, for a run's current execution while its
  log was not discarded; NumbersDistinctExactly covers every execution, without the order.
- PipelineTheorems.NoLoss: for coordinators that acknowledge; without acks nothing is kept.
- The write loop is a state machine of steps, not a class: its goroutine and channels have no object
  of their own. Time stands still while it looks through the waiting runs.
- Dispatcher.WaitToRecycle: what one turn asks of the session and of the active runs is one look, though
  the code asks one after the other; the flag that lets only one such wait run is not modelled.
- The coordinator, the scan runner and the dispatcher's other requests are not part of this model; a
  scan is a flag that is held or not.
- Similarity: reals instead of floats; UTF-8, JSON parsing and the Unicode tables are parameters.
- Prefilter: the buffer pools are modelled as fresh memory with arbitrary contents; regular expressions
  are a parameter; the cached strings of the sent payload are left out.
- BoundedMap: Go's list and map are modelled as far as they are used; misuse from several goroutines is
  not.
- SplitSql: splitting what a split returned is not claimed: dropping a comment can join tokens into a
  new one.
- Chunker: Markdown chunking and the choice of chunker by file extension. The stable sort is an
  insertion sort.
- Collector: the taxonomy tables and the matching of ignore rules are parameters.
- Har: headers, content types, recommendation texts and the HAR fields that are constant; merging two
  captures, which adds a union with the same caps. Upper case, path placeholders and URL syntax are
  parameters, times are numbers.
