# A verified model of the queue, its stream backend and their management

This project models, in Dafny, the concurrent and distributed core of a Go job
queue and proves what that core promises.

* **The queue and its scheduler** (`QueueModel`, `QueueInvariants`, `QueueSteps`,
  `QueueTheorems`, `QueueCounts`, `QueueAdmission`, `QueueStrand`, `QueueStrandRuns`,
  `QueueDrainRun`, `QueueReturns`, `QueueProgress`, `QueueRelease`, `QueueServe`,
  `QueueTermination`):
  producers, the scheduler goroutine, one request goroutine at a time, work wrappers
  and the callers of Start, CloseAdmission, ReleaseContext, Shutdown and
  UpdateWorkerCount, as a transition system with one step per mutex section, atomic
  access or channel operation. Every theorem is about every reachable state of every
  interleaving: what never happens, and what can still happen from wherever it stands.
  Runtime panics (a second close, a send on a closed channel, a negative count) and
  ignored counter errors set a `fault` that is proved never to be set.
* **The pieces it uses**: the growing and shrinking circular buffer (`RingBuffer`,
  a class over an array), the joined goroutine set (`RoutineGroup`), the worker
  lifecycle (`Lifecycle`), and the execution and settlement of one task
  (`QueueWork`).
* **The stream backend** (`StreamIds`, `StreamServer`, `StreamCommands`,
  `StreamScripts`, `StreamSource`, `StreamWorld`, `StreamInvariants`,
  `StreamDepartures`, `StreamRecords`, `StreamLineage`, `StreamConservation`,
  `StreamLosses`, `StreamRetention`, `StreamReplacement`, `StreamOverwrite`,
  `StreamSettlement`): the four atomic scripts over a source stream with consumer
  groups, a failure stream and a dead-letter stream, run by any number of producers,
  consumers and operators, each of which may stop between any two commands. Runs
  contain every command, replacing replays included.
* **Failure resolution** (`Classifier`), **desired-state reconciliation**
  (`Reconciler`) and the **service adapters** (`ServiceAdapter`, `ServiceStops`).

Methods are written where the source updates things in place (the ring, the
goroutine set, the lifecycle, the scripts, the resolution loop, the retry loop, the
settlement closures, reconciliation) and proved against functions on values. The
protocols compose those same functions, so what is proved of a protocol is proved
of the code the methods model. Methods whose function is the same handful of
assignments (the lifecycle's counters, the dead-letter half of the retry script) have
no row below; the methods that call them and the theorems about those functions do.

Results the source does not state, or where it does something else than a reader
would expect:

* A drain or a shutdown can strand a task. The scheduling loop leaves when a request
  found no task and the drain flag is raised by then, or when quit closes, without
  looking at the ring again. `StrandsExactly` and `CommittingStrandsExactly` say
  exactly when that leaves a task behind: when, at that point, the ring holds one, a
  producer is past the ring's stop check, or one was admitted and the ring is not
  stopped. Three runs show it: a producer admitted earlier adds its task after the
  loop has left (`DrainCanStrand`); a task whose enqueue had returned before
  CloseAdmission was called (`ReturnedTaskCanStrand`); and a task nobody ever
  requested, when Shutdown follows CloseAdmission (`ShutdownCanStrand`). After that
  no ReleaseContext ever returns nil (`StrandedNeverReleases`). `ServesExactly` says
  from which states all accepted tasks can still be run, which also leaves out a queue
  shut down before it was started. With an external worker a drain can always complete
  (`ReleaseCanReturn`). A fourth run shows an in-memory drain that does
  (`DrainCanComplete`).
* A Shutdown that races with a drain can find the ring already stopped. It then fails,
  and no ReleaseContext ever returns nil (`StoppedTwiceFails`).
* The owner of a reservation can also be the closer that gives the ready token
  back, besides the ready token, the scheduling loop and a schedule call. The
  total is still at most three (`ReservationLedger`).
* The scripts compare milliseconds first by value and then by text, so `isBefore`
  misreads identifiers whose milliseconds have leading zeros. `IsBeforeExactly`
  says for all identifiers when it is right; canonical identifiers always are.
* A replacing replay deletes an entry that groups are still owed
  (`ReplacingReplayDeletesOwed`); nothing else does (`PresentExactlyWhileOwed`). A
  failure retry then subtracts an entry that is not there, and the source stream can
  exceed its capacity, by one (`ReplacementOverflows`, `WithinCapacity`);
  `RetryOverflowsExactly` says which retries do. No body is lost by it as long as no
  record stream is purged (`NothingIsLostUnlimited`). After a purge a new record can
  get the identifier of an old one, and the replacing replay then costs a group a body
  (`ReplacementCanLose`).
* Decoding drops a body above the size limit from the dead letter it writes, but both
  transports refuse such a body on admission, so no delivery ever has one
  (`BodiesAreUnchanged`).
* The normal form that the queue gives a canceled error can change the stream
  worker's dead-letter decision. `TerminalSurvivesExactly` says for which errors it
  does not; errors of fewer than 64 nodes are among them.
* After a failed startup, the worker adapter's admission callback can overlap the
  shutdown callback. `AdmissionOverlapsExactly` says from which states it can.
* A comment inside Ring.Request says the buffer shrinks when less than a quarter
  full; the code, followed here, halves it at or below half.

## Model

| member | source | states |
|---|---|---|
| `QueueTheorems.ReleaseDrainsRing` | queue.go:661-802 | if ReleaseContext on a Ring-backed queue returned nil then, now and for ever, the tasks the ring accepted are exactly the tasks of the wrappers, in order and once each, every wrapper has finished, and nothing is accepted or started |
| `QueueTheorems.ExternalShutdownIsLast` | queue.go:181-222 | for an external worker shut down only through ReleaseContext, Worker.Shutdown starts after every accepted enqueue returned, no Request is outstanding or ever made again, and every requested task's wrapper ended |
| `QueueTheorems.AdmissionsDoneIsExact` | queue.go:814-833 | admissionsDone is closed if and only if draining began and no accepted enqueue is left |
| `QueueTheorems.ReservationLedger` | queue.go:618-776 | the lifecycle's admission count is exactly the reservations held by the ready token, the loop, a schedule call and a closer, at most three before quit closes; its job count is exactly the requested tasks whose wrapper has not ended |
| `QueueTheorems.NeverFaults` | queue.go:661-833 | in every run no channel is closed twice or sent to after closing, no group count goes negative, and every ignored EndAdmission, PromoteAdmissionToJob and EndJob error is nil |
| `QueueTheorems.TasksInOrder` | queue.go:696-776 | at most one request goroutine is outstanding; every task Request returned reaches exactly one wrapper, in order, with at most one in hand; in memory that order is the order of acceptance |
| `QueueTheorems.WorkIsAccountedFor` | queue.go:310-352 | the busy count stays between zero and the largest worker count ever set, and wrappers started are active, finishing, succeeded or failed, each in one place |
| `QueueCounts.SpawnsBelowLastCount` | queue.go:606-651 | in every run the worker count in force is the one UpdateWorkerCount set last, or the configured one, and every step that makes the loop ask for a task is taken with fewer workers busy than that |
| `QueueCounts.BusyWithinCount` | queue.go:606-651 | from any point until the next update at most as many handlers are busy as the count allows, or as were busy or being started at that point if those are more |
| `QueueCounts.NoWorkWithoutCount` | queue.go:606-614 | with a count of zero or less and nothing busy or being started, no request is made and no wrapper starts until the next update |
| `QueueAdmission.RefusedExactlyWhenClosed` | queue.go:814-824 | an enqueue is refused at admission only once the first section of CloseAdmission or Shutdown has run, and from then on every one is |
| `QueueReturns.ReleaseShutsDown` | queue.go:212-222 | if ReleaseContext returned nil, Shutdown has completed, quit is closed, and an external worker was shut down without a failure |
| `QueueReturns.ShutdownWaitsForRing` | queue.go:133-153 | in memory and while nobody drains, a completed Shutdown found the ring's exit closed: every accepted task was asked for, and it reports no failure |
| `QueueReturns.StoppedTwiceFails` | queue.go:133-153 | in memory, a Shutdown that means to stop the ring and finds it stopped by a drain fails, and no ReleaseContext ever returns nil |
| `QueueReturns.ReleaseStartsQueue` | queue.go:778-784 | in memory, a ReleaseContext that got to closing admission finds the queue started unless Shutdown was called or the count was zero at some time |
| `QueueReturns.NeverStartedWithoutCount` | queue.go:111-127 | a queue configured without workers and never given any is never started |
| `QueueReturns.CloserTakesToken` | queue.go:804-812 | with an external worker, closing admission takes the ready token back and releases the reservation behind it |
| `QueueReturns.DrainStopsRequests` | queue.go:675-757 | for an external worker, once the drain channel is closed at most one more Worker.Request is ever made, and none unless the loop was past its last look at the drain |
| `QueueRelease.ReleaseCanReturn` | queue.go:212-222 | for an external worker, from every reachable state a ReleaseContext call made now can return without its context ending, whatever is in flight, with nil unless the worker's shutdown had failed |
| `QueueServe.ServesExactly` | queue.go:661-776 | from every reachable state of an in-memory queue all accepted tasks can still be given to wrappers and finish if and only if the ring is empty or the loop can take from it: it is not leaving, its last request does not lead out, and it runs or can be started |
| `QueueTermination.TerminationIsQuiet` | management_lifecycle.go:66-76 | from the snapshot on which management shuts the queue down, in every continuation no Worker.Request is outstanding or made, no wrapper starts, and every wrapper's job has ended |
| `QueueStrand.StrandsExactly` | queue.go:690-765 | once the in-memory loop can only leave, an accepted task can be stranded if and only if the ring holds one, a producer is past the stop check, or one was admitted and the ring is not stopped |
| `QueueStrand.CommittingStrandsExactly` | queue.go:721-724 | the same at the step that commits the loop to leaving (the request's drain check, the quit case, the close of the task channel), decided by the state just before it |
| `QueueStrandRuns.DrainCanStrand` | queue.go:181-204 | a run in which a producer admitted before the drain adds its task after the scheduler has left |
| `QueueStrandRuns.ReturnedTaskCanStrand` | queue.go:721-765 | a run in which CloseAdmission alone strands a task whose enqueue had returned nil before it was called |
| `QueueStrandRuns.ShutdownCanStrand` | queue.go:133-153 | a run in which Shutdown after CloseAdmission strands a task without any request having been made |
| `QueueDrainRun.DrainCanComplete` | queue.go:778-802 | a run in which a task accepted before CloseAdmission is handed out after it and succeeds, and ReleaseContext returns nil |
| `QueueStrand.StrandedNeverReleases` | queue.go:778-802 | from any reachable state with the scheduler gone and the ring not empty, no ReleaseContext returns nil in any continuation |
| `RingBuffer.Ring.constructor` | ring.go:208-222 | a new ring is the empty queue in two slots |
| `RingBuffer.Ring.Queue` | ring.go:90-113 | enqueue refines appending to a bounded sequence through every growth and wraparound; it is accepted if and only if the ring is not stopped and has no capacity or fewer items than that |
| `RingBuffer.Ring.Request` | ring.go:126-157 | dequeue refines taking the first element, with the empty and closed refusals and the exit signal, through every shrink and wraparound |
| `RingBuffer.Ring.Resize` | ring.go:184-203 | the live window survives either copying case and no slice goes out of range |
| `RingBuffer.Ring.Shrink` | ring.go:150-154 | after a dequeue the buffer again has two slots or is more than half full, and its length is a power of two |
| `RingBuffer.Ring.StopSection` | ring.go:72-87 | stopping closes the exit exactly when the buffer is empty |
| `RingBuffer.ResizeHolds` | ring.go:184-203 | any slice laid out by either copying case holds the same items in the same order from slot zero and nil elsewhere |
| `RoutineGroup.IdleForEver` | thread.go:40-86 | the channel a waiter captured is closed exactly once everybody of its generation has left, and stays closed while later generations come and go |
| `RoutineGroup.Routines.Run` | thread.go:40-52 | registering keeps the idle channel open exactly while something is active, and starts a new generation from idle |
| `RoutineGroup.Routines.Done` | thread.go:79-86 | leaving closes the idle channel exactly at zero, once |
| `Lifecycle.WorkerLifecycle.Transition` | management/lifecycle.go:324-366 | a transition is refused exactly when it would leave terminating; to active it returns nil at once, a pause after the first call of others that leaves no reservation, a drain or termination after the first that leaves neither reservation nor job, and only if there is none the context's end, with a deadline noted; what the object goes through is a run of the system the theorems below are about |
| `Lifecycle.SnapshotTells` | management/lifecycle.go:368-391 | when each worker state and each drain status is reported, and that the job count is the lifecycle's |
| `Lifecycle.TimedOutExactly` | management/lifecycle.go:324-366 | until the next transition a drain is reported as timed out exactly from the deadline of its own transition on |
| `Lifecycle.DrainIsQuiescent` | management/lifecycle.go:324-366 | after a drain or terminate transition returned nil nothing is admitted or running until a later transition to active, and after termination for ever |
| `Lifecycle.PauseHaltsAdmission` | management/lifecycle.go:324-366 | after a successful pause admissions stay zero and jobs only fall until a transition to active |
| `Lifecycle.TerminatingIsPermanent` | management/lifecycle.go:324-329 | terminating is never left and the reservations and jobs in it never grow |
| `Lifecycle.CompletedSnapshotIsFinal` | management/lifecycle.go:368-391 | a snapshot that says terminating and drained is true of every later state |
| `StreamIds.DecimalBeforeIsLess` | valkeystream/native_transport.go:45-52 | the scripts' decimal comparison is numeric order on digit strings of any length |
| `StreamIds.IsBeforeExactly` | valkeystream/native_transport.go:53-59 | on all parsed identifiers, exactly when isBefore is strict lexicographic order on (milliseconds, sequence) |
| `StreamIds.IsBeforeMisreadsLeadingZeros` | valkeystream/native_transport.go:53-59 | 01-1 precedes 1-2 by value and isBefore answers no |
| `StreamIds.IsBeforeOnIds` | valkeystream/native_transport.go:40-59 | on the texts of all canonical identifiers isBefore is the order of the identifiers |
| `StreamIds.ParseFormat` | valkeystream/native_transport.go:40-44 | parsing the text of an identifier gives back its two decimal parts |
| `StreamCommands.RetryFailureExactly` | valkeystream/native_transport.go:99-177 | a failure retry succeeds if and only if the record names an entry pending for the group and there is room or nobody else is owed that entry; it takes that one record and leaves every other record, the dead letters and the registry alone |
| `StreamCommands.RetryDeadExactly` | valkeystream/native_transport.go:142-177 | a dead-letter retry succeeds if and only if its lineage can be extended and there is room; it takes that one record and leaves the groups and everything else alone |
| `StreamCommands.ReplayExactly` | valkeystream/native_transport.go:180-242 | a replay succeeds if and only if its lineage can be extended, it was not replayed before or replacing is asked for, and there is room or the old copy makes some; it takes no record and leaves the groups alone |
| `StreamCommands.NextLineageExactly` | valkeystream/native_transport.go:142-165 | for records with any lineage fields: extended exactly if all three are there or none, the generation is a number below the limit and the original fits, with the original kept, this record as prior and the generation one more |
| `StreamCommands.ParseLineageExactly` | valkeystream/native_transport.go:767-814 | for entries with any lineage fields: which are read, and as what, and which are refused |
| `StreamRecords.RecordLeavesExactly` | valkeystream/native_transport.go:99-242 | at any point of any run a step removes a failure record or dead letter if and only if it is the record's own retry and succeeds, its deletion, a purge of its stream, or an append for which the newer records fill the retention limit |
| `StreamRecords.RecordStaysUntilTaken` | valkeystream/native_transport.go:99-242 | along any continuation without such a step the record is there, unchanged |
| `StreamScripts.Scripts.AcknowledgeScript` | valkeystream/native_transport.go:60-76 | the loop over groups releases the entry and deletes it exactly when no group is owed it; a lost lease changes nothing |
| `StreamScripts.Scripts.Deletable` | valkeystream/native_transport.go:120-141 | the retry script's loop answers whether nobody would be owed the source entry once this group released it |
| `StreamScripts.Scripts.RetryFailureScript` | valkeystream/native_transport.go:99-177 | retrying a failure record settles the source entry and adds one copy in one step, or changes nothing; when it succeeds, and that every other failure record stays |
| `StreamScripts.Scripts.RetryRecordScript` | valkeystream/native_transport.go:99-177 | the one script for both logs does what the two retries are specified to do; a refusal changes nothing, and a success adds one entry and takes that record and no other of either log |
| `StreamScripts.Scripts.ReplayScript` | valkeystream/native_transport.go:180-242 | the commands in place come to one atomic replay, and the registrations dropped are as many as exceed the bound and none newer than one that stays |
| `StreamScripts.Scripts.Evict` | valkeystream/native_transport.go:234-241 | the loop over the sorted set drops the same keys from hash and set, exactly the excess, oldest first |
| `StreamInvariants.PresentExactlyWhileOwed` | valkeystream/native_transport.go:39-243 | at every point of every run an entry ever added is in the source if and only if some group has it pending or has not been delivered past it, and no replacing replay deleted it |
| `StreamInvariants.WithinCapacity` | valkeystream/native_transport.go:35-38 | in every run the source is within its capacity until a replay replaced an entry, and within one more afterwards |
| `StreamInvariants.StepEffect` | valkeystream/native_transport.go:35-243 | every command does one of six things to the source, the pending sets and what was delivered |
| `StreamSource.RetryFailureKeeps` | valkeystream/native_transport.go:120-177 | admitting the copy against a length without the source entry keeps the source invariant, its length bound included |
| `StreamSource.RetryOverflowsExactly` | valkeystream/native_transport.go:166-175 | from within the capacity a failure retry stays within it if and only if it does not succeed on a full stream by subtracting an absent entry |
| `StreamReplacement.ReplacementOverflows` | valkeystream/native_transport.go:166-175 | a run, with room for one entry, after which the source holds two |
| `StreamSource.ClaimDropsReplaced` | valkeystream/native_transport.go:365-391 | a reclaim drops a pending entry exactly when a replacing replay deleted it |
| `StreamSource.ReplayKeepsExactly` | valkeystream/native_transport.go:214-230 | a successful replay keeps the source invariant if and only if it deletes nothing |
| `StreamReplacement.ReplacingReplayDeletesOwed` | valkeystream/native_transport.go:222 | a run from the start in which a replay with replacement deletes an entry a group is still owed |
| `StreamSource.ReplayWithinCapacity` | valkeystream/native_transport.go:216-229 | from within the capacity no single replay, replacing or not, exceeds it |
| `StreamSource.ReplayIsRemembered` | valkeystream/native_transport.go:214-241 | a replayed record is registered under its new identifier unless dropped, rejecting it a second time changes nothing, other registrations stay, and the registry never exceeds its bound |
| `StreamDepartures.LeavesExactlyOnce` | valkeystream/native_transport.go:121-175 | within a group a delivered entry is pending if and only if it never left, and it left at most once: by handler acknowledgement, dead-letter acknowledgement, failure retry or, only if a replay deleted it, a reclaim |
| `StreamDepartures.NothingIsSkipped` | valkeystream/native_transport.go:346-363 | a group's position passes no entry without delivering it, unless a replay deleted it |
| `StreamDepartures.LateSettlementIsRefused` | valkeystream/native_transport.go:60-123 | once an entry left, every acknowledgement is a lost lease and every retry of a record naming it is stale, without effect |
| `StreamConservation.NothingIsLost` | valkeystream/native_transport.go:427-508 | at every point of every run, for every admitted body and group: the source owes the group a copy, byte for byte, or a dead letter of that group holds it, or the group acknowledged it, or some step removed a dead letter (retention, an operator) or overwrote a copy (a replacing replay) and was the last that kept the body |
| `StreamLosses.KeptExactly` | valkeystream/worker.go:313-394 | from every point of every run a body is kept for a group (acknowledged, in its dead letter, or in an owed copy that no acknowledgement on its way takes) if and only if it is safe at the end of every continuation without such a last removal, crashes between any two commands and replacing replays included |
| `StreamRetention.NothingIsLostUnlimited` | valkeystream/worker.go:313-394 | without a retention limit and with nobody deleting dead letters or purging record streams: the source owes the group a copy, or a dead letter of the group holds it, or the group acknowledged it and its handler succeeded, in runs with crashes between any two commands and with replacing replays |
| `StreamOverwrite.ReplacementCanLose` | valkeystream/native_transport.go:214-230 | a run from the start: a dead letter is replayed and its stream purged, a second body is dead-lettered under the same identifier, and its replacing replay leaves the first body in no owed copy, in no dead letter and not acknowledged |
| `StreamConservation.BodiesAreUnchanged` | valkeystream/native_transport.go:330-344 | in every run every entry and every record holds the bytes admitted under its token, and no delivery is above the size at which decoding drops the body |
| `StreamConservation.AckedWasHandled` | valkeystream/worker.go:344-359 | a group acknowledges only what one of its handlers finished successfully |
| `StreamLineage.LineageTellsTheChain` | valkeystream/native_transport.go:767-814 | in every run an entry re-queued k times parses to generation k with the first dead-letter identifier as original and the last as prior |
| `StreamLineage.DeadRetryExtendsChain` | valkeystream/native_transport.go:142-165 | retrying a dead letter extends its chain by its own identifier, and at the largest 32-bit generation is refused without effect |
| `StreamLineage.LineageRoundTrip` | valkeystream/native_transport.go:495-503 | parsing the lineage of any chain and writing it again gives the same fields |
| `StreamLineage.NextLineageExtends` | valkeystream/native_transport.go:199-229 | the scripts' lineage arithmetic on text is extension of the chain, refused rather than wrapped at the limit |
| `StreamSettlement.Settlement.Ack` | valkeystream/worker.go:338-359 | the first settlement decides; later calls send nothing and repeat its result |
| `StreamSettlement.Settlement.NackFailure` | valkeystream/worker.go:360-391 | once only, exactly these commands: the failure record; then, if the failures seen give the delivery up, the dead letter; then the acknowledgement; each only after the one before succeeded, and the result is the first reply that was not a success |
| `StreamSettlement.RejectionAcksAfterDead` | valkeystream/native_transport.go:430-446 | a rejection acknowledges the source if and only if the failure is terminal and its dead letter was appended right before |
| `StreamSettlement.TerminalExactly` | valkeystream/worker.go:417-436 | for every error the dead-letter decision is the policy on the set of failures the walk sees: never with an infrastructure failure; else with a canceled one exactly when its least code is configured and the attempts are used up; else always with a malformed or permanent one; else exactly when the attempts are used up |
| `StreamSettlement.TerminalIsPolicy` | valkeystream/worker.go:417-436 | up to 64 nodes that is the policy on all failures in the tree |
| `StreamSettlement.TerminalSurvivesExactly` | valkeystream/worker.go:417-436 | for every error, deciding on the queue's normal form gives the decision for the error itself under every policy if and only if it is not canceled or its code stays, with when it stays read off the two codes and the first 63 nodes |
| `StreamSettlement.TerminalSurvivesNormalForm` | valkeystream/worker.go:417-436 | in particular for every error of fewer than 64 nodes and every error without a context error inside |
| `StreamSettlement.TerminalCanChangeBeyondLimit` | valkeystream/worker.go:430-433 | a concrete canceled error of more than 64 nodes whose normal form is decided differently |
| `StreamSettlement.SettlementFailureIsNotTerminal` | queue.go:363-396 | the error of a failed settlement is never terminal, whatever the handler reported |
| `Classifier.ResolveFailure` | management/classification.go:98-146 | the bounded stack loop computes the fold over the first 64 nodes of the visit order |
| `Classifier.CombineIsJoin` | management/classification.go:133-139 | the update rule is idempotent, commutative and associative with the initial resolution as unit |
| `Classifier.ResolveIsBest` | management/classification.go:92-146 | up to 64 nodes the result is the highest classification found anywhere in the tree and its least non-empty code |
| `Classifier.ResolvePrecedence` | management/classification.go:92-95 | up to 64 nodes: infrastructure if any node is, else canceled, else malformed, else permanent, else retryable, with the least non-empty code among the nodes of that classification |
| `Classifier.ResolveIsBestOfVisited` | management/classification.go:92-146 | for every tree the same holds over the nodes visited |
| `Classifier.SameFailuresSameResolution` | management/classification.go:92-146 | up to 64 nodes only the set of failures matters, not the shape of the tree |
| `Classifier.JoinOrderIsIrrelevant` | management/classification.go:92-146 | up to 64 nodes reordering joined errors changes nothing |
| `Classifier.LoneErrors` | management/classification.go:98-146 | a deadline error by itself resolves to canceled with deadline_exceeded, a cancellation to canceled with context_canceled, any other leaf to retryable without a code |
| `Classifier.LoneFailure` | management/classification.go:98-146 | a failure by itself resolves to what it says if its classification is known and its code usable, and is ignored otherwise |
| `Classifier.OrderMattersBeyondLimit` | management/classification.go:95-96 | beyond 64 nodes the same failure wins or is missed depending on its place |
| `QueueWork.NormalizeKeepsClassification` | queue.go:522-539 | for errors of any size the normal form keeps the error as its cause and its classification; it has the handler codes of the two context errors, deadline first, and keeps the code when neither is inside |
| `QueueWork.NormalizeKeepsCanceled` | queue.go:522-539 | a canceled error of fewer than 64 nodes keeps its code too, although the normal form overrides it |
| `QueueWork.SettledClassification` | queue.go:363-396 | a failed acknowledgement or rejection is infrastructure however large the handler's error; a successful one leaves the classification alone |
| `QueueWork.Delivery.Settle` | queue.go:363-396 | at most one settlement call, Ack exactly on success, and what the caller gets for every reply |
| `QueueWork.Attempt` | queue.go:447-498 | at most RetryCount + 1 runs, every run but the last failed retryably and waited its delay out, the last one is the first that must be, and what it returns |
| `QueueWork.RunTask` | queue.go:409-425 | a refused validation or unknown type runs nothing; otherwise the outcome is the last attempt's or the deadline |
| `QueueWork.Work` | queue.go:310-352 | a task needing acknowledgement is settled exactly once, and acknowledged if and only if the handler was run, ended in time and some attempt returned nil after retryable failures only; a panic is rejected as permanent; the wrapper moves from active to success or failure |
| `QueueWork.EndedContextIsCanceled` | queue.go:427-498 | a task whose time ran out, or whose delay was cut short, ends canceled with the context's code; otherwise the outcome is the last run's |
| `QueueWork.RefusedTaskFails` | queue.go:409-425 | a task of unknown type or refused by its validator fails, with an unclassified error or the validator's own |
| `QueueWork.OutcomeIsSuccess` | queue.go:409-520 | running a task comes to nil if and only if it is valid, in time, and some attempt returns nil after retryable failures and full delays only |
| `Reconciler.Applier.ApplyDesiredState` | management/lifecycle.go:168-206 | for every record and every way its wait can end: which of applied, context ended, regression and conflict it is, and the whole new state; a revision is recorded exactly when applied, refusals change nothing, terminating is never left |
| `Reconciler.DesiredStateReconciler.Reconcile` | management/desired.go:143-177 | targets before the failing one stand where their reading puts them, the failing and later ones are untouched, revisions only rise, the applied map keeps mirroring the lifecycle's records, and a pass over unchanged input applies nothing |
| `Reconciler.DesiredStateReconciler.ReconcileTarget` | management/desired.go:149-174 | one target succeeds exactly when it then stands where its reading puts it; when each refusal is given and when the applier is called; an application that succeeds strictly raises its revision |
| `Reconciler.NewReconciler` | management/desired.go:114-138 | a reconciler is made if and only if the targets are between 1 and 256, supported and pairwise distinct |
| `ServiceAdapter.ShutdownIsLast` | adapters/service/queueservice.go:470-618 | from the start of the shutdown callback on, in every interleaving, no startup, publish, handler, run or readiness callback is in progress or begins, and shutdown is not called again |
| `ServiceAdapter.ClosedOnce` | adapters/service/queueservice.go:825-1021 | shutdown is called at most once, no drained, startup attempt or shutdown attempt channel is closed twice, and the in-flight count is exact |
| `ServiceAdapter.StopReturnsAfterShutdown` | adapters/service/queueservice.go:561-618 | a stop that returned without giving up leaves nothing in progress, and the shutdown callback, if there is one, was called and has returned; so for a failed startup that returned |
| `ServiceAdapter.ShutdownIsAsked` | adapters/service/queueservice.go:502-618 | shutdown is called only if there is such a callback, by a stop that saw everything drained or, after a failed startup, by its cleanup |
| `ServiceStops.StopCanReturn` | adapters/service/queueservice.go:561-618 | from every reachable state every stop that did not give up, and every cleanup, can still return without giving up |
| `ServiceStops.UseCanBegin` | adapters/service/queueservice.go:502-559 | from every reachable state in which nobody stops and no startup has failed, a start can succeed and a use begin |
| `ServiceStops.ClosedForGood` | adapters/service/queueservice.go:470-500 | once admission was closed, a stop was called, or the run callback's return was marked, no startup, publish, handler, readiness or run callback ever begins |
| `ServiceAdapter.AdmissionBeforeShutdown` | adapters/service/queueservice.go:951-994 | unless startup failed, the admission callback has completed before the shutdown callback begins |
| `ServiceAdapter.AdmissionOverlapsExactly` | adapters/service/queueservice.go:825-994 | from any reachable state of a worker some continuation has admission and shutdown callback in progress together if and only if admission has not completed, shutdown has not begun or is in progress, and a startup failed or still can |
| `ServiceAdapter.AdmissionCanOverlapShutdown` | adapters/service/queueservice.go:847-866 | a concrete run in which, after a failed startup, the admission callback runs during shutdown |

## Left out

- Work: one wrapper at a time; the counters under all interleavings are in `WorkIsAccountedFor`.
- Reconcile: the applier is the lifecycle's revision record; the counters it waits on are in `Lifecycle`, and the two meet only through how waiting ends.
- Transition: the waiting loop wakes after every counter call of others; the theorems about runs allow any number between two passes.
- A worker adapter without an admission callback, which the source allows.
- Liveness under fairness: that a drain, a stop or the serving of a task can end is proved, not that it must.
- Prompt wake-ups: a waiting request may always go on by its timer, so the notifications that wake it earlier change nothing here.
- Time, timers, contexts, backoff and jitter: a timeout or a cancellation is a step that can happen at any moment, or a parameter.
- Handlers, workers, readers and backends outside the repository: their outcomes are parameters.
- Network clients, reconnects and lost responses other than as a process that stops before or after a command took effect.
- Stream reads deliver everything up to an identifier; COUNT limits, idle times and delivery attempt counts are not modelled.
- Creating and removing consumer groups during a run: the set of groups is fixed, as the claims require.
- Retrying into a stream other than the source: the only caller passes the source.
- Runs let a replay drop any registrations of the right number; that the script drops the oldest is proved of the script.
- Time does not order identifiers of different streams, and a purged record stream may hand out old identifiers again.
- Lua's tonumber beyond digit strings, and Unicode spaces above U+00A0.
- Lifecycle counters are unbounded; that admissions stay at most three in a queue is proved.
- Lifecycle commands and their result cache (Execute, commandEntry), worker status decoration and capability lists.
- A nil pointer of type Failure inside an error, and panics of Unwrap or Is methods written by callers.
- The nil checks of the reconciler's reader and applier.
- The second stream adapter, the HTTP management transport, record listing and search, job encoding, options, metrics text, logging and observers.
