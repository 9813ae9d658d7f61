# NATSail delivery, modelled and proved in Dafny

NATSail delivers NATS messages to browser and server applications. Its hard logic is a handful of small state
machines whose state has to stay consistent across restarts, lag and concurrency. This project models them and proves
what they keep, over every run.

How the model is laid out:

* **State and steps.** Every component has a datatype for its state, a function for each step, and a `Run` over any
  sequence of steps. A promise continuation, a timer that fires, a message that is read: each is one step, and the
  order of steps is arbitrary. Fields such as `history`, `sent`, `accepted`, `handed` and `seen` record what happened.
* **Objects.** Where the source updates fields in place, a class does so too. Its methods are proved to change the
  object exactly as the step function says, and the lemmas about the step functions then apply to it.
* **Theorems.** An invariant is proved for each step and then for every run. Where a promise is false as stated, there
  is a concrete run that breaks it and a theorem that says exactly when it holds.

What each file is about:

| files | subject |
|---|---|
| `Batching`, `BatchPromises`, `BatchCuts`, `BatchCoordinator` | the bounded batch coordinator of the core package |
| `PolicyBuffer`, `Materializer`, `PolicyAgreement` | the RxJS and Effect forms of the same batch policy |
| `Intake`, `IntakeProgress`, `IntakeExactness`, `IntakeRefusals`, `IntakeContainment`, `OrderedConsumer` | one attempt of the batched JetStream consumer: intake loop, commit chain, barriers |
| `Replay`, `ReplayExactness`, `ReplayCatchUp`, `ReplayLoss`, `Hydration` | the reducing session across any number of attempts |
| `Checkpointing`, `CheckpointSafety`, `CheckpointStore` | the unbatched consumer, its coalescing checkpoint writer, and the store |
| `Broker`, `BrokerInvariants`, `BrokerPromises`, `BrokerCommands`, `BrokerFirstValue`, `BrokerIsolation`, `BrokerWorker` | the worker end of the browser broker |
| `BrokerClient`, `BrokerClientSafety`, `BrokerClientRuns`, `BrokerClientResume`, `BrokerClientProgress`, `BrokerTab` | a tab's lease, composed with its worker end over reconnects |
| `ProcessorConfig`, `ProcessorReconcile`, `ProcessorInForce`, `ProcessorController`, `ProcessorRecreation` | reconciliation of a managed consumer, and the server's side of recreating it |
| `Coalescing` | coalescing of reduced states in RxJS and Effect |
| `Sessions`, `SessionRegistry` | shared sessions, their generations, and the registry that owns them |
| `RuntimeEvents` | the bounded runtime event stream |

Findings, each with its proof:

* A reducer that throws never has its own batch applied, but a batch already cut behind it can be. That happens under
  every policy except those that cut at each item, and those without a timer whose byte limit is absent or one
  (`IntakeContainment.ContainmentIffPolicy`). Such an attempt is the session's last, so no later one builds on it
  (`ReplayExactness.CondemnedIsLast`).
* A retained delivery can be lost. One whose size is refused is rejected at once, but its failed commit is recorded
  only when its turn in the commit chain comes; if a timer has cut what follows it, a transport failure hides the
  rejection, and the next attempt starts behind it. Over all runs and sizes that happens exactly under policies with a
  byte limit, a timer, and room for more than one delivery (`ReplayLoss.LossIffPolicy`). With room for three it needs
  no unusual scheduler (`ReplayLoss.LossBehindTimer`); with room for two the run shown needs one whose timer fires
  ahead of a promise continuation. Under every other policy, and under every policy when all sizes are admissible,
  each retained delivery is reduced exactly once (`ReplayExactness.ExactlyOnce`).
* Hydration restores the catch-up cursor, and so shows a cursor behind the state when a live batch was reduced first
  (`Hydration.HydrationCursor`); every policy has such a run (`Hydration.HydrationLags`).
* A dropped duplicate that ends the replay can declare the catch-up complete without saving what is pending. Every
  catch-up finds everything saved exactly if duplicates are not dropped or every record is saved at once
  (`CheckpointSafety.CaughtUpIffSaved`).
* The Effect materializer shows no state for a live group whose last delivery fills its batch. Under a count limit
  alone, a live group is shown exactly if its length is no multiple of the limit, so a burst of exactly `batchSize`
  deliveries stays unseen until a later group (`Materializer.FullGroupUnshown`); with batches of one no live delivery
  is ever shown (`Materializer.SinglesUnshown`).
* A controller that recreated a consumer keeps that start after the consumer is deleted. What it creates next is
  recreated by the call after (`ProcessorReconcile.CreatedConverges`, `ProcessorReconcile.StaleStartExample`).
* A new controller recreates a recreated consumer once more unless it asks for new messages, or for the very boundary
  that the consumer as found implied (`ProcessorReconcile.NewControllerConverges`,
  `ProcessorReconcile.NewControllerExample`).
* Recreating a consumer that was created for the last message, or from a time, and has no acknowledgement floor starts it
  at the first message of the stream (`ProcessorRecreation.BroughtBackIff`).
* When its source fails, the Effect coalescer still emits the pending state and the RxJS one drops it
  (`Coalescing.EffectCoalescing`).
* The value that a session already holds when a tab opens its source reaches the log but never that tab, because the
  tab joins behind it (`BrokerFirstValue.OpeningTabExact`, `BrokerFirstValue.FirstValueIff`).

## Model

| member | source | states |
|---|---|---|
| Batching.RunInv | packages/core/src/index.ts:438-565 | over every run of adds, timer firings, flushes, completion, cancellation, barriers and chain work: accepted values are the cut batches followed by the buffer, in order; batches leave the chain in the order cut; each is non-empty and within both bounds; the timer runs exactly while a timed buffer is non-empty |
| Batching.FailedBarrierBlocks | packages/core/src/index.ts:468-553 | once the commit behind a barrier has failed, no later batch is applied, whatever happens |
| Batching.FailedCommitBlocks | packages/core/src/index.ts:545-553 | from the moment when a commit that the chain waits for fails, over every run, no batch is applied; one that succeeds only leaves the chain |
| BatchCuts.CutsJustified | packages/core/src/index.ts:468-536 | over every run, each batch handed to the application carries the reason for its cut, read off its entries: exactly `maxItems` of them; exactly `maxBytes` bytes, or a next value that would exceed them; a timer. Nothing is cut while the next value fits, and the buffer stays below both bounds |
| BatchCuts.AddAccepts | packages/core/src/index.ts:503-538 | exactly a value whose measured size is valid and within `maxBytes` is stored, under that size; any other is rejected and nothing else changes |
| BatchCuts.WholeBufferCut | packages/core/src/index.ts:493-543 | a timer, a flush and the completion hand over the whole buffer, under their own reason |
| BatchCuts.CancelDrops | packages/core/src/index.ts:555-563 | a cancel drops and rejects exactly what is buffered and interrupts nothing that was cut |
| BatchCuts.ClosedOnRequest | packages/core/src/index.ts:503-563 | over every run: only a cancel cancels, only the completion completes, and only a failed commit blocks the chain |
| BatchPromises.SettledOnce | packages/core/src/index.ts:502-563 | no promise returned by `add` is settled twice; after completion or cancellation, with the chain empty, every one is settled |
| BatchPromises.ResolvedMeansApplied | packages/core/src/index.ts:474-489 | a promise is resolved exactly when the batch that carries its value was applied |
| BatchCoordinator.Batcher.Add | packages/core/src/index.ts:502-538 | a refused value is rejected and nothing stored; any other goes into the buffer after a byte cut if it does not fit, and fills or arms it |
| BatchCoordinator.Batcher.DrainPending | packages/core/src/index.ts:468-492 | moves the whole buffer behind the chain and stops the timer, unless it is empty or cancelled |
| BatchCoordinator.Batcher.RunHead | packages/core/src/index.ts:474-553 | the head of the chain finishes: a barrier remembers its failure, a batch is applied only if none has failed, and its promises are settled accordingly |
| BatchCoordinator.Batcher.Cancel | packages/core/src/index.ts:555-563 | drops and rejects what is buffered, once |
| PolicyBuffer.SameBatches | packages/rxjs/src/index.ts:36-98 | for every trace of valid adds, timer firings and flushes, the buffer hands on exactly the batches the core coordinator cuts, and so does its final flush |
| PolicyBuffer.EndsEarlyIff | packages/rxjs/src/index.ts:57-97 | a value ends the stream early exactly if its size is invalid or the subscriber leaves during the cut that makes room for it; nothing is then stored or timed, and nothing handed on but by that cut |
| PolicyBuffer.FlushEmpties | packages/rxjs/src/index.ts:44-88 | a flush, or a timer, hands on what is stored, if anything is, and leaves no timer |
| PolicyBuffer.Operator.Next | packages/rxjs/src/index.ts:59-89 | adds a value in place; a bad size ends the stream and drops the buffer; a subscriber that leaves during the cut gets nothing more |
| PolicyAgreement.SameCalls | packages/effect/src/index.ts:747-776 | within a group of valid deliveries the reducer is called with exactly the batches that the core coordinator cuts |
| Materializer.GroupingIndependent | packages/effect/src/index.ts:695-798 | however the stream is grouped: it fails exactly when some delivery's size is invalid; otherwise data, cursor, phase and replay count are those of the stream read event by event, the reducer gets every delivery once, in order, in non-empty calls within both bounds, and the snapshots are the meanings of the stream at positions that depend on sizes and groups alone |
| Materializer.FailureShowsNothing | packages/effect/src/index.ts:747-796 | a stream that fails on a size shows what the groups before the failing one have shown, and nothing of that one |
| Materializer.ShownOnce | packages/effect/src/index.ts:779-786 | whatever the groups: the snapshots show the stream at strictly increasing positions, none before a caught-up event, and one right after each |
| Materializer.EndShownIff | packages/effect/src/index.ts:784-786 | a group's last event and its end add one snapshot, of the state after the group, exactly if the stream has caught up and the group ends with a caught-up event or with a batch that is still filling; otherwise none |
| Materializer.FullGroupUnshown | packages/effect/src/index.ts:770-786 | with a count limit alone, a live group of deliveries adds one snapshot, of the state after it, exactly if its length is no multiple of the limit, and none otherwise |
| Materializer.SinglesUnshown | packages/effect/src/index.ts:770-786 | with batches of one delivery, the snapshots are exactly those of the caught-up events |
| Materializer.GroupReducer.Process | packages/effect/src/index.ts:711-796 | the loop over one group, reducing and taking snapshots in place |
| Intake.StepPaced | packages/jetstream/src/index.ts:1014-1040 | backpressure: at each pull at most one batch is unfinished and then the buffer is empty, and never more than two are outstanding |
| IntakeProgress.NeverStuck | packages/jetstream/src/index.ts:1014-1048 | over every run a suspended intake loop can go on: the batch chain never waits for itself through a barrier |
| IntakeProgress.RankDecreases | packages/jetstream/src/index.ts:1014-1073 | every step but a pull, timers and failures included, brings the attempt closer to rest |
| IntakeProgress.ComesToRest | packages/jetstream/src/index.ts:1014-1073 | an attempt that pulls no more takes at most a stated number of steps, whichever they are |
| IntakeExactness.ResolvedIffApplied | packages/jetstream/src/index.ts:996-1022 | while the applied deliveries are a prefix, a delivery's promise is resolved exactly when it was applied, so a commit follows its application |
| IntakeExactness.CommitsStopAtHead | packages/jetstream/src/index.ts:1014-1022 | no commit passes the first delivery of the batch that is next in the chain |
| IntakeExactness.TurnPrefix | packages/jetstream/src/index.ts:1014-1073 | every step, with deliveries of any size, keeps: what was applied is a prefix of what was accepted, or the attempt has failed in the application |
| IntakeRefusals.TurnRefusals | packages/jetstream/src/index.ts:996-1040 | every step under a policy whose cuts are made by pulls, or with admissible sizes, keeps: a refused delivery's promise is rejected, its commit, once run, has failed the attempt, and where something was cut behind one, the loop waits for the commit of a refused delivery |
| IntakeRefusals.CondemnedForGood | packages/jetstream/src/index.ts:1014-1073 | a reachable attempt that still waits with a failure recorded, already unwinds because of one, or waits for the commit of a rejected delivery, stays condemned over any further turns, and never closes as a transport failure |
| IntakeContainment.ContainmentIffPolicy | packages/jetstream/src/index.ts:1014-1040 | a failing reducer leaves a prefix applied in every run exactly when the policy cuts at each item, or has no timer and a byte limit that is absent or one |
| ReplayLoss.OversizeIsLost | packages/jetstream/src/index.ts:1014-1073 | under every policy with a byte limit, a timer and room for two: one attempt, a refused delivery and one behind it, that closes for a retry with its commits past both |
| ReplayLoss.LossHappens | packages/jetstream/src/index.ts:2007-2394 | under each such policy, a run of the session after which the next attempt starts behind a retained delivery that was never reduced |
| ReplayLoss.LossIffPolicy | packages/jetstream/src/index.ts:2007-2394 | over all runs with deliveries of any size: some run loses a retained delivery exactly when the policy has a byte limit, a timer, and room for more than one delivery |
| ReplayLoss.LossBehindTimer | packages/jetstream/src/index.ts:1014-1073 | with room for three deliveries the same loss in an attempt whose timer fires only when nothing else can go on |
| OrderedConsumer.Subscription.Deliver | packages/jetstream/src/index.ts:926-1040 | one iteration of the intake loop in place, up to where it suspends |
| OrderedConsumer.Subscription.Continue | packages/jetstream/src/index.ts:1023-1056 | the loop after the promise it awaited: a recorded failure unwinds it, a flush is followed by its barrier |
| OrderedConsumer.ReducingSource.Apply | packages/jetstream/src/index.ts:2354-2366 | a batch is folded into state, cursor and count together |
| OrderedConsumer.ReducingSource.Hydrate | packages/jetstream/src/index.ts:2425-2431 | hydration overwrites the shown cursor and the replay count and leaves the state alone |
| ReplayExactness.ExactlyOnce | packages/jetstream/src/index.ts:2007-2394 | over every run of publications, attempts, timer firings and failures, with admissible sizes or under a policy that cannot lose deliveries: unless the attempt under way is condemned, the state is the fold of the retained deliveries up to its cursor; at each reopening the saved checkpoint is that cursor and the attempt starts right behind it |
| ReplayExactness.CondemnedIsLast | packages/jetstream/src/index.ts:2007-2078 | over every run, with deliveries of any size: once an attempt is condemned, the session stays with it or has ended, and never opens another |
| ReplayExactness.EndedForGood | packages/jetstream/src/index.ts:2007-2078 | after whatever run, a session that has ended has no attempt under way, and never reduces or saves again |
| ReplayExactness.ClosesAs | packages/jetstream/src/index.ts:2007-2078 | an attempt that closed after a transport failure can be followed by another; any other close ends the session |
| ReplayCatchUp.NeverCaughtUpEarly | packages/jetstream/src/index.ts:1101-1112 | over every run, whatever fails: only an opening with nothing to replay, or a commit no earlier than the last delivery retained when its attempt opened, declares the session caught up |
| ReplayCatchUp.CaughtUpWhenReplayed | packages/jetstream/src/index.ts:1101-1112 | with admissible sizes, or a policy that cannot lose deliveries: catch-up is declared exactly at the end of the initial replay, with all of it reduced, and its result names the last of it |
| ReplayCatchUp.RemainingCounts | packages/jetstream/src/index.ts:1101-1112 | until then what is left of the replay is its end less what was saved, and more than nothing |
| ReplayCatchUp.CaughtUpOnce | packages/jetstream/src/index.ts:1114-1123 | the catch-up result never changes once declared |
| ReplayExactness.TransportFailuresHarmless | packages/jetstream/src/index.ts:2007-2078 | with a reducer that succeeds, any number of transport failures leaves the state the fold of a prefix at every moment, and the session never ends |
| ReplayExactness.IdleMeansComplete | packages/jetstream/src/index.ts:926-1048 | an idle loop at the end of the stream has reduced everything retained |
| Hydration.HydrationCursor | packages/jetstream/src/index.ts:2425-2431 | the shown cursor is that of the state exactly when the catch-up result has no cursor, or counts every delivery reduced so far |
| Hydration.HydrationLags | packages/jetstream/src/index.ts:2425-2431 | under every valid policy, a run in which every reduction succeeds and no attempt is repeated, after which hydration shows the first delivery's cursor over a state that holds the second |
| Checkpointing.MemoryStore.Save | packages/checkpoints/src/index.ts:81-112 | an invalid, foreign or older checkpoint is refused and changes nothing; an accepted one replaces its own key only |
| Checkpointing.NeverRefused | packages/checkpoints/src/index.ts:81-97 | the writer's next save is never refused by the store |
| CheckpointStore.AcceptedIff | packages/checkpoints/src/index.ts:76-97 | a save is accepted exactly if it is well formed, of the stored scope if there is one, and no older within its stream and epoch; each error has its cause |
| CheckpointStore.NeverBack | packages/checkpoints/src/index.ts:81-112 | over any sequence of saves: a stored scope is never replaced, and within one stream and epoch the stored sequence never goes back |
| CheckpointStore.NewestStored | packages/checkpoints/src/index.ts:81-112 | within one stream, epoch and scope, no well-formed save is newer than what is stored |
| CheckpointSafety.CheckpointSafe | packages/jetstream/src/index.ts:679-1013 | in every reachable state: every delivery that arrived as new, up to the saved checkpoint, has been handled; saves go strictly forward; no save follows a failed one |
| CheckpointSafety.UnsavedBounded | packages/jetstream/src/index.ts:692-709 | with only `maxItems` set, at most that many handled deliveries are unsaved at any time |
| CheckpointSafety.CaughtUpIffSaved | packages/jetstream/src/index.ts:936-1012 | in every run the replay is declared complete only with everything handled saved, exactly if duplicates are not dropped or every record is saved at once |
| CheckpointSafety.DroppedDuplicateEndsReplay | packages/jetstream/src/index.ts:936-944 | for every coalescing that holds a first record back, a run that drops a duplicate and completes with one delivery unsaved |
| CheckpointSafety.StoppedSaved | packages/jetstream/src/index.ts:1048-1070 | however a subscription stops, closed or failed, at whatever point of a run: unless a save failed, everything handled is in the store |
| CheckpointSafety.StoppedForGood | packages/jetstream/src/index.ts:1048-1090 | a loop that has stopped handles, counts and saves nothing more, whatever happens |
| CheckpointSafety.WaitingGoesOn | packages/jetstream/src/index.ts:692-731 | a loop that waits goes on as soon as its saves are through, to the next message, the end of the replay, its close or its error |
| CheckpointSafety.ReadingLeadsTo | packages/jetstream/src/index.ts:936-966 | what each delivery leads to under each duplicate policy, and an iterator that ends or throws |
| CheckpointSafety.EndMayFail | packages/jetstream/src/index.ts:1057-1063 | an error that the iterator reports after the last saves turns a close into a failure |
| CheckpointSafety.TimerSaves | packages/jetstream/src/index.ts:703-731 | when the timer fires, what was pending is on its way to the store |
| CheckpointSafety.CheckpointWriter.RecordCheckpoint | packages/jetstream/src/index.ts:692-709 | refuses after a failure, replaces the pending checkpoint, and flushes or arms the timer |
| CheckpointSafety.CheckpointWriter.RunSave | packages/jetstream/src/index.ts:716-731 | one queued save against the store; after a failure the rest are skipped |
| BrokerInvariants.RunInv | packages/browser-broker/src/worker.ts:591-734 | in every reachable worker: logs are suffixes within both retention bounds, every subscription is exact and bounded, names are distinct, no tab is over its limits |
| BrokerInvariants.ExecuteInv | packages/browser-broker/src/worker.ts:448-734 | every emission, attachment, acknowledgement, detachment and teardown keeps all of that |
| BrokerPromises.EveryTabExact | packages/browser-broker/src/worker.ts:591-719 | what a tab was sent, followed by its queue, is exactly the consecutive emissions since its start, in batches within both limits; at most one is in flight, under the last identifier; a tab that must resume was sent a prefix |
| BrokerPromises.TabsAndLogsBounded | packages/browser-broker/src/worker.ts:591-658 | pending and in-flight items and bytes, summed over a tab's subscriptions, stay within its limits; each log is the end of its history within both bounds |
| BrokerPromises.LaggedStaysSilent | packages/browser-broker/src/worker.ts:634-677 | over any later commands but its own detach, what was sent stays sent, and a subscription that must resume never changes again |
| BrokerPromises.ReattachIff | packages/browser-broker/src/worker.ts:612-648 | a reattached tab keeps receiving exactly when its position is retained and it has room for all that follows, and is then owed precisely that |
| BrokerPromises.ReattachSince | packages/browser-broker/src/worker.ts:612-632 | with unique cursors: reattaching at an emission gives exactly the emissions after it, or, when it was trimmed or the tab has no room, a demand to resume |
| BrokerCommands.ReattachWhole | packages/browser-broker/src/worker.ts:612-648 | a tab that reattaches without a position is owed everything emitted, unless some of it was trimmed or the tab has no room for all |
| BrokerPromises.AcknowledgedOnce | packages/browser-broker/src/worker.ts:721-734 | an accepted acknowledgement, repeated, is refused |
| BrokerCommands.AckAcceptedIff | packages/browser-broker/src/worker.ts:721-755 | an acknowledgement is accepted exactly if it names the batch in flight and its cursor, and each refusal has its cause |
| BrokerCommands.AckPostsNext | packages/browser-broker/src/worker.ts:670-734 | an accepted acknowledgement posts the next batch, if anything is queued, from the front of the queue and under the next identifier, and touches no other subscription |
| BrokerCommands.DetachExact | packages/browser-broker/src/worker.ts:757-766 | an accepted detach removes that subscription and no other, the tab's load falls by exactly what it had outstanding, and its name can be attached again |
| BrokerCommands.TearDownExact | packages/browser-broker/src/worker.ts:768-795 | a teardown closes its source exactly if nobody is attached to it, and changes nothing else |
| BrokerCommands.AttachAcceptedIff | packages/browser-broker/src/worker.ts:448-476 | an attachment is accepted exactly for a new name, and a source that is new or open under the same contract |
| BrokerCommands.ContractKept | packages/browser-broker/src/worker.ts:448-476 | over any later run, as long as a tab is attached its source stays open under the contract it was attached with |
| BrokerCommands.RefusalsChangeNothing | packages/browser-broker/src/worker.ts:448-755 | a refused command changes nothing |
| BrokerCommands.LongestBatch | packages/browser-broker/src/worker.ts:670-719 | a batch takes at least one entry, and stops only at the end of the queue, at the item limit, or before an excess of bytes |
| BrokerCommands.AppendKeepsMost | packages/browser-broker/src/worker.ts:591-608 | what is retained after an emission is the longest end of the log within both bounds |
| BrokerFirstValue.OpeningAttach | packages/browser-broker/src/worker.ts:448-510 | an attachment that opens its source joins behind the value the session already holds, with nothing sent or queued |
| BrokerFirstValue.OpeningTabExact | packages/browser-broker/src/worker.ts:448-580 | over any later run until it detaches, a tab that opened its source is owed the emissions from its start on, and the value already held is the emission before that start |
| BrokerFirstValue.FirstValueIff | packages/browser-broker/src/worker.ts:448-580 | the source's first emission, unless it is emitted again, is in no run among the entries sent to the tab that opened the source, exactly when the session already held a value |
| BrokerIsolation.OtherTabsContinue | packages/browser-broker/src/worker.ts:634-734 | over every run a tab's queues and batches are what they would be had no other tab acknowledged anything |
| BrokerWorker.HostSubscription.Flush | packages/browser-broker/src/worker.ts:670-719 | posts the longest front of the queue within both batch limits, under the next identifier, when none is in flight |
| BrokerWorker.HostSubscription.Enqueue | packages/browser-broker/src/worker.ts:634-648 | queues an entry that fits the batch and the tab, or ends the subscription |
| BrokerWorker.HostSubscription.Acknowledge | packages/browser-broker/src/worker.ts:721-734 | accepts only the batch in flight with its cursor, and posts the next; a refusal changes nothing |
| BrokerWorker.PhysicalSource.Append | packages/browser-broker/src/worker.ts:591-608 | appends to the log and shifts from its front until both bounds hold |
| BrokerWorker.Worker.ClientUsage | packages/browser-broker/src/worker.ts:650-658 | sums queued and in-flight items and bytes over one tab's subscriptions |
| BrokerWorker.Worker.Deliver | packages/browser-broker/src/worker.ts:591-610 | appends a delivery and offers it to each subscription of its source in turn |
| BrokerWorker.Worker.EnqueueRetained | packages/browser-broker/src/worker.ts:612-632 | fills a reattached queue from the log after the cursor, or demands a resume |
| BrokerClientRuns.GapFreeDelivery | packages/browser-broker/src/client.ts:148-421 | over every run with reconnects: the handler gets what was emitted, each item at most one position past the furthest so far, so every position from the first attachment to the furthest was handed over |
| BrokerClientRuns.NeverRefused | packages/browser-broker/src/client.ts:406-421 | a live lease never reads a refusal of its acknowledgement: a demand to resume always reaches it first |
| BrokerClientRuns.AcknowledgesCurrent | packages/browser-broker/src/client.ts:148-421 | an acknowledgement on the line names the batch in flight in this generation, with its cursor, unless the worker has given up on the tab |
| BrokerClientRuns.QuietMeansComplete | packages/browser-broker/src/client.ts:148-198 | a live lease with nothing on its way was given everything emitted since it first attached |
| BrokerClientResume.CompletedForGood | packages/browser-broker/src/client.ts:148-169 | over every run with cursors: once a batch has been accepted to its end, nothing up to its end is ever handed over again |
| BrokerClientResume.ResumesBehindCompleted | packages/browser-broker/src/client.ts:360-385 | over every run with cursors: a new connection asks for what follows the last completed batch and is owed exactly that; it is told to resume only if that position was trimmed or the tab has no room for all that followed |
| BrokerClientProgress.ComesToRest | packages/browser-broker/src/client.ts:148-198 | a lease whose source is silent takes at most a stated number of steps, in whatever order |
| BrokerClientProgress.EverythingArrives | packages/browser-broker/src/client.ts:148-198 | from every reachable state, with a handler that accepts, the lease can go on until it was given everything emitted since it first attached, unless it is ended on the way |
| BrokerClientProgress.StartsFromNow | packages/browser-broker/src/client.ts:362-385 | a new lease is given what is emitted after the worker has read its request, and nothing from before |
| BrokerClientProgress.EndsAre | packages/browser-broker/src/client.ts:148-198 | a lease fails by a rejected item of its connection, a refused acknowledgement or a failed command, and is told to resume by that message alone |
| BrokerClientProgress.EndedStays | packages/browser-broker/src/client.ts:148-198 | a lease that has ended hands over and completes nothing, and asks for nothing on a new connection |
| BrokerClientProgress.StaleItemDropped | packages/browser-broker/src/client.ts:148-169 | an item of an older connection, accepted or rejected late, has no effect |
| BrokerTab.ClientLease.HandlerResolved | packages/browser-broker/src/client.ts:148-169 | the next item is handed over, or the batch completes and moves the cursor; in a stale generation neither happens |
| BrokerTab.ClientLease.PortChanged | packages/browser-broker/src/client.ts:423-507 | a new generation: pending replies are abandoned, and a live lease reattaches after its last complete batch |
| ProcessorConfig.SortCanonical | packages/jetstream/src/processor-admin.ts:263-265 | two filter lists normalise alike exactly when they hold the same subjects |
| ProcessorConfig.SampleRoundTrip | packages/jetstream/src/processor-admin.ts:459-584 | a sampling percentage survives its trip through the server's text |
| ProcessorReconcile.CreatedIsSettled | packages/jetstream/src/processor-admin.ts:422-588 | for all valid options, the created configuration as a faithful server reports it has no drift |
| ProcessorReconcile.UpdatedIsSettled | packages/jetstream/src/processor-admin.ts:519-613 | the partial update, applied to any configuration with only editable drift, leaves none |
| ProcessorReconcile.FaithfulUpdateSucceeds | packages/jetstream/src/processor-admin.ts:961-985 | with a faithful server every permitted in-place update reports `updated` |
| ProcessorReconcile.Converges | packages/jetstream/src/processor-admin.ts:850-987 | after `unchanged`, `updated` or `recreated`, a second call returns `unchanged` and asks nothing of the server, whatever was delivered in between |
| ProcessorReconcile.CreatedConverges | packages/jetstream/src/processor-admin.ts:861-906 | after `created`, a second call returns `unchanged` exactly when the consumer was resumed, no earlier start is remembered, or it equals the requested one |
| ProcessorReconcile.StaleStartExample | packages/jetstream/src/processor-admin.ts:763-884 | a remembered start for which the call after `created` is not `unchanged` |
| ProcessorReconcile.NewControllerConverges | packages/jetstream/src/processor-admin.ts:891-960 | after `recreated`, a new controller finds nothing to do exactly when it asks for new messages, or for the boundary that the consumer as found implied |
| ProcessorReconcile.NewControllerExample | packages/jetstream/src/processor-admin.ts:652-960 | a caller that wants every message, for whom a new controller does not find the recreated consumer unchanged |
| ProcessorReconcile.OnlyOwnedDeleted | packages/jetstream/src/processor-admin.ts:887-925 | a consumer is deleted only if it carries the owner's mark, the policy asks for recreation, an immutable field differs and a safe boundary exists; a call that asks nothing changes nothing |
| ProcessorReconcile.UnmarkedRejected | packages/jetstream/src/processor-admin.ts:834-892 | an owner that finds a consumer without the mark reports it and asks nothing of the server |
| ProcessorReconcile.RollbackKeepsBoundary | packages/jetstream/src/processor-admin.ts:643-948 | when recreation fails, the rollback restores the previous configuration, but for its start, at the same boundary |
| ProcessorInForce.SettledIffInForce | packages/jetstream/src/processor-admin.ts:422-613 | a consumer has no drift exactly when every value the caller asked for is in force at the server, field by field in the server's own terms |
| ProcessorInForce.ReconciledInForce | packages/jetstream/src/processor-admin.ts:850-987 | after `unchanged`, `updated` or `recreated` everything asked for is in force, at the remembered start or else the one asked for |
| ProcessorInForce.CreatedInForce | packages/jetstream/src/processor-admin.ts:861-884 | after `created` everything asked for is in force, behind the position to resume after if there is one |
| ProcessorInForce.DefaultPolicies | packages/jetstream/src/processor-admin.ts:887-985 | without a policy, drift is reported in a bound consumer, repaired in place or reported in an ensured one, and repaired in place or by recreation in an owned one |
| ProcessorInForce.ChosenPolicies | packages/jetstream/src/processor-admin.ts:887-985 | a policy of the caller's own decides instead, as far as the mode allows, and a bound consumer is never changed |
| ProcessorInForce.UpdateTouchesOnlyDrift | packages/jetstream/src/processor-admin.ts:591-613 | the partial update names a field only where what was asked for is not in force |
| ProcessorInForce.MissingConsumer | packages/jetstream/src/processor-admin.ts:861-884 | a missing consumer is reported to a caller that only binds and created otherwise; a creation that fails leaves nothing, and the remembered start as it was |
| ProcessorInForce.FailedChange | packages/jetstream/src/processor-admin.ts:913-976 | what a failed call leaves at the server and in the controller, by what it had asked: nothing, a deletion that failed, an update, or a recreation with and without its rollback |
| ProcessorInForce.FaultsAreFelt | packages/jetstream/src/processor-admin.ts:913-976 | a fault of the server that the call meets makes it fail after the same first request; any other makes no difference |
| ProcessorRecreation.CreatedDue | packages/jetstream/src/processor-admin.ts:519-613 | a created consumer satisfies the invariant of the theorems below, and owes exactly what its filters select from its first sequence on |
| ProcessorRecreation.BoundaryIsSafe | packages/jetstream/src/processor-admin.ts:652-672 | whatever the server can report, a boundary that is found lies below every message still due |
| ProcessorRecreation.RefusedIff | packages/jetstream/src/processor-admin.ts:652-672 | recreation is refused exactly for a `new` consumer without a floor that has made a delivery |
| ProcessorRecreation.NothingIsLost | packages/jetstream/src/processor-admin.ts:919-960 | over any run of deliveries, acknowledgements, filter updates, recreations and rollbacks, a message that was due and that the filters kept selecting is due at the end, unless it was acknowledged |
| ProcessorRecreation.NothingBroughtBack | packages/jetstream/src/processor-admin.ts:643-672 | what is due after a recreation lies above the floor, at or behind the first sequence of the consumer replaced, and above all that an idle `new` consumer was reported to have passed |
| ProcessorRecreation.BroughtBackIff | packages/jetstream/src/processor-admin.ts:652-672 | a recreation makes a skipped message due exactly when no floor is reported and the consumer was created for the last message or from a time |
| ProcessorRecreation.NothingEarlierEver | packages/jetstream/src/processor-admin.ts:919-960 | over any run with recreations, a consumer for everything, for new messages or from a sequence never owes a message before the first it was created for |
| ProcessorRecreation.Advances | packages/jetstream/src/processor-admin.ts:652-672 | the consumer as modelled can go on to any message, delivering exactly those that its filters select |
| ProcessorRecreation.AcknowledgedIsSettled | packages/jetstream/src/processor-admin.ts:652-672 | exactly an acknowledgement settles a delivered message, and no other |
| ProcessorController.Controller.ReconcileWith | packages/jetstream/src/processor-admin.ts:850-987 | one call in place: result, server calls, remembered start and cached view are those of the specification |
| ProcessorController.Controller.DeleteConsumer | packages/jetstream/src/processor-admin.ts:763-793 | deletes only an owned consumer that carries the mark, reports a failed deletion, and keeps the remembered start |
| Coalescing.CoalescingKeepsEssentials | packages/rxjs/src/index.ts:295-336 | for every window policy and timer schedule: the emitted states are a subsequence with every phase change, the first live state after each, and the last live state before each and before normal completion |
| Coalescing.OneStatePerWindow | packages/rxjs/src/index.ts:295-336 | live states that do not fill the window are held back, however many, and its end emits exactly the latest of them |
| Coalescing.FailureDrops | packages/rxjs/src/index.ts:316-336 | a failing source emits nothing, drops what is held back and stops the window |
| Coalescing.EffectCoalescing | packages/effect/src/index.ts:1035-1132 | unless its source fails, the pull loop emits what the RxJS window emits under a policy of time alone; on failure it still emits the latest pending state |
| Coalescing.PullLoop.Chunk | packages/effect/src/index.ts:1066-1083 | the loop over one pulled chunk |
| Sessions.SupersededIsSilent | packages/session/src/index.ts:290-374 | nothing that a superseded source does, at any later time, changes anything |
| Sessions.TerminalPersists | packages/session/src/index.ts:342-374 | a terminal snapshot stays as it is until a restart or until a close finishes |
| Sessions.ClosedForGood | packages/session/src/index.ts:251-282 | a session whose close has finished never changes again |
| Sessions.CloseEnds | packages/session/src/index.ts:251-282 | a close of an open session, whatever happens until its end and afterwards, leaves it closed with the value it then showed |
| Sessions.RestartRevives | packages/session/src/index.ts:276-345 | a restart ignores whatever the old source still does, and ends with a new source that is listened to; what was published stays shown |
| Sessions.RestartStopsAtClose | packages/session/src/index.ts:276-345 | nothing restarts unasked, and a restart that meets a close starts no source |
| Sessions.SourceDecides | packages/session/src/index.ts:300-374 | a source makes its session live, closed or failed exactly if it is the one listened to and no close was requested |
| Sessions.ValuePublished | packages/session/src/index.ts:342-374 | a value is published exactly if it comes from the source listened to, and clears a failure |
| Sessions.RevisionsCount | packages/session/src/index.ts:342-374 | every change of the snapshot has the next revision |
| Sessions.FirstSource | packages/session/src/index.ts:300-325 | a new session listens to its first source and has nothing to show |
| Sessions.ClosesAsRequested | packages/session/src/index.ts:251-282 | nothing closes without a request, and a second request changes nothing |
| Sessions.EveryValueOnce | packages/browser-broker/src/worker.ts:573-580 | a listener told after every change appends the value current when it subscribed and then every accepted value exactly once, in order |
| Sessions.SharedSession.RestartSource | packages/session/src/index.ts:276-329 | a restart supersedes the current source at once, and is refused after a close |
| SessionRegistry.OwnershipHolds | packages/session/src/index.ts:534-671 | over every run: a count is the number of unreleased handles; until the registry closes, a session is registered exactly while it is held or its idle timer runs and is otherwise closed; one session for a key |
| SessionRegistry.HeldIsOpen | packages/session/src/index.ts:584-605 | an unreleased handle refers to the registered, open session |
| SessionRegistry.AcquireExactly | packages/session/src/index.ts:536-606 | a key is acquired exactly if the registry is open and the key free or registered under the same contract; the handle holds that session, and no timer threatens it |
| SessionRegistry.ReleaseExactly | packages/session/src/index.ts:592-671 | a handle is released once; the last release closes the session or leaves it registered with its timer running, any other leaves it alone |
| SessionRegistry.TimerExactly | packages/session/src/index.ts:647-671 | an idle timer closes the session it was armed for and no other |
| SessionRegistry.CloseExactly | packages/session/src/index.ts:617-645 | closing the registry closes every session, and nothing can be acquired afterwards |
| SessionRegistry.ReacquiredInTime | packages/session/src/index.ts:536-671 | a session whose last handle was released is shared again by whoever comes before its timer |
| SessionRegistry.SessionTable.AcquireHandle | packages/session/src/index.ts:536-606 | opens or shares a session and stops its idle timer; a mismatch or a closed registry changes nothing |
| SessionRegistry.SessionTable.ReleaseReference | packages/session/src/index.ts:592-671 | a second release does nothing; the last one closes the session or arms its timer |
| RuntimeEvents.LossIsCounted | packages/core/src/index.ts:832-926 | for every subscriber: what was given, reported lost, lost and queued adds up to its initial status plus the emitted events, position by position; the queue is bounded; a waiting reader has an empty queue and nothing to report |
| RuntimeEvents.ClosingStatusSurvives | packages/core/src/index.ts:881-926 | a subscriber present at the close is given the closing status before it is told that the stream is done |
| RuntimeEvents.EveryoneSees | packages/core/src/index.ts:866-926 | over every run, read off the commands alone: every subscriber has seen exactly the status when it joined and each diagnostic, changed status and closing status published while it listened |
| RuntimeEvents.RequestsAnswered | packages/core/src/index.ts:832-865 | a request is answered at once with the loss, the next event or the end, and waits otherwise; a waiting reader is given the next event, or the end when it leaves |
| RuntimeEvents.EventSubscriber.NextEvent | packages/core/src/index.ts:832-865 | answers with the loss count, the next event, the end, or not yet |
| RuntimeEvents.EventStream.EmitEvent | packages/core/src/index.ts:911-926 | hands an event to every waiting reader and queues it for the others, dropping the oldest when full |
| RuntimeEvents.EventStream.ChangeStatus | packages/core/src/index.ts:881-905 | an unchanged status is not emitted; the closing one is emitted to all and ends the stream |

## Left out

- Failing batches: that a reducer throws, that this is recorded, and that the messages close is one step; the microtasks in between are not told apart.
- Closing by the user: a lease that its owner closes during replay is not modelled, nor is an abort signal.
- IntakeContainment.ContainmentIffPolicy: speaks of deliveries of admissible size; `ReplayLoss.LossIffPolicy` speaks of the others.
- ReplayExactness.ExactlyOnce: assumes an ordered consumer whose sequences strictly increase, a start of `all` or `after`, and a stream that keeps what it retained; a retention gap and duplicates in the batched path are not modelled. Under a policy that can lose deliveries it assumes admissible sizes, because it is false otherwise (`ReplayLoss.LossIffPolicy`).
- OrderedConsumer.ReducingSource.Hydrate: a batch is reduced in one step, so a hydration that runs between two deliveries of a batch, whose count the end of the batch then overwrites, is not modelled; nor is the count reported after a recovery that falls into the replay.
- Sizes: what `sizeOf` returns is a whole number, may be negative, or an exception; fractions are not modelled.
- Materializer.GroupingIndependent: is about a reducer that succeeds and is a left fold; a reducer effect that fails ends the stream.
- Recovery policy: attempt limits, delays and the retry predicate of the recovery loop, which only decide whether another attempt follows.
- Checkpoint stores other than the memory store, and the loading checks of stream, epoch and scope before an attempt starts.
- BrokerClientRuns.GapFreeDelivery: the physical source outlives the run and cursors are unique; a source that is torn down or replaced between two connections is not modelled.
- BrokerClientRuns.NeverRefused: other failures of a command, such as a time-out, are one step that ends the lease.
- BrokerIsolation.OtherTabsContinue: is about acknowledgements; what other tabs attach and detach also decides which sources are open.
- BrokerFirstValue.OpeningTabExact: opening a source and joining it are one step, so an emission between the two, which also stays behind the tab's start, is not modelled.
- Broker sharing: the messages a worker posts to a tab for its state (`connecting`, `live`, `error`, `closed`) do not affect its queues.
- Credentials, identities, publishing and requests through the broker, and the closing of idle resources.
- ProcessorReconcile.Converges: the server reports the values it was sent, filling in a name, its own defaults, its own metadata keys, and the filters in either field; one that replaces a value by another is met by the check after an update, and by drift otherwise.
- Normalisation: a sampling rate is read as decimal digits, where the source accepts every numeric text; durations are compared as exact numbers; strings are ordered by character.
- ProcessorRecreation.NothingIsLost: messages are not removed from the stream, and a server's own limit on deliveries does not make a message stop being due.
- Processor delivery, its acknowledgement heartbeat and its recovery across attempts; pausing and resuming a consumer.
- Coalescing.CoalescingKeepsEssentials: a value pulled while the Effect timer wins the race is not lost by the library; that is not modelled.
- Sessions.EveryValueOnce: the listener does not call back into the session.
- Sessions.SharedSession.RestartSource: a second restart may begin before the new source is ready, where the source would share the first; the model has those runs besides.
- SessionRegistry: sessions are entries of a table and handles are numbers, so aliasing of the session objects is not modelled; the registry's own event stream is left out.
- RuntimeEvents: a subscriber has at most one request outstanding.
- Runtime resource limits, connection attempts and recovery, requests and publishing, telemetry, tracing, React hooks and the option validators: they would only add easy members.
