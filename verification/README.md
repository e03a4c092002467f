# Verified model of the neuriplo inference server

This project models the parts of the inference server where correctness is hard to see from the code: the hot-reload protocol
of the model registry, the two request schedulers, dynamic batching of tensors, pipeline execution, the result envelope and
image header reader, the version order of the model repository, and binary tensor framing. `dafny verify dfyconfig.toml` checks everything.

Code that changes state step by step is modelled by classes and by methods with loops, proved against functions on values. Concurrent
code is modelled as a transition system: one step per locked region (or per turn of an unlocked loop), any number of threads, any
interleaving. The theorems quantify over every run of those steps.

What an operation answers is stated a second time, apart from the function its code is proved against: by the lemmas whose names end in `Decides`, `Means`
or `Exactly`, in terms of the inputs and the states before and after.

| files | what they hold |
|---|---|
| `ModelStates`, `ModelLifecycle`, `RegistryRegions`, `ModelRegistry` | handle states and the registry's locked regions, as functions and as classes |
| `RegistryProtocol`, `RegistryTheorems` | the registry as a protocol, its inductive invariant, runs, retirement and the published mirror of a handle |
| `RegistryExclusion`, `RegistryWaking`, `RegistryOwnership` | exclusion, wake-ups and responsibility for schedulers over every run, with the exact conditions |
| `RegistryServing`, `RegistryConservation` | staying Ready, what request threads see, version routing, and which schedulers are lost, over every run |
| `RegistryResults` | what each operation reports and leaves behind, and what a lookup by version finds |
| `RegistryWitness`, `BatchWitness`, `SchedulerWitness`, `LlmWitness` | runs and inputs at which an expected property fails |
| `Tensors`, `BatchCompatibility`, `DynamicBatcher`, `SplitTheorems`, `BatchMeaning` | tensors, merge and split at byte level, and the meaning of batching |
| `ExecutorPool` | least-loaded executor choice under any interleaving |
| `SchedulerSteps`, `SchedulerProtocol`, `SchedulerWorkers`, `SchedulerTheorems`, `SchedulerAdmission`, `ModelScheduler` | the tensor scheduler: steps, invariant, one lemma per step, theorems, admission and order, and the object with its loops |
| `LlmSteps`, `LlmScheduler`, `LlmProtocol`, `LlmTheorems`, `LlmTimeouts`, `LlmAdmission` | the LLM scheduler with its decode slots, when it answers with a timeout, whom it admits and in what order |
| `QueueOrder` | queues that grow at the end and lose entries anywhere |
| `Pipelines`, `PipelineExecutor`, `PipelineWiring`, `PipelineMeaning` | the move-on-last-use interpreter against a copying one, load-time wiring, shape adoption, and what a pipeline answers |
| `TensorBytes`, `ScoreRanking`, `PipelineEnvelope`, `ImageHeader` | scalars in buffers, offset arrays, ranking, the envelope encoders, PNG/JPEG/BMP headers |
| `Versions`, `ModelRepository`, `BinaryCodec` | version order, scan and resolve; element counts and the binary body |

## What was found

- `publishSnapshot` can throw inside the final swap of a build (a torn build). After a torn load the pending-load guard runs with the lock released
  and can clear the reload mark of another thread, so that two threads rebuild one slot (`RegistryWitness.TornSwapBreaksExclusion`).
  `RegistryExclusion.ExclusionExactly` says exactly when; without such a collision a Ready model stays Ready and request threads keep finding it
  accepting work, through torn rebuilds as well (`RegistryServing.ReadyUntilDrained`).
- A torn rebuild has no guard left and notifies nobody: a thread waiting for it sleeps on (`RegistryWitness.WakeupLost`).
  `RegistryWaking.WakeupsExactly` says exactly when wake-ups are lost; torn loads and collisions lose none.
- A slot has two places for a scheduler, the handle and the published snapshot, and a step that overwrites one of them while the other holds
  another scheduler loses it: it reaches no retire queue. That happens when a rebuild of a draining slot fails or aborts
  (`RegistryWitness.DrainedSchedulerDropped`) and after torn rebuilds (`RegistryWitness.ReplacedSchedulerDropped`); the exact condition
  is in `RegistryConservation.ConservedExactly`, and without torn builds only the first of them remains (`RegistryConservation.ConservedUntorn`).
- Request threads see the handle, wherever no rebuild is pending, exactly when no torn swap hid it (`RegistryTheorems.PublishedMirrorsHandle`); a failed
  torn rebuild of a Ready model hides it exactly when its error differs from the published one (`RegistryServing.TornHides`).
- A plain reload does not refresh the stored version snapshots. `RegistryServing.ReloadRoutesExactly` says exactly when looking a version up
  after a reload still leads to the active scheduler; `RegistryWitness.StaleRoute` is a run where it does not.
- Batching equals running each request alone exactly when the executor refuses the question or every output has fixed-size elements and at least
  one element per row. An output with a zero trailing extent makes the whole batch fail, where each request alone succeeds
  (`BatchMeaning.BatchingPreservesMeaning`, `BatchWitness.ZeroExtentFails`).
- A member of a batch that expires between the two loops of `processBatch` is dropped without an answer; its submitter returns a timeout by
  its own clock (`SchedulerWitness.DroppedUnanswered`, `SchedulerTheorems.ExactlyOnePlace`, exact condition in `ModelScheduler.UnansweredExactly`).
- The LLM scheduler answers with a timeout before the deadline in two cases: requests already queued when it drains
  (`LlmWitness.DrainAnswersTimeout`), and requests whose cancel token the caller sets (`LlmWitness.CallerStopsDecode`). There is no third
  (`LlmTimeouts.EarlyTimeoutExactly`). The tensor scheduler gives no early timeout (`SchedulerTheorems.NoEarlyTimeout`).
- A model directory whose name holds a backslash is served by the scan and refused by the resolver (`ModelRepository.ScanResolveAgree`,
  `ModelRepository.BackslashNotResolved`).
- The binary codec compares element counts after a division, so a tensor may carry up to one element of stray bytes
  (`BinaryCodec.CountAllowsRemainder`, `BinaryCodec.StrayBytesAccepted`). The batching theorem asks for exact lengths.

## Model

| member | source | states |
|---|---|---|
| `ModelLifecycle.ModelHandle.TransitionTo` | src/ModelStateMachine.hpp:51-59 | an invalid transition is refused and changes nothing |
| `ModelStates.MovesExactly` | src/ModelState.hpp:32-49 | the ten moves between states, and no others |
| `ModelLifecycle.ModelHandle.Fail` | src/ModelLifecycle.cpp:16-23 | the whole handle after a failed load |
| `ModelLifecycle.ModelHandle.Load` | src/ModelLifecycle.cpp:27-109 | the loop over executors and the scheduler start come to one handle value; Ready means one executor per configured instance |
| `ModelLifecycle.ModelHandle.Serve` | src/ModelLifecycle.cpp:70-102 | metadata of the first executor, version override, scheduler start |
| `ModelLifecycle.ModelHandle.BeginDrain` | src/ModelLifecycle.cpp:111-120 | new handle, and which scheduler stopped accepting |
| `ModelLifecycle.ModelHandle.CompleteUnload` | src/ModelLifecycle.cpp:122-138 | new handle, and the scheduler it let go of |
| `ModelLifecycle.ModelHandle.BeginReload` | src/ModelLifecycle.cpp:140-160 | new handle for each of the six states |
| `ModelLifecycle.ModelHandle.FinishReload` | src/ModelLifecycle.cpp:162-198 | a failed rebuild keeps a Ready handle Ready on its old scheduler |
| `ModelLifecycle.LoadNeverHalfBuilt` | src/ModelLifecycle.cpp:27-109 | a load ends Ready on the new scheduler or Failed without one, Ready exactly when every executor and the scheduler were made |
| `ModelLifecycle.LoadMeans` | src/ModelLifecycle.cpp:16-109 | the handle a load leaves: name, versions, metadata, error and scheduler, for every way the factory and the scheduler can go |
| `ModelRegistry.Registry.EnterLoad` | src/ModelRegistry.cpp:189-226 | first locked region of `loadModel` on the mutable slot map |
| `ModelRegistry.Registry.FinishLoad` | src/ModelRegistry.cpp:237-253 | final swap of `loadModel` |
| `ModelRegistry.Registry.AbortBuild` | src/ModelRegistry.cpp:49-80 | what the pending-load guard undoes |
| `ModelRegistry.Registry.EnterReload` | src/ModelRegistry.cpp:292-336 | first locked region of `reload` and `switchVersion` |
| `ModelRegistry.Registry.FinishReload` | src/ModelRegistry.cpp:353-381 | final swap of a reload or version switch, and which scheduler is due for retirement |
| `ModelRegistry.Registry.EnterUnload` | src/ModelRegistry.cpp:255-276 | what `unloadModel` decides under the lock |
| `ModelRegistry.Registry.BeginDrain` | src/ModelRegistry.cpp:693-704 | drain is refused while the slot is being built |
| `ModelRegistry.Registry.CompleteUnload` | src/ModelRegistry.cpp:496-515 | the slot goes, its scheduler is retired |
| `ModelRegistry.Registry.RetireScheduler` | src/SchedulerRetireQueue.cpp:18-27 | one more retired scheduler |
| `RegistryProtocol.InvStep` | src/ModelRegistry.cpp:180-515 | every step of every thread, torn swaps aside, keeps the invariant of threads, slots and retire queue: builders hold their slots, published snapshots match handles, schedulers have one owner |
| `RegistryExclusion.OneBuilderPerSlot` | src/ModelRegistry.cpp:180-381 | under exclusion a slot is Loading exactly when one thread does a first build, pending exactly when one thread rebuilds it, never both |
| `RegistryExclusion.ExclusionStep` | src/ModelRegistry.cpp:49-80 | a step keeps exclusion exactly when it is not a guard meeting a slot under another thread's build |
| `RegistryExclusion.ExclusionExactly` | src/ModelRegistry.cpp:180-515 | over every run, torn loads included, exclusion holds throughout exactly when no guard does that |
| `RegistryExclusion.BuildKeepsItsSlot` | src/ModelRegistry.cpp:496-515 | unload, drain and completion cannot take a slot from under a build, so every build finds its slot |
| `RegistryResults.LoadDecides` | src/ModelRegistry.cpp:189-226 | a load builds exactly where there is no slot, behind a Loading placeholder; it joins a first build and refuses any other slot |
| `RegistryResults.LoadEnds` | src/ModelRegistry.cpp:237-253 | in every run in which no guard collides, a load that ends installs and publishes its result with its config and reports success |
| `RegistryResults.BuildEndsAs` | src/ModelRegistry.cpp:228-236 | a build ends Ready on a new scheduler under the version asked for, or Failed with an error |
| `RegistryResults.JoinReports` | src/ModelRegistry.cpp:210-219 | who joined a build waits until it has settled and reports whether the model is then Ready on a scheduler accepting work |
| `RegistryResults.ReloadDecides` | src/ModelRegistry.cpp:292-336 | a rebuild of a known slot is never refused: done if already active, else it waits, joins or sets out |
| `RegistryResults.RebuildSetsOut` | src/ModelLifecycle.cpp:140-160 | setting out marks the slot; a Ready model is left as it is, a draining one lets go of its scheduler |
| `RegistryResults.RebuildEnds` | src/ModelRegistry.cpp:345-381 | in every run in which no guard collides, a rebuild reports success exactly when its build was Ready; what the slot then holds and shows, either way |
| `RegistryResults.LostSlot` | src/ModelRegistry.cpp:345-352 | a swap that finds no slot changes nothing and reports failure |
| `RegistryResults.SwitchStores` | src/ModelRegistry.cpp:474-487 | a switch stores the new snapshot under its version and the one before under its own |
| `RegistryResults.GuardUndoes` | src/ModelRegistry.cpp:49-80 | what the pending-load guard makes of a first build, of a rebuild, and of a slot nobody builds |
| `RegistryResults.TornSwaps` | src/ModelRegistry.cpp:237-253 | a swap that throws while publishing changes the handle and leaves what is published |
| `RegistryResults.WaitEnds` | src/ModelRegistry.cpp:316-331 | a thread waiting for a rebuild tries again exactly once that has settled |
| `RegistryResults.NotifyWakes` | src/ModelRegistry.cpp:244-253 | a notification wakes every waiter, and the operation then retires what it owes and reports |
| `RegistryResults.RetireQueues` | src/SchedulerRetireQueue.cpp:18-27 | a replaced scheduler goes to the end of the retire queue, a queued one is stopped later |
| `RegistryResults.NeverStuck` | src/ModelRegistry.cpp:180-515 | a thread can always go on unless it sleeps and has not been woken |
| `RegistryResults.UnloadDecides` | src/ModelRegistry.cpp:255-276 | an unload erases at once exactly a settled Failed slot without scheduler, refuses a missing one or one under build, and goes on to drain any other |
| `RegistryResults.DrainDecides` | src/ModelRegistry.cpp:693-704 | a drain succeeds exactly where there is a scheduler and no rebuild, and stops it |
| `RegistryResults.CompleteDecides` | src/ModelRegistry.cpp:496-515 | a completion succeeds exactly for an Unloading model, whose slot goes and whose scheduler is retired |
| `RegistryResults.UnloadSucceedsExactly` | src/ModelRegistry.cpp:255-281 | a whole unload: which slots it succeeds for, that the name is then free for a fresh load and the scheduler stopped and retired, and that the slot stays otherwise |
| `RegistryResults.LookupFinds` | src/ModelRegistry.cpp:587-612 | over every run, a lookup by version finds something exactly for a stored version or one the published snapshot lists, and what it finds serves that version |
| `RegistryWaking.SleepersAreWoken` | src/ModelRegistry.cpp:292-336 | in every run, whatever loads are torn and guards collide and up to a torn rebuild that loses one, an un-notified sleeper has a live builder, a thread about to notify, or a guard about to run |
| `RegistryWaking.WakeupsExactly` | src/ModelRegistry.cpp:353-381 | over every run, nobody oversleeps un-heralded exactly when no rebuild is torn with a thread asleep on its slot and nobody about to notify |
| `RegistryWitness.WakeupLost` | src/ModelRegistry.cpp:353-381 | a run in which a throw inside the final swap of a reload leaves a waiter asleep for good |
| `RegistryServing.LiveStep` | src/ModelRegistry.cpp:180-515 | every step of every run, torn builds and collisions included, keeps: builds not yet swapped in are on schedulers never served or stopped, Ready handles on unstopped ones built with the slot's config, stored versions on ones a slot has held |
| `RegistryServing.ReadyUntilDrained` | src/ModelRegistry.cpp:353-381 | in every run in which no guard collides, a Ready model stays Ready until a drain of its name, on a scheduler neither stopped nor retired and built from the stored config; request threads keep finding it accepting work, and see the handle unless a build of that name is torn |
| `RegistryExclusion.StaysReady` | src/ModelLifecycle.cpp:140-198 | in every run in which no guard collides, torn builds included, a Ready model stays Ready until a drain of its name |
| `RegistryOwnership.RetiredOnceAndUnused` | src/ModelRegistry.cpp:122-130 | in every run a scheduler is retired at most once and never while a slot holds it, in its handle or its published snapshot |
| `RegistryTheorems.ReplacedIsRetired` | src/ModelRegistry.cpp:364-380 | the scheduler a winning rebuild replaces stays due with its thread until it is in the retire queue |
| `RegistryConservation.ConservedExactly` | src/ModelRegistry.cpp:353-381 | over every run, each scheduler a slot has held is in a handle, published, due or in the retire queue, exactly when no step overwrites the handle or the snapshot of a slot whose other place holds another scheduler |
| `RegistryConservation.ConservedUntorn` | src/ModelLifecycle.cpp:150-151 | without torn builds, exactly when no rebuild of a draining slot fails or aborts |
| `RegistryWitness.DrainedSchedulerDropped` | src/ModelLifecycle.cpp:150-151 | a run that reaches such a failing rebuild |
| `RegistryWitness.ReplacedSchedulerDropped` | src/ModelRegistry.cpp:353-381 | a run in which a throw inside the final swap of a reload leaves two schedulers in one slot, one of which the next drain loses |
| `RegistryTheorems.PublishedMirrorsHandle` | src/InferSnapshot.hpp:21-34 | over every run, the published snapshot is that of the handle wherever no rebuild is pending, exactly when no torn swap left a handle other than the one published |
| `RegistryServing.TornHides` | src/ModelRegistry.cpp:353-381 | torn loads and successful torn rebuilds always do that, a failed one of a Ready model exactly when its error differs from the published one |
| `RegistryExclusion.PublishedFrozenWhilePending` | src/ModelRegistry.cpp:364-380 | the published snapshot does not change during a rebuild, in every run in which no guard collides |
| `RegistryServing.ReloadRoutesExactly` | src/ModelRegistry.cpp:364-372 | in any reachable state, a plain reload keeps version routing exactly when no snapshot of the installed version is stored |
| `RegistryWitness.StaleRoute` | src/ModelRegistry.cpp:364-372 | load, switch to version 2, reload version 2: looking version 2 up leads to the replaced scheduler |
| `RegistryServing.VersionRoutingKept` | src/ModelRegistry.cpp:577-612 | in every run in which no guard collides, no build of the name is torn and its plain reloads install no stored version, a Ready model's version leads to its active scheduler |
| `RegistryWitness.TornSwapBreaksExclusion` | src/ModelRegistry.cpp:49-80 | a run in which a throw inside the final swap lets two threads rebuild one slot |
| `BatchCompatibility.ShapesMatchExceptBatch` | src/BatchCompatibility.cpp:7-17 | equal rank and equal trailing extents |
| `BatchCompatibility.BatchCompatibilityError` | src/BatchCompatibility.cpp:37-83 | the first incompatibility in the source's order |
| `BatchCompatibility.CompatibleIsSameKind` | src/BatchCompatibility.cpp:37-83 | compatible exactly when both requests ask for the same outputs of inputs of the same kinds, an equivalence |
| `BatchCompatibility.ComplaintExactly` | src/BatchCompatibility.cpp:37-83 | which incompatibility is named |
| `BatchCompatibility.SurvivorsStayCompatible` | src/ModelScheduler.cpp:449-481 | members of a formed batch are compatible with each other, whichever of them are removed |
| `DynamicBatcher.CountElements` | src/DynamicBatcher.cpp:10-30 | the wrapped 64-bit product |
| `DynamicBatcher.MergeInputTensors` | src/DynamicBatcher.cpp:32-49 | bytes behind each other, leading extent summed |
| `DynamicBatcher.MergeExecutionRequests` | src/DynamicBatcher.cpp:71-116 | merged request and sizes, or the first error |
| `DynamicBatcher.MergeFailsExactly` | src/DynamicBatcher.cpp:71-116 | merging fails exactly for an empty list, a request without inputs or one that does not go with the first, and says which |
| `DynamicBatcher.SplitExecutionResponse` | src/DynamicBatcher.cpp:118-206 | one response per request |
| `SplitTheorems.LateGuardsNeverFire` | src/DynamicBatcher.cpp:131-203 | once the early guards pass the two late ones cannot fire, and request k gets exactly its share |
| `SplitTheorems.SharesPartitionOutput` | src/DynamicBatcher.cpp:131-203 | the shares are adjacent, disjoint and concatenate to the batched buffer |
| `SplitTheorems.AllSucceedOrAllFailAlike` | src/DynamicBatcher.cpp:131-203 | all requests of a batch succeed, or all fail with the same error |
| `SplitTheorems.SplitMeans` | src/DynamicBatcher.cpp:118-206 | a request gets the executor's failure, a failure naming why the first bad output cannot be handed out, or its own bytes of every output under its own row count |
| `BatchMeaning.FormedMerges` | src/DynamicBatcher.cpp:71-116 | a list the scheduler forms merges without error |
| `BatchMeaning.SplitAnswers` | src/DynamicBatcher.cpp:118-206 | per request: its own answer if every output can be cut into rows, else a failure |
| `BatchMeaning.BatchingPreservesMeaning` | src/ModelScheduler.cpp:469-527 | merge, run once and split gives every request what the executor gives it alone, exactly when the executor refuses the question or every output can be cut into rows |
| `BatchWitness.ZeroExtentFails` | src/DynamicBatcher.cpp:131-203 | a row-wise executor and two requests that succeed alone and fail together |
| `ExecutorPool.Pool.SelectExecutor` | src/ModelScheduler.cpp:119-131 | the first least-loaded executor, its counter raised |
| `ExecutorPool.Pool.ReleaseExecutor` | src/ModelScheduler.cpp:133-138 | the counter lowered, not below zero |
| `ExecutorPool.Pool.CurrentInFlight` | src/ModelScheduler.cpp:140-147 | the sum of the counters |
| `ExecutorPool.ChosenKeeps` | src/ModelScheduler.cpp:119-131 | counters stay true and no executor exceeds the rounded-up share of the workers |
| `ExecutorPool.FreedKeeps` | src/ModelScheduler.cpp:133-138 | the same for giving back, and the counter does fall |
| `ExecutorPool.NobodyShares` | src/ModelLifecycle.cpp:47-57 | with as many executors as workers no two workers are on one |
| `SchedulerWorkers.TakesOneKind` | src/ModelScheduler.cpp:349-363 | a taken request joins a batch of one kind whose dimension fits |
| `SchedulerWorkers.ReplyIsRight` | src/ModelScheduler.cpp:469-527 | a run gives each member a timeout exactly when it is late, else the executor's answer to it alone or its share of a batch that fits |
| `SchedulerWorkers.RowWiseAnswers` | src/ModelScheduler.cpp:469-527 | from a row-wise executor every such answer is the one to the request alone |
| `SchedulerTheorems.InvStep` | src/ModelScheduler.cpp:178-596 | every step of submitters, workers and drain keeps the invariant |
| `SchedulerTheorems.AlwaysClosed` | src/ModelScheduler.cpp:178-596 | ids and indices used by any step are valid in every reachable state |
| `SchedulerTheorems.ExactlyOnePlace` | src/ModelScheduler.cpp:178-219 | a request is once in the queue, once with one worker, or finished: answered, refused, or past its deadline |
| `SchedulerTheorems.AnsweredOnce` | src/ModelScheduler.cpp:427-432 | a promise is set at most once in any run and keeps its value; a submitter returns at most once |
| `SchedulerTheorems.AnswerDelivered` | src/ModelScheduler.cpp:210-219 | a submitter still waiting when its promise is set returns that value |
| `SchedulerTheorems.RightAnswers` | src/ModelScheduler.cpp:434-584 | a submitter gets its promise's value, a timeout not before its deadline, or a refusal; a reply is the executor's answer to that request alone (row-wise executor, or batching off) or its share of a batch that fits; merge errors never reach anyone |
| `SchedulerTheorems.NoEarlyTimeout` | src/ModelScheduler.cpp:434-584 | before its deadline no request is told of a timeout, by promise or return, nor cancelled |
| `SchedulerWitness.DroppedUnanswered` | src/ModelScheduler.cpp:434-459 | a run in which a member expires between the two loops and is let go of with no answer |
| `SchedulerTheorems.BatchesFit` | src/ModelScheduler.cpp:300-399 | every multi-request batch fits `max_batch_size`, is pairwise compatible and merges |
| `SchedulerTheorems.QueueBounded` | src/ModelScheduler.cpp:197-208 | the queue never exceeds `max_queue_size` |
| `SchedulerTheorems.NoneQueuedAfterExit` | src/ModelScheduler.cpp:271-282 | from the first worker's exit on the queue is empty and nothing is accepted |
| `SchedulerTheorems.DrainLosesNothing` | src/ModelScheduler.cpp:229-269 | after the join, rejecting the queue changes nothing and every request is finished |
| `SchedulerTheorems.ExecutorsShareFairly` | src/ModelScheduler.cpp:111-146 | no executor runs more than ceil(W/N) inferences; none runs two when there are as many executors as workers |
| `SchedulerAdmission.SubmitDecides` | src/ModelScheduler.cpp:178-219 | on every submission of a run: Draining exactly when draining, Overloaded exactly when not draining and full, else at the end of the queue with its deadline |
| `SchedulerAdmission.RefusedExactly` | src/ModelScheduler.cpp:178-219 | what the submitter is told in the end is Draining or Overloaded exactly for the reason it was refused at once |
| `SchedulerAdmission.ReturnDecides` | src/ModelScheduler.cpp:210-219 | a submitter whose wait is over returns the promise's value, or a timeout past its deadline that cancels the request |
| `SchedulerAdmission.QueueInOrder` | src/ModelScheduler.cpp:197-208 | the queue is always in the order of submission |
| `SchedulerAdmission.PopTakesOldest` | src/ModelScheduler.cpp:271-282 | a free worker takes the request that has waited longest, and gives its batch the configured delay |
| `SchedulerAdmission.BatchGrowsExactly` | src/ModelScheduler.cpp:300-399 | which waiting request can join a forming batch, and when the batch closes, in every reachable state |
| `SchedulerAdmission.WorkerDecides` | src/ModelScheduler.cpp:400-596 | in every run, where a worker's next step takes it; a batch of several always merges and runs |
| `SchedulerAdmission.StepAnswers` | src/ModelScheduler.cpp:427-584 | in every run, which promise a worker's step sets and to what; it sets no other |
| `SchedulerAdmission.WorkerWaitsExactly` | src/ModelScheduler.cpp:271-399 | in every run a worker waits only for work, or with an open batch within its delay while every queued request is alive and none fits |
| `SchedulerAdmission.RejectAnswers` | src/ModelScheduler.cpp:260-269 | every queued request is answered with Draining, the others are left alone |
| `ModelScheduler.Scheduler.Submit` | src/ModelScheduler.cpp:178-219 | refused while draining or full, else queued with a deadline |
| `ModelScheduler.Scheduler.PopNextPending` | src/ModelScheduler.cpp:271-282 | the front of the queue, or the worker's end |
| `ModelScheduler.Scheduler.ScanQueue` | src/ModelScheduler.cpp:331-378 | the scan loop of `formBatch` as one function of the state |
| `ModelScheduler.ScanReaches` | src/ModelScheduler.cpp:331-378 | a scan is a sequence of protocol steps and keeps the invariant |
| `ModelScheduler.NothingFound` | src/ModelScheduler.cpp:331-378 | a scan that finds nothing leaves only live entries, none of which fits |
| `ModelScheduler.Scheduler.SweepExpired` | src/ModelScheduler.cpp:434-447 | first loop of `processBatch` |
| `ModelScheduler.SweepAnswersExpired` | src/ModelScheduler.cpp:434-447 | exactly the uncancelled members expired at its start are answered, nothing else is touched |
| `ModelScheduler.SweepReaches` | src/ModelScheduler.cpp:434-447 | that loop is a sequence of protocol steps |
| `ModelScheduler.Scheduler.KeepActive` | src/ModelScheduler.cpp:449-459 | second loop of `processBatch` |
| `ModelScheduler.FilterReaches` | src/ModelScheduler.cpp:449-459 | that loop is a sequence of protocol steps |
| `ModelScheduler.FilterKeepsAlive` | src/ModelScheduler.cpp:449-459 | exactly the members neither cancelled nor expired are kept, in order |
| `ModelScheduler.UnansweredExactly` | src/ModelScheduler.cpp:434-459 | a member is let go of unanswered exactly when the first loop saw it cancelled or not yet expired and the second saw it cancelled or expired |
| `ModelScheduler.Scheduler.RejectQueuedRequests` | src/ModelScheduler.cpp:260-269 | everything queued is answered with Draining, nothing else changes |
| `LlmScheduler.Scheduler.Submit` | src/LlmScheduler.cpp:147-210 | refusals in order: invalid, draining, memory, full |
| `LlmScheduler.Scheduler.PopNextPending` | src/LlmScheduler.cpp:338-349 | the front of the queue, or the worker's end |
| `LlmScheduler.Scheduler.AcquireDecodeSlot` | src/LlmScheduler.cpp:278-295 | a slot is taken exactly when not draining and one is free |
| `LlmScheduler.Scheduler.ReleaseDecodeSlot` | src/LlmScheduler.cpp:297-301 | the counter lowered, wrapping at zero |
| `LlmScheduler.Scheduler.Launch` | src/LlmScheduler.cpp:407-423 | the two ways out that give the slot back, or the least-loaded executor |
| `LlmProtocol.InvStep` | src/LlmScheduler.cpp:147-462 | every step of submitters, workers and drain keeps the invariant |
| `LlmProtocol.SlotFree` | src/LlmScheduler.cpp:132-141 | with one worker per slot, a worker without a slot leaves one free |
| `LlmTheorems.SlotsCounted` | src/LlmScheduler.cpp:278-301 | active decodes equal the workers between acquire and release, never exceed the slots, and never wrap |
| `LlmTheorems.AskingFindsSlot` | src/LlmScheduler.cpp:278-295 | a worker asking for a slot never waits and is turned away exactly when draining |
| `LlmTheorems.ExactlyOnePlace` | src/LlmScheduler.cpp:147-210 | once in the queue, with one worker, or finished; the queue stays within bounds |
| `LlmTheorems.AnsweredOnce` | src/LlmScheduler.cpp:380-385 | a promise is set at most once and a submitter returns at most once |
| `LlmTheorems.AnswerDelivered` | src/LlmScheduler.cpp:201-210 | a submitter still waiting when its promise is set returns that value |
| `LlmTimeouts.RightAnswers` | src/LlmScheduler.cpp:387-462 | a reply is the executor's own to that request; a timeout comes not before the deadline or to a request cut short: turned away while draining, or its decode ended with its cancel token set; a drain notice only while draining |
| `LlmTimeouts.EarlyTimeoutExactly` | src/LlmScheduler.cpp:278-440 | before its deadline, an answered request got a timeout exactly when its worker asked for a slot while draining or its decode ended with its cancel token set |
| `LlmTimeouts.CutShortTimesOut` | src/LlmScheduler.cpp:402-440 | a request cut short in one of these ways gets no other answer |
| `LlmTheorems.NoneQueuedAfterExit` | src/LlmScheduler.cpp:338-349 | from the first worker's exit on the queue is empty and nothing is accepted |
| `LlmTheorems.DrainLosesNothing` | src/LlmScheduler.cpp:220-276 | after the join, rejecting the queue changes nothing and every request is finished |
| `LlmWitness.DrainAnswersTimeout` | src/LlmScheduler.cpp:387-406 | from any fresh scheduler with room, a run in which a queued request is answered with a timeout before its deadline |
| `LlmWitness.CallerStopsDecode` | src/LlmScheduler.cpp:363-440 | from any fresh scheduler with room, a run without a drain in which a request whose cancel token the caller set is answered with a timeout before its deadline |
| `LlmTheorems.ExecutorsShareFairly` | src/LlmScheduler.cpp:303-322 | no executor runs more than ceil(slots/N) decodes |
| `LlmAdmission.SubmitDecides` | src/LlmScheduler.cpp:147-210 | on every submission of a run: invalid, draining, memory or full, each exactly when it is the first reason to apply, else at the end of the queue |
| `LlmAdmission.RefusedExactly` | src/LlmScheduler.cpp:147-210 | a request turned away is told that reason and never answered; any other is told an answer, a timeout or a drain |
| `LlmAdmission.ReturnDecides` | src/LlmScheduler.cpp:201-210 | a submitter whose wait is over returns the promise's value, or a timeout past its deadline that cancels the request |
| `LlmAdmission.QueueInOrder` | src/LlmScheduler.cpp:190-200 | the queue is always in the order of submission |
| `LlmAdmission.PopTakesOldest` | src/LlmScheduler.cpp:338-349 | a free worker takes the request that has waited longest |
| `LlmAdmission.WorkerDecides` | src/LlmScheduler.cpp:387-462 | in every run, what a worker does next with its request, the answer it settles on and gives, and that the slot is taken and given back once |
| `LlmAdmission.WorkerWaitsExactly` | src/LlmScheduler.cpp:278-349 | in every run a worker waits only for work, never with a request in hand, nor for a decode slot |
| `LlmAdmission.RejectAnswers` | src/LlmScheduler.cpp:267-276 | every queued request is answered with Draining, the others are left alone |
| `PipelineExecutor.Executor.IndexLastUse` | src/PipelineExecutor.cpp:75-84 | for each tensor that is read and not exposed, exactly the last step reading it |
| `PipelineExecutor.Executor.TakeInputs` | src/PipelineExecutor.cpp:105-146 | the inputs a copying step would get; tensors at their last use have left the map, all others needed are still there |
| `PipelineExecutor.Executor.Infer` | src/PipelineExecutor.cpp:90-183 | same response, and same error at the same step, as an interpreter that always copies, for every graph and request |
| `PipelineExecutor.Executor.BindInputs` | src/PipelineExecutor.cpp:91-100 | the first input of a name wins |
| `PipelineExecutor.Executor.StoreOutputs` | src/PipelineExecutor.cpp:160-164 | outputs under graph names, the last of a name wins |
| `PipelineExecutor.Executor.CollectOutputs` | src/PipelineExecutor.cpp:169-183 | the requested outputs in declared order, or the first missing one |
| `PipelineMeaning.InferMeans` | src/PipelineExecutor.cpp:90-183 | what the response is: from the first input of each name through the states after each step to exactly the declared outputs asked for, all if none is named, or the first missing tensor or failing step |
| `PipelineMeaning.AdoptedMeans` | src/PipelineExecutor.cpp:216-236 | the declared shape is adopted exactly where it is fixed and differs in leading ones |
| `Pipelines.MoveOrCopy` | src/PipelineExecutor.cpp:115-145 | moving at the last use leaves everything still needed in the map |
| `PipelineWiring.CheckAvailability` | src/PipelineExecutor.cpp:389-409 | accepts exactly the wired graphs and names the first dangling wire |
| `PipelineWiring.WiredNeverMissing` | src/PipelineExecutor.cpp:389-409 | a wired pipeline never reports a missing input or output |
| `PipelineWiring.UnwiredNeverFinishes` | src/PipelineExecutor.cpp:389-409 | a graph the check refuses finishes no request of exactly the declared tensors |
| `PipelineWiring.TrimShape` | src/PipelineExecutor.cpp:204-214 | leading ones dropped, one extent kept |
| `PipelineWiring.TrimTestIsExact` | src/PipelineExecutor.cpp:204-214 | two shapes trim alike exactly when they differ in leading ones only |
| `PipelineWiring.AdoptDeclaredShape` | src/PipelineExecutor.cpp:216-236 | adopts a fully declared shape that differs in leading ones only |
| `PipelineWiring.AdoptionKeepsElements` | src/PipelineExecutor.cpp:204-236 | the row-major position of every element is kept |
| `PipelineWiring.AdoptionKeepsCount` | src/PipelineExecutor.cpp:216-236 | nothing but the shape changes, and the element count is kept for every tensor |
| `TensorBytes.EncodedRoundTrip` | src/TensorBytes.hpp:81-91 | a list of scalars is read back from its bytes |
| `TensorBytes.ScalarAtEncoded` | src/TensorBytes.hpp:87-91 | reading element i gives element i |
| `TensorBytes.LittleEndian` | src/TensorBytes.hpp:81-85 | byte k of an integer is its digit k in base 256 |
| `TensorBytes.FlattenCut` | src/PipelineStepsTasks.cpp:570-593 | offsets rise from 0 to the length, and cutting at them gives the parts back |
| `ScoreRanking.AheadIsTotalOrder` | src/PipelineEnvelope.cpp:15-22 | the comparator with stable ties is a strict total order, NaN included |
| `ScoreRanking.TopScoreIndices` | src/PipelineEnvelope.cpp:7-27 | the best `cap` scores in stable order with NaN last, and nothing left out is better |
| `ScoreRanking.TopUnique` | src/PipelineEnvelope.cpp:7-27 | that list is the only one |
| `ScoreRanking.TopMeans` | src/PipelineEnvelope.cpp:7-27 | a ranking, in the values the bits of the scores stand for: numbers first, greater before smaller, equal in order, and nothing left out may precede anything kept |
| `PipelineEnvelope.CollectDetections` | src/PipelineStepsTasks.cpp:482-525 | the best hundred detections, best first |
| `PipelineEnvelope.BestUnique` | src/PipelineStepsTasks.cpp:482-525 | only one list of detections meets that |
| `PipelineEnvelope.BestAre` | src/PipelineStepsTasks.cpp:482-525 | the detections are different results in order of score value, and one is left out only behind a hundred others it may not precede |
| `PipelineEnvelope.EncodeEnvelope` | src/PipelineStepsTasks.cpp:527-556 | count and full-length rows, zero rows behind the detections |
| `PipelineEnvelope.EnvelopeReadsBack` | src/PipelineStepsTasks.cpp:527-556 | reading every element back gives the count, the detections and zero rows |
| `PipelineEnvelope.EncodeMasks` | src/PipelineStepsTasks.cpp:570-593 | 101 offsets and the masks behind each other |
| `PipelineEnvelope.MasksReadBack` | src/PipelineStepsTasks.cpp:570-593 | 101 entries from 0 to the data length, recovering each detection's mask |
| `PipelineEnvelope.PolygonWriter.AppendRing` | src/PipelineStepsTasks.cpp:625-640 | a ring of three or more points is appended to all buffers, a shorter one to none |
| `PipelineEnvelope.EncodePolygons` | src/PipelineStepsTasks.cpp:595-623 | two levels of offsets over the points of all rings |
| `PipelineEnvelope.PolygonsReadBack` | src/PipelineStepsTasks.cpp:595-640 | cutting twice recovers exactly each detection's rings of three or more points |
| `PipelineEnvelope.RingsAre` | src/PipelineStepsTasks.cpp:595-640 | the rings of a detection are those of at least three points among each polygon's exterior and holes, in order |
| `ImageHeader.DecodedImageDimensions` | src/PipelineStepsTasks.cpp:39-193 | the walk over chunks or markers, inside the buffer and terminating, as one function |
| `ImageHeader.ReadPng` | src/PipelineStepsTasks.cpp:40-76 | the chunk walk |
| `ImageHeader.ReadJpeg` | src/PipelineStepsTasks.cpp:78-145 | the marker walk |
| `ImageHeader.PngFileRead` | src/PipelineStepsTasks.cpp:40-76 | every PNG gives its declared size, whatever chunks precede IHDR |
| `ImageHeader.PngOnly` | src/PipelineStepsTasks.cpp:40-76 | a size found is one an IHDR chunk declares behind whole chunks |
| `ImageHeader.JpegFileRead` | src/PipelineStepsTasks.cpp:78-145 | every JPEG gives its declared size, whatever fill bytes, stray bytes and segments precede the frame header |
| `ImageHeader.JpegOnly` | src/PipelineStepsTasks.cpp:78-145 | a size found is one a frame header declares behind whole segments |
| `ImageHeader.BmpFound` | src/PipelineStepsTasks.cpp:147-190 | magnitudes of signed extents, the least 32-bit integer included |
| `ImageHeader.HeaderExactly` | src/PipelineStepsTasks.cpp:39-193 | a size is found exactly for a PNG, a JPEG or a bitmap that declares it |
| `ImageHeader.OverCapIsProduct` | src/PipelineStepsTasks.cpp:344-346 | the division test is the product exceeding the cap |
| `Versions.NumericExactly` | src/ModelRepository.cpp:17-20 | a version is a name of one digit or more and nothing else |
| `Versions.HigherIsNumeric` | src/ModelRepository.cpp:117-125 | the comparison is numeric greater-than for digit strings of any length |
| `Versions.SameCanonicalIsSameValue` | src/ModelRepository.cpp:24-27 | canonical forms are equal exactly when the numbers are |
| `Versions.CanonicalForm` | src/ModelRepository.cpp:24-27 | no leading zeros, same number |
| `ModelRepository.PickModelFile` | src/ModelRepository.cpp:130-147 | the first recognised file of the best rank, none exactly when none is recognised |
| `ModelRepository.PickUnique` | src/ModelRepository.cpp:130-147 | only one file meets that |
| `ModelRepository.GroupVersionsDescending` | src/ModelRepository.cpp:154-188 | every numeric directory in the group of its number, groups in falling numeric order |
| `ModelRepository.ScanModel` | src/ModelRepository.cpp:215-241 | the highest version whose representative directory holds a recognised file |
| `ModelRepository.ResolveVersion` | src/ModelRepository.cpp:288-334 | the served file of a version, or none exactly when name, version or directory do not allow it |
| `ModelRepository.ScanResolveAgree` | src/ModelRepository.cpp:288-334 | every spelling of the scanned version resolves to the same file and backend, exactly when the model name is plain |
| `ModelRepository.BackslashNotResolved` | src/ModelRepository.cpp:303-309 | a directory named with a backslash that is scanned and not resolved |
| `BinaryCodec.TensorElementCount` | src/KServeV2Codec.cpp:110-125 | the true product, or an overflow exactly when the extents before the first non-positive one leave 64 bits |
| `BinaryCodec.CountIsTrue` | src/KServeV2Codec.cpp:110-125 | a count is never a wrapped product |
| `BinaryCodec.ParseInputs` | src/KServeV2Codec.cpp:295-395 | the first complaint in order, or every input with the bytes behind those of the inputs before it |
| `BinaryCodec.AcceptedNamesInputs` | src/KServeV2Codec.cpp:318-394 | an accepted request names every model input exactly once and nothing else |
| `BinaryCodec.AcceptedExactly` | src/KServeV2Codec.cpp:295-395 | which requests are accepted: datatype, rank, extents, element counts, data, names and body, both directions |
| `BinaryCodec.AcceptedInputs` | src/KServeV2Codec.cpp:341-380 | each input of an accepted request has its name, datatype and shape, and its own strings, numbers or part of the body |
| `BinaryCodec.NodeComplaint` | src/KServeV2Codec.cpp:318-390 | the complaint about one input is the first of the source's that applies |
| `BinaryCodec.RequestComplaint` | src/KServeV2Codec.cpp:295-394 | the complaint about a request is that of its first bad input, else the body left over, else the first model input missing |
| `BinaryCodec.AcceptedPartitionsBody` | src/KServeV2Codec.cpp:215-224 | the parts partition the body in order, nothing left over, with as many whole elements as the shapes |
| `BinaryCodec.CountAllowsRemainder` | src/KServeV2Codec.cpp:355-372 | the byte counts the element check lets through |
| `BinaryCodec.StrayBytesAccepted` | src/KServeV2Codec.cpp:355-372 | one FP32 element sent with seven bytes is accepted |
| `BinaryCodec.EncodeOutputs` | src/KServeV2Codec.cpp:465-486 | header entries and one blob |
| `BinaryCodec.FramingRoundTrip` | src/KServeV2Codec.cpp:183-224 | tensors encoded as sizes and a blob are read back byte for byte |

## Left out

- HTTP and gRPC servers, routing, logging and metrics: plumbing over the modelled parts; `requests_timed_out` is not an exact count in the source.
- JSON and protobuf text: the codec starts from a parsed header, with each `data` array given as what its two readers made of it.
- Backends, task library, image decoding, cutting a mask to its box: executors and steps are functions; floats truncated to coordinates come as integers.
- Floating-point conversion in `TensorBytes`; a score is the 32-bit integer with its bits, ordered as IEEE 754 orders floats. Buffers are little-endian.
- Memory ordering, condition variables of the queues, joins and real time: atomic steps, a clock that never goes back, waiters that may step when their condition holds.
- Allocation failures inside locked regions, except in `publishSnapshot` in the final swap of a load, reload or version switch, where they break what is said above.
- `markUnavailable` and state observers: no registry path reaches the first, and observers change nothing the model holds.
- Scheduler objects are numbers in the registry model; `stopAccepting` adds one to a set. Config and metadata are cut to the fields the lifecycle reads.
- Batch formation restarts its scan after every release of the queue lock; the source goes on with the old iterator there.
- Batching needs distinct input names, one leading extent per request, and exactly the bytes the shapes say, of at least one input; requests with BYTES inputs or
  scalars are never batched and are covered without that condition. The sum of sizes before a request is not wrapped in `DynamicBatcher.SliceOutput`.
- An executor is a function of its request in the scheduler models, so an executor that answers the same request differently each time is not covered; pipeline steps are not limited in this way.
- Cancel tokens set by callers of the tensor scheduler: its executors read the token (src/StubExecutor.cpp:21, src/NeuriploExecutor.cpp:196) and a merged
  request carries none, so such a request may be refused alone and served in a batch. The scheduler itself never reads it.
- ModelScheduler.Scheduler.SweepExpired: runs without interference, each flag read once; the protocol steps allow any interleaving and stale reads.
- ModelScheduler.Scheduler.KeepActive: as for `SweepExpired`.
- ScoreRanking.TopScoreIndices: the library's stable sort is written as a stable insertion sort with the same result.
- PipelineEnvelope.MasksReadBack: fewer than 2^63 bytes of masks.
- PipelineEnvelope.PolygonsReadBack: fewer than 2^63 points, each within 32 bits.
- ImageHeader.DecodedImageDimensions: TGA, which has no signature, is not recognised by the source either.
- `scanModelRepository` is modelled for one model; the loop over models, warnings, and the fields copied into a config only add easy members.
- LLM prompt validation and token estimates are parameters of the model; `resolveRepositoryModelVersion` starts from a directory that exists.
- The `id`, `outputs` and `parameters` fields of a request: field-by-field checks.
