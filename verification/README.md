# prime-rl: verified models of its core algorithms and protocols

prime-rl trains language models with reinforcement learning, asynchronously: a dispatcher keeps rollouts in
flight on inference servers, sinks collect them into training batches and eval epochs, a trainer packs them into
micro batches for its workers, and a watcher brings new weights back. This project models the parts of it whose
correctness is decided by their own code and proves what they promise.

| files | what they model |
|---|---|
| `DispatchProtocol`, `DispatchInvariant`, `DispatchSteps`, `DispatchTheorems`, `DispatchHistory`, `DispatchPolicy`, `Dispatcher` | the rollout dispatcher: three coroutines that interleave only at awaits. Each stretch between two awaits is one step of a state machine; the class `RolloutDispatcher` does these steps in place and is proved to do exactly them; what a run has done is told from its actions alone |
| `LagControl`, `Orchestrator` | how far the orchestrator may run ahead of the policy: weight watcher, main loop and dispatch gate, again as steps between awaits |
| `EvalSource`, `EvalSink`, `EvalEpochs`, `EvalPipeline` | eval epochs from the trigger through the dispatcher to the finished batch |
| `TrainSink`, `TrainCohorts`, `TrainPipeline` | groups, survivors and cohorts of the train sink, and what the dispatcher hands to it |
| `KarmarkarKarp`, `Balance` | k-way set differencing and swap refinement |
| `MicroBatches`, `Packing`, `Splitting`, `Batches`, `BatchContents`, `Adapters`, `Truncation` | from training samples to the micro batches of every worker |
| `Runs`, `RunAgreement` | the run registry of the master and the ranks that replay it |
| `CommandLoop`, `RolloutTheorems`, `RolloutOutcomes` | the terminal environment's command loop against any backend |
| `PassAtK`, `JsonRepair` | the pass@k estimator and the tolerant JSON scanner |
| `Arithmetic`, `Sequences`, `Wrappers` | shared facts and types |

Conventions. Where the source changes state in place the model is a class or a method with loops, proved equal to
a function or a step of the specification; the properties are lemmas about these. Assertions and exceptions of the
source are `Result` errors or preconditions on what its callers supply. Lengths, costs and token counts are
unbounded integers, as in Python; reward and probability arithmetic is over the reals.

What the environment is trusted for. `run_group` returns as many rollouts as were asked for, and a task still in
flight is never found cancelled. The train source's example, checkpoint and directory scans, backend replies,
filter verdicts and the order in which a heap or a set hands out its elements are arbitrary inputs.

Where the code departs from its comments or from what one might expect, the model follows the code:

- `runs.py` asks for one `synchronize_state` after each `discover_runs`, but the packer for several runs scans twice for each
  batch it waits for (`src/prime_rl/trainer/rl/packer.py:191` and `src/prime_rl/trainer/rl/packer.py:209`). `AgreesIffKept` says exactly when the ranks still agree, and `TwoScansCanFail` gives the case
  in which they do not.
- `_t2_first_json_object` closes a truncated object even after a pending backslash, which then escapes the closing
  character; `FirstObjectFixpoint` says that this is the only case in which its output is not stable, and `CutStringGrows`
  gives such a text.
- `split_by_workload` leaves its right side empty when every sample costs nothing (`EmptySideIffFree`, `TwoEmptySamples`); positive
  costs are therefore required where bins are split.
- `prepare_batch` takes samples of several adapters, but splitting a bin by workload does not keep them in adapter order,
  and the trainer then takes the wrong adapter for some tokens (`SplittingMixesAdapters`). It is right exactly for bins in adapter order
  (`RightAdapterIffInOrder`); the packer for several runs calls it with one adapter at a time, which is safe
  (`TokensReachTheirAdapters`).
- With a token target of zero the train sink still ships one rollout at a time, so cohorts are the shortest NON-EMPTY
  stretch.

## Model

| member | source | states |
|---|---|---|
| `DispatchTheorems.EveryRolloutAccounted` | src/prime_rl/orchestrator/dispatcher.py:398-631 | in every reachable state before draining, a group's rollouts put on the queue, claimed but not yet put, in flight, reserved and unscheduled add up to its target |
| `DispatchTheorems.SettledGroupComplete` | src/prime_rl/orchestrator/dispatcher.py:527-631 | a finished or dropped group has emitted exactly its target (less what draining cancelled), every rollout stamped with the group's own kind, environment, eval step and start version |
| `DispatchTheorems.NothingLost` | src/prime_rl/orchestrator/dispatcher.py:645-667 | only the train cancel of draining ever drops a rollout without a marker |
| `DispatchTheorems.PermitsExact` | src/prime_rl/orchestrator/dispatcher.py:337-396 | permits stay within 0 and the cap and are exactly the rollouts in flight plus what the one pending acquire has taken; that acquire also fits, although drops release permits between its check and its awaits |
| `DispatchTheorems.StalenessBounded` | src/prime_rl/orchestrator/dispatcher.py:265-292 | between two runs of `on_version_pending` no train task in flight is past the limit, and eval tasks are never aged or dropped by it |
| `DispatchTheorems.EvalRowsDelivered` | src/prime_rl/orchestrator/dispatcher.py:371-396 | once the eval groups have settled, every row ever triggered has a group of its own that put exactly `group_size` rollouts on the queue, draining or not |
| `DispatchTheorems.StepKeepsInv` | src/prime_rl/orchestrator/dispatcher.py:265-667 | every step of every coroutine keeps the invariant: structure, permits, group accounts, staleness and eval rows |
| `DispatchTheorems.RunKeepsInv` | src/prime_rl/orchestrator/dispatcher.py:265-667 | the invariant holds after any number of steps in any interleaving |
| `DispatchHistory.TaskAges` | src/prime_rl/orchestrator/dispatcher.py:265-287 | in every reachable state each task in flight was started by an action of its own, in order, and a train task's off-policy count is exactly the number of version updates announced since; eval tasks stay at 0 |
| `DispatchHistory.NoStaleTask` | src/prime_rl/orchestrator/dispatcher.py:265-292 | between two runs of `on_version_pending` no train task in flight has seen more than `max_off_policy_steps` updates since it was started |
| `DispatchHistory.UpdateDropsExactly` | src/prime_rl/orchestrator/dispatcher.py:275-287 | an update marks for dropping exactly the groups with a train task that has seen more updates than allowed, this one included |
| `DispatchHistory.ResultsConserved` | src/prime_rl/orchestrator/dispatcher.py:486-631 | every outcome a task reports, and every cancellation of a dropped group, reaches the queue exactly once, with the age its task had then, or is held by the coroutine about to put it; the queue has no others |
| `DispatchPolicy.GroupOrigin` | src/prime_rl/orchestrator/dispatcher.py:371-396 | every group was opened by an action of the run, for the example offered or the eval row then first in the queue, with its environment's size and scoring, under the policy version in force; it keeps all of these |
| `DispatchPolicy.TaskSizes` | src/prime_rl/orchestrator/dispatcher.py:437-473 | a task in flight is of its whole group if the group is scored as one, otherwise of one rollout |
| `DispatchPolicy.AlwaysEvalFirst` | src/prime_rl/orchestrator/dispatcher.py:294-328 | train work is preferred only when no eval row is queued and every open eval group is fully scheduled |
| `DispatchPolicy.TrainHoldsBack` | src/prime_rl/orchestrator/dispatcher.py:294-346 | scheduling of a train task begins only while the gate was last left open, draining has not begun and no eval work is waiting |
| `DispatchPolicy.OpenGroupsInOrder` | src/prime_rl/orchestrator/dispatcher.py:337-369 | the open groups are kept, each once, in the order in which they were opened |
| `DispatchPolicy.DrainDropsTrain` | src/prime_rl/orchestrator/dispatcher.py:645-667 | when draining begins every train task in flight goes and every eval task stays, and exactly the groups with a train task in flight are closed |
| `DispatchPolicy.PinnedByClient` | src/prime_rl/orchestrator/dispatcher.py:412-425 | a group gets its client only by the wait for that client, the loop's own |
| `DispatchPolicy.ClientArrives` | src/prime_rl/orchestrator/dispatcher.py:412-454 | when the client is there the group's next task is charged, of the whole group if it is scored as one and otherwise of one rollout, and no permit is taken yet; if the group was dropped meanwhile nothing changes but that the loop is free |
| `DispatchPolicy.DropRemembersLast` | src/prime_rl/orchestrator/dispatcher.py:549-608 | dropping a group remembers its last task in flight, if it had any, for the cancellations of its unscheduled rollouts |
| `DispatchSteps.ClaimKeepsPermits` | src/prime_rl/orchestrator/dispatcher.py:549-568 | claiming a stale group's tasks releases exactly their permits, also while another group is acquiring |
| `DispatchSteps.DrainKeepsStaleness` | src/prime_rl/orchestrator/dispatcher.py:645-667 | draining leaves only eval tasks in flight, so nothing stale remains |
| `Dispatcher.FirstFitIsComplete` | src/prime_rl/orchestrator/dispatcher.py:337-360 | the scheduler continues the first open group, in dictionary order, with rollouts left and a free permit for each of them if it is scored as a whole, otherwise for one; it passes to a fresh example only if there is none |
| `Dispatcher.RolloutDispatcher.constructor` | src/prime_rl/orchestrator/dispatcher.py:121-176 | a new dispatcher is in the initial state, which satisfies the invariant |
| `Dispatcher.RolloutDispatcher.TrySchedule` | src/prime_rl/orchestrator/dispatcher.py:337-396 | scheduling does exactly the protocol step of continuing the first fitting group, or else of opening one from the source, or nothing |
| `Dispatcher.RolloutDispatcher.FillOnce` | src/prime_rl/orchestrator/dispatcher.py:294-328 | a pass of the fill loop begins one task of the preferred kind, of an open group if one fits; or turns to train work when no eval work is left; or stops, and then only for lack of permits, a closed gate or work that does not fit |
| `Dispatcher.RolloutDispatcher.Charge` | src/prime_rl/orchestrator/dispatcher.py:437-454 | the task is charged to its group before its permits are acquired: the whole group when it is scored as one, else one rollout |
| `Dispatcher.RolloutDispatcher.PinClient` | src/prime_rl/orchestrator/dispatcher.py:412-425 | when the client is there, the group is charged, or given up if it was dropped meanwhile |
| `Dispatcher.RolloutDispatcher.AcquirePermit` | src/prime_rl/orchestrator/dispatcher.py:475-481 | each turn of the acquire loop takes one permit |
| `Dispatcher.RolloutDispatcher.StartTask` | src/prime_rl/orchestrator/dispatcher.py:464-473 | the task enters `inflight` with the group's start version and eval step and with all permits acquired |
| `Dispatcher.RolloutDispatcher.PopCompleted` | src/prime_rl/orchestrator/dispatcher.py:486-497 | a completed task leaves `inflight`, releases its permits and owes one rollout for each it was counted for |
| `Dispatcher.RolloutDispatcher.CountEmitted` | src/prime_rl/orchestrator/dispatcher.py:527-540 | an emission is counted on its group, which is closed exactly when its target is reached |
| `Dispatcher.RolloutDispatcher.StampNext` | src/prime_rl/orchestrator/dispatcher.py:527-547 | the next rollout is stamped from the group when it is known and from the task otherwise |
| `Dispatcher.RolloutDispatcher.PutNext` | src/prime_rl/orchestrator/dispatcher.py:527-547 | the stamped rollout, and no other, is put when the queue has room |
| `Dispatcher.RolloutDispatcher.BumpOffPolicy` | src/prime_rl/orchestrator/dispatcher.py:265-287 | every train task in flight ages by one, no other changes, and exactly the groups of train tasks then past the limit are to be dropped |
| `Dispatcher.RolloutDispatcher.TakeTasks` | src/prime_rl/orchestrator/dispatcher.py:557-568 | one sweep takes exactly the group's tasks out of `inflight`, keeps the rest in order, and releases exactly their permits |
| `Dispatcher.RolloutDispatcher.ClaimForDrop` | src/prime_rl/orchestrator/dispatcher.py:549-580 | claiming a group removes it and its tasks at once and owes one cancellation for each of their rollouts |
| `Dispatcher.RolloutDispatcher.ClaimUnscheduled` | src/prime_rl/orchestrator/dispatcher.py:585-608 | after those, one cancellation is owed for each rollout never scheduled |
| `Dispatcher.RolloutDispatcher.CancelTrain` | src/prime_rl/orchestrator/dispatcher.py:645-667 | the train tasks in flight and their groups are dropped and their permits released; eval tasks stay |
| `KarmarkarKarp.PairUpSpread` | src/prime_rl/trainer/utils.py:193-197 | merging two sorted states in opposite orders never spreads the loads further than the wider of the two |
| `KarmarkarKarp.MergeKeeps` | src/prime_rl/trainer/utils.py:193-197 | a merge keeps the items of both states, the sizes and the bound on the spread |
| `KarmarkarKarp.KKState.constructor` | src/prime_rl/trainer/utils.py:183-187 | a state starts with one item in each set, heaviest first |
| `KarmarkarKarp.KKState.Merge` | src/prime_rl/trainer/utils.py:193-197 | merging in place gives exactly the merged state, sorted |
| `KarmarkarKarp.KKState.Partitions` | src/prime_rl/trainer/utils.py:199-200 | each part is a sorted permutation of its set's items |
| `KarmarkarKarp.Run` | src/prime_rl/trainer/utils.py:208-222 | for any pop order: k parts of exactly n/k indices, every index once, loads no further apart than the widest run of k consecutive sorted weights |
| `Balance.AcceptedSwapShrinks` | src/prime_rl/trainer/utils.py:229-256 | a swap accepted on (max, spread) strictly shrinks the spread, never lowers the minimum and never raises the maximum |
| `Balance.BestSwap` | src/prime_rl/trainer/utils.py:229-248 | the four loops find the best-scoring swap of all pairs of parts and positions, or none improves |
| `Balance.RefineBySwapping` | src/prime_rl/trainer/utils.py:229-256 | refinement terminates, keeps part sizes and contents, never worsens max, min or spread, and leaves no improving swap |
| `Balance.NoSwapHelps` | src/prime_rl/trainer/utils.py:229-256 | at the end, exchanging any item of one part with any of a later one raises the heaviest load, or leaves it and does not narrow the spread |
| `Balance.BalancedPartition` | src/prime_rl/trainer/utils.py:259-265 | equal-sized parts using every index once, within the chunk spread, and optimal under single swaps |
| `Balance.WidestChunk` | src/prime_rl/trainer/utils.py:212-216 | the chunk spread is at most the difference between the heaviest and the lightest item |
| `Balance.LoadsAddUp` | src/prime_rl/trainer/utils.py:225-226 | the loads of any partition add up to the weights |
| `Balance.NearOptimal` | src/prime_rl/trainer/utils.py:259-265 | with spread at most d, W times the largest load is at most the total plus (W - 1) d, and the largest load is within d of that of ANY W-way partition |
| `Packing.PackFirstFit` | src/prime_rl/trainer/batch.py:347-359 | the packing loops put each sample into the first bin that can take it, else into a new one |
| `Packing.FirstFitStep` | src/prime_rl/trainer/batch.py:347-359 | each sample in turn goes to the end of the first bin that takes it (text only, same mode, both or neither with routed experts, within the limit), or into a new bin if none does |
| `Sequences.SortedIsStable` | src/prime_rl/trainer/batch.py:348 | sorting is stable: elements that compare alike keep their order |
| `Packing.FirstFitBins` | src/prime_rl/trainer/batch.py:208-220 | first fit keeps every sample once, every bin within the limit and of one class, multimodal samples alone, and no two text bins of a class that would fit together |
| `Packing.FirstFitNearOptimal` | src/prime_rl/trainer/batch.py:347-359 | a class with m >= 2 bins has m times the limit below twice its total length, and uses fewer than twice the bins of ANY packing of the class within the limit |
| `Splitting.WorkloadOfContents` | src/prime_rl/trainer/batch.py:222-223 | a bin's workload is the same in any order of its samples |
| `Splitting.CostIs` | src/prime_rl/trainer/batch.py:222-223 | a bin costs the linear share of its tokens and the quadratic share of each sequence, and costs add up |
| `Splitting.SplitByWorkload` | src/prime_rl/trainer/batch.py:225-242 | the splitting loop deals the ranked samples to the lighter side |
| `Splitting.SplitFairly` | src/prime_rl/trainer/batch.py:225-242 | the two sides of a split hold the samples of the whole, differ by at most the heaviest sample and weigh no more than the whole |
| `Splitting.EmptySideIffFree` | src/prime_rl/trainer/batch.py:225-242 | the right side of a split is empty if and only if every sample costs nothing |
| `Splitting.TwoEmptySamples` | src/prime_rl/trainer/batch.py:225-242 | two samples without tokens all go to the left side |
| `Splitting.PickHeaviest` | src/prime_rl/trainer/batch.py:319-326 | the bin to split is the one with the greatest (workload, index) among those with more than one sample |
| `Splitting.ExpandBinsBySplitting` | src/prime_rl/trainer/batch.py:315-329 | the loop splits the heaviest splittable bin until there are enough bins or none is left to split |
| `Splitting.ExpandedBins` | src/prime_rl/trainer/batch.py:315-329 | expansion keeps the samples, soundness and the limit, never raises the largest workload, and ends with exactly the target number of bins or one bin per sample |
| `Splitting.EnoughSamples` | src/prime_rl/trainer/batch.py:315-329 | with at least as many samples as bins wanted there are exactly that many bins |
| `Splitting.ExpandedEvenly` | src/prime_rl/trainer/batch.py:319-326 | no bin made by splitting is lighter than half of any bin left splittable, less the heaviest sample |
| `MicroBatches.JoinColumns` | src/prime_rl/trainer/batch.py:245-280 | the loop joins the columns of the samples in order |
| `MicroBatches.JoinOptional` | src/prime_rl/trainer/batch.py:246-292 | an optional column exists if and only if some sample has it, filled in for the others; every token is counted for its adapter |
| `MicroBatches.MaterializeBin` | src/prime_rl/trainer/batch.py:245-312 | materializing gives exactly the joined columns, lengths, adapter counts, and the first sample's images and mode |
| `MicroBatches.MaterializedLockstep` | src/prime_rl/trainer/batch.py:208-220 | packed samples agree on class, so every column of the batch, the routed experts too, has one entry per token and the adapter counts add up to the tokens |
| `MicroBatches.Unpack` | src/prime_rl/trainer/batch.py:245-312 | cutting the columns of a batch at its sequence lengths gives back every sample in order |
| `MicroBatches.PadMicroBatch` | src/prime_rl/trainer/batch.py:386-430 | padding fails exactly when env names and tokens differ in number; else it extends the batch to the next multiple |
| `MicroBatches.PaddingIsInert` | src/prime_rl/trainer/batch.py:386-430 | padding adds no loss and can be cut off again in every column: the padded batch falls into the original's sequences and at most one more |
| `MicroBatches.PaddingKeepsLockstep` | src/prime_rl/trainer/batch.py:386-430 | padding extends every column alike and counts its tokens for the last adapter |
| `MicroBatches.DummyHasNoLoss` | src/prime_rl/trainer/batch.py:433-438 | a dummy batch carries no loss |
| `Batches.PackedBins` | src/prime_rl/trainer/batch.py:332-368 | packing and splitting keep every sample exactly once in sound bins within the limit; with enough samples the number of bins is the target |
| `Batches.TargetIsMultiple` | src/prime_rl/trainer/batch.py:361-366 | the target is the smallest positive multiple of the number of workers that is at least the number of bins |
| `Batches.PackSamples` | src/prime_rl/trainer/batch.py:332-368 | samples are sorted by adapter and falling length, packed first fit, and split when there are several workers |
| `Batches.MaterializeAll` | src/prime_rl/trainer/batch.py:368 | every bin becomes one padded micro batch |
| `Batches.DistributeGroup` | src/prime_rl/trainer/batch.py:371-383 | every worker gets the same number, everything is given out once, and no two workers are further apart in cost than the costliest and the cheapest batch |
| `Batches.PrepareBatch` | src/prime_rl/trainer/batch.py:450-487 | all workers get the same number of micro batches with the same modality at each step; together they get exactly the packed batches and the dummies that fill up each group |
| `Batches.LossConserved` | src/prime_rl/trainer/batch.py:450-487 | the loss tokens over all workers are exactly those of the prepared samples |
| `BatchContents.BinRecovered` | src/prime_rl/trainer/batch.py:245-430 | a materialized and padded bin, cut at its recorded lengths, gives back its samples in order, in every column, with their images and mode, and at most one more sequence, of padding tokens without loss |
| `BatchContents.SamplesRecovered` | src/prime_rl/trainer/batch.py:332-487 | the micro batches of all workers are real ones and at most `workers - 1` loss-free copies of them per modality; cut back, the real ones together hold exactly the samples that went in, each once and unchanged |
| `Adapters.PackedByAdapter` | src/prime_rl/trainer/batch.py:347-359 | before splitting, and so with one worker, the samples of every bin come by adapter, and within an adapter the longer ones first |
| `Adapters.CutByAdapter` | src/prime_rl/trainer/batch.py:264-292 | in a bin in adapter order, cutting any column at `lora_num_tokens` gives each adapter exactly the entries of its own samples |
| `Adapters.RightAdapterIffInOrder` | src/prime_rl/trainer/models/layers/lora/multi_linear.py:136-154 | the trainer takes the right adapter for every token if and only if the samples with tokens come in rising order of their adapters |
| `Adapters.TokensReachTheirAdapters` | src/prime_rl/trainer/batch.py:332-430 | with one worker, or samples of one adapter only, every token of every padded micro batch reaches its own sample's adapter, and the padding goes with the last one |
| `Adapters.SplittingMixesAdapters` | src/prime_rl/trainer/batch.py:225-242 | a bin of three samples of two adapters, in packing order, whose split by workload leaves a half in which the trainer takes the wrong adapter |
| `Batches.NoDummyForText` | src/prime_rl/trainer/batch.py:361-366 | an all-text batch with at least as many samples as the target needs no dummy |
| `Truncation.TruncateImages` | src/prime_rl/trainer/batch.py:57-95 | the truncation loops compute the cut, the images kept and their rows |
| `Truncation.TokensRecovered` | src/prime_rl/trainer/batch.py:67-72 | the code recovers every image's token count from the patch counts |
| `Truncation.TruncationKeepsWholeImages` | src/prime_rl/trainer/batch.py:57-95 | the cut is the LARGEST within `seq_len` at which the surviving image tokens are those of a whole number of leading images; grid rows and pixel rows kept are exactly theirs |
| `Truncation.PreparedSample` | src/prime_rl/trainer/batch.py:98-190 | a prepared sample is the same leading part of the original in every column (ids, mask, token kinds, routed experts), no longer than `seq_len`, uncut if it fits; for a multimodal sample it is the longest such part whose placeholders are those of a whole number of leading images, with exactly their grid rows and pixel rows |
| `Truncation.TruncateFailsIff` | src/prime_rl/trainer/batch.py:57-95 | truncation fails exactly when a sample with images has fewer pixel rows than placeholders |
| `Truncation.PrepareFailsIff` | src/prime_rl/trainer/batch.py:98-190 | a sample that needs no truncation fails exactly for the reserved environment name or columns of different length; an aligned one that needs it, exactly for the name or when truncating its images fails |
| `Truncation.UncountedImagesStay` | src/prime_rl/trainer/batch.py:98-190 | a long sample without token kinds is cut at `seq_len` and keeps its images |
| `Runs.MultiRunManager.CreateRunData` | src/prime_rl/trainer/runs.py:273-293 | a new run is entered in both maps, leaves the unused slots and starts at 0, at the configured step, or, for -1, at its newest checkpoint |
| `Runs.MultiRunManager.DeleteRunData` | src/prime_rl/trainer/runs.py:295-307 | a deleted run leaves every table, its slot becomes unused and its scaling factor is reset |
| `Runs.CreatedKeeps` | src/prime_rl/trainer/runs.py:273-293 | entering a run keeps the maps inverse and the unused slots their complement |
| `Runs.RemovedKeeps` | src/prime_rl/trainer/runs.py:295-307 | removing a run keeps the maps inverse and the unused slots their complement |
| `Runs.MultiRunManager.ForgetRuns` | src/prime_rl/trainer/runs.py:369-377 | exactly the missing runs are forgotten, each with one call, and the others keep slot, configuration and progress |
| `Runs.MultiRunManager.AdoptRuns` | src/prime_rl/trainer/runs.py:379-392 | each new run with a configuration takes a free slot; one is left out only if no slot is free |
| `Runs.MultiRunManager.DiscoverRuns` | src/prime_rl/trainer/runs.py:354-392 | a scan drops the runs that are gone and blows up their scaling factors, keeps slot, configuration and progress of those that stay, and takes in new ones, at the step each is to start from, while slots last |
| `Runs.MultiRunManager.SyncMaster` | src/prime_rl/trainer/runs.py:402-459 | the master sends its tables with the configurations of the runs new since the last synchronization, and calls the hooks of that difference: first each deletion once, then each creation once |
| `Runs.MultiRunManager.SyncReplica` | src/prime_rl/trainer/runs.py:423-459 | another rank replays the difference of the key sets; it fails if and only if some new run's slot is not free or its configuration is missing; and it calls each deletion hook once, then each creation hook once |
| `Runs.CalledForEach` | src/prime_rl/trainer/runs.py:448-455 | each run that went has exactly one deletion call, with the slot it had, among the first calls; each that came exactly one creation call among the rest |
| `RunAgreement.AgreesIffKept` | src/prime_rl/trainer/runs.py:423-446 | after a replay a rank agrees with the master if and only if no run known on both sides was moved or reconfigured since the last synchronization |
| `RunAgreement.KeptIsApplicable` | src/prime_rl/trainer/runs.py:433-443 | if nothing was moved, the replay cannot fail, also when a freed slot is reused |
| `RunAgreement.RoundAgrees` | src/prime_rl/trainer/runs.py:354-459 | after a round of at most one scan and a synchronization all ranks agree again |
| `RunAgreement.AlwaysAgreed` | src/prime_rl/trainer/runs.py:354-459 | over any number of rounds all ranks agree on both maps, unused slots, configurations and progress, and the tables are consistent |
| `RunAgreement.NewRunStartsEverywhere` | src/prime_rl/trainer/runs.py:273-293 | a run taken in by a scan starts on every rank at 0, at the configured step, or, for -1, at its newest checkpoint or 0 |
| `RunAgreement.SendsNewConfigs` | src/prime_rl/trainer/runs.py:402-421 | the master sends the configurations of exactly the runs new since the last synchronization |
| `RunAgreement.RoundScales` | src/prime_rl/trainer/runs.py:423-446 | after a round a rank's scaling factors are the master's, except that those of slots freed by its own replay are blown up |
| `RunAgreement.RoundCannotFail` | src/prime_rl/trainer/runs.py:448-455 | whatever one scan finds, every rank can replay it and makes the same deletion and creation calls as the master |
| `RunAgreement.TwoScansCanFail` | src/prime_rl/trainer/runs.py:354-392 | with two scans before one synchronization a run can come back in another slot, and then the replay of another rank fails |
| `CommandLoop.Rollout.constructor` | environments/vmvm_tb_v2/vmvm_tb_v2/env.py:381-475 | setup leaves a rollout ready, or ended as an environment error with no box |
| `CommandLoop.Rollout.TryToRecover` | environments/vmvm_tb_v2/vmvm_tb_v2/env.py:604-667 | one pass of the inner loop: a restart while the budget lasts and the backend can, then an inquiry for the last result, and exactly one drop event |
| `CommandLoop.Rollout.RecoverCommand` | environments/vmvm_tb_v2/vmvm_tb_v2/env.py:603-667 | the inner loop ends with the result of the command or with the box or its shell lost |
| `CommandLoop.Rollout.RunCommands` | environments/vmvm_tb_v2/vmvm_tb_v2/env.py:564-670 | the outer loop runs the commands of a turn in order and stops at the first that is lost |
| `CommandLoop.Rollout.GiveUp` | environments/vmvm_tb_v2/vmvm_tb_v2/env.py:675-725 | a lost rollout is complete, an environment error with reward 0, and its box is destroyed |
| `CommandLoop.Rollout.EnvResponse` | environments/vmvm_tb_v2/vmvm_tb_v2/env.py:491-733 | a turn follows the guards, the parse and submit branches, and the command loop |
| `CommandLoop.Rollout.Finalize` | environments/vmvm_tb_v2/vmvm_tb_v2/env.py:770-860 | grading happens only on a box that is still there, which is then destroyed |
| `RolloutTheorems.ExecuteOneFacts` | environments/vmvm_tb_v2/vmvm_tb_v2/env.py:565-667 | a command is sent to the box exactly once, however often its connection drops |
| `RolloutTheorems.ExecuteAnswers` | environments/vmvm_tb_v2/vmvm_tb_v2/env.py:564-670 | every output of the command loop, also before a loss, answers the command of its own place |
| `RolloutTheorems.TurnDelivers` | environments/vmvm_tb_v2/vmvm_tb_v2/env.py:557-733 | a turn that survives returns for each command, in order, the box's answer to the call that sent it or, if that was a drop, the first answer to an inquiry after it, and before the next command is sent, that was none; no output is the sign of a drop; a turn that does not survive is the only one that raises |
| `RolloutTheorems.TurnKeepsSound` | environments/vmvm_tb_v2/vmvm_tb_v2/env.py:491-733 | every turn keeps the rollout's invariant and sends a leading part of its commands, all of them unless the box or shell is lost |
| `RolloutTheorems.RolloutSound` | environments/vmvm_tb_v2/vmvm_tb_v2/env.py:557-860 | for any backend, turns and grading: at most cap restarts over the rollout, as many drop events as reconnects, unrecovered drops 0 or exactly 1 when the box or shell was lost, commands in order and each once, and nothing asked of a destroyed box |
| `RolloutOutcomes.RolloutExplained` | environments/vmvm_tb_v2/vmvm_tb_v2/env.py:557-733 | for any backend: every drop is met by a restart while the budget lasts; a box counts as gone only if the backend cannot restart, the budget is used up or the last restart failed; a shell as lost only if the box was back but the command was not; turns are numbered, and the finished and lost commands on record are all that were sent |
| `RolloutOutcomes.TurnSurvives` | environments/vmvm_tb_v2/vmvm_tb_v2/env.py:597-667 | with budget left for every command, and a backend that comes back with the results, a turn survives whatever drops, using one reconnect for each drop |
| `RolloutOutcomes.WhatATurnTells` | environments/vmvm_tb_v2/vmvm_tb_v2/env.py:491-733 | what each kind of turn tells the agent, and whether the rollout goes on |
| `RolloutOutcomes.DriveStops` | environments/vmvm_tb_v2/vmvm_tb_v2/env.py:735-741 | another turn is taken exactly until the task is complete or there are more parse errors than may be retried |
| `RolloutOutcomes.HowItStarts` | environments/vmvm_tb_v2/vmvm_tb_v2/env.py:381-475 | a failed setup is an environment error worth 0 without a box; one that was leased is destroyed |
| `RolloutOutcomes.WhatItIsWorth` | environments/vmvm_tb_v2/vmvm_tb_v2/env.py:770-860 | a graded pass is worth 1 and anything else 0, less the penalty; grading that fails is worth 0 and on record; without a box nothing is graded |
| `EvalSource.RoundRobinOrder` | src/prime_rl/orchestrator/eval_source.py:57-68 | the queueing order holds every example of every fired environment exactly once, all first ones before all second ones, and so on |
| `EvalSource.EvalSource.Trigger` | src/prime_rl/orchestrator/eval_source.py:47-69 | a trigger queues the rows of the environments that fire, and only the first trigger of a fresh run is special |
| `EvalSource.EvalSource.NextExample` | src/prime_rl/orchestrator/eval_source.py:71-81 | the head of the queue is popped if and only if its cost fits |
| `EvalSink.EvalSink.Add` | src/prime_rl/orchestrator/eval_sink.py:90-101 | an arrival joins its group; a full group moves to its epoch; a full epoch is returned and removed |
| `EvalEpochs.EpochBatch` | src/prime_rl/orchestrator/eval_sink.py:90-101 | while other groups and epochs may be incomplete: an arrival returns a batch if and only if it makes its epoch's arrivals as many as the batch size; the batch then holds exactly that epoch's rollouts, `group_size` of every group, and a group for each example |
| `EvalEpochs.NeverEarly` | src/prime_rl/orchestrator/eval_sink.py:90-101 | an epoch that has been returned had all its rollouts, and none arrives later |
| `EvalEpochs.NeverTwice` | src/prime_rl/orchestrator/eval_sink.py:90-101 | no two arrivals return the same epoch |
| `EvalEpochs.OneBatchPerEpoch` | src/prime_rl/orchestrator/eval_sink.py:90-168 | whatever the order of arrivals and whatever other epochs still miss, an epoch all of whose rollouts have arrived was returned by exactly one arrival, with exactly `group_size` rollouts of every group, and nothing of it is left |
| `EvalEpochs.EpochLeavesNothing` | src/prime_rl/orchestrator/eval_sink.py:140-168 | when all rollouts of an epoch have arrived, neither its bucket nor any of its groups holds anything |
| `EvalPipeline.TriggeredRows` | src/prime_rl/orchestrator/eval_source.py:47-69 | the rows of each epoch queued by triggers at distinct steps are one for each example of its environment: their task indices are exactly the environment's, in order |
| `EvalPipeline.EpochTasks` | src/prime_rl/orchestrator/eval_source.py:47-69 | for every environment and step, the rows queued are the environment's examples, each once and in order, if it fires there (at the startup trigger of a fresh run unless skipped, at any other when its interval divides the step), and none if it does not |
| `EvalPipeline.ArrivalsFit` | src/prime_rl/orchestrator/dispatcher.py:371-396 | at any moment, what the dispatcher has handed on fits the sink: groups of one epoch and at most `group_size`, and at most one group for each example of an epoch |
| `EvalPipeline.BatchesAreWhole` | src/prime_rl/orchestrator/orchestrator.py:594-606 | at any moment of any run, with evals overlapping or hanging: every batch the sink has returned holds exactly `group_size` rollouts for every row of its epoch, and its epoch is returned by no other arrival |
| `EvalPipeline.EveryEpochOnce` | src/prime_rl/orchestrator/eval_sink.py:90-168 | in any run, an epoch whose own rows have their groups and whose own groups have settled, whatever the others do, has been returned by exactly one arrival; for EVERY row of the epoch the batch holds exactly `group_size` rollouts of that row's own group; the rows are one for each example; and the sink keeps nothing of the epoch |
| `TrainSink.TrainSink.Add` | src/prime_rl/orchestrator/train_sink.py:220-245 | an arrival joins its group, a full group is finished, and a ready batch is shipped, at most one per arrival |
| `TrainSink.TrainSink.Select` | src/prime_rl/orchestrator/train_sink.py:281-331 | the branches of group processing keep exactly the survivors, which `TrainCohorts.SurvivorsAreExact` describes |
| `TrainSink.TrainSink.TakeIn` | src/prime_rl/orchestrator/train_sink.py:353-368 | survivors are appended in order and their tokens counted when batches are cut by tokens |
| `TrainSink.TrainSink.Ship` | src/prime_rl/orchestrator/train_sink.py:385-405 | the cohort is the leading part up to the cut; the rest and its tokens stay |
| `TrainCohorts.CohortsConserved` | src/prime_rl/orchestrator/train_sink.py:220-405 | at any point of any run the survivors of the completed groups are the shipped cohorts followed by the pending batch, the token counter is its token sum, and every cohort has exactly the batch size or is the shortest non-empty stretch reaching the token target |
| `TrainCohorts.CutIsShortest` | src/prime_rl/orchestrator/train_sink.py:394-402 | the token loop stops at the first rollout that reaches the target |
| `TrainCohorts.SurvivorsAreClean` | src/prime_rl/orchestrator/train_sink.py:281-334 | a group scored as a whole with an error, or with a dropped context limit, contributes nothing; otherwise nothing with an error survives |
| `TrainCohorts.SurvivorsAreExact` | src/prime_rl/orchestrator/train_sink.py:281-368 | the survivors of a group are exactly, in order and as often as they are there, the rollouts that finished, did not run out of context if such are dropped, and pass the filters; none if the group is scored as a whole and any rollout of it is not good |
| `TrainCohorts.NoGoodRolloutLost` | src/prime_rl/orchestrator/train_sink.py:220-405 | the shipped cohorts and the pending batch, one after another, are exactly what the arrivals contribute |
| `TrainCohorts.ShipsWhenFull` | src/prime_rl/orchestrator/train_sink.py:220-245 | an arrival ships a cohort exactly when the pending batch, with what it contributes, has the batch size or the token target |
| `TrainCohorts.TokensOfOne` | src/prime_rl/orchestrator/train_sink.py:394-398 | a rollout in the pending batch counts exactly its own tokens |
| `TrainCohorts.ShippedIsClean` | src/prime_rl/orchestrator/train_sink.py:281-306 | nothing ever shipped comes from a group scored as a whole that had an error |
| `TrainPipeline.TrainGroupsAreSized` | src/prime_rl/orchestrator/dispatcher.py:371-396 | in every reachable state of the dispatcher each train group is of a configured train environment and has its group size as target |
| `TrainPipeline.TrainArrivalsFit` | src/prime_rl/orchestrator/dispatcher.py:371-396 | what the train sink has been given at any moment of any run are groups of one environment and of at most its group size |
| `TrainPipeline.RolloutsReachCohorts` | src/prime_rl/orchestrator/orchestrator.py:594-609 | in any run of the dispatcher, after any number of rollouts read, the shipped cohorts followed by the pending batch are exactly what the arrivals contribute: all good rollouts of each completed group that pass the filters, unless the group is spoiled; every cohort is of the right size, and nothing shipped has an error |
| `LagControl.StepKeepsInv` | src/prime_rl/orchestrator/orchestrator.py:991-1017 | every step of the watcher and the main loop keeps the gate, version and step invariants |
| `LagControl.RunKeepsInv` | src/prime_rl/orchestrator/orchestrator.py:678-787 | in every reachable state an open gate means step <= version + 1 and a closed one step > version; the watcher's checkpoint is the policy version and every update raised it; shipped steps are consecutive and below `max_steps`; nothing ships after draining begins |
| `LagControl.CaughtUpIsOpen` | src/prime_rl/orchestrator/orchestrator.py:991-1017 | when the policy has reached the orchestrator's step the gate is open |
| `LagControl.UpdateSetsGate` | src/prime_rl/orchestrator/orchestrator.py:991-1017 | an update leaves the gate open if and only if the orchestrator is no further than the new version |
| `LagControl.PollTakesNewer` | src/prime_rl/orchestrator/watcher.py:49-72 | a poll waits for the checkpoint it sees if and only if that is newer than the policy |
| `LagControl.VersionsArePolled` | src/prime_rl/orchestrator/watcher.py:49-124 | every version the policy ever had after the start is of a checkpoint a poll had seen |
| `LagControl.VersionsGrow` | src/prime_rl/orchestrator/watcher.py:74-124 | versions never fall along a run and every update strictly raises them |
| `LagControl.NothingAfterDraining` | src/prime_rl/orchestrator/orchestrator.py:609-632 | once draining has begun, the step and what was shipped never change again |
| `LagControl.BatchShipsOnce` | src/prime_rl/orchestrator/orchestrator.py:678-787 | whatever the watcher does while the batch is saved and sent: it ships, under the step read at the start, if and only if it is trainable and below `max_steps`; then the gate is as open as the version then in force allows; draining begins exactly at `max_steps` |
| `Orchestrator.Orchestrator.UpdateDispatchGate` | src/prime_rl/orchestrator/orchestrator.py:991-1010 | the gate is open if and only if the next batch would run at most the target ahead |
| `Orchestrator.Orchestrator.CheckBatch` | src/prime_rl/orchestrator/orchestrator.py:678-713 | a batch at `max_steps` begins draining, one with nothing to train on is skipped, any other is sent |
| `Orchestrator.Orchestrator.AdvanceStep` | src/prime_rl/orchestrator/orchestrator.py:740-787 | after the send the gate is set from the step before it is advanced |
| `Orchestrator.WeightWatcher.PollOnce` | src/prime_rl/orchestrator/watcher.py:49-72 | a checkpoint is waited for if and only if it is newer than the one in use |
| `Orchestrator.WeightWatcher.AdoptLoaded` | src/prime_rl/orchestrator/watcher.py:74-124 | checkpoint and version change together and the gate is set again in the same step |
| `Orchestrator.FinalizeTrainBatch` | src/prime_rl/orchestrator/orchestrator.py:678-787 | the whole of `finalize_train_batch`, with the watcher's turns at its waits, is the composition of the protocol's steps |
| `PassAtK.SubsetCount` | src/prime_rl/orchestrator/eval_utils.py:5-7 | there are C(n, k) subsets of size k |
| `PassAtK.Absorption` | src/prime_rl/orchestrator/eval_utils.py:4-11 | (n - k) C(n, k) = n C(n - 1, k), the factor of the product |
| `PassAtK.Estimate` | src/prime_rl/orchestrator/eval_utils.py:4-11 | the product form is exactly 1 - C(n - c, k) / C(n, k), and 1 when fewer than k attempts failed |
| `PassAtK.RatioIsHitRate` | src/prime_rl/orchestrator/eval_utils.py:5-11 | that ratio is the fraction of the k-subsets of the attempts that contain a success |
| `PassAtK.PowersUpTo` | src/prime_rl/orchestrator/eval_utils.py:17 | 2^i is at most n if and only if i is below the bit length of n |
| `PassAtK.Compute` | src/prime_rl/orchestrator/eval_utils.py:14-18 | exactly the powers of two up to n are reported, each with the exact chance that k attempts include a success |
| `JsonRepair.Repair` | environments/vmvm_tb_v2/vmvm_tb_v2/parsers.py:48-80 | the loop computes the second pass over the fixed escapes |
| `JsonRepair.RepairIsIdempotent` | environments/vmvm_tb_v2/vmvm_tb_v2/parsers.py:8-80 | repairing gives clean text, changes nothing if and only if the text is clean already, and is idempotent |
| `JsonRepair.RepairKeepsMeaning` | environments/vmvm_tb_v2/vmvm_tb_v2/parsers.py:8-80 | a strict JSON reader takes from the repaired text exactly what the writer meant: valid escapes as they are, any other backslash as itself, raw newlines, carriage returns and tabs as themselves |
| `JsonRepair.RepairedInOrder` | environments/vmvm_tb_v2/vmvm_tb_v2/parsers.py:8-80 | in a repaired text no string holds a raw newline, carriage return or tab, and every escape is a valid one |
| `JsonRepair.FirstJsonObject` | environments/vmvm_tb_v2/vmvm_tb_v2/parsers.py:13-46 | the scanning loop returns the text up to the closing brace, or all of it closed |
| `JsonRepair.FirstObjectIs` | environments/vmvm_tb_v2/vmvm_tb_v2/parsers.py:13-46 | the first object starts at the first brace and is the shortest text from there in which every brace outside strings is closed again; if there is none, the text with its string and braces closed; without a brace there is none |
| `JsonRepair.FirstObjectFixpoint` | environments/vmvm_tb_v2/vmvm_tb_v2/parsers.py:13-46 | scanning the scanner's output again gives it back if and only if the input was not cut right after a backslash inside the object |
| `JsonRepair.CutStringGrows` | environments/vmvm_tb_v2/vmvm_tb_v2/parsers.py:13-46 | a text cut off after a backslash in a string is closed twice when extracted twice |
| `JsonRepair.ScanKeepsText` | environments/vmvm_tb_v2/vmvm_tb_v2/parsers.py:13-46 | the output is a leading part of the input, or the input followed by what closes it |

## Left out

- Shutdown (`cancel_inflight_rollouts`, `stop`): it drops rollouts without markers by design; only the train cancel of draining is modelled.
- Identity of group and task objects in the dispatcher: `groups` and `inflight` are a map with an ordered key list and a sequence of records; aliasing of a `GroupState` held across awaits is modelled by the store that keeps closed groups.
- `_WeightedSet` and the heap: sets are values inside the `KKState` objects, and a pop takes any two states; the bounds do not depend on the order.
- `_MicroBatchBin` and `MicroBatch` in place: bins and batches are values; sharing between a batch and the lists of its first sample is not captured.
- Columns treated exactly like modelled ones: inference logprobs, temperatures, teacher logprobs and rewards of a micro batch.
- Scaling factors across ranks: the replay writes its reset after copying the master's factors, so a slot freed and reused in one round can differ; `RoundScales` states what each rank ends with.
- `is_idle`: it looks at neither unscheduled rollouts nor the acquire window, so nothing is claimed about it.
- Real time: timeouts, rate limits, polling intervals and wall-clock caps are points where other steps may happen, or a flag of the turn.
- Grading itself, SSH and VM handling, inference servers, the trainer, torch and logging are not part of this model.
- Exceptions thrown by `run_bash`, `restart_session` or `recover_last`: the backend answers every call.
- Aborting the run after too many batches without anything to train on.
- Advantages, filters and metrics: a filter is any verdict on a survivor given its group; numbers derived for display are not modelled.
- LoRA tensors, checkpoint retention, configuration parsing and the older environment copies `vmvm_tb` and `vmvm_tb_v1`.
- EvalPipeline.EveryEpochOnce: that the groups of an epoch do settle depends on the inference servers and is not claimed; until they have, `BatchesAreWhole` says that the epoch is not returned early, twice or in part.
