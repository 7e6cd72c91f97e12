# Verified model of the OpenShift upgrade controller

The project models the four controllers of the repository and proves what they keep over whole runs.

**Upgrade jobs** (`Objects`, `Protocol`, `RunSafety`, `RunTheorems`, `HookSkips`, `SkippingRuns`, `ApiServers`, `HookRuns`, `DelayedPools`,
`PassEffects`, `Outcomes`, `Verdicts`, `UpgradeJobControllers`, `Progress`, `FavourablePasses`, `Counterexamples`). The store is a value, `World`. A run is an
initial store and a sequence of steps, one for each API call that lands and one for the read of the job with which a pass begins, taken
by any number of job controllers, the cluster version controller and everybody else in any interleaving. `LegalStep` says what each
actor may do, and on which earlier states of the run a decision may be based: windows, hooks and pools must have been listed in the
pass of the step, that is, after its read of the job and with no read of the job in between, and the cluster version
must have carried the job's lock. The theorems of `RunTheorems` hold of every legal run, and `HookSkips` and `SkippingRuns` say exactly
when a job that has begun its upgrade may still be skipped by a hook. The controller itself is imperative: `UpgradeJobReconciler` has the working copy
of the job as a field and calls an `ApiServer` object whose contract lets others act between any two calls, lets any write conflict or
land unnoticed, and returns stale cluster versions. Each write obliges the controller to prove that the step is legal if it
lands, so that a crash after any call leaves a legal run. For a quiet server, on which nobody else acts, the methods are also proved to end
exactly in the state that the functions of `PassEffects` give, and `Outcomes` says of every stage what that is in terms of the fields of the
stored objects alone; `Progress` bounds the number of such passes, and `FavourablePasses` shows that
the passes of the controller are the ones that it counts.

**The cluster version** (`ClusterVersionControllers`) works on the same server, as a second writer of the locked object.

**The scheduler** (`Schedules`, `ScheduledJobs`, `UpgradeConfigControllers`) and **forced drains** (`NodeDrains`,
`NodeForceDrainControllers`) have servers of their own, whose invariants over the history of creations and deletions are the whole-run
properties. `Sorting` states what sorting promises.

## Assumptions

- Updates and creations are atomic and fail on a stale resource version or an existing name. Upgrade jobs, hooks, batch jobs and pools are
  read fresh; the cluster version may be stale. The clock is read once per pass.
- Nobody but the controllers edits the lock, marks, finalizers, claims, trackers, drain logs or the status of jobs; specs of upgrade jobs
  do not change; upgrade jobs, hooks and pools are not removed; UIDs are distinct and not empty.
- Others delete any job of an upgrade config but the newest. `DeletedJobIsCreatedAgain` shows what happens otherwise.
- A cron expression has a next activation after every time. Selectors, version precedence, ISO weeks, cron expressions, locations, pod queries and
  job names are functions or values about which only what is stated is assumed.
- A cluster version spec is its managed fields, as a map, and the desired update; merging an overlay overrides fields. The merge
  happens before its result is returned, as the repository's test of the reconciler expects, although the order of evaluation
  in `return o, *b, mergo.Merge(...)` is left open by the language.

Where code and comments disagree the model follows the code: the history limit defaults to 4 (`api/v1beta1/upgradeconfig_types.go:38`
says 3), and a pass records at most one new drain (`controllers/node_force_drain_controller.go:150-153`), since the
short-circuit skips the other nodes.

Three properties that one might expect hold only under a condition, which is exact in each case. A job that a hook asks to skip has left the
cluster alone unless the hook was not there, did not apply or could not ask when the job touched the cluster (`SkippedAfterTouching`);
from any state of any run, a started job can still be skipped by its hooks exactly if `MaySkip` holds of that state (`MaySkipIsExact`,
with a concrete run in `HookMaySkipLockedJob`). A slot is used once as long as the newest job is not deleted, and again after that
exactly if an older job is left and the window of the slot is open (`DeletedJobIsCreatedAgain`). The force drain requeue is the least
timer exactly unless the pod grace period is negative and a pod was deleted (`RequeueIsLeast`).

## Model

| member | source | states |
|---|---|---|
| `RunTheorems.ExclusiveUpgrade` | controllers/upgradejob_controller.go:200-250 | Between a step of one job's upgrade (desired version or delayed pool written) and such a step of another job, the first job has become terminal; each acts while it is named in the lock, whatever stale copies of the cluster version were read |
| `RunTheorems.LockHandover` | controllers/upgradejob_controller.go:457-494 | Over every run the lock moves only from nobody to the acting job and from an acting terminal job to nobody |
| `RunTheorems.DesiredUpdateIsOwned` | controllers/upgradejob_controller.go:231-250 | A step of any controller that changes the desired update is the lock holder's, and sets that job's desired version; the cluster version controller never changes it |
| `RunTheorems.DesiredUpdateStays` | controllers/upgradejob_controller.go:231-252 | Unless somebody outside of the controllers edits it, the desired update stays what the job has written until the job is terminal |
| `RunTheorems.HookRunsAtMostOnce` | controllers/upgradejob_controller.go:614-653 | In a whole run, with crashes anywhere and finished batch jobs deleted by others, at most one batch job is created per upgrade job, hook, event and tracking key |
| `RunSafety.StaysAccounted` | controllers/upgradejob_controller.go:817-880 | A batch job that was created is in the store or its terminal result is in the status, ever after |
| `RunTheorems.OutcomeIsFinal` | controllers/upgradejob_controller.go:96-122 | At most one of Succeeded and Failed is present, it is True, and no later step changes its status, reason or time |
| `RunTheorems.Origin` | controllers/upgradejob_controller.go:406-409 | Every condition that is True was made True by a step of the job's own controller that was permitted and had its grounds |
| `RunTheorems.WasStarted` | controllers/upgradejob_controller.go:132-174 | Started was set in [StartAfter, StartBefore], in a pass that had found the Create gate open and had then listed no suspension window that selects the job and contains the time |
| `RunTheorems.StandingWindowSuspends` | controllers/upgradejob_controller.go:1061-1103 | A matching suspension window that is in the store from the beginning of a pass keeps the pass from starting the job |
| `RunTheorems.GatesComeFirst` | controllers/upgradejob_controller.go:124-198 | Before the verdict of its Create hooks nothing is written to the status of an unfinished job until the pass has found the Create gate open, and only a start, skip, expiry, time-out or verdict of the Start hooks until it has found the Start gate open |
| `RunTheorems.PassedCheck` | controllers/upgradejob_controller.go:412-455 | A health check condition is True because the operators were seen healthy, or the check was to be skipped, while the job held the lock, in a pass that had found both gates open and had begun after the start, after the check had begun and, for the second check, after completion |
| `RunTheorems.ReachedVersion` | controllers/upgradejob_controller.go:252-289 | UpgradeCompleted is True because the desired version was seen to be set and completed while the job held the lock, and all pools not paused were listed as updated in a pass that began after the upgrade had been recorded as begun, which needed the same version to be seen as set |
| `RunTheorems.UpgradeHasBegun` | controllers/upgradejob_controller.go:254-263 | An upgrade is recorded as begun only when the desired version was seen to be set while the job held the lock |
| `RunTheorems.Concluded` | controllers/upgradejob_controller.go:302-349 | Success was declared in a pass that began after completion, found the Create, Start and UpgradeComplete gates open in its own lists, saw the desired version set under the lock and, after listing the UpgradeComplete hooks, no outdated machine in any listed pool |
| `RunTheorems.SuccessIsJustified` | controllers/upgradejob_controller.go:179-352 | A job with reason Succeeded went through start, pre-check, completion of the desired version (if any), post-check and conclusion, in this order; checks and conclusion are in passes that began after the start was persisted, completion in one that began after the pre-check, and post-check and conclusion in ones that began after completion |
| `Verdicts.VerdictIsJustified` | controllers/upgradejob_controller.go:96-352 | Every verdict in a run, whatever its reason, was given at its time by a step that had that reason in the stored fields: a window listed or not listed in the pass, the time limit, a pool kept paused past DelayMax, operators degraded past the timeout of a check that a step began, an update that was not available under the lock, a listed hook whose stored result aborts or skips |
| `Verdicts.CheckBegan` | controllers/upgradejob_controller.go:412-455 | A health check that has not passed dates from the step of the run that began it |
| `RunTheorems.CheckedBeforeUpgrade` | controllers/upgradejob_controller.go:220-250 | Every write of a desired version is preceded by a persisted PreHealthCheckDone=True |
| `RunTheorems.TimingEnvelope` | controllers/upgradejob_controller.go:179-210 | Lock, desired version and delay-driven pool writes happen only while now-StartAfter <= UpgradeTimeout, in a pass that read the job as started in its time window and found the Create and Start gates open |
| `RunTheorems.StandingHookHasSettled` | controllers/upgradejob_controller.go:192-198 | A Create or Start hook that applies during the whole pass in which a job touches the cluster is over, with no result that asks for an abort or a skip |
| `RunTheorems.StandingHookPrecedesSuccess` | controllers/upgradejob_controller.go:302-308 | The same holds of Create, Start and UpgradeComplete hooks when success is declared |
| `RunTheorems.UnpauseHooksComeFirst` | controllers/upgradejob_controller.go:967-976 | A pool is unpaused for its delay only when the Unpause hooks that the same pass has listed have settled, and by the clean-up only when those that it has listed have been started |
| `RunTheorems.SkipsLeaveClusterAlone` | controllers/upgradejob_controller.go:132-174 | A job that ends Skipped or Expired has changed neither the cluster version nor a pool in any step, except that an Expired one may freeze pools after its verdict |
| `HookSkips.HookSkipsLeaveClusterAlone` | controllers/upgradejob_controller.go:590-597 | A job that ends HookRequestedSkip has not taken the lock, set a version or paused a pool in any pass that listed the hook with the same spec for the same labels |
| `HookSkips.SkippedAfterTouching` | controllers/upgradejob_controller.go:590-597 | If a hook skips a job that has touched the cluster, the skip is in a later pass, and the hook was not there, did not apply or could not ask for a skip when the pass that touched the cluster listed the hooks |
| `SkippingRuns.MaySkipIsExact` | controllers/upgradejob_controller.go:124-130 | From every legal run with a started, unfinished job, whether it has touched the cluster or not, some legal continuation in which nobody edits hooks or labels ends with a hook skipping the job, if and only if no Create hook has asked for an abort and some Create hook, or in time and without aborts some Start hook, can still ask for a skip |
| `Counterexamples.HookMaySkipLockedJob` | controllers/upgradejob_controller.go:192-198 | A concrete run in which a hook that is added after the lock was taken skips the job in a later pass |
| `RunTheorems.CreatorHoldsClaim` | controllers/upgradejob_controller.go:525-533 | The job for which a batch job of a run-next hook was created holds the claim on the hook in every later state |
| `RunTheorems.OneClaimer` | api/v1beta1/upgradejobhook_types.go:190-223 | All batch jobs ever created for a run-next hook belong to one upgrade job, for distinct non-empty UIDs |
| `RunTheorems.ClaimIsKept` | api/v1beta1/upgradejobhook_types.go:190-205 | A claim is never given back or passed on |
| `RunSafety.InvHolds` | controllers/upgradejob_controller.go:80-352 | Every reachable state: conditions of each job agree with each other, only started jobs hold the lock or have marks on pools, batch jobs without finalizer are finished and recorded |
| `RunSafety.WriteKeepsStatusOk` | controllers/upgradejob_controller.go:406-455 | Every permitted condition write keeps the conditions of a job in agreement |
| `RunSafety.LockHeld` | controllers/upgradejob_controller.go:477-494 | A job that is not terminal never loses the lock it had in an earlier state |
| `RunSafety.VersionCopy` | controllers/upgradejob_controller.go:484-491 | A copy of the cluster version with the current resource version is the current object, so a stale copy cannot be written |
| `RunSafety.JobCopy` | controllers/upgradejob_controller.go:80-177 | From any state on, a job keeps its spec, its verdict, its milestones and its finished trackers |
| `RunSafety.BatchMoves` | controllers/upgradejob_controller.go:871-877 | A batch job is created with the finalizer, loses it only when its result is recorded, and goes away only without it |
| `RunSafety.ResultsStay` | controllers/upgradejob_controller.go:846-851 | The results of a hook run that is over stay the same as long as the controller records no older list |
| `RunSafety.GateStays` | controllers/upgradejob_controller.go:124-130 | A gate that was found open stays open for the rest of the pass, whatever others do |
| `ApiServers.OthersAreReliable` | controllers/upgradejob_controller.go:817-880 | Any number of steps of all other actors leave a job's own spec, status and unfinished batch jobs alone |
| `UpgradeJobControllers.UpgradeJobReconciler.Reconcile` | controllers/upgradejob_controller.go:80-177 | Every write that lands in a pass is a legal step, whatever others do and wherever it stops; a pass without errors over a finished job has started its final hooks; it asks to be woken only for StartAfter of the job read, or once that is started for its first deadline; undisturbed, finished batch jobs are recorded, a finished job gives up the lock, a succeeded one leaves no mark of its own on a pool, a job that waits behind settled Create hooks is started, expired, skipped or woken as it should be, and a pass without hooks to run ends exactly as AfterPass says |
| `UpgradeJobControllers.UpgradeJobReconciler.ReconcileUnfinishedJob` | controllers/upgradejob_controller.go:124-134 | The Create gate comes first: undisturbed, once its hooks are over, an abort or skip that they ask for decides and nothing else happens; otherwise a job that has not started waits, starts, expires or is skipped as its stored fields say, and a started one goes on as AfterStarted says |
| `UpgradeJobControllers.UpgradeJobReconciler.ReconcileWaitingJob` | controllers/upgradejob_controller.go:136-176 | Undisturbed, and said of the stored fields: before StartAfter nothing is written and the requeue is StartAfter - now; from then on a window of the namespace that selects the job and contains now sets Succeeded/Skipped, else a passed StartBefore sets Failed/Expired, else Started/Started is set, each at now and with nothing else changed |
| `UpgradeJobControllers.UpgradeJobReconciler.StartOrExpire` | controllers/upgradejob_controller.go:138-174 | A matching suspension window wins over expiry and start; without one the job is failed after StartBefore and started before, in the stored fields |
| `UpgradeJobControllers.UpgradeJobReconciler.CheckAndMarkSkipped` | controllers/upgradejob_controller.go:1087-1103 | Writes Skipped exactly if a window matches among those listed during the call |
| `UpgradeJobControllers.UpgradeJobReconciler.MatchingUpgradeSuspensionWindow` | controllers/upgradejob_controller.go:1061-1084 | Finds a window exactly if one in the namespace selects the labels and contains the time, bounds included |
| `UpgradeJobControllers.UpgradeJobReconciler.ReconcileSucceededJob` | controllers/upgradejob_controller.go:96-110 | Final hooks are started, marked pools cleaned up and the lock released, each whatever the others come to; undisturbed and without errors every pool with the mark of the job is stored unpaused and unmarked, all others are as they were, the Unpause hooks of those that were paused have been started in the call, and exactly the lock is gone |
| `UpgradeJobControllers.UpgradeJobReconciler.ReconcileFailedJob` | controllers/upgradejob_controller.go:111-122 | Final hooks are started, pools frozen and the lock released, each whatever the others come to; no pool is unpaused |
| `UpgradeJobControllers.UpgradeJobReconciler.RunFinalHooks` | controllers/upgradejob_controller.go:100-101 | Without errors every hook for the verdict and for Finish that was listed and is no younger than the verdict has been started; no result changes the job |
| `UpgradeJobControllers.UpgradeJobReconciler.ReconcileStartedJob` | controllers/upgradejob_controller.go:179-198 | Undisturbed, now - StartAfter > UpgradeTimeout sets Failed/TimedOut at now and nothing else; otherwise Start hooks that are over decide if one asks for an abort or skip; the rest of the pass ends as AfterStarted says |
| `UpgradeJobControllers.UpgradeJobReconciler.LockAndUpgrade` | controllers/upgradejob_controller.go:200-210 | Only a pass that holds the lock goes on |
| `UpgradeJobControllers.UpgradeJobReconciler.UpgradeUnderLock` | controllers/upgradejob_controller.go:212-218 | From the lock to the end of the pass |
| `UpgradeJobControllers.UpgradeJobReconciler.CheckAndUpgrade` | controllers/upgradejob_controller.go:220-230 | Nothing is upgraded before the pre-check has passed |
| `UpgradeJobControllers.UpgradeJobReconciler.UpgradeAndCheck` | controllers/upgradejob_controller.go:231-289 | The desired version is reached before the post-check |
| `UpgradeJobControllers.UpgradeJobReconciler.CheckAndFinish` | controllers/upgradejob_controller.go:291-300 | The post-check has passed before the job is concluded |
| `Outcomes.CheckIsRight` | controllers/upgradejob_controller.go:412-455 | The health check step in the stored fields: begins, passes without degraded operators or if it is to be skipped, fails the job after its timeout, or waits |
| `Outcomes.VersionIsRight` | controllers/upgradejob_controller.go:225-289 | The version step in the stored fields: withdrawn, set, begun, completed when the history and all unpaused pools say so, or waiting |
| `Outcomes.FinishIsRight` | controllers/upgradejob_controller.go:310-352 | The last step in the stored fields: notes whether only paused pools have outdated machines, and succeeds exactly when none has |
| `UpgradeJobControllers.UpgradeJobReconciler.RunHealthCheck` | controllers/upgradejob_controller.go:412-455 | Returns true exactly if the check has passed; begins it, passes it, fails it after its own timeout, or waits |
| `UpgradeJobControllers.UpgradeJobReconciler.EvaluateHealth` | controllers/upgradejob_controller.go:437-454 | A degraded operator makes it wait, or fail after the timeout; otherwise the check passes |
| `UpgradeJobControllers.UpgradeJobReconciler.ReachDesiredVersion` | controllers/upgradejob_controller.go:231-289 | Returns true without a write exactly if the version is set and recorded as completed |
| `UpgradeJobControllers.UpgradeJobReconciler.StartUpgrade` | controllers/upgradejob_controller.go:233-250 | Withdraws the job if the version is not available, else sets the version |
| `UpgradeJobControllers.UpgradeJobReconciler.CheckInitialPools` | controllers/upgradejob_controller.go:269-288 | Records completion exactly if no pool that is not paused has outdated machines |
| `UpgradeJobControllers.UpgradeJobReconciler.UpdatingPools` | controllers/upgradejob_controller.go:314-316 | Both lists are empty exactly if all, or all unpaused, pools are updated |
| `UpgradeJobControllers.UpgradeJobReconciler.MachineConfigPoolsUpdating` | pkg/healthcheck/healthcheck.go:37-51 | Exactly the pools whose machine count differs from the updated count |
| `UpgradeJobControllers.UpgradeJobReconciler.FilterPaused` | controllers/upgradejob_controller.go:1007-1019 | Splits the list by Paused, losing nothing |
| `UpgradeJobControllers.UpgradeJobReconciler.FinishUpgrade` | controllers/upgradejob_controller.go:302-349 | Undisturbed, ends as AfterFinish says; a wake-up is the next deadline |
| `UpgradeJobControllers.UpgradeJobReconciler.Conclude` | controllers/upgradejob_controller.go:318-349 | Paused condition first, then timed wait, then wait for updates, then success |
| `UpgradeJobControllers.UpgradeJobReconciler.NextTimedReconcile` | controllers/upgradejob_controller.go:1027-1050 | The least deadline not before now among all DelayMin, DelayMax and the time limit; never none while the time limit is not over |
| `UpgradeJobControllers.UpgradeJobReconciler.Deadlines` | controllers/upgradejob_controller.go:1029-1036 | Exactly those instants |
| `UpgradeJobControllers.UpgradeJobReconciler.TryLockClusterVersion` | controllers/upgradejob_controller.go:477-494 | On success the job is in the lock and the copy is the stored object with the lock; fails for another job's lock |
| `UpgradeJobControllers.UpgradeJobReconciler.CleanupLock` | controllers/upgradejob_controller.go:457-474 | Removes exactly the job's own lock |
| `UpgradeJobControllers.UpgradeJobReconciler.TrackHookJobs` | controllers/upgradejob_controller.go:817-880 | Undisturbed, afterwards every batch job's result is in the status and every finished one has lost the finalizer; always in this order |
| `UpgradeJobControllers.UpgradeJobReconciler.RecordResults` | controllers/upgradejob_controller.go:832-864 | The trackers become what was listed and every finished tracker from before |
| `UpgradeJobControllers.UpgradeJobReconciler.ReleaseFinished` | controllers/upgradejob_controller.go:866-879 | Exactly the finished batch jobs that were listed lose the finalizer |
| `UpgradeJobControllers.UpgradeJobReconciler.CollectTrackers` | controllers/upgradejob_controller.go:832-843 | One tracker per listed batch job, with its result |
| `UpgradeJobControllers.UpgradeJobReconciler.Claim` | api/v1beta1/upgradejobhook_types.go:190-214 | The first result agrees with WouldExecute in every state; a free run-next hook gets the claimer, any other stays as it is |
| `UpgradeJobControllers.UpgradeJobReconciler.SelectHooks` | controllers/upgradejob_controller.go:504-534 | Returns every listed hook with the event, selector, cutoff and a claim that is free or the job's own, claimed for the job if it runs once |
| `UpgradeJobControllers.UpgradeJobReconciler.JobForUpgradeJobAndHook` | controllers/upgradejob_controller.go:614-653 | Returns the recorded and stored results, and creates a batch job exactly if there are none; without errors the hook has been started |
| `UpgradeJobControllers.UpgradeJobReconciler.FindTracked` | controllers/upgradejob_controller.go:911-919 | Exactly the results recorded for hook, event and key |
| `UpgradeJobControllers.UpgradeJobReconciler.CreateHookJob` | controllers/upgradejob_controller.go:655-735 | What lands is one batch job with the tracking labels and the finalizer, for a hook that applies, is claimed if it runs once, and whose event has occurred; undisturbed and with a free name exactly that is added to the store |
| `UpgradeJobControllers.UpgradeJobReconciler.SortResults` | controllers/upgradejob_controller.go:553-574 | Each flag says exactly whether a result is active, aborts or skips; Outcomes.DecisionIsRight says what that means for the fields of the hook |
| `UpgradeJobControllers.UpgradeJobReconciler.ExecuteHooks` | controllers/upgradejob_controller.go:501-608 | Without errors every listed hook for the event that selects the job and is free or claimed by it has been started; returns true for an unfinished job only with a gate that is open in the list of this call; undisturbed, with all runs over, a failure that does not skip, of a hook with failurePolicy Abort, sets Failed/HookFailed at the events before the end, else at creation and start a pod policy failure of a hook with podFailurePolicySkipsUpgrade sets Succeeded/HookRequestedSkip, and else the pass goes on with the store unchanged |
| `UpgradeJobControllers.UpgradeJobReconciler.ActOn` | controllers/upgradejob_controller.go:582-607 | An abort goes before a skip, and a finished job is not decided again |
| `Outcomes.DecisionIsRight` | controllers/upgradejob_controller.go:551-597 | What hooks whose runs are over decide, said of failurePolicy, podFailurePolicySkipsUpgrade and the stored or recorded results: abort before skip, and go on exactly if neither is asked for |
| `HookRuns.TallyIsExact` | controllers/upgradejob_controller.go:541-574 | A hook is noted as failed or as asking to skip exactly if one of its results says so |
| `HookRuns.SettledIff` | controllers/upgradejob_controller.go:501-608 | With all runs over, hooks have settled exactly if none asks for what the event lets it ask for |
| `UpgradeJobControllers.UpgradeJobReconciler.PauseUnpauseMachineConfigPools` | controllers/upgradejob_controller.go:926-1004 | Undisturbed, the pools become what AfterEntries gives and the MachineConfigPoolsPaused condition says whether and why |
| `UpgradeJobControllers.UpgradeJobReconciler.HandlePool` | controllers/upgradejob_controller.go:951-987 | A paused pool past DelayMin and a positive DelayMax fails the job; otherwise it is paused or, once the hooks have settled, unpaused |
| `UpgradeJobControllers.UpgradeJobReconciler.HandleEntry` | controllers/upgradejob_controller.go:940-988 | All pools that the entry selects, and no other, follow its DelayMin |
| `Progress.LastEntryDecides` | controllers/upgradejob_controller.go:931-989 | With several entries that select a pool the last with a delay decides, and the pool is paused exactly if now - StartAfter is less than its DelayMin |
| `Progress.EntryDecides` | controllers/upgradejob_controller.go:933-986 | With disjoint entries each selected pool is paused exactly while now-StartAfter < DelayMin, and is not written if it already is as it should be |
| `UpgradeJobControllers.UpgradeJobReconciler.CleanupMachineConfigPools` | controllers/upgradejob_controller.go:1106-1134 | Undisturbed and without errors, every pool with the mark of the job is stored with paused false and no mark and otherwise as it was, and every other pool is as it was; whatever others do, without errors the Unpause hooks of each such pool that was listed as paused were listed and started in the call |
| `UpgradeJobControllers.UpgradeJobReconciler.UpdateCleanPool` | controllers/upgradejob_controller.go:1119-1130 | Removes the mark and the pause, for a paused pool only after its Unpause hooks have been started |
| `UpgradeJobControllers.UpgradeJobReconciler.PauseMachinePoolsOnFailure` | controllers/upgradejob_controller.go:1136-1181 | Undisturbed, if the job asks for it, has not noted it yet and the selector is well formed, exactly the selected pools that are not paused and whose machine counts differ are stored as paused and this is noted; otherwise nothing changes |
| `Progress.RankFalls` | controllers/upgradejob_controller.go:179-352 | In favourable surroundings every pass lowers the rank over the persisted conditions and pools, or is a timed wait; it never fails the job |
| `Progress.PoolRankFalls` | controllers/upgradejob_controller.go:931-989 | Each pass that changes a pool lowers the rank of the pools |
| `Progress.SucceedsInBoundedPasses` | controllers/upgradejob_controller.go:179-352 | A started job in favourable surroundings succeeds after at most 18 + 4 pools + 4 entries passes, timed waits included |
| `FavourablePasses.Continue` | controllers/upgradejob_controller.go:80-177 | A pass that the controller makes in favourable surroundings continues any schedule of passes: it leaves what AfterPass says, whatever comes in time after it may follow, and the bound on the number of passes holds |
| `ClusterVersionControllers.ClusterVersionReconciler.Reconcile` | controllers/clusterversion_controller.go:43-90 | Every write that lands keeps lock and desired update; undisturbed the cluster version then has the fields of the overlay in effect over the template, the status shows these and every preview, and the pass asks to be woken when the next overlay begins |
| `ClusterVersionControllers.ClusterVersionReconciler.ApplyOverlay` | controllers/clusterversion_controller.go:152-171 | The overlay is the latest that has begun; a field that it sets has its value and any other that of the template |
| `ClusterVersionControllers.PassIsDisplayed` | controllers/clusterversion_controller.go:66-147 | What a pass leaves shows the fields in effect, the overlay applied and what each overlay will bring |
| `ClusterVersionControllers.ClusterVersionReconciler.NextRequeue` | controllers/clusterversion_controller.go:174-186 | The time to the next overlay that has not begun, or none |
| `ClusterVersionControllers.ClusterVersionReconciler.UpdateStatus` | controllers/clusterversion_controller.go:117-147 | The status shows the spec and overlay in effect and a preview per overlay, and is written only if it changes |
| `ClusterVersionControllers.ClusterVersionReconciler.WriteUpstream` | controllers/clusterversion_controller.go:79-87 | The spec is replaced except for the desired update; a stale copy does not land |
| `ClusterVersionControllers.ChosenIsUnique` | controllers/clusterversion_controller.go:157-165 | With distinct From times the choice is unique |
| `ClusterVersionControllers.ChosenUntilRequeue` | controllers/clusterversion_controller.go:152-186 | The overlay chosen now is the one chosen until the requeue, and is not from then on |
| `ClusterVersionControllers.PreviewAgrees` | controllers/clusterversion_controller.go:125-138 | A preview is what is applied at the overlay's From for every possible choice, exactly if overlays with that From merge to the same; always with distinct From times |
| `ClusterVersionControllers.PreviewMayDisagree` | controllers/clusterversion_controller.go:125-138 | Two overlays with equal From times may make a preview wrong |
| `ClusterVersionControllers.PassIsIdempotent` | controllers/clusterversion_controller.go:66-90 | A second pass before the next overlay writes nothing; lock and desired update are kept |
| `Schedules.Next` | pkg/schedule/schedule.go:45-59 | The least activation after a time in a week that passes; none exactly if the week is malformed or 1000 activations do not pass |
| `Schedules.NextN` | pkg/schedule/schedule.go:28-40 | Enumerates the next slots, each the next after the one before, up to n or the first failure |
| `Schedules.CheckIsoWeek` | pkg/schedule/schedule.go:67-83 | An error exactly for an unknown week |
| `Schedules.WeekFilters` | pkg/schedule/schedule.go:67-83 | Even and odd exclude each other and one- or two-digit numerals stand for their week |
| `Schedules.EnumerationHasNoGaps` | pkg/schedule/schedule.go:28-40 | Enumerations ascend strictly and leave out no slot |
| `Schedules.ShorterIsPrefix` | pkg/schedule/schedule.go:28-40 | Of two enumerations from one time the shorter is a prefix of the longer |
| `Schedules.FindNextRun` | controllers/upgradeconfig_controller.go:148-170 | The least slot after the earliest timestamp whose creation window has not closed, or an error, after at most 101 calls of Next |
| `Schedules.SlotIsFoundAgain` | controllers/upgradeconfig_controller.go:148-170 | From the same earliest timestamp the same slot is found again exactly while its window is open |
| `UpgradeConfigControllers.ConfigApi.CreateJob` | controllers/upgradeconfig_controller.go:241-278 | Over every run jobs of a config are created for strictly later slots, in [slot-pin, slot-pin+maxDelay], only when all others are finished |
| `UpgradeConfigControllers.ConfigApi.DeleteJob` | controllers/upgradeconfig_controller.go:202-234 | The newest job is never deleted by the controller |
| `ScheduledJobs.CreationKeepsOrder` | controllers/upgradeconfig_controller.go:112-200 | A creation after the newest job has finished keeps the order of all jobs of the config |
| `ScheduledJobs.OthersKeepOrder` | controllers/upgradeconfig_controller.go:112-200 | So does what others do to the jobs, as long as they leave the newest one |
| `ScheduledJobs.AtMostOneUnfinished` | controllers/upgradeconfig_controller.go:133-143 | At most one job of a config is unfinished at any time, and no two have one slot |
| `ScheduledJobs.LatestIsNewest` | controllers/upgradeconfig_controller.go:341-349 | The job with the greatest StartAfter is the one created last |
| `UpgradeConfigControllers.CrashIsRecovered` | controllers/upgradeconfig_controller.go:126-130 | After a crash between creating and recording a job, the only plan is to record it |
| `UpgradeConfigControllers.UsedSlotIsLater` | controllers/upgradeconfig_controller.go:126-170 | A slot is used only after the slots of all jobs, and when these are finished |
| `UpgradeConfigControllers.DeletedJobIsCreatedAgain` | controllers/upgradeconfig_controller.go:145-147 | If somebody deletes the recorded newest job, its slot is used again exactly if an older job is left and the window of the slot is open; with no job left the next slot used is later |
| `UpgradeConfigControllers.UpgradeConfigReconciler.Reconcile` | controllers/upgradeconfig_controller.go:63-110 | The jobs stay in order wherever the pass stops; undisturbed it carries out the plan, by which a job is added only rightly, and then only prunes to the limit; without errors it comes back no later than the next slot or window |
| `UpgradeConfigControllers.UpgradeConfigReconciler.ScheduleJob` | controllers/upgradeconfig_controller.go:112-200 | The plan is the one that config, latest job, schedule, suspension and available updates call for, and it is carried out; a job is added only with the fields that AsksFor lists, in its window, after all other jobs are done, and not while suspended; a slot that is up is used and recorded, or only recorded while suspended, unless the search gives up |
| `UpgradeConfigControllers.PlanAddsRightly` | controllers/upgradeconfig_controller.go:112-200 | A plan that is carried out adds at most jobs that ask for the best available update in their slot, in its window, after all earlier jobs are done |
| `UpgradeConfigControllers.PlanUsesSlot` | controllers/upgradeconfig_controller.go:112-200 | If a slot is up, the plan uses it, or passes over it exactly while suspended, or has given up |
| `UpgradeConfigControllers.UpgradeConfigReconciler.TakeSlot` | controllers/upgradeconfig_controller.go:172-199 | A suspended slot is recorded without a job; otherwise the job that is stored has the greatest available update as desired version, none exactly if there is none, StartAfter the slot, StartBefore the slot plus maxStartDelay, the config as owner and everything else from the template |
| `UpgradeConfigControllers.UpgradeConfigReconciler.SetLastScheduledUpgrade` | controllers/upgradeconfig_controller.go:236-239 | Records the slot and changes nothing else |
| `UpgradeConfigControllers.UpgradeConfigReconciler.UpdateNextPossibleSchedulesStatus` | controllers/upgradeconfig_controller.go:322-339 | The status shows the next slots, at most ten, in order and without gaps; the requeue is the time to the first |
| `UpgradeConfigControllers.UpgradeConfigReconciler.NextRequeue` | controllers/upgradeconfig_controller.go:97-107 | The lesser of the positive times, a minute if there is none |
| `UpgradeConfigControllers.UpgradeConfigReconciler.CleanupSuccessfulJobs` | controllers/upgradeconfig_controller.go:202-234 | Undisturbed, only the oldest successful jobs of the config beyond the limit go, which is 4 unless the config says otherwise |
| `ScheduledJobs.PrunedToLimit` | controllers/upgradeconfig_controller.go:202-234 | Pruning removes only succeeded jobs of the config and none within the limit |
| `UpgradeConfigControllers.UpgradeConfigReconciler.RankSuccessfulJobs` | controllers/upgradeconfig_controller.go:210-219 | Exactly the successful jobs of the config, the latest first |
| `ScheduledJobs.PruningIsInvisible` | api/v1beta1/upgradeconfig_types.go:39-44 | Pruning does not change the greatest StartAfter among the jobs of the config |
| `ScheduledJobs.OnlyFirstIsNewest` | controllers/upgradeconfig_controller.go:217-227 | Only the first of the successful jobs can be the newest job of all, so that pruning spares it |
| `UpgradeConfigControllers.UpgradeConfigReconciler.FilterControlledJobs` | controllers/upgradeconfig_controller.go:351-359 | Exactly the jobs that the config controls |
| `UpgradeConfigControllers.UpgradeConfigReconciler.LatestScheduledJob` | controllers/upgradeconfig_controller.go:341-349 | A job with the greatest StartAfter, none exactly if there are no jobs |
| `UpgradeConfigControllers.UpgradeConfigReconciler.LatestAvailableUpdate` | pkg/clusterversion/clusterversion.go:47-58 | An available update whose version no other exceeds, for any total preorder of versions; none exactly if there are none |
| `UpgradeConfigControllers.UpgradeConfigReconciler.MatchingUpgradeSuspensionWindow` | controllers/upgradeconfig_controller.go:297-320 | Finds a window exactly if one in the namespace selects the config and contains the time |
| `NodeForceDrainControllers.NodeForceDrainReconciler.Reconcile` | controllers/node_force_drain_controller.go:97-237 | Over every run the log has no duplicates and is true; every recorded drain and deletion of a pass is on a node whose annotations differ; undisturbed the nodes considered are exactly the selected ones with differing annotations, the pass records one exactly if the drain of one is not in the log, and then leaves one stale node less and deletes nothing; any other pass deletes exactly by the rules on the fields of pods and nodes, and its requeue is right |
| `NodeDrains.OneStaleLess` | controllers/node_force_drain_controller.go:149-154 | Recording a stale node's drain leaves exactly one stale node less |
| `NodeDrains.DeleteIsPatient` | controllers/node_force_drain_controller.go:185-217 | Every deletion of the run is on a node with differing annotations whose current drain ID was recorded at least the grace period before |
| `NodeDrains.UpdatedLogIsTrue` | controllers/node_force_drain_controller.go:253-271 | Every log entry stems from an observation of that drain at that time |
| `NodeForceDrainControllers.NodeForceDrainReconciler.SetLastObservedNodeDrain` | controllers/node_force_drain_controller.go:253-271 | Changes the log exactly if the drain is not recorded; then the node has one entry with the current drain and time |
| `NodeForceDrainControllers.NodeForceDrainReconciler.FindLastObservedNodeDrain` | controllers/node_force_drain_controller.go:241-248 | Finds the node's entry if there is one |
| `NodeForceDrainControllers.NodeForceDrainReconciler.ObserveDrains` | controllers/node_force_drain_controller.go:149-153 | The first stale node is recorded and only it; if none is, all are recorded |
| `NodeForceDrainControllers.NodeForceDrainReconciler.CheckGracePeriods` | controllers/node_force_drain_controller.go:163-183 | Exactly the nodes out of grace, and the least remainder of the others |
| `NodeForceDrainControllers.NodeForceDrainReconciler.UntilDrain` | controllers/node_force_drain_controller.go:167-173 | A draining node is always found in the log here, so that the not-found branch is unreachable |
| `NodeForceDrainControllers.NodeForceDrainReconciler.DrainOverdueNodes` | controllers/node_force_drain_controller.go:163-236 | Deletes and terminates on overdue nodes; the requeue is the least timer, 0 exactly without timers, except for a negative pod grace period after a deletion |
| `NodeForceDrainControllers.NodeForceDrainReconciler.ClearNodes` | controllers/node_force_drain_controller.go:185-217 | Undisturbed, candidates on overdue nodes are deleted, or considered for termination if they are being deleted already, unless the grace periods are zero; a deletion is reported exactly if there was one |
| `NodeForceDrainControllers.NodeForceDrainReconciler.ForceDrainNodes` | controllers/node_force_drain_controller.go:185-201 | Undisturbed, every candidate on an overdue node that is not being deleted is deleted |
| `NodeForceDrainControllers.NodeForceDrainReconciler.ForceDeletePods` | controllers/node_force_drain_controller.go:203-217 | Considered pods whose grace period is over are terminated; the least remainder of the others over all nodes; undisturbed, every candidate is considered |
| `NodeForceDrainControllers.NodeForceDrainReconciler.ForceDrainNode` | controllers/node_force_drain_controller.go:275-299 | Deletes exactly the candidates without a deletion timestamp |
| `NodeForceDrainControllers.NodeForceDrainReconciler.ForceDeletePodsOnNode` | controllers/node_force_drain_controller.go:304-346 | Terminates exactly the candidates with now >= deletion timestamp - own grace period + pod grace period; the least remainder of the others |
| `NodeForceDrainControllers.NodeForceDrainReconciler.TerminationsAreDeleted` | controllers/node_force_drain_controller.go:312-343 | The terminations of candidates are by the rules, and every candidate that has had its time is among them |
| `NodeForceDrainControllers.NodeForceDrainReconciler.MayBeDeleted` | controllers/node_force_drain_controller.go:366-429 | The namespace is selected, the query says yes, no existing daemon set and no node owns the pod; a pod about which a request fails is spared |
| `NodeForceDrainControllers.NodeForceDrainReconciler.GetDeletionCandidatePodsForNode` | controllers/node_force_drain_controller.go:350-444 | Only candidates on the node, and all of them if no request fails |
| `NodeForceDrainControllers.RequeueIsLeast` | controllers/node_force_drain_controller.go:223-236 | The nested minima give the least of all timers, 0 exactly if there are none, if and only if not (a pod was deleted and the pod grace period is negative) |
| `NodeForceDrainControllers.NegativeGraceLosesRequeue` | controllers/node_force_drain_controller.go:226-228 | With a negative pod grace period the requeue may be negative although timers run |
| `Sorting.Sort` | controllers/clusterversion_controller.go:189-198 | A permutation in ascending order |

## Left out

- Deletion and re-creation of upgrade jobs, and with it the clean-up of tracking finalizers of deleted jobs.
- Environment variables, names and hashes of hook batch jobs; of the name only that it leaves out the tracking key is kept, and that two runs of a hook for two pools conflict.
- Messages, events, metrics, logs, watches and mappers, process set-up, the simulator, the webhook and the suspension window controller.
- Parsing of the lock annotation: the lock is the pair of namespace and name.
- Rounding of stored times to whole seconds, saturation of durations, and several clock readings in one pass.
- Cron expressions without any activation, for which the library returns the zero time.
- Several force drain objects for one node, and changes of namespaces and daemon sets during a pass.
- A job whose hooks conflict over a batch job name gets no progress claim; `Progress` is about jobs whose hooks have settled.
- RunTheorems.SkipsLeaveClusterAlone: the freezing of pools by an expired job after its verdict is allowed, because the code does that on every failure.
