# GhostFleet, modelled and proved in Dafny

GhostFleet runs fleets of data-generating VMs for backup testing. A controller creates VMs, hands each
VM's agent a work order and watches the run; the agent writes data with fio, keeps a checksum manifest
on every disk and can verify it. This project models the parts where that is hard to get right and
proves what they keep:

- **The fill run** (`FillRows`, `FillMonitor`, `FillWatchdog`, `FillRun`, `FillEnd`, `FillBoots`, `FillExits`, `FillGate`, `FillSlots`,
  `FillOrchestrator`).
  The polling monitor, the boot watchdog, stale agent requests, progress reports, cancel, resume after a
  restart and the closing power-off share the VM rows. `FillRun` is a transition system over their atomic
  steps in any interleaving; the classes are the store, the monitor and the orchestrator, proved to take
  those steps.
- **The agent's disk engine** (`Listing`, `Disk`, `ChangeSet`, `Progress`, `Churn`, `ChurnSteps`, `JobSeeds`, `AgentRun`,
  `AgentSteps`, `AgentFill`, `Redo`, `RedoAfterGrowth`, `ManifestHistory`, `SharedData`, `Verify`). The manifest is a cache
  of checksums. One set, `Disk.Stale`, says where it disagrees with the disk; every theorem is about what
  runs, failures, crashes and tampering do to that set, and verify is proved to report exactly it.
- **The reconciler** (`Names`, `Reconcile`, `ReconcileLaws`, `ReconcileSafety`,
  `ReconcileSchedules`, `ReconcileDisks`, `Fleet`). A pass may be cut
  short anywhere, its parallel creates may finish in any order, and any call may fail.
- **The scheduler** (`Calendar`, `Scheduler`, `ScheduleLife`, `SchedulerTable`).
- **Exact algorithms** (`Text`, `Annotation`, `Console`, `Tail`, `Seeds`) and the agent's side of the protocol
  (`AgentClient`).

Code that changes things step by step is modelled as classes and loops, each method proved against a
function of the old state; what the code is for is proved about those functions.

## What the proofs found

Statements below are of the code as it is. Each is a lemma with the exact condition or a concrete trace.

- The parallelism gate can be exceeded by a request that read its VM's row in one run and is granted
  after the next run began: the gate counts the old run and promotes a row of the new one
  (`FillGate.CrossRunGrantBreaksGate`), and by a progress report of a cancelled run's agent, which lands in
  the next run (`FillGate.StaleReportBreaksGate`). `FillGate.GateHoldsExactly` says that nothing else does it.
- A work order can still be handed out after its run has ended, to a request that had passed the status
  check, which is made before the lock is taken (`FillGate.LateWorkOrder`; exactly when in `FillEnd.LateOrderExact`).
- Redoing an incremental that died in its growth job can leave a false manifest although every byte was
  written by the run: the new files change the plan, so a file the first attempt rewrote may not be
  rewritten or re-hashed (`RedoAfterGrowth.RedoCanFalsifyManifest`; exact condition in
  `RedoAfterGrowth.RedoHeals`). Before growth begins, redoing is harmless (`Redo.CrashesDoNotShow`).
  The comment at cmd/agent/gen.go:44-48 promises it without that limit.
- A deploy in adopt mode that is interrupted is resumed in abort mode and fails unless every conflicting
  VM's create had been called and not refused (`ReconcileSchedules.ResumeAfterAdopt`; a witness in
  `ReconcileSchedules.AdoptionCanStrand`). The comment at internal/orch/orchestrator.go:345-347 says no
  conflicts are left.
- The reported number of created VMs counts a VM whose record failed after another failure
  (`ReconcileSchedules.TwoFailedRecordsCountOne`; exact condition in `ReconcileSchedules.CreatedOvercounts`).
- A successful pass can record disks a VM does not have: when it adopts a VM with other disks
  (`ReconcileDisks.AdoptionOverstates`), or takes over one whose record had failed before the spec grew
  (`ReconcileDisks.GrownSpecOverstates`). Exactly when: `ReconcileDisks.SuccessBacksExactly`.
- The files an incremental rewrites hold the same data on every VM and disk of the run where position and
  size agree, because the run seed does not depend on either (`JobSeeds.RewritesAreShared`); the initial
  fill's local data is unique per VM (`Seeds.LocalSeedsDiffer`).
- A schedule starts its run before it stores that it did. If the controller dies in between, or the write fails,
  which is only logged, the occurrence is still due and can be started again: a one-shot can start twice
  (`Scheduler.OnceCanStartTwice`) and an every-d schedule early (`Scheduler.EveryCanStartEarly`). Exactly when:
  `Scheduler.StartedAgainExactly` and `Scheduler.OnceTwiceExactly`.
- Editing a schedule keeps its busy mark, so the next occurrence can be skipped without its grace
  (`Scheduler.EditDefeatsGrace`; exact condition in `Scheduler.EditGraceExact`,
  and every skip after an edit explained in `Scheduler.SkipAfterEdit`).
- Two overlapping runs on one agent clear each other's guard, and a run can execute twice at once
  (`AgentClient.OverlapRunsTwice`; exactly when in `AgentClient.StartsAgainExactly`).
- The owner read back from a VM's notes is the one stamped if and only if id and name are trimmed and
  on one line (`Annotation.OwnerRoundTrip`).

## Hypotheses

- A progress report that is neither done nor an error comes only for a VM that is working, and a pending VM is
  not granted work after it was assigned to another run (`FillGate.Orderly`); the code enforces neither. The
  outcome theorems of `FillRun` and `FillEnd` do not need this.
- A run is polled at most a given gap apart where its deadline is claimed (`FillEnd.Prompt`). A restart of the
  controller begins a new monitor; the bounds on time and on power cycles are per monitor.
- The spec is fixed during a run. A poll pass, the assignment of a fleet and a cancel are single steps.
- fio writes exactly the size it is told, and only the named file or files whose name starts with the
  job's name and a dot; its data is a function of seed, size and knobs (`Churn.Faithful`). A rewrite that
  dies keeps the file's size where crash equivalence is claimed (`Redo.KeepsSize`). SHA-256 is any function.
- Before the first pass the hypervisor has no two VMs under one name of the deployment's scheme, and
  only the reconciler changes VMs under those names (`ReconcileLaws.Inv`).
- A deployment's disks never shrink (internal/api/deployments.go:110-131). Where records are claimed to be backed over
  whole histories, nothing is adopted and the disks of the spec stay (`ReconcileDisks.HistoryBacks`), or every VM taken
  over has the disks of the spec (`ReconcileDisks.GrowingHistoryBacks`).
- No edit of a schedule falls between a tick's listing of the due schedules and that schedule's advance.
- A time zone's later days show a time later, and yesterday's time is over while tomorrow's is ahead, where the
  daily search must succeed (`Calendar.CoherentZone`).
- Time is whole seconds, and for spacing and grace the clock never goes back.

## Model

| member | source | states |
|---|---|---|
| FillRows.StatusesPartitionFleet | internal/store/managed_vms.go:208-214 | when every row belongs to a run and is assigned, the four status counts of the run add up to the fleet |
| FillRows.FillStore.AssignFleet | internal/orch/fill.go:93-96 | every VM becomes pending for the new run with no bytes written; runs and other fields stay |
| FillRows.FillStore.ReportFillProgress | internal/store/managed_vms.go:249-262 | the VM becomes done if and only if the report says done without an error, failed if and only if it has one, else working, and is heard of now; in the run its row belongs to one VM moves between the status counts and its bytes are replaced; no other run's counts change |
| FillRows.ReportMovesOne | internal/store/managed_vms.go:208-262 | every report moves exactly one VM of one run in the tallies |
| FillRows.FillStore.CountFillStatus | internal/store/managed_vms.go:208-214 | the loop counts exactly the rows of the run in the status, changing nothing |
| FillRows.FillStore.CancelUnfinishedFills | internal/store/managed_vms.go:233-242 | pending and working rows of the run fail, all others stay |
| FillRows.CancelMovesUnfinished | internal/store/managed_vms.go:233-242 | after a cancel nothing of the run is pending or working, all of that has failed, what was done stays done, and no other run's counts change |
| FillMonitor.FillMonitor.Tally | internal/orch/fill.go:164-190 | one loop over the fleet yields the status counts, the bytes, whether a worker is silent, and exactly the pending VMs in order |
| FillMonitor.FillMonitor.Watchdog | internal/orch/fill.go:196-216 | the loop over the pending VMs cycles and fails exactly the VMs judged so from the state before the loop, although it updates its maps as it goes |
| FillMonitor.FillMonitor.Pass | internal/orch/fill.go:159-260 | one poll performs the pass of the protocol: rows, monitor state, and the exit, which FillExits.PassEndsExactly states on rows and clock |
| FillMonitor.WatchIsPass | internal/orch/fill.go:196-216 | folding the watchdog over the pending VMs one by one equals deciding all of them at once |
| FillMonitor.SucceededMeansAllDone | internal/orch/fill.go:247-253 | the monitor ends a run as succeeded only when every VM of the fleet is done in that run |
| FillExits.PassEndsExactly | internal/orch/fill.go:217-260 | a pass ends the run if and only if a working VM was last heard of longer ago than the silence limit in a run older than that, or nothing has moved for the stall limit, or every VM is done or failed, or the deadline is over; it ends succeeded if and only if every VM is done and neither of the first two holds |
| FillExits.HungOrStuckFails | internal/orch/fill.go:217-240 | in every reachable state, a poll that meets a hung worker or a stuck run records that run as failed |
| FillExits.SurvivesExactly | internal/orch/fill.go:217-260 | over all histories, a run is still polled after a poll if and only if none of the four conditions held at it |
| FillExits.SilentWorkerEndsRun | internal/orch/fill.go:217-224 | over reachable states, whatever the rest of the fleet does: while one VM works and is never heard of again, no promptly polled run goes on for more than the silence limit and one poll gap |
| FillWatchdog.MapsAreHistory | internal/orch/fill.go:136-141 | after any passes the monitor's boot map holds each VM's real last boot and its counter the real number of boots |
| FillWatchdog.CyclesBounded | internal/orch/fill.go:203-214 | one monitor power-cycles a VM at most maxBootAttempts - 1 times; a resumed run has a new monitor |
| FillWatchdog.VerdictIsDeserved | internal/orch/fill.go:196-214 | a VM is cycled or failed if and only if it is pending, unheard of since its last boot and out of boot time; failed only after its last attempt |
| FillWatchdog.DeadVMIsGivenUp | internal/orch/fill.go:196-211 | over the passes of one monitor, whose rows change as the watchdog fails them: a VM that never boots is given up before maxBootAttempts * (bootTimeout + poll), whatever the rest of the fleet does, and its row is failed in every later pass |
| FillBoots.SilentVMIsFailed | internal/orch/fill.go:136-141 | over reachable states of promptly polled histories, whatever else happens: a VM pending when the monitor opens and never heard of after is failed from maxBootAttempts * (bootTimeout + poll) on |
| FillBoots.FillOpensSo | internal/orch/fill.go:93-141 | every fill run opens with every VM of its fleet pending and heard of at the latest now |
| FillBoots.CyclesPerRun | internal/orch/fill.go:203-214 | over every history a run power-cycles a VM at most (maxBootAttempts - 1) * (restarts during the run + 1) times |
| FillWatchdog.EveryMonitorExits | internal/orch/fill.go:151-260 | over every sequence of passes at most a poll gap apart, the last pass is at most that gap after the deadline, and a pass after the deadline exits; one bound per monitor |
| FillEnd.EveryRunExits | internal/orch/fill.go:151-260 | in every reachable state of a promptly polled history, a run still polled is at most one poll gap past its monitor's deadline |
| FillWatchdog.DeadFleetFailsIndividually | internal/orch/fill.go:196-254 | with patient knobs an all-dead fleet ends with every VM failed individually, never by stall, silence or timeout, by maxBootAttempts * (bootTimeout + poll) + poll |
| FillWatchdog.DefaultsArePatient | internal/orch/fill.go:16-54 | the source's constants are patient exactly for poll gaps up to 150 s |
| FillRun.Reachable | internal/orch/fill.go:59-432 | in every reachable state a run is running exactly while the job goroutine works on it, every row belongs to a started run, done rows were reported done, and closed VMs are off unless refused |
| FillRun.StatusesPartitionRun | internal/orch/fill.go:164-190 | while a run is active, pending, working, done and failed partition the VMs it was started for |
| FillRun.SucceededMeansReported | internal/orch/fill.go:247-253 | in every history, each row of a succeeded run's fleet took a done report while it belonged to that run; the report itself carries no run |
| FillRun.TerminalIsFinal | internal/orch/fill.go:337-386 | a terminal run status is never changed by anything later |
| FillRun.SucceededMeansPoweredOff | internal/orch/fill.go:331-338 | with the shutdown option a run becomes succeeded only after every VM was told to power off, and each is off unless the hypervisor refused |
| FillRun.NoOrderAfterEnd | internal/orch/fill.go:404-432 | once a run has ended and no request is past the status check, no work order for it is ever handed out |
| FillEnd.LateOrderExact | internal/orch/fill.go:404-432 | after a run has ended, some continuation hands out a work order for it if and only if a request of the run is past the status check |
| FillRun.OrderStepExact | internal/orch/fill.go:404-432 | a step hands out a work order for a run if and only if it grants a request of that run that passed the status check and the gate lets it; the run's present status plays no part |
| FillGate.GateStepExact | internal/orch/fill.go:417-432 | a step keeps the parallelism gate if and only if it is not one of two named steps |
| FillGate.GateHoldsExactly | internal/orch/fill.go:419-427 | the gate holds in every state of a history if and only if no step of it is one of the two |
| FillGate.GateHolds | internal/orch/fill.go:419-427 | in every state of every orderly history at most maxParallelVMs VMs of a run are working, although "pending" is decided on a row read before the lock |
| FillGate.StaleReportBreaksGate | internal/store/managed_vms.go:249-262 | a trace in which a progress report of a cancelled run's agent marks its VM working in the next, full run |
| FillGate.CrossRunGrantBreaksGate | internal/orch/fill.go:404-427 | a trace in which a request that crosses runs exceeds the gate |
| FillGate.LateWorkOrder | internal/orch/fill.go:408-432 | a trace in which a work order is handed out after its run has succeeded |
| FillGate.ShareFits | internal/orch/fill.go:437-449 | for a valid spec the integer share is at least 1 KB/s, the shares of all sharers stay within the cap, and with one KB/s more each they would not |
| FillGate.RateCapHolds | internal/orch/fill.go:430-449 | in every orderly history the limits held by the working VMs of a run sum to at most the cap, and none is unlimited |
| FillOrchestrator.Orchestrator.StartFill | internal/orch/fill.go:59-100 | starts exactly when no job is active, VMs exist and needed data is there; a refusal changes nothing, the lock included |
| FillOrchestrator.Orchestrator.WorkOrder | internal/orch/fill.go:417-432 | the locked section refuses a pending VM exactly when there is a cap and as many VMs of the run work, hands out the order otherwise, and promotes only that row, to working |
| FillSlots.RefusedExactly | internal/orch/fill.go:417-427 | a pending request past the check gets no work order if and only if there is a cap and at least that many VMs of its run are working |
| FillSlots.CapIsReached | internal/orch/fill.go:417-432 | for every number up to the cap and the fleet size, some history from the opening of a fill run has exactly that many VMs working |
| FillOrchestrator.Orchestrator.AgentProgress | internal/api/boot.go:156-184 | an unknown token changes nothing; a known VM takes its target and its report in the run its row belongs to by then, all other rows stay |
| FillOrchestrator.Orchestrator.CancelFill | internal/orch/fill.go:380-386 | fails the run's unfinished rows, records it cancelled and frees the deployment |
| Names.VMNameIsInjective | internal/model/model.go:124-127 | a VM name determines prefix and number, across deployments and paddings |
| Names.PaddedReadsBack | internal/model/model.go:125-127 | zero-padding keeps the number and reaches the width |
| Listing.SortedLists | cmd/agent/gen.go:370-386 | a sorted listing holds every name once, ascending |
| Listing.SortedIsUnique | cmd/agent/gen.go:386 | there is one ascending list of a set of names, so a plan does not depend on directory order |
| Disk.DataFilesListed | cmd/agent/manifest.go:120-138 | the listing of both data directories holds every data file exactly once |
| Disk.FreshIsFullRehash | cmd/agent/manifest.go:170-205 | nothing is stale if and only if the manifest is what hashing the whole disk afresh records |
| Disk.UpdateFreshens | cmd/agent/manifest.go:170-205 | after an update exactly those stale entries remain whose file exists, was recorded and was not in the changed set |
| Disk.Volume.HashFile | cmd/agent/manifest.go:142-168 | chunked reading yields size and digest of the whole file, or nothing when the read fails |
| Disk.Volume.Rehash | cmd/agent/manifest.go:185-199 | the loop over the listing builds exactly the new entries, or fails exactly when a file it must hash is unreadable |
| Disk.Volume.UpdateDiskManifest | cmd/agent/manifest.go:176-205 | the manifest is replaced by the new entries, or stays when hashing fails; nothing else changes |
| ChangeSet.PickIsASelection | cmd/agent/gen.go:402-429 | for every seed and random source exactly min(max(n, 0), all) distinct files, a name-ordered selection of the input |
| ChangeSet.EveryChoiceIsPossible | cmd/agent/gen.go:402-408 | every set of n files is picked under some random source, so no file is out of reach |
| ChangeSet.ShuffledPermutes | cmd/agent/gen.go:420-421 | the shuffle permutes the indices |
| ChangeSet.Shuffle | cmd/agent/gen.go:416-421 | the in-place swaps on the index array perform the specified shuffle |
| ChangeSet.Pick | cmd/agent/gen.go:409-429 | shuffle, truncate, sort and read off equals keeping the chosen files in their own order |
| Progress.Progress.RunFio | cmd/agent/progress.go:62-118 | a job adds its size to the plan, ends whole on success, and on failure reports between what was and what is planned |
| Progress.SettledBytes | cmd/agent/progress.go:45-49 | when every job has finished the reported bytes are the planned bytes |
| Churn.PlanIsSound | cmd/agent/gen.go:364-399 | a plan rewrites existing files at their size in name order, between none and all, and at least one whenever change is asked for and a file exists |
| Churn.PlanIsProportional | cmd/agent/gen.go:388-399 | of n local files a plan rewrites change percent, to the nearest, but one where that would round a positive share to none; it grows by growth percent of the bytes on the disk, fractions dropped |
| Churn.GrowthIsOwn | cmd/agent/gen.go:447-483 | two runs share the name of a growth file only if the first eight characters of their ids agree |
| Churn.ChurnTouchesOnlyChanged | cmd/agent/gen.go:431-466 | no file vanishes, new ones are in the changed set, and every file outside it is untouched |
| Churn.StaleLaw | cmd/agent/gen.go:431-483 | an incremental makes fresh exactly what it changed and what was missing or unexpected; a file altered outside runs stays stale until one rewrites it, even with colliding 8-character run prefixes |
| Churn.WrittenIsPlanned | cmd/agent/gen.go:339-346 | the planned bytes are the bytes fio's jobs write, rewrites and growth files together |
| Churn.FileCount | cmd/agent/gen.go:313 | as few files of the fixed size as hold the bytes |
| ChurnSteps.PlanChurn | cmd/agent/gen.go:368-400 | the listing loop computes the plan, or the error of an unformatted or never filled disk; the numbers of files and bytes are the stated percentages of what is on the disk |
| ChurnSteps.GrowthFileNames | cmd/agent/gen.go:468-483 | exactly the local files named for this run's growth |
| ChurnSteps.ApplyChurn | cmd/agent/gen.go:434-466 | the disk becomes the churned one, or the state the failing job left; the changed set and the byte accounting are exact |
| AgentRun.RedispatchReconfirms | cmd/agent/gen.go:37-60 | after a successful run the same order changes nothing and reports the same bytes |
| AgentSteps.RunAlreadyComplete | cmd/agent/gen.go:72-91 | complete exactly when every disk carries this run's marker; the total is the last disk's |
| AgentSteps.ChurnAll | cmd/agent/gen.go:208-225 | disks are churned in order up to the first failure; later ones are untouched |
| AgentSteps.RunIncremental | cmd/agent/gen.go:173-241 | plan all, churn all, mark all: the bytes reported and marked are read off fio's progress and are the bytes planned |
| AgentFill.FillDisk | cmd/agent/gen.go:131-149 | new filesystem, two regions, manifest; or the state the failing step left |
| AgentFill.RunInitialFill | cmd/agent/gen.go:120-167 | disks are filled in order up to the first failure and all marked on success |
| AgentFill.RunFill | cmd/agent/gen.go:23-61 | a verify order changes nothing and succeeds exactly on intact disks; another is re-confirmed when complete, otherwise run |
| Redo.RedoIsEquivalent | cmd/agent/gen.go:44-48 | from any state on the way to the rewritten disks, the redone incremental gives the report, files, manifests and markers of an uninterrupted one |
| Redo.StepKeeps | cmd/agent/gen.go:434-466 | a rewrite that dies half-way, or a disk finished without growth, leaves a state on the way |
| Redo.CrashesDoNotShow | cmd/agent/gen.go:364-466 | after any number of interruptions before growth, over any number of disks, the redispatched order ends as if never interrupted |
| Redo.FillStartsOver | cmd/agent/gen.go:117-149 | a redone initial fill ignores whatever an interrupted one left |
| RedoAfterGrowth.RedoHeals | cmd/agent/gen.go:364-483 | after any failed attempt on a verified disk the completed redo leaves a true manifest if and only if the plan it computes from the torn disk does again every file the first plan's attempt wrote and falsified |
| RedoAfterGrowth.RedoCanFalsifyManifest | cmd/agent/gen.go:447-466 | there is a verified disk and a growth failure whose completed redo leaves a stale entry |
| ManifestHistory.OnlySuspectsAreStale | cmd/agent/manifest.go:170-205 | after any history of fills, incrementals, failures and tampering, only files touched by outsiders or failed runs since a run last refreshed them can be stale |
| ManifestHistory.ManifestIsFullRehash | cmd/agent/manifest.go:170-205 | after any sequence of successful runs, with any seeds and run ids, the manifest equals a full rehash of the disk |
| ManifestHistory.RunsAreVerifiable | cmd/agent/manifest.go:17-21 | after successful runs verify accepts the disk, if it can be read |
| ManifestHistory.TamperingIsFound | cmd/agent/verify.go:33-35 | a file altered after successful runs is exactly what is stale, unless size and digest agree |
| SharedData.FilledRegions | cmd/agent/gen.go:117-149 | after a successful initial fill each directory of every disk holds exactly what its job lays out, the global one under the global seed and the local one under the local, whatever was there before |
| SharedData.FilledAlike | internal/datagen/datagen.go:173-181 | two VMs filled by one run hold the same global files on every disk |
| SharedData.SharedDataStays | cmd/agent/gen.go:169-172 | any incrementals and verify runs after that, each VM its own, failed or not, leave the global files of the two VMs equal |
| JobSeeds.JobsHaveOwnSeeds | cmd/agent/gen.go:436-450 | the rewrites and the growth job of a disk's incremental all have different seeds for up to 25033 rewritten files |
| JobSeeds.SeedsMeetAtTheGap | cmd/agent/gen.go:438-450 | the bound is tight: under any run seed that ends in the 16 bits 0x1e37, one in 65536 of all seeds, rewrite 25033 takes the growth job's seed; no deployment and run with such a seed is exhibited |
| JobSeeds.RewritesAreShared | internal/datagen/datagen.go:153-155 | in one run the i-th files rewritten on any two VMs or disks hold the same data where their sizes agree |
| Verify.ProblemIffStale | cmd/agent/verify.go:95-116 | a path has a problem exactly when it is stale |
| Verify.CheckPresent | cmd/agent/verify.go:94-111 | the loop over present files finds each one's problem once and sums the bytes hashed; it fails exactly when a recorded file is unreadable |
| Verify.CheckDisk | cmd/agent/verify.go:93-117 | the two loops find exactly one problem per stale path of the disk |
| Verify.ProblemsIffStale | cmd/agent/verify.go:129 | over all disks the problem list is empty exactly when nothing is stale |
| Verify.RunVerify | cmd/agent/verify.go:36-150 | verified if and only if every disk can be mounted, has a manifest, can be read and has nothing stale; the bytes are then the sum of all recorded sizes; otherwise one correct problem per stale path |
| Reconcile.FirstNamed | internal/hypervisor/fake/fake.go:69-76 | a lookup by name finds a VM of that name exactly when there is one |
| ReconcileLaws.CreateKeeps | internal/hypervisor/fake/fake.go:62-92 | CreateVM yields a VM of the name owned by the deployment, leaves all others, and makes no second one |
| ReconcileLaws.PassKeeps | internal/orch/orchestrator.go:364-487 | every pass, failed or cut short too, keeps target names unique on the hypervisor and in the records, and records pointing at VMs of their name |
| ReconcileLaws.SuccessConverges | internal/orch/orchestrator.go:396-486 | a successful pass has recorded every target name and every record has the spec's shape |
| ReconcileLaws.ConvergedIsStable | internal/orch/orchestrator.go:364-487 | on a converged fleet a pass of any mode succeeds without a driver call or change |
| ReconcileLaws.HistoryKeeps | internal/orch/orchestrator.go:364-487 | the invariant holds after any sequence of passes with scale-ups, failures and crashes |
| ReconcileLaws.ReconcileConverges | internal/orch/orchestrator.go:364-487 | however a history went, once a pass succeeds the fleet is complete, one VM and one record to a name, and a further pass is idle |
| ReconcileSafety.AbortSparesOthers | internal/orch/orchestrator.go:379-393 | in abort mode a pass leaves every unrecorded VM of another owner as it is, however the pass goes, and with a conflict changes nothing at all |
| ReconcileSafety.PassTouches | internal/orch/orchestrator.go:375-394 | a pass deletes exactly the conflicts it was told to clean, and leaves unchanged every VM that has no target name and no record |
| ReconcileSafety.GoodPassSucceeds | internal/orch/orchestrator.go:364-487 | without failures a pass succeeds if and only if it is not told to abort on an existing conflict |
| ReconcileSchedules.CreatedOvercounts | internal/orch/orchestrator.go:451-458 | the created count exceeds the new records by the number of records that fail after another failure, so it is right if and only if the schedule has no such event |
| ReconcileSchedules.TwoFailedRecordsCountOne | internal/orch/orchestrator.go:451-458 | a schedule for any two missing VMs that reports one created and records none |
| ReconcileSchedules.ResumeAfterAdopt | internal/orch/orchestrator.go:345-350 | an adoption interrupted anywhere, after any answers of the driver, resumes past the conflicts if and only if every conflicting VM's create was called and not refused; otherwise it fails without a change |
| ReconcileSchedules.AdoptionCanStrand | internal/orch/orchestrator.go:250-252 | a fleet with one conflict whose adoption, cut short before its first create, fails when resumed |
| ReconcileSchedules.AdoptionWouldSucceed | internal/orch/orchestrator.go:388-389 | the same adoption without the interruption succeeds |
| ReconcileDisks.CreatedDisks | internal/orch/orchestrator.go:425-434 | a VM created under a new reference has exactly the spec's number of disks of the spec's size; all others keep theirs |
| ReconcileDisks.PassBacks | internal/orch/orchestrator.go:396-486 | every pass, failed or cut short too, keeps each record's VM at the number and size of disks recorded or more, if the VMs it takes over have the spec's disks |
| ReconcileDisks.SuccessBacksExactly | internal/orch/orchestrator.go:425-464 | a successful pass leaves every record backed by its VM's disks if and only if every VM found under a missing name had the spec's disks |
| ReconcileDisks.HistoryBacks | internal/orch/orchestrator.go:364-487 | over every history that adopts nothing, with any failures, each record's VM has at least the disks recorded |
| ReconcileDisks.GrowingHistoryBacks | internal/orch/orchestrator.go:364-487 | the same over every history of a deployment that only grows, adoptions included, as long as each VM taken over has the spec's disks |
| ReconcileDisks.SuccessHasDisks | internal/orch/orchestrator.go:364-487 | when a pass of such a history succeeds, every recorded VM has at least the spec's disks of at least the spec's size |
| ReconcileDisks.AdoptionOverstates | internal/orch/orchestrator.go:425-450 | a pass that adopts a VM without disks succeeds and records the spec's |
| ReconcileDisks.FailedRecordLeaves | internal/orch/orchestrator.go:425-450 | a pass whose create succeeds and whose record fails leaves an unrecorded VM of the deployment with the spec's disks |
| ReconcileDisks.GrownSpecOverstates | internal/orch/orchestrator.go:425-450 | if the spec has grown since, the next pass takes that VM over as it is and records the disks of the new spec |
| Fleet.Reconciler.CreateVM | internal/hypervisor/fake/fake.go:62-92 | adopts by name and re-stamps the owner, or creates under a new reference, with exactly the spec's disks |
| Fleet.Reconciler.FindConflicts | internal/orch/orchestrator.go:514-545 | exactly the VMs under unrecorded target names that another or no deployment owns |
| Fleet.Reconciler.CleanConflicts | internal/orch/orchestrator.go:381-387 | the deletion loop removes exactly the conflicts, or those deleted before it failed |
| Fleet.Reconciler.CreateMissing | internal/orch/orchestrator.go:396-464 | the goroutines' steps, in whatever order, give the specified world, count and error |
| Fleet.Reconciler.GrowAll | internal/orch/orchestrator.go:466-485 | records are grown in order up to the first failure |
| Fleet.Reconciler.ReconcileCore | internal/orch/orchestrator.go:364-487 | the whole pass on driver and store is the specified one, which ReconcileLaws and ReconcileDisks state on records, names and disks |
| Calendar.DailyIsExact | internal/model/model.go:460-481 | for every coherent clock the 8-step walk succeeds with the least allowed instant strictly after now |
| Calendar.SevenStepsFail | internal/model/model.go:472-480 | seven steps fail if and only if today is the only weekday allowed and its time is over |
| Calendar.FixedClockCoherent | internal/model/model.go:471-476 | every fixed offset from UTC is a coherent clock |
| Calendar.FixedClockShows | internal/model/model.go:471-476 | a fixed clock shows the hour and minute on day d at exactly its instant of d, and an instant's day is the one it falls in |
| Calendar.WeekdaysFollow | internal/model/model.go:477 | days follow the weekdays in turn from a Thursday, Sunday being 0 |
| Calendar.ShiftingZoneCoherent | internal/model/model.go:465-476 | a zone that changes its offset by no more than the shift into its day, as summer time does, is coherent for every wall-clock time |
| Calendar.NextIsFuture | internal/model/model.go:449-490 | in every zone a next fire time is strictly in the future; in a coherent zone a valid schedule has none exactly when it is a one-shot whose time has passed |
| Calendar.ComputeNext | internal/model/model.go:452-490 | the branches and the walking loop compute the specified next fire time, in any zone |
| Scheduler.HeldOrAdvanced | internal/sched/sched.go:95-136 | a due schedule is either held busy with its row unchanged, or advanced: no longer due now, its busy mark cleared |
| Scheduler.EnabledIffNext | internal/store/schedules.go:46-59 | over all histories with edits, enabled if and only if a next fire time is stored |
| Scheduler.StartsAreSpaced | internal/sched/sched.go:80-172 | over every unedited history, with downtime, crashes and failed writes: after a start that was stored the next start comes only once the occurrence after it has |
| Scheduler.StartedAgainExactly | internal/sched/sched.go:109-117 | two starts are of one occurrence if and only if no outcome was stored from the first start on, whose own outcome was then lost |
| Scheduler.LostStartRepeats | internal/sched/sched.go:109-117 | a trace for any due schedule: the controller dies between the start and its storing, and the occurrence is started again |
| Scheduler.EveryIsSpaced | internal/model/model.go:454-459 | consecutive starts of an unedited every-d schedule are closer than d only if the first was not stored |
| Scheduler.EveryCanStartEarly | internal/sched/sched.go:109-117 | a history in which two starts of an every-d schedule are half a minute apart |
| Scheduler.OnceStartsOnce | internal/model/model.go:482-487 | an unedited one-shot starts nothing before its time, and all its starts but the last were not stored |
| Scheduler.OnceTwiceExactly | internal/sched/sched.go:109-117 | an unedited one-shot starts more than one run if and only if a tick that finds it due is answered with a start after a start that was not stored |
| Scheduler.OnceCanStartTwice | internal/sched/sched.go:109-117 | a one-shot with two starts |
| Scheduler.SkipMeansBusyThroughout | internal/sched/sched.go:118-129 | without an edit, an occurrence is skipped as busy only if every tick for at least the grace found it due, untouched and busy |
| Scheduler.EditDefeatsGrace | internal/sched/sched.go:119-129 | after an edit a single busy tick can skip the new occurrence |
| Scheduler.SkipAfterEdit | internal/sched/sched.go:118-129 | whatever came before the last edit, a skip after it had its full grace of busy ticks, or rests on a mark from before the edit that is a grace old, nothing having happened since |
| Scheduler.EditGraceExact | internal/sched/sched.go:119-129 | the first busy tick of an edited schedule skips its occurrence if and only if a mark from before the edit is a grace old by then |
| ScheduleLife.PutOffExactly | internal/sched/sched.go:118-126 | a due schedule's row is left as it is if and only if the answer is busy and the first busy answer is less than an hour old |
| ScheduleLife.AnswerIsRecorded | internal/sched/sched.go:97-172 | otherwise a start, a refusal and a busy skip alike go on to the first fire time after now (every d: now + d; daily: the least allowed instant after now) and record the run and result; only a deployment that is gone or a schedule that is spent disables the row, and those always do |
| ScheduleLife.GoesOn | internal/sched/sched.go:80-172 | over every unedited history, until a stored answer finds the deployment gone, the schedule waits for the first fire time after the last stored outcome |
| ScheduleLife.RecursUnlessGone | internal/sched/sched.go:97-136 | an unedited recurring schedule is enabled if and only if no stored answer found its deployment gone |
| ScheduleLife.StartsExactly | internal/sched/sched.go:80-117 | after any unedited history, a tick whose start is accepted starts a run if and only if the first fire time after the last stored outcome has come and the deployment was not found gone |
| ScheduleLife.DefinedWaits |  internal/api/schedules.go:22-38 | creating or editing an enabled schedule leaves it waiting for the first fire time after now |
| SchedulerTable.SchedulerLoop.ListDue | internal/store/schedules.go:92-97 | exactly the enabled schedules whose time has come, each once |
| SchedulerTable.SchedulerLoop.Tick | internal/sched/sched.go:79-90 | every due schedule is fired once with its own outcome, stored or lost, all others are untouched; a row that changes goes on to its first fire time after now, or to none if its deployment is gone |
| SchedulerTable.SchedulerLoop.Fire | internal/sched/sched.go:95-172 | one schedule's row and busy mark change as specified, the row going on to its first fire time after now unless its deployment is gone; when the write fails the mark is gone and the row stays; the others stay |
| Text.LinesRestore | internal/api/operations.go:316-322 | splitting at newlines and joining restores the text plus a newline |
| Text.LinesOfUnlines | internal/api/operations.go:316-322 | newline-free lines are read back from their text |
| Text.ContainsAcrossNewline | internal/api/operations.go:311-317 | a newline-free pattern is in two joined lines exactly when it is in one of them |
| Annotation.OwnerRoundTrip | internal/hypervisor/vsphere/driver.go:657-669 | the owner parsed from stamped notes is the stamped one if and only if id and name are trimmed and newline-free |
| Annotation.ParsedIsClean | internal/hypervisor/vsphere/driver.go:659-668 | whatever the notes say, the owner read is trimmed and newline-free |
| Annotation.FieldReadsBack | internal/hypervisor/vsphere/driver.go:954-963 | a clean field added to any notes is read back and changes nothing else |
| Annotation.ParseOwner | internal/hypervisor/vsphere/driver.go:659-669 | the loop over the lines gives the last value of each field |
| Console.SessionsPartition | internal/api/operations.go:289-325 | the sessions join to the log plus one newline; one per banner line plus one if the log does not open with one; each is whole lines, its first line is a banner unless it is the leading part of a log that does not open with one, no other line of it is a banner, and only that leading part is partial |
| Console.SplitConsoleSessions | internal/api/operations.go:294-325 | the collecting and flushing loop yields exactly those sessions; a blank log has none |
| Tail.ReadTail | internal/hypervisor/vsphere/driver.go:808-832 | for every stream in every chunking the compacting buffer, never beyond 2n plus one chunk, returns the last n non-NUL bytes, or the read error |
| Tail.TailIsExact | internal/hypervisor/vsphere/driver.go:804-807 | the result depends on the bytes and not on the chunking, and is the NUL-free suffix of length min(n, k) |
| Tail.Compact | internal/hypervisor/vsphere/driver.go:818-820 | the overlapping move in place puts the last n bytes in front |
| Seeds.StepIsInjective | internal/datagen/datagen.go:164-171 | on the 63 bits kept, an FNV-1a step maps equal results back to equal states exactly when the bytes are equal |
| Seeds.XorIsBitwise | internal/datagen/datagen.go:164-171 | a digit of the exclusive or is set exactly when the operands differ in it |
| Seeds.Fnv1aVectors | internal/datagen/datagen.go:164-171 | the hash has the published FNV-1a values of the empty text and of "a" |
| Seeds.OneByteSeparates | internal/datagen/datagen.go:164-171 | two inputs of one length that differ in a single byte never share a masked seed |
| Seeds.EncodeIsInjective | internal/datagen/datagen.go:166-169 | the terminated encoding of NUL-free parts is uniquely decodable |
| Seeds.SourcesAreDistinct | internal/datagen/datagen.go:194-219 | global, local and run inputs are distinct for any two different kinds, deployments, runs, VMs or disks |
| Seeds.GlobalDataIsShared | internal/datagen/datagen.go:173-181 | any two VMs of a run get the same global bytes and seeds on every disk |
| Seeds.LocalSeedsDiffer | internal/datagen/datagen.go:173-181 | VMs whose names differ in one character get different local seeds on every disk |
| Seeds.SplitIsExact | internal/datagen/datagen.go:203-205 | for a validated spec the payload is split without loss into two parts that are not negative |
| Seeds.GlobalIsCrossVM | internal/datagen/datagen.go:203-205 | the shared part of every disk is the cross-VM percentage of its payload, fractions of a byte dropped |
| Seeds.Pct | internal/datagen/datagen.go:227-237 | the nearest percentage within 0 to 100 |
| Seeds.BuildWorkOrder | internal/datagen/datagen.go:182-225 | the loop gives every disk its index, size, byte split and seeds |
| AgentClient.AtMostOnce | cmd/agent/main.go:140-165 | within one life of the agent, which forgets its completed runs when it restarts: while runs do not overlap, none executes twice however often its order is handed out |
| AgentClient.StartsAgainExactly | cmd/agent/main.go:150-164 | over every history a run is started more than once if and only if it was at some point offered while executing and no longer named by the guard |
| AgentClient.OverlapRunsTwice | cmd/agent/main.go:150-164 | a trace in which two overlapping runs make one execute twice at once |
| AgentClient.Client.Dispatch | cmd/agent/main.go:142-165 | a goroutine is launched exactly when the run is neither running nor completed |
| AgentClient.PostReliable | cmd/agent/main.go:194-209 | a final report is delivered exactly when one of twelve attempts is accepted, and none is made after that one |
| AgentClient.OutageBound | cmd/agent/main.go:185-209 | an outage from the first attempt on loses the report exactly when it lasts beyond 127 times the first wait |

## Left out

- SQL, JSON, HTTP routing, authentication, the secret box and the web interface: tables are rows in fields, handlers are protocol steps.
- Most of the vSphere driver: foreign calls. The in-memory driver is the contract; a lookup by name takes the first match, and the invariants show there is at most one.
- Power states seen by bootVM and powerCycle: what they leave powered on is an arbitrary input of each step, since the outcome proofs do not depend on it.
- Floating-point rounding: percentages and fractions are reals with truncation explicit. Sub-second times are not modelled.
- Parsing of schedule specs, time zones and timestamps: a schedule carries its parsed kind and its zone as a function from days to instants. How Go resolves a local time that a zone skips or repeats is not modelled.
- Two reads of the clock within one poll pass are one time.
- The identity marker, sizes of log messages, statistics, throughput samples and the text of error messages.
- Console timestamps read from the kernel's clock line.
- Teardown, power jobs, adoption and discovery flows, profile and connection records: thin, with easy claims. "Deleted" is not absorbing in the code.
- Placement and round-robin datastores: the choice does not affect names, records or conflicts.
- The bound of four creates in flight: the proofs allow any number and any order.
- Failing of FindVMs, of listing records, of mkfs and of directory reads: each returns an error before anything is changed. A file whose read fails is modelled.
- Finding the block devices: an order comes with one disk for each it names.
- Non-regular entries in data directories, which the source skips.
- Signed overflow of byte totals and of the 64-bit seed of the growth job beyond its low bits.
- ReconcileLaws.SuccessConverges: speaks of records only. That the VMs have at least the recorded disks is ReconcileDisks; they can have more, because a retry after a failed record update adds disks again.
- ReconcileDisks.HistoryBacks: keeps the spec's disks fixed over the history and adopts nothing, because otherwise it is false (ReconcileDisks.GrownSpecOverstates, ReconcileDisks.AdoptionOverstates); growing specs and adoptions under the condition that makes it true are ReconcileDisks.GrowingHistoryBacks.
- Redo.CrashesDoNotShow: stops at the growth job, because past it the claim is false (RedoAfterGrowth.RedoCanFalsifyManifest).
- FillGate.GateHolds: assumes orderly reports and grants, because without them it is false (FillGate.GateHoldsExactly).
- FillRun.SucceededMeansPoweredOff: covers success only, because the failing exits record the status before powering off.
- AgentClient.PostReliable: posts take no time.
