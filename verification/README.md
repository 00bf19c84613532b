# Control-plane state of the navaris daemon, modelled and proved in Dafny

The daemon keeps one fact in several places: a boost in a table and in a timer map, a limit in SQLite, in
vminfo.json, in a cgroup and in a balloon, a host port in an allocator, in vminfo and in a DNAT rule. Every
write can fail, and the daemon can die between two writes. This project models the code that keeps those places
in agreement and proves what it keeps, over every run, for every pattern of failures. `dafny verify
dfyconfig.toml` checks all of it.

Conventions. A store error means that the write was not applied; NotFound means that the row is absent. Failures
are inputs: an operation takes a record that says which of its calls fail. Integers are unbounded unless a width
is written out (`Wrap64`, `Byte`). Concurrent protocols are step machines: `Enabled` and `Next` give the steps, a
run is any sequence of enabled steps by any number of threads. Code that changes an object in place is a class
whose methods are proved equal to those specifications.

## What is in it

- `BoostModel`, `BoostOutcomes`, `BoostInvariants`, `BoostTheorems`, `BoostOverlap`, `BoostRuns`, `BoostDaemon`: the
  boost service. Each operation is a
  function from a world to the worlds it passes through, one per store or provider write, so a crash can be put
  after any write. A timer that runs out starts an expiration. It looks its row up some time later, goes on under
  the sandbox's lock some time after that, or never does if the daemon dies first. The class `BoostService` runs the
  same operations step by step; a ghost argument lists the stages of the operation, and no write may produce contents
  that are not those of a stage.
- `SandboxLocks`: the reference-counted lock per sandbox.
- `VmFileLocks`, `VmInfoFile`: the per-VM file lock with its stop sentinel, and the write of vminfo.json.
- `ResizeModel`, `ResizeOutcomes`, `ResizeTheorems`, `ResizeProvider`, `ResizeBridge`: live resize over both layers, machine sizes,
  and why the boost service may take a resize for one call that works or changes nothing.
- `ForkPoints`: who still needs a fork-point's directory.
- `PortAllocation`, `PortOwnership`, `PortOutcomes`, `PortRules`, `PortProvider`: host ports and their forwarding rules.
- `Dispatcher`, `DispatcherOutcomes`: the operation dispatcher.
- `TokenBuckets`, `RateLimiters`: the boost channel's and the login page's limiters.
- `Subnets`, `StorageRegistry`: subnet indexes and addresses, backend lookup.

The modules named `...Outcomes` say what each operation comes to: exactly when it succeeds, and what it leaves, with
the source's constants written out. The others say what whole runs keep.

## What turned out not to hold

Each of these is kept as the code has it, with the exact condition proved or with a run that shows it.

- A timer without a row: an expiration under way whose boost is cancelled before its lookup, or while it waits for
  the lock, and whose next read fails, arms a retry for a boost that is gone (`internal/service/boost.go:262-284`;
  `CancelledWhileExpiring`, `StrayHappens`, `StrayWhileWaiting`), and deleting a sandbox row deletes its boost row by
  cascade (`internal/store/sqlite/migrations/003_boosts.sql:6`) but not the timer. `StepOwned` shows that no other
  event does it, `StrayTimerHeals` that the timer goes at its next firing with a working lookup.
- A running sandbox without a boost can be away from its persisted limits after exactly three things: a plain
  resize whose provider call and rollback write both fail, a crash between a plain resize's first write and its
  provider call, and a boot with other limits (`StepSteady`; each happens: `ResizeTears`, `CrashTears`, `BootTears`).
- A nil limit in the revert means "leave alone". With one limit persisted, the other keeps the boosted value
  after the boost is gone (`RevertOutcome`). With neither persisted no expiration or Cancel on a running sandbox
  succeeds: the boost ends in revert_failed and the machine keeps its limits (`NothingToRevert`,
  `NothingToCancel`).
- A failed replacing Start puts the prior boost's timer at its expiry, not at the retry that was pending
  (`FailedStartRestores`).
- The duration cap is checked on a 64-bit product that can wrap; 18446744074 seconds pass a cap of one hour
  (`DurationCap`, `DurationCapFails`).
- Between the stop sentinel and the stop's lock, the one writer already inside may still write vminfo, and only
  that one (`WritesDuringStop`, `InsiderMayWrite`).
- `internal/service/sandbox_resize.go:34-35` says that limits given to a stopped sandbox take effect on its next
  start. The code boots from vminfo.json alone, so they do so only if vminfo had them already
  (`StoppedResizeWaits`).
- A fork-point is not always removed once its children are gone. If children are destroyed only after the fork has
  returned and the updates work, it is removed exactly when at least one child was spawned and at most one was not
  (`CollectedByCount`): an early failed spawn leaves slots of children never tried, and a fork without any child has
  no release (`EarlyFailurePins`). In general some child has to be released after the last slot was given back
  (`CollectedExactly`). Otherwise the directory stays for the daemon's life. A later start removes it if it lists no
  child and has no slot left, or has slots left and is more than an hour old
  (`internal/provider/firecracker/forkpoint.go:165-167`), which is not part of the model.
- A stop whose final write fails gives back ports that its vminfo still lists; so does a restart that cannot
  clear the record of a dead VM. Nothing else does, a death of the daemon in the middle of a publish included
  (`NextOwned`). The same stop tried again at once puts it right (`RetriedStopHeals`); if another VM was given the port
  meanwhile, the retry frees that VM's port (`RetriedStopSteals`).
- A failed publish changes nothing, except that a removal without effect leaves its rule, and that the rollback of
  a failed add may take away a rule of the same kind that stood before (`FailedPublish`).
- Rules and ports come apart in exactly these cases (`NextRules`): a rule's removal has no effect where the record
  goes, or a record stays where the rule goes, in an unpublish, a stop, a failed publish or the recovery of a dead
  VM; a VM that still lists ports is started on another subnet; a restart finds a publish between adding its rule and
  writing it down; or a restart adds a second rule for a served port, or its failed add takes the standing one away.
  `RestartThenUnpublish` counts what an unpublish after a restart leaves.
- An operation sent to the dispatcher's queue after the drain stays there and the wait group never reaches zero
  (`LateSendIsStuck`, `LateSendHappens`), and that is the only obstacle (`ShutdownExactly`); a cancel between the
  check of the mark and the storing of the cancel function has no effect (`CancelEffect`), and its mark is never
  removed (`LateMarkStays`).
- The retry-after duration drops the fraction of a nanosecond, so it is enough exactly when there is none
  (`RetryAfterTight`); the header rounds up by a second and is always enough (`HeaderEnough`).
- Two live VMs can share a /30. A reservation does not look whether its index is in use, and whoever of the two
  releases it first takes it out of use for both (`ReservedTwice`); every child of a fork reserves index 0
  (`internal/provider/firecracker/fork.go:181-194`, `internal/provider/firecracker/sandbox.go:374-376`; `ForkChildrenMeet`).
- Nor does an allocation look whether its /30 is in use: two allocations meet exactly when a multiple of 16384
  indexes lies between them (`AllocationsMeet`).
- Registered as a storage prefix, "/" covers no path but itself (`RootCoversItself`).

## Model

| member | source | states |
|---|---|---|
| BoostOutcomes.WrapIs | internal/service/boost.go:78 | a duration in 64-bit nanoseconds: the value in range congruent to the product |
| BoostOutcomes.BoundsAre | internal/service/limits.go:18-56 | 1..32 CPUs and 128..8192 MB on Firecracker, 1..256 and 16..524288 elsewhere, each limit by itself, unset ones always |
| BoostOutcomes.StartSucceeds | internal/service/boost.go:70-176 | Start succeeds exactly when the duration passes, the sandbox runs, the limits are within bounds, and no call fails |
| BoostOutcomes.StartOutcome | internal/service/boost.go:126-176 | it then leaves one new active boost with the limits asked for, the persisted ones, and its expiry from now on, a timer for that expiry, the asked limits live, and nothing else changed but the older boost and its timer gone |
| BoostOutcomes.StartExpiry | internal/service/boost.go:130-137 | expiry and timer are now plus the duration to the nanosecond when it fits 64 bits |
| BoostOutcomes.StuckStart | internal/service/boost.go:152-169 | a Start that cannot undo its row either keeps it, with an expiration one second later |
| BoostOutcomes.LookOutcome | internal/service/boost.go:261-271 | the lookup before the lock: found, gone with its timer, or retried after one second |
| BoostOutcomes.ExpireSucceeds | internal/service/boost.go:276-326 | an expiration succeeds, whatever was attempted before, exactly when both reads and the delete work and the resize of a running sandbox to its persisted limits goes through |
| BoostOutcomes.ExpireOutcome | internal/service/boost.go:302-326 | row and timer are then gone and every persisted limit is in force; nothing else changed |
| BoostOutcomes.ExpireUnread | internal/service/boost.go:276-301 | a failed read keeps the row and retries after one second |
| BoostOutcomes.ExpireUndeleted | internal/service/boost.go:318-323 | so does a failed delete, with the limits already back in force |
| BoostOutcomes.ExpireCounts | internal/service/boost.go:328-356 | a refused revert counts the attempt and waits 1, 5, 30, 120, 600 seconds; the sixth gives up |
| BoostOutcomes.ExpireTooLate | internal/service/boost.go:276-281 | a row gone by the second read only loses its timer |
| BoostOutcomes.RevertsInTheEnd | internal/service/boost.go:312-326 | after any number below six of refused expirations, one that the provider accepts reverts the boost |
| BoostOutcomes.CancelSucceeds | internal/service/boost.go:386-442 | Cancel succeeds exactly when there is a boost and a sandbox, no call fails and the resize of a running one goes through |
| BoostOutcomes.CancelOutcome | internal/service/boost.go:410-442 | boost and timer are then gone and, on a running sandbox, the persisted limits in force |
| BoostOutcomes.CancelFails | internal/service/boost.go:390-439 | what a failed Cancel leaves, for each call that can fail |
| BoostOutcomes.LifecycleSucceeds | internal/service/sandbox.go:442-499 | Stop and Destroy succeed exactly when the state allows it and the read, the write and the operation row work |
| BoostOutcomes.LifecycleOutcome | internal/service/boost.go:489-506 | they then take row and timer away if lookup and delete work and leave both if not; a running sandbox is stopping, nothing else changed |
| BoostOutcomes.ResizeSucceeds | internal/service/sandbox_resize.go:40-100 | exactly when a plain resize succeeds |
| BoostOutcomes.ResizeOutcome | internal/service/sandbox_resize.go:58-100 | the limits given are then persisted and, on a running sandbox, in force; the others stay |
| BoostOutcomes.RecoverOutcome | internal/service/boost.go:458-472 | after a restart exactly the active boosts not yet due have a timer, for their own expiry, and exactly those due one expiration each |
| BoostOutcomes.DeadlineStands | internal/service/boost.go:445-474 | over any run that leaves the boost alone, with any number of crashes, it stands with its timer at its expiry until it is due |
| BoostOutcomes.StartAwaits | internal/service/boost.go:130-176 | which is how a successful Start leaves it |
| BoostInvariants.StagesValid | internal/service/boost.go:70-506 | after every single write of every operation, under any failures, the table is consistent and every id in it was minted |
| BoostInvariants.StepValid | internal/service/boost.go:70-506 | so it is after every event, crashes at any write and row deletions included |
| BoostInvariants.RecoverCovers | internal/service/boost.go:453-474 | from the table alone, whatever a crash left, Recover gives every active boost a timer or an expiration, and no boost that is not in the table; every timer is in the future |
| BoostInvariants.OpCovers | internal/service/boost.go:70-506 | every operation with any failures keeps every active row covered under its own id |
| BoostInvariants.StepCovers | internal/service/boost.go:70-506 | so does every event, a crash at any write followed by Recover included |
| BoostTheorems.StepOwned | internal/service/boost.go:219-287 | an event that can happen leaves each timer with a row if and only if it is neither the lookup nor the second read of an expiration whose row is gone, failing, nor the deletion of a sandbox with an armed boost |
| BoostTheorems.StagesSteady | internal/service/boost.go:139-442 | at every write of a boost or lifecycle operation, a running sandbox without a boost row runs at its persisted limits |
| BoostTheorems.ResizeSteady | internal/service/sandbox_resize.go:69-100 | exactly when a plain resize, complete or cut after any write, breaks that |
| BoostTheorems.StepSteady | internal/service/boost.go:139-442 | an event keeps it if and only if it is not one of the three that tear row and machine apart |
| BoostTheorems.RunKeeps | internal/service/boost.go:70-506 | over any run: consistent table and covered boosts always; timers with rows, and live equal to persisted limits, up to the first event that strays or tears |
| BoostTheorems.RunGrows | internal/service/boost.go:328-349 | per boost id, the attempt count never falls over any run, crashes included |
| BoostTheorems.GivesUpAtTheSixth | internal/service/boost.go:253-259 | a fresh boost always refused: attempt n waits for the n-th backoff, the sixth and none before gives up without a timer |
| BoostTheorems.FailedStartRestores | internal/service/boost.go:115-174 | a failed Start whose compensation works leaves rows, sandboxes and live limits as they were; the timers exactly when the prior one stood at its expiry |
| BoostTheorems.FailedLifecycleRestores | internal/service/sandbox.go:466-499 | a failed Stop or Destroy leaves boost row and timer alone, and everything else too unless the write back fails |
| BoostTheorems.RevertOutcome | internal/service/boost.go:312-326 | after a successful expiration the row and timer are gone, set limits are enforced, and a nil limit keeps the boosted value |
| BoostTheorems.NothingToRevert | internal/service/boost.go:312-326 | with neither limit persisted no expiration on a running sandbox succeeds; the row stays and the machine keeps the boost |
| BoostTheorems.NothingToCancel | internal/service/boost.go:419-435 | nor does a Cancel; with a working store it gives the boost up |
| BoostTheorems.DurationCap | internal/service/boost.go:78-82 | the cap bounds the duration asked for if and only if the product fits 64 bits |
| BoostTheorems.DurationCapFails | internal/service/boost.go:78-82 | a duration of 585 years that passes a cap of one hour |
| BoostOverlap.StagesLocal | internal/service/boost.go:197-217 | operations on different sandboxes, which the lock lets overlap, touch none of each other's rows, limits, boosts, timers or expirations, at any write |
| BoostOverlap.CrashOfTwo | internal/service/boost.go:445-474 | a death of the daemon that cuts two of them leaves what Recover covers, consistent and without stray timers; live limits agree unless one cut is a tear by itself |
| BoostRuns.CancelledWhileExpiring | internal/service/boost.go:262-284 | in every consistent world, an expiration whose boost is cancelled before its lookup or while it waits for the lock arms a timer without a row if its next read fails |
| BoostRuns.StrayHappens | internal/service/boost.go:262-271 | a run of seven events from a daemon's first start in which that happens |
| BoostRuns.StrayWhileWaiting | internal/service/boost.go:273-284 | and from that run's fifth event one in which the second read fails |
| BoostRuns.PurgeStrays | internal/store/sqlite/migrations/003_boosts.sql:6 | so does deleting a sandbox with an armed boost |
| BoostRuns.ResizeTears | internal/service/sandbox_resize.go:83-92 | a plain resize with failed provider and failed write back, in a world of that run, leaves row and machine apart |
| BoostRuns.CrashTears | internal/service/sandbox_resize.go:71-83 | so does a crash between its first write and its provider call |
| BoostRuns.BootTears | internal/provider/firecracker/sandbox.go:282-334 | so does a boot with other limits |
| BoostDaemon.BoostService.UpdateResources | internal/service/sandbox_resize.go:40-114 | ends in the last stage of the model's resize, writes only its stages, same success |
| BoostDaemon.BoostService.Start | internal/service/boost.go:70-191 | the calls in the source's order end where StartSucceeds, StartOutcome and FailedStartRestores say, and return exactly the boost recorded |
| BoostDaemon.BoostService.Look | internal/service/boost.go:261-271 | the lookup before the lock ends in the model's stage; true when there is a lock to wait for |
| BoostDaemon.BoostService.Expire | internal/service/boost.go:273-286 | from the lock on, the calls in the source's order end where the Expire lemmas of BoostOutcomes say |
| BoostDaemon.BoostService.RevertBoost | internal/service/boost.go:288-357 | the part with the row read again, every write a stage |
| BoostDaemon.BoostService.Cancel | internal/service/boost.go:386-443 | ends in the last stage of the model's Cancel, every write a stage |
| BoostDaemon.BoostService.CancelOnLifecycle | internal/service/boost.go:489-506 | row and timer go together or not at all, as LifecycleOutcome says, with no revert |
| BoostDaemon.BoostService.Stop | internal/service/sandbox.go:442-499 | the calls in the source's order end where LifecycleOutcome and FailedLifecycleRestores say, every write a stage |
| BoostDaemon.BoostService.Destroy | internal/service/sandbox.go:513-573 | the same for Destroy |
| BoostDaemon.BoostService.Recover | internal/service/boost.go:453-474 | the loop over the rows, in whatever order they come, arms and launches exactly what RecoverOutcome says |
| SandboxLocks.LockGuarantees | internal/service/boost.go:193-217 | over all interleavings of any number of threads: one holder per sandbox, one lock object per sandbox, the entry stays while anyone has its pointer, the map is empty exactly when all are outside |
| SandboxLocks.EntryIsAlwaysOwn | internal/service/boost.go:212-214 | the identity comparison before the delete never fails |
| SandboxLocks.WaitersProgress | internal/service/boost.go:207-209 | a waiter can go on or the holder it waits for can |
| SandboxLocks.ThreadGoesThrough | internal/service/boost.go:197-217 | a thread that finds the lock free gets it, and after its release the map and everybody's place are as before |
| SandboxLocks.LockTable.RegisterFor | internal/service/boost.go:198-205 | the first critical section makes the Register step |
| SandboxLocks.LockTable.Release | internal/service/boost.go:210-215 | the last critical section makes the Deregister step |
| VmFileLocks.NextKeeps | internal/provider/firecracker/vminfo_lock.go:17-45 | every step of any number of writers and one stop keeps the lock objects, holders, entry and sentinel in agreement |
| VmFileLocks.Exclusive | internal/provider/firecracker/vminfo_lock.go:37-44 | at most one writer inside, none while the stop is, even with waiters on deleted lock objects |
| VmFileLocks.BarredStep | internal/provider/firecracker/vminfo_lock.go:24-31 | with the sentinel up a lookup fails at once and no step lets a writer in |
| VmFileLocks.NobodyEnters | internal/provider/firecracker/sandbox.go:547-556 | from the sentinel to the deletion of the entry, whoever is inside was inside before |
| VmFileLocks.WritesDuringStop | internal/provider/firecracker/sandbox.go:554-557 | a vminfo write between sentinel and final write comes from the writer already inside, before the stop has the lock |
| VmFileLocks.InsiderMayWrite | internal/provider/firecracker/sandbox.go:547-556 | right after the sentinel goes up, in any run, a writer may write if and only if it was inside |
| VmFileLocks.InheritedWrite | internal/provider/firecracker/sandbox.go:547-556 | a run with that write |
| VmFileLocks.FailedStopBars | internal/provider/firecracker/sandbox.go:635-641 | after a failed final write every later lookup fails until a stop gets through |
| VmFileLocks.CleanStopReopens | internal/provider/firecracker/sandbox.go:643-646 | after the entry is deleted, the next writer gets a fresh object and goes in |
| VmFileLocks.LookUpExactly | internal/provider/firecracker/vminfo_lock.go:18-32 | a lookup fails exactly when the entry is marked |
| VmFileLocks.RecheckExactly | internal/provider/firecracker/vminfo_lock.go:37-44 | the check under the lock lets in exactly when the object is not marked, and unlocks it otherwise |
| VmFileLocks.WriterGoesThrough | internal/provider/firecracker/vminfo_lock.go:17-45 | a writer that finds the VM not stopping and the lock free gets in, writes, and leaves the lock free |
| VmFileLocks.StopGoesThrough | internal/provider/firecracker/sandbox.go:547-646 | a stop that finds the lock free makes its final write and leaves no entry |
| VmFileLocks.FailedStopFrees | internal/provider/firecracker/sandbox.go:554-641 | one that fails keeps the marked entry and frees the lock |
| VmFileLocks.FileMu.FirstCheck | internal/provider/firecracker/vminfo_lock.go:18-32 | lockFor's section under the map mutex makes the LookUp step and returns the object or nothing |
| VmFileLocks.FileMu.SecondCheck | internal/provider/firecracker/vminfo_lock.go:40-44 | the check after the lock makes the Recheck step; true exactly when the writer is inside |
| VmFileLocks.FileMu.RaiseSentinel | internal/provider/firecracker/sandbox.go:547-554 | the stop's section under the map mutex makes the Raise step |
| VmInfoFile.Directory.Write | internal/provider/firecracker/vminfo.go:74-115 | an error exactly when a step up to the rename fails, and then the record is unchanged; a failed directory sync is no error; a crash at any point shows the old record or the whole new one |
| ResizeOutcomes.ResizedExactly | internal/provider/firecracker/sandbox_resize.go:39-183 | exactly when the provider's resize succeeds, over its checks and the calls that can fail |
| ResizeOutcomes.UpdatedExactly | internal/service/sandbox_resize.go:40-100 | exactly when the service's call succeeds |
| ResizeOutcomes.IdleUpdate | internal/service/sandbox_resize.go:58-78 | on a sandbox that does not run it changes the row's limits and nothing of the machine |
| ResizeOutcomes.FailureLeaves | internal/provider/firecracker/sandbox_resize.go:102-170 | quota and balloon after a failed call, for each compensation that works or fails, legacy records included |
| ResizeOutcomes.PatchedWithinTen | internal/provider/firecracker/sandbox_resize.go:208-233 | the balloon takes exactly when the VM accepts within ten tries, having asked to wait before |
| ResizeTheorems.FailedResizeChangesNothing | internal/provider/firecracker/sandbox_resize.go:102-170 | a failed provider resize changes nothing if and only if no compensation it tried, with something to undo, failed |
| ResizeTheorems.FailedUpdateChangesNothing | internal/service/sandbox_resize.go:58-100 | a failed call leaves row, vminfo, cache, quota and balloon as they were, with the exact condition over both layers |
| ResizeTheorems.FailedUpdateKeepsRecords | internal/provider/firecracker/sandbox_resize.go:147-170 | vminfo and the cache are unchanged by every failed call, even when compensations fail |
| ResizeTheorems.SuccessfulUpdateAgrees | internal/service/sandbox_resize.go:69-100 | after a successful persisting call on a running VM all five agree on each changed limit, quota limit times 100000, balloon ceiling less limit, and no other limit moved |
| ResizeTheorems.ResizeRoundTrip | internal/provider/firecracker/sandbox_resize.go:39-183 | a resize and the opposite one restore the machine |
| ResizeTheorems.CreatedSized | internal/provider/firecracker/sandbox.go:52-75 | limits within the bounds and multipliers of at least one give minimum <= limit <= ceiling <= maximum, for CPU and memory |
| ResizeOutcomes.ResolvedSizes | internal/provider/firecracker/sandbox.go:52-75 | limits asked for or the defaults; ceilings the least integers at or above limit times multiplier, at most 32 and 8192 |
| ResizeOutcomes.BootedValues | internal/provider/firecracker/sandbox.go:282-338 | what a boot puts into the record, the cache, the quota and the balloon |
| ResizeTheorems.BootedInStep | internal/provider/firecracker/sandbox.go:282-334 | the boot balloon is not negative and, with the limit, makes the ceiling; the quota is that of the limit |
| ResizeTheorems.SizesHold | internal/provider/firecracker/sandbox_resize.go:65-100 | over any run of boots, stops, resizes and overlays with any failures the sizes stay in order, the ceiling fixed, the live values those of an admissible limit, and a running sandbox is in the cache |
| ResizeTheorems.StaysInStep | internal/provider/firecracker/sandbox_resize.go:116-183 | over any such run without a failed compensation, quota, balloon and cache match vminfo |
| ResizeTheorems.OverlaysKeepLimits | internal/service/sandbox_resize.go:71-75 | over any run whose resizes are all live-only, with any failures, the row keeps the limits it had |
| ResizeTheorems.StoppedResizeWaits | internal/service/sandbox_resize.go:77-78 | limits given to a stopped sandbox are enforced at the next boot if and only if vminfo already had them |
| ResizeBridge.SameResize | internal/service/sandbox_resize.go:40-114 | without damage, the resize the boost service relies on and the two-layer resize agree on the result and on what is left, for every failure |
| ResizeBridge.AgreementMeans | internal/provider/firecracker/sandbox_resize.go:116-145 | live equal to persisted limits, as the boost proofs have it, means quota limit times 100000 and balloon plus limit the ceiling |
| ResizeProvider.Vm.PatchBalloon | internal/provider/firecracker/sandbox_resize.go:195-234 | succeeds exactly when one of the first ten answers accepts and those before it ask to wait |
| ResizeProvider.Vm.UpdateResources | internal/provider/firecracker/sandbox_resize.go:39-183 | machine and result are those of the specification, for every failure and legacy record |
| ResizeProvider.SandboxService.UpdateResources | internal/service/sandbox_resize.go:40-114 | row, machine and result are those of the two-layer specification |
| ForkPoints.NeverRemovedInUse | internal/provider/firecracker/fork.go:279-302 | the directory is neither removed nor about to be while a live or coming child needs it, for any failed spawns, lost updates and concurrent releases |
| ForkPoints.RunExact | internal/provider/firecracker/fork.go:207-220 | without failures SpawnPending is exactly the spawns to come and Descendants lists only children alive or being released |
| ForkPoints.CleanForkIsCollected | internal/provider/firecracker/fork.go:297-300 | without failures the directory is removed once all children are released |
| ForkPoints.LeftoverSlotPins | internal/provider/firecracker/fork.go:293-299 | a slot left reserved after the fork call keeps the directory for the daemon's lifetime |
| ForkPoints.EarlyFailurePins | internal/provider/firecracker/fork.go:259-268 | a failed spawn with a child not tried yet keeps the directory for the daemon's lifetime |
| ForkPoints.CollectedExactly | internal/provider/firecracker/fork.go:256-301 | with working updates, whatever spawns fail, the directory is gone in the end if and only if some child was released after the last slot was given back |
| ForkPoints.CollectedByCount | internal/provider/firecracker/fork.go:256-301 | if children are destroyed only after the fork has returned: if and only if at least one child was spawned and at most one was not |
| ForkPoints.ForkPoint.SpawnChild | internal/provider/firecracker/fork.go:202-223 | writing the child and recording it makes the two steps, also when the record is lost |
| ForkPoints.ForkPoint.Fork | internal/provider/firecracker/fork.go:256-271 | which children it returns, records and leaves on disk, and what remains of SpawnPending, for every list of outcomes |
| ForkPoints.ForkPoint.ReleaseDescendant | internal/provider/firecracker/fork.go:284-301 | the in-place filter removes exactly the child; true exactly when none is left and none pending |
| PortAllocation.PortAllocator.Allocate | internal/provider/firecracker/network/port_allocator.go:30-55 | fails exactly when all ports are used; otherwise the first unused one at or after the cursor, counting round, and only it is marked |
| PortOwnership.NextOwned | internal/provider/firecracker/sandbox.go:616-645 | a step, a restart at any point of any publish included, keeps ports disjoint, marked and owned if and only if it is not a stop or restart that cannot write the cleared record of a VM with ports |
| PortOwnership.RunOwned | internal/provider/firecracker/port.go:40-140 | over any run of interleaved publishes, unpublishes, starts, stops and restarts, up to the first such failure |
| PortOwnership.PublishEffect | internal/provider/firecracker/port.go:76-94 | what a publish that goes through leaves, in all five places |
| PortOwnership.UnpublishFields | internal/provider/firecracker/port.go:121-138 | what an unpublish whose write works leaves |
| PortOutcomes.StartOutcome | internal/provider/firecracker/sandbox.go:296-303 | a start takes a new subnet and keeps the ports the record has; no port or rule changes hands |
| PortOutcomes.StopOutcome | internal/provider/firecracker/sandbox.go:616-646 | a stop gives back every port, and clears record and cache exactly if its last write works |
| PortOutcomes.RestartOutcome | internal/provider/firecracker/firecracker.go:282-331 | after a restart exactly the serving VMs' ports are in use; other records lose theirs if they can be written |
| PortOwnership.FailedPublish | internal/provider/firecracker/port.go:55-92 | what a publish that fails leaves, at each point: used set, vminfo and cache as before, and the rules too unless a removal had no effect or a rollback took one that stood |
| PortOwnership.PublishRoundTrip | internal/provider/firecracker/port.go:102-140 | unpublish after publish is the identity, rules and cache included |
| PortOwnership.RetriedStopHeals | internal/provider/firecracker/sandbox.go:616-641 | a stop with a failed final write and the same stop again leave ports owned |
| PortOwnership.RetriedStopSteals | internal/provider/firecracker/sandbox.go:616-641 | with a publish of the freed port by another VM between the two, that VM's port is listed but not in use |
| PortRules.NextRules | internal/provider/firecracker/port.go:78-138 | a step, any call failing or without effect, keeps exactly one rule for each port and each publish that has added its own, if and only if it is none of the moves listed above |
| PortRules.RunRules | internal/provider/firecracker/sandbox.go:616-645 | over any run without those moves each port has its one rule, and no rule stands for a port not in use |
| PortRules.RestartThenUnpublish | internal/provider/firecracker/firecracker.go:303-311 | how many rules of a served port a restart and an unpublish leave, for every failure of the add and the removal, publishes under way or not |
| PortRules.MovedVmLeavesRule | internal/provider/firecracker/sandbox.go:296-303 | a VM that dies with a port and is started on another subnet leaves the old rule behind after the unpublish |
| PortRules.PortsAreFreed | internal/provider/firecracker/sandbox.go:638-641 | each exception to ownership is one or two steps after a run from the start without failures |
| PortRules.RulesComeApart | internal/provider/firecracker/network/dnat.go:26-53 | so is each exception to the rules; a restart whose add fails without effect is none |
| PortProvider.Provider.PublishPort | internal/provider/firecracker/port.go:40-100 | succeeds exactly when a port is free, the VM serves and no call fails, with the three steps of a publish; otherwise only a rule can have changed, and which and when is stated |
| PortProvider.Provider.UnpublishPort | internal/provider/firecracker/port.go:102-140 | makes the unpublish step, a failed write and a removal without effect included |
| PortProvider.Provider.DropRules | internal/provider/firecracker/sandbox.go:616-623 | the loop gives back exactly the VM's ports and removes exactly the rules whose removal works |
| PortProvider.Provider.ReleasePorts | internal/provider/firecracker/sandbox.go:616-646 | makes the stop step; ownership survives exactly when the final write works or there were no ports |
| Dispatcher.Accounting | internal/worker/dispatcher.go:99-222 | in every state: the wait group is enqueuers past Add plus queue plus the loop's hand plus runs; holders of the semaphore never exceed the concurrency; no handler is called twice |
| Dispatcher.EarlyCancelHolds | internal/worker/dispatcher.go:130-138 | from such a mark on, in every later state the handler has not been called and a run that ends ends cancelled |
| Dispatcher.CancelEffect | internal/worker/dispatcher.go:200-222 | what a cancel does at each point of an operation's life, the window without effect included |
| Dispatcher.LateMarkStays | internal/worker/dispatcher.go:136-137 | a mark stored after the check is never removed |
| Dispatcher.LateSendIsStuck | internal/worker/dispatcher.go:165-174 | an operation queued after the drain stays, is never run, and keeps the wait group above zero |
| Dispatcher.LateSendHappens | internal/worker/dispatcher.go:119-120 | a run with that send |
| Dispatcher.RunFalls | internal/worker/dispatcher.go:176-245 | whatever move a run makes, it comes closer to giving its slot back |
| Dispatcher.ShutdownExactly | internal/worker/dispatcher.go:77-97 | with the loop gone and no sender left, the wait group can reach zero if and only if the queue is empty |
| DispatcherOutcomes.StatusByMoves | internal/worker/dispatcher.go:182-245 | in every state of every run an operation has succeeded, failed or been cancelled exactly if the handler's return, the missing handler or the found mark that means it has happened |
| DispatcherOutcomes.FinalStays | internal/worker/dispatcher.go:182-245 | an ended operation's status never changes |
| DispatcherOutcomes.HowItLeaves | internal/worker/dispatcher.go:119-180 | an operation leaves only refused or drained, and is then pending, or at the end of its run, and has then ended in one of the three ways |
| DispatcherOutcomes.DroppedStaysPending | internal/worker/dispatcher.go:121-127 | a refused or drained operation stays pending |
| DispatcherOutcomes.SucceededOnce | internal/worker/dispatcher.go:221-233 | a succeeded operation's handler was called, once |
| DispatcherOutcomes.StartsExactly | internal/worker/dispatcher.go:158-160 | the operation in the loop's hand can start exactly while fewer than the concurrency run |
| DispatcherOutcomes.FirstInFirstOut | internal/worker/dispatcher.go:119-174 | operations leave the queue in the order they came |
| DispatcherOutcomes.QueueBound | internal/worker/dispatcher.go:42 | the queue never holds more than 256 |
| DispatcherOutcomes.RefusedOnlyIf | internal/worker/dispatcher.go:119-127 | an enqueuer is turned away only by a full queue or a stop |
| TokenBuckets.NetBound | internal/api/ratelimit.go:49-69 | in any window of any run: grants less refunds of a key are at most its level at the start plus the refill of the window |
| TokenBuckets.WindowBound | internal/webui/ratelimit.go:42-99 | hence at most the capacity plus the refill, sweeps included when the idle time covers a full refill |
| TokenBuckets.SweepsUnseen | internal/webui/ratelimit.go:88-99 | with sweeps anywhere or none, and refunds to swept keys, every take is answered the same |
| TokenBuckets.SweepsSeenExactly | internal/api/ratelimit.go:90-94 | sweeps are unobservable over all runs from the start if and only if the refill of one nanosecond more than the idle time reaches the capacity |
| TokenBuckets.SweepSeen | internal/webui/ratelimit.go:88-99 | for any capacity: sweeps change an answer if a bucket that gave out n tokens has not refilled to n when it is swept |
| TokenBuckets.NothingGranted | internal/webui/ratelimit.go:61-68 | a capacity below one token grants nothing, swept or not |
| RateLimiters.DefaultsSweepOnlyFull | internal/webui/handlers.go:34-63 | the daemon's settings of both limiters, with their idle time of an hour, meet that condition |
| RateLimiters.RateLimiter.Allow | internal/api/ratelimit.go:49-69 | makes the take event, same answer |
| RateLimiters.RateLimiter.RetryAfter | internal/api/ratelimit.go:73-84 | the exact wait with the fraction of a nanosecond dropped; none when nothing refills |
| RateLimiters.Collect | internal/api/ratelimit.go:90-95 | the loop keeps exactly the buckets used since the cutoff |
| RateLimiters.RateLimiter.GC | internal/api/ratelimit.go:87-96 | makes the sweep event |
| RateLimiters.LoginLimiter.Consume | internal/webui/ratelimit.go:42-71 | makes the take event, same answer |
| RateLimiters.LoginLimiter.RefundOne | internal/webui/ratelimit.go:75-86 | makes the refund event |
| RateLimiters.LoginLimiter.GC | internal/webui/ratelimit.go:90-99 | makes the sweep event |
| RateLimiters.RetryAfterTight | internal/api/ratelimit.go:71-84 | after a denial, a take is granted if and only if the exact wait has passed; the duration given out suffices if and only if it lost no fraction, and nothing shorter does |
| RateLimiters.HeaderEnough | internal/api/boost_channel.go:47-51 | the whole-second Retry-After value (section 10.2.3 of RFC 9110) is always enough |
| RateLimiters.HeaderTight | internal/api/boost_channel.go:47-51 | and exceeds the duration by a second at most |
| RateLimiters.NoRefillNoGrant | internal/api/ratelimit.go:73-84 | without refill a denied key stays denied, so no wait is enough |
| Subnets.NeverAgain | internal/provider/firecracker/network/allocator.go:19-50 | no allocation returns an index allocated, reserved or recovered before, whatever was released |
| Subnets.Allocator.Allocate | internal/provider/firecracker/network/allocator.go:27-34 | returns the cursor's index, never given before and not in use |
| Subnets.Allocator.InitPast | internal/provider/firecracker/network/allocator.go:19-25 | the cursor passes the index and never goes back |
| Subnets.Allocator.Reserve | internal/provider/firecracker/network/allocator.go:43-50 | the index is in use and the cursor past it |
| Subnets.Addresses | internal/provider/firecracker/network/allocator.go:58-73 | where an index's block is, host and guest its first and second address, no byte carries |
| Subnets.BlocksMeet | internal/provider/firecracker/network/allocator.go:58-61 | two indexes' /30 blocks share an address if and only if the indexes are equal mod 16384 |
| Subnets.AddressesDiffer | internal/provider/firecracker/network/allocator.go:63-73 | no host address is a guest address; hosts, and guests, are equal exactly when the blocks are |
| Subnets.AllocationsMeet | internal/provider/firecracker/network/allocator.go:27-34 | two allocations' blocks meet if and only if a multiple of 16384 indexes lies between them |
| Subnets.ReservedTwice | internal/provider/firecracker/network/allocator.go:36-50 | an index in use can be reserved again, and one release takes it out of use for both |
| Subnets.ForkChildrenMeet | internal/provider/firecracker/sandbox.go:374-376 | any two children of a fork have the same block and the same addresses |
| StorageRegistry.Registry.Set | internal/storage/registry.go:44-58 | registers exactly that prefix and keeps the list sorted and equal to the map's keys |
| StorageRegistry.Registry.For | internal/storage/registry.go:69-82 | the first match in the list is the longest registered prefix of the path; the fallback exactly when there is none |
| StorageRegistry.RootCoversItself | internal/storage/registry.go:74 | "/" as a prefix matches the path "/" only |

## Left out

- HTTP, MCP, the command line, the web UI, websockets, vsock, events, telemetry, logs, and the JSON and SQL encodings.
- The Incus provider, the Firecracker SDK, tap devices and cgroup files: one effect each, that happens or does not.
- iptables: the three rules of a port are one, added or removed, with the rollback of a failed add; states in which some of the three stand are not modelled.
- A store write that reports an error although it was applied.
- Boost rows: `source`, `last_error` and `updated_at`; boost ids are a counter, not eight characters of a UUID that might repeat.
- Operations on one sandbox are whole, because of the lock proved in SandboxLocks. The lookup of an expiration before it takes the lock (`internal/service/boost.go:262-271`) is a step of its own, but comes between whole operations, not inside one.
- Operations on different sandboxes overlap; BoostOverlap says what that can and cannot do, but no run interleaves their single writes.
- A plain resize takes no sandbox lock (`internal/service/sandbox_resize.go:40-114`), and neither do the handlers that finish a start or a stop, so they can run in the middle of a boost operation; here they come between whole operations, or cut short by a crash.
- Live limits across a stop and start are what the boot sets; that vminfo keeps a boosted limit is part of the resize model, not of the boost model.
- BoostTheorems.GivesUpAtTheSixth: follows the expirations of one boost with nothing between them but time, because a Cancel or Start between them takes the boost away.
- Two StopSandbox calls at once on one VM.
- Stop and restart of the daemon in ForkPoints: the orphan rule (`internal/provider/firecracker/forkpoint.go:165`) does not look at Descendants.
- The order of resource release in a failed start (`internal/provider/firecracker/sandbox.go:814-834`), masquerade rules, and UIDs and CIDs, which are allocated like subnet indexes but never reserved.
- Copying: clonePorts and the pointers of the vms map; a value in the model is never shared.
- Dispatcher: it is a step machine only, with no class, since every field is a channel or a shared map; the 30-second timeout of Stop, what handlers do, and a panic in one are not modelled. The deletion of the stored cancel function is one step with the handler's return.
- Rounding of floating-point tokens and multipliers, which are reals here; the 64-bit overflow of a wait at a very small refill rate; a clock that goes back.
- RateLimiters.RateLimiter.RetryAfter: answers "none" at a refill rate of zero, where the source converts an infinite float to an integer, which the Go specification leaves to the platform.
- ResizeTheorems.SizesHold: says that a VM is in the cache only while its sandbox runs, because a stop that gets through deletes the entry.
- TokenBuckets.SweepsSeenExactly: for whole capacities. For a capacity between n and n + 1, `SweepsUnseen` and `SweepSeen` decide every refill of the idle time except those within twice the fraction below the capacity, where it depends on which levels whole-nanosecond call times can reach.
- HeaderEnough and RetryAfterTight suppose a capacity of at least one token; with less nothing is ever granted.
- The Retry-After header of the login page, the domain transition tables, provider dispatch, MAC addresses and the kernel boot argument: easy.
- StorageRegistry takes cleaned paths: filepath.Clean, the probing in BuildRegistry and the fallback in CloneFile are not modelled; the library sort is an insertion into the sorted list, which has the same result.
