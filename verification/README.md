# Azure Disk CSI driver: a verified model

This project models the parts of the Azure Disk CSI driver in which correctness is hard to see from
the code, and proves what they guarantee. `dafny verify dfyconfig.toml` checks all of it.

* **The batched attach/detach protocol** (`AttachProtocol`, `AttachInvariants`, `AttachSafety`,
  `AttachTheorems`, `AttachProgress`, `AttachProvenance`, `AttachLimits`, `AttachServed`,
  `AttachOutcome`). Any number of AttachDisk, DetachDisk and UpdateVM calls run
  interleaved on any nodes. A call queues its request, takes the node lock, drains the node's whole
  queue, allocates LUNs for everyone in the batch, calls the VM and unlocks; another call may have
  served or dropped its request meanwhile. The model is a step machine whose labels are the atomic
  actions of one call; the theorems are about every state of every run.
* **The locks and queues under it**: `LockMap` (the two-phase lock table refines an atomic lock for
  each key), `RequestQueue` (the shared table of mutable maps, as a class) and `AttachQueues` (that
  class carries out the protocol's queue steps).
* **LUNs**: `LunAllocator` (SetDiskLun and GetDiskLun, with the options written through pointers) and
  `OccupiedLuns` (the sorted-merge difference that feeds the collision check).
* **Paging**: `ListVolumes` over several resource groups with its pages in `VolumePages`, and
  `ListSnapshots`.
* **Node staging**: `NodeStaging`, crypt devices and mounts under `VolumeLocks`, with every step
  allowed to fail.
* **Arithmetic and search**: `VolumeSizing` (create, expand, LUKS header), `DevicePerformance` (queue
  sizing, SKU choice), `SourceDisk` (following copies back, with a depth bound) and `DiskStates` (the
  table that DeleteManagedDisk consults).

## What is assumed of the environment

Every choice of the environment is carried by a label or a parameter, and the enabling condition of
the label states its contract.

* A view of the VM read under the node lock contains every disk really on the VM. This is the only
  assumption behind the distinctness of LUNs. Five more are switches of `Config`, because the return
  values depend on them: `exactViews` (the view contains nothing else), `namesFaithful` (a disk that
  GetDiskLun matches by name or VHD address is the one asked for), `noDetachFlags` (no view flags a
  disk as to-be-detached), `retryCompletes` (an UpdateVM that returns nil after a preempted attach
  has completed that attach) and `goneIsEmpty` (a VM that is reported as not found carries no disk).
* `vmset.AttachDisk` may put any part of the batch on the VM, at the LUNs asked for, and never moves
  a disk; if it returns nil the whole batch is on. `vmset.DetachDisk` may take off any part of its
  batch; if it returns nil, all of it.
* A panic inside SetDiskLun ends the call as an error, since the deferred unlock runs.
* Names are folded over ASCII, the alphabet of Azure resource IDs. A managed disk carries an ID, and
  the model knows a disk on a VM by its lower-cased ID.
* Throttling answers, clocks and delays are free booleans or absent; map iteration orders are
  arbitrary enumerations of the keys.

## Where code and intent differ

The model follows the code. Each difference has a counterexample and the exact condition under which
the intended property holds.

* The LUN that AttachDisk returns from the protocol is true in every run exactly when views are exact
  and, with the LUN check on, names are faithful, or, with it off, a successful retry completes the
  attach (`AttachReturnsTrueIff`). For a call whose own batch held its disk, with the check off, views
  need not be exact (`OwnReturnsTrueIff`). (AttachDisk can also return early with a LUN that it read
  without the node lock; that path is not modelled.)
* DetachDisk returns nil in three ways that its caller cannot tell apart: after the check, when the VM
  is not found, and early when the node is not found. A nil means that the disk is off in every run
  exactly when the LUN check is on, views flag no disk, and a VM that is not found carries none
  (`DetachReturnsTrueIff`).
* Allocation gives a disk of the batch that is already on the VM a fresh LUN, which the VM refuses: one
  such disk drops everybody's request (`NilAttachIff`, `BatchWithAttachedDiskFails`).
* The guard on occupied LUNs lets 64 through to a 64-slot table (`CrashesIff`,
  `OccupiedSixtyFourCrashes`).
* The array difference is a multiset difference (`SetDifferenceIff`).
* The cluster paging token overshoots by the size of the skipped groups (`TokenExactIff`,
  `ThirdGroupIsLost`); the single-group token counts from the start of the page (`NodeTokenExactIff`,
  `NodeWalkIsStuckIff`).
* A page is never filled from two groups: in a later group the entries so far are counted against a
  limit from which they were already subtracted. A page is full exactly when the first group with a
  visible disk at or after the start holds enough of them (`PageFullIff`, `PageStopsShort`).
* The driver's comment says that the state table maps disk URIs to states; AttachDisk stores under
  the pointer to its disk object, so attaching never blocks a deletion (`AttachingDoesNotRefuse`).
  DetachDisk marks its own disk only, though it detaches a whole batch. A disk is protected throughout
  a run exactly when no event exposes it (`ProtectedIff`; `BatchMateIsExposed`,
  `SecondDetachIsForgotten`), and refusals have a cause exactly when no event strays (`JustifiedIff`;
  `ServedCallStrays`).
* A capacity limit is kept only after rounding it up (`CapacityWithinLimitIff`); the size check of
  NodeExpandVolume can pass on a disk that was not grown (`SizeCheckIff`).
* A VM without published bandwidth is sized for a thousandth of the disk's bandwidth, and sustains
  the disk only if its random load fills the queue anyway (`UnpublishedBandwidthSustainedIff`,
  `UnpublishedBandwidthUndersizes`).

## Model

| member | source | states |
|---|---|---|
| `AttachTheorems.LunsAlwaysDistinct` | pkg/azuredisk/azure_controller_common.go:185-262 | in every state of every interleaving, the disks on each VM have pairwise distinct LUNs in 0..63 |
| `AttachTheorems.OneHolderPerKey` | pkg/azuredisk/azure_controller_common.go:192-198 | no two calls hold the same node or queue key |
| `AttachTheorems.AttachSuccessWasOn` | pkg/azuredisk/azure_controller_common.go:187-262 | a LUN is returned only if the disk was on the VM at that LUN while the call held the node lock, also when another call's batch served or dropped the request and with the LUN check off |
| `AttachProvenance.DroppedRequestFails` | pkg/azuredisk/azure_controller_common.go:205-262 | a call whose request another call drained, and whose disk was off the VM while it waited for the node lock, fails, unless another call attached the disk: the drainer put it on, or it was put on for another call's request |
| `AttachProvenance.RequestOf` | pkg/azuredisk/azure_controller_common.go:187-213 | when a call is done, the request standing for it is in a batch on record |
| `AttachProvenance.SuccessWasPutOn` | pkg/azuredisk/azure_controller_common.go:205-262 | a returned LUN was given to the disk, since the call waited with the disk off, by the own batch of some call, at exactly that LUN |
| `AttachProgress.StepPutsOn` | pkg/azuredisk/azure_controller_common.go:241-251 | only an attach step on the VM's own node puts a disk on, only one of its batch, at the LUN asked for; disks never change LUN |
| `AttachProvenance.BatchIsOwn` | pkg/azuredisk/azure_controller_common.go:205-213 | the batch that a call works on is one that it drained itself |
| `AttachProvenance.BatchServesItsKind` | pkg/azuredisk/azure_controller_common.go:187-213 | AttachDisk works on attach requests and DetachDisk on detach requests only, for its own node, each under the disk that its call named |
| `AttachTheorems.DetachSuccessWasOff` | pkg/azuredisk/azure_controller_common.go:309-378 | under the condition of `DetachReturnsTrueIff`, a nil from DetachDisk, whichever way, means that the disk was off the VM under the node lock or at the moment of the early return |
| `AttachTheorems.DoneWasReleasing` | pkg/azuredisk/azure_controller_common.go:192-198 | a call that ended without an error passed through a state where it held the node lock with that result, or took DetachDisk's early return |
| `AttachOutcome.FailedIff` | pkg/azuredisk/azure_controller_common.go:118-396 | a finished AttachDisk, DetachDisk or UpdateVM returns an error exactly when one of its own steps went wrong: an early refusal, an error in front of the VM call, no LUNs, a VM error that is not retried or forced, or a check that contradicts the outcome |
| `AttachOutcome.AttachReturns` | pkg/azuredisk/azure_controller_common.go:205-262 | a returned LUN is the one the check read or, without a check, the one allocated to the disk with the call's occupied LUNs, and unless the batch was empty the VM has taken it |
| `AttachOutcome.DetachReturns` | pkg/azuredisk/azure_controller_common.go:345-378 | "detached" means that there was nothing to detach or the VM detached the batch, by force only when enabled and after an error other than throttling, and with the check on that it did not find the disk |
| `AttachOutcome.GoneIff` | pkg/azuredisk/azure_controller_common.go:309-355 | DetachDisk assumes the disk to be gone exactly when its node or its VM was not found |
| `AttachOutcome.UpdateReturns` | pkg/azuredisk/azure_controller_common.go:381-396 | UpdateVM succeeds only with the VM's own success |
| `AttachOutcome.AskedLunsAvoidOccupied` | pkg/azuredisk/azure_controller_common.go:511-515 | in every run the LUNs that a call asks for are none of those it was told are occupied |
| `AttachTheorems.RequestsLeaveExactlyOnce` | pkg/azuredisk/azure_controller_common.go:265-306 | every queued request is either in its queue and in no batch, or out of all queues and in exactly one batch, drained from its own queue |
| `AttachTheorems.DrainedNoLaterThanOwner` | pkg/azuredisk/azure_controller_common.go:399-441 | once a call has drained, the request standing for it is in a batch: its own or, for a duplicate, the first caller's |
| `AttachTheorems.QuietMeansEmptyQueues` | pkg/azuredisk/azure_controller_common.go:265-306 | whenever no call is in flight, every queue is empty |
| `AttachTheorems.DrainedMapsNeverChange` | pkg/azuredisk/azure_controller_common.go:291-306 | a drained map keeps its contents for the rest of the run, whatever is inserted later |
| `AttachProgress.NestedKeysAreLonger` | pkg/azuredisk/azure_controller_common.go:267-296 | a call only waits for a key strictly longer than those it holds |
| `AttachInvariants.QueueKeysAre` | pkg/azuredisk/azure_controller_common.go:59-61 | the keys of a node's two queues are its name with the suffixes attachdiskmap and detachdiskmap |
| `AttachProgress.SomeCallSteps` | pkg/azuredisk/azure_controller_common.go:381-391 | from any unfinished call, a chain of calls each waiting for the next ends at a call that can step |
| `AttachProgress.DeadlockFree` | pkg/azuredisk/azure_controller_common.go:192-306 | every call in flight can step or waits through such a chain for one that can, even if node names collide with suffixed keys, without counting on a new call, an early refusal or an error in front of the VM call, and with VM calls that succeed unless a disk of the batch is on at another LUN |
| `AttachProgress.StepLowersRank` | pkg/azuredisk/azure_controller_common.go:118-396 | every step takes its own call forward and moves no other call |
| `AttachProgress.RunsEnd` | pkg/azuredisk/azure_controller_common.go:118-396 | without new calls a run has at most 14 steps for each call |
| `AttachProgress.StuckMeansQuiet` | pkg/azuredisk/azure_controller_common.go:118-396 | a state in which no call can advance has every call returned, every queue empty and no lock held |
| `AttachProgress.CanBecomeQuiet` | pkg/azuredisk/azure_controller_common.go:118-396 | from every reachable state all calls in flight can be brought home without a new call, with VM calls that succeed except for batches with a disk that is on already |
| `AttachInvariants.StepKeepsLocks` | pkg/azuredisk/azure_controller_common.go:185-396 | every step keeps the agreement of the lock table with what the calls hold |
| `AttachInvariants.StepKeepsQueue` | pkg/azuredisk/azure_controller_common.go:265-441 | every step keeps queues and drained batches apart |
| `AttachSafety.StepKeepsVm` | pkg/azuredisk/azure_controller_common.go:205-262 | every step keeps the LUNs distinct and what each call knows about its disk |
| `AttachSafety.RunInv` | pkg/azuredisk/azure_controller_common.go:118-396 | the invariant holds in every state of every run |
| `AttachLimits.AttachReturnsTrueIff` | pkg/azuredisk/azure_controller_common.go:205-262 | AttachDisk's LUN is true in all runs if and only if the switches and contracts of `SoundAttach` hold |
| `AttachLimits.DetachReturnsTrueIff` | pkg/azuredisk/azure_controller_common.go:309-378 | a nil from DetachDisk, from any of its three places, is true in all runs if and only if the check is on, views flag no disk and a VM that is not found carries none |
| `AttachLimits.NotFoundMisleads` | pkg/azuredisk/azure_controller_common.go:349-355 | a run in which DetachDisk returns nil for a VM that is not found but still carries the disk |
| `AttachServed.OwnReturnsTrueIff` | pkg/azuredisk/azure_controller_common.go:205-262 | for calls whose own batch held their disk, the LUN is true in all runs if and only if, with the check, views are exact and names faithful, or, without it, a successful retry completes the attach |
| `AttachLimits.StaleEntryMisleads` | pkg/azuredisk/azure_controller_common.go:254-260 | a run in which the check reads a stale LUN for a disk that the call attached itself |
| `AttachProgress.NilAttachIff` | pkg/azuredisk/azure_controller_common.go:241-251 | the VM can attach a batch exactly when none of its disks is on the VM already |
| `AttachServed.BatchWithAttachedDiskFails` | pkg/azuredisk/azure_controller_common.go:205-251 | a call about to attach a batch with a disk that is already on fails in every continuation, given that a successful retry completes the attach |
| `AttachLimits.StaleViewMisleads` | pkg/azuredisk/azure_controller_common.go:489-509 | a run in which a stale view turns a dropped request into a success |
| `AttachLimits.NamesakeMisleads` | pkg/azuredisk/azure_controller_common.go:463-477 | a run in which a namesake's LUN is returned |
| `AttachLimits.RetryMisleads` | pkg/azuredisk/azure_controller_common.go:242-251 | a run in which a preempted attach with an idle retry is reported as a success |
| `AttachLimits.DroppedDetachMisleads` | pkg/azuredisk/azure_controller_common.go:345-378 | a run in which a dropped detach is reported as done |
| `LunAllocator.AllocateExact` | pkg/azuredisk/azure_controller_common.go:489-549 | SetDiskLun succeeds exactly when the disk is in the batch or reported and enough of the LUNs 0..63 are free; the assignment is then a bijection onto the smallest free LUNs and returns the disk's own one, for every visiting order |
| `LunAllocator.SetDiskLun` | pkg/azuredisk/azure_controller_common.go:482-550 | the loops return that LUN and write the assignment through the option pointers; a nil option never yields a LUN |
| `LunAllocator.MarkView` | pkg/azuredisk/azure_controller_common.go:489-503 | the table marks exactly the reported LUNs, the LUN found is the last report of the disk, an out-of-range LUN panics |
| `LunAllocator.CollectFree` | pkg/azuredisk/azure_controller_common.go:518-528 | collects the smallest free LUNs, as many as the batch needs or all there are |
| `LunAllocator.WriteLuns` | pkg/azuredisk/azure_controller_common.go:535-544 | every option receives its LUN and the disk's own LUN is returned |
| `LunAllocator.CrashesIff` | pkg/azuredisk/azure_controller_common.go:489-515 | SetDiskLun panics exactly when a reported LUN is outside 0..63, or something is to be allocated for a known disk and 64 is among the occupied LUNs |
| `LunAllocator.OccupiedSixtyFourCrashes` | pkg/azuredisk/azure_controller_common.go:511-515 | a batch that would fit crashes when 64 is recorded as occupied |
| `LunAllocator.FindLunMeaning` | pkg/azuredisk/azure_controller_common.go:463-478 | the LUN found is that of the first match not flagged for detach, a panic if it has none; "not found" exactly when every match is flagged |
| `LunAllocator.MatchedBy` | pkg/azuredisk/azure_controller_common.go:464-466 | a disk matches by its name if it has a LUN, by its VHD address or by its ID, each without regard to case; empty names and addresses match nothing |
| `LunAllocator.GetDiskLun` | pkg/azuredisk/azure_controller_common.go:454-479 | the loop computes that lookup |
| `OccupiedLuns.GetElementsInArray1NotInArray2` | pkg/util/util.go:177-199 | sorts both arrays in place and returns the merge of the sorted arrays, aliased arrays included |
| `OccupiedLuns.Merge` | pkg/util/util.go:181-198 | the two loops compute the merge difference |
| `OccupiedLuns.DifferenceOfArrays` | pkg/util/util.go:177-199 | the result is sorted and its multiset is the first minus the second |
| `OccupiedLuns.SetDifferenceIff` | pkg/util/util.go:190-193 | it is the set difference exactly when no common element occurs more often in the first array |
| `OccupiedLuns.SetDifferenceWhenDistinct` | pkg/util/util.go:177-199 | in particular when the first array has no duplicates |
| `OccupiedLuns.DuplicatesSurvive` | pkg/util/util.go:190-193 | a duplicate of a common element stays |
| `OccupiedLuns.GetOccupiedLunsFromNode` | pkg/azuredisk/controllerserver.go:593-626 | the difference when the check is active and both queries succeed with a recorded LUN, otherwise nothing |
| `OccupiedLuns.ChosenLunsAvoidBoth` | pkg/azuredisk/controllerserver.go:593-626 | a batch's LUNs avoid both the recorded LUNs and those on the VM, although the VM's own were subtracted first |
| `LockMap.LockMapRefinesAtomicLock` | pkg/azuredisk/util.go:22-57 | every step of every run is an acquire, a release or invisible in an atomic lock table; a key has at most one holder |
| `LockMap.LockedOnReturn` | pkg/azuredisk/util.go:35-46 | from a call of LockEntry on, until UnlockEntry is called, the goroutine is inside LockEntry or holds the key |
| `LockMap.UnlockedOnReturn` | pkg/azuredisk/util.go:49-57 | from a call of UnlockEntry on, until LockEntry is called, the goroutine is inside UnlockEntry or does not hold the key |
| `LockMap.MutualExclusion` | pkg/azuredisk/util.go:35-57 | two goroutines are never both between the return of LockEntry and their UnlockEntry of one key |
| `LockMap.NotReentrant` | pkg/azuredisk/util.go:35-46 | a goroutine that calls LockEntry for a key that it holds never returns from it |
| `LockMap.StepRefines` | pkg/azuredisk/util.go:35-57 | the single-step refinement |
| `LockMap.StepKeepsInv` | pkg/azuredisk/util.go:35-57 | every step keeps map ownership, bindings and holders consistent |
| `LockMap.BindingNeverChanges` | pkg/azuredisk/util.go:35-46 | a key's mutex, once created, is the key's mutex forever |
| `LockMap.UnlocksOnlyItsOwn` | pkg/azuredisk/util.go:49-57 | in every run UnlockEntry finds its entry and unlocks a mutex that the caller holds |
| `LockMap.OnlyHeldKeysBlock` | pkg/azuredisk/util.go:35-57 | nothing blocks while holding the map: a goroutine that does not wait for a held key can step itself, or the map's owner can |
| `LockMap.LockTable.Bind` | pkg/azuredisk/util.go:35-45 | the entry is bound to its old or to a fresh mutex, all other bindings stay |
| `LockMap.BindAsStep` | pkg/azuredisk/util.go:35-45 | that is the lookup step of LockEntry: the mutex is the one that the step names |
| `LockMap.UnlockAsStep` | pkg/azuredisk/util.go:49-57 | UnlockEntry is the lookup step of an unlocking goroutine, and the mutex it unlocks is locked |
| `LockMap.LockTable.UnlockEntry` | pkg/azuredisk/util.go:49-57 | unlocks that mutex only; a missing entry is ignored |
| `RequestQueue.Queues.Insert` | pkg/azuredisk/azure_controller_common.go:265-287 | adds the request unless the disk is queued, returns the queue length, touches no other node |
| `AttachQueues.InsertAsSteps` | pkg/azuredisk/azure_controller_common.go:265-287 | an insertion carries out the protocol's Load and Insert steps on all nodes' queues |
| `AttachQueues.DrainAsStep` | pkg/azuredisk/azure_controller_common.go:291-306 | a drain carries out the protocol's Drain step and hands over exactly that batch, detached from the table |
| `RequestQueue.Queues.Clean` | pkg/azuredisk/azure_controller_common.go:291-306 | hands the node's map over and installs a fresh empty one |
| `RequestQueue.DrainThenInsert` | pkg/azuredisk/azure_controller_common.go:265-306 | a request after a drain lands in the new map, the drained batch stays what it was |
| `ListVolumes.CollectGroups` | pkg/azuredisk/controllerserver.go:669-694 | collects groups and volumes; there is a group exactly when there is a volume |
| `ListVolumes.VisibleIff` | pkg/azuredisk/controllerserver.go:804-809 | listed are the disks that are no OS disks and whose ID is one of the volume handles without regard to case |
| `ListVolumes.EntryNames` | pkg/azuredisk/controllerserver.go:810-828 | an entry names the disk and the node it is attached to |
| `ListVolumes.ListVolumesByResourceGroup` | pkg/azuredisk/controllerserver.go:770-834 | the status of one group for every outcome of its listing |
| `ListVolumes.ScanGroup` | pkg/azuredisk/controllerserver.go:793-834 | the loop yields the filtered disks of one stretch, its length and whether it reached the end, or an error exactly when a visible disk of that stretch has no node |
| `VolumePages.TurnScans` | pkg/azuredisk/controllerserver.go:714-728 | a turn that enters a group appends the filtered part of the stretch it scans and counts it |
| `VolumePages.TurnFailsIff` | pkg/azuredisk/controllerserver.go:718-725 | a turn ends the listing exactly when the group could not be listed, or a visible disk of the stretch has no node |
| `VolumePages.SkipGroup` | pkg/azuredisk/controllerserver.go:719-724 | a group before the start is passed over and its size carried on |
| `VolumePages.TurnFills` | pkg/azuredisk/controllerserver.go:718-799 | a page takes from a group all visible disks up to maxEntries less twice the entries it has |
| `ListVolumes.ListVolumesInCluster` | pkg/azuredisk/controllerserver.go:705-746 | the loop over the groups, listed or not, computes `Cluster` |
| `VolumePages.PageFullIff` | pkg/azuredisk/controllerserver.go:718-799 | a page is full exactly when the first group with a visible disk at or after the start holds at least maxEntries of them |
| `VolumePages.StaysShort` | pkg/azuredisk/controllerserver.go:718-799 | once a page holds entries of an earlier group and is not full, it never becomes full |
| `VolumePages.ShortPageTokenIff` | pkg/azuredisk/controllerserver.go:709-738 | a page that is not full hands out a token exactly when disks are left behind its window |
| `VolumePages.PageStopsShort` | pkg/azuredisk/controllerserver.go:718-799 | groups of one and two disks with pages of three: two entries and a token |
| `VolumePages.ClusterFailsIff` | pkg/azuredisk/controllerserver.go:718-725 | a listing fails exactly when a group that is reached before the page is full cannot be listed, or holds an unrenderable disk in the stretch the page takes |
| `VolumePages.LaterGroupsDoNotMatter` | pkg/azuredisk/controllerserver.go:710-713 | a page that is full does not depend on later groups, failing ones included |
| `VolumePages.ClusterPage` | pkg/azuredisk/controllerserver.go:705-738 | a page is the filtered part of one contiguous window beginning at start, within a positive maxEntries, complete without one; the token is the window's end plus the size of the skipped groups; refused exactly when no group contains the start |
| `VolumePages.TokenExactIff` | pkg/azuredisk/controllerserver.go:719-738 | the token is the resume point exactly when no disk was skipped, so for start 0 or a start inside the first group |
| `VolumePages.ThirdGroupIsLost` | pkg/azuredisk/controllerserver.go:719-738 | with three one-disk groups and pages of one, following the tokens never shows the third disk |
| `VolumePages.NodeTokenExactIff` | pkg/azuredisk/controllerserver.go:749-767 | the single-group token is the resume point exactly on the first page |
| `VolumePages.NodeWalkIsStuckIff` | pkg/azuredisk/controllerserver.go:757-759 | the second page hands out its own start again exactly when there are more than two pages |
| `ListSnapshots.GetEntriesAndNextToken` | pkg/azureutils/azure_snapshot_utils.go:64-110 | no token begins at the first snapshot, a token that is a position begins there, any other is refused for its reason; a page exactly when the stretch it takes can be rendered, and else the error of the first snapshot that cannot |
| `ListSnapshots.Scan` | pkg/azureutils/azure_snapshot_utils.go:90-100 | the loop yields the filtered part of one stretch and where it ends, or stops at its first snapshot that cannot be rendered |
| `ListSnapshots.PageSize` | pkg/azureutils/azure_snapshot_utils.go:85-100 | a page never exceeds its limit and falls short of it only at the end |
| `ListSnapshots.FollowToken` | pkg/azureutils/azure_snapshot_utils.go:69-109 | feeding a token back starts where the page ended; the list length is the last token and no start |
| `ListSnapshots.WalkYieldsAll` | pkg/azureutils/azure_snapshot_utils.go:69-109 | walking by tokens yields exactly the filtered list from the start on, in order, each entry once, each page within a positive MaxEntries |
| `ListSnapshots.WalkFromTheBeginning` | pkg/azureutils/azure_snapshot_utils.go:69-109 | a walk that begins without a token yields the whole filtered list |
| `ListSnapshots.UnlimitedPageTakesAll` | pkg/azureutils/azure_snapshot_utils.go:85-88 | a page without a positive MaxEntries takes everything that is left |
| `ListSnapshots.PageAnswers` | pkg/azureutils/azure_snapshot_utils.go:64-110 | the pages of a walk are what GetEntriesAndNextToken answers |
| `ListSnapshots.EntryHolds` | pkg/azureutils/azure_snapshot_utils.go:32-58 | the fields of an entry, its size in bytes and its readiness, and when there is an error or a nil dereference instead |
| `ListSnapshots.WantedIff` | pkg/azureutils/azure_snapshot_utils.go:91-130 | without a volume every snapshot is listed, otherwise those taken from it |
| `GoStrings.AtoiOfItoa` | pkg/azureutils/azure_snapshot_utils.go:72-107 | a printed 64-bit integer parses to itself |
| `GoStrings.AtoiReads` | pkg/azureutils/azure_snapshot_utils.go:72-75 | a token is decimal notation with an optional sign, within 64 bits |
| `GoStrings.AtoiRefuses` | pkg/azureutils/azure_snapshot_utils.go:72-75 | nothing else is read |
| `GoStrings.LowerLetters` | pkg/azuredisk/azure_controller_common.go:185-186 | folding takes each capital letter to its small one and leaves the rest alone |
| `VolumeLocks.Locks.TryAcquire` | pkg/util/util.go:161-169 | succeeds exactly when the ID was free, and then holds it |
| `NodeStaging.LockVolume` | pkg/util/util.go:161-169 | carries out the step by which a call takes its volume, and tells exactly the holders so |
| `NodeStaging.UnlockVolume` | pkg/util/util.go:171-175 | a release by the holder frees its ID for the next caller, and every other holder still holds its own |
| `NodeStaging.StagingIsSafe` | pkg/azuredisk/nodeserver.go:111-245 | in every state of every interleaving, a mounted staging path has its own device open, and no two calls are inside the crypt mapper for one device |
| `NodeStaging.SuccessMeansDone` | pkg/azuredisk/nodeserver.go:231-245 | a call about to report success: an unstage has left neither mount nor device, a stage both (a block volume: the device) |
| `NodeStaging.SuccessWasDone` | pkg/azuredisk/nodeserver.go:111-245 | a call that returned success was in that state while it held its volume, after the step that concludes such a call |
| `NodeStaging.FailedIff` | pkg/azuredisk/nodeserver.go:111-582 | a finished call reports an error exactly when one of its own steps went wrong, a volume held by another call among them |
| `NodeStaging.NeverWaits` | pkg/azuredisk/nodeserver.go:111-582 | in every state a call in flight can take a step, which may go well or wrong as the environment decides; a volume held by another call fails the call at once |
| `NodeStaging.CallsEnd` | pkg/azuredisk/nodeserver.go:111-582 | every step of a call brings it closer to its end, within eight steps |
| `NodeStaging.MeasuredAfterGrowth` | pkg/azuredisk/nodeserver.go:557-574 | an expanded file system is measured only after the crypt device was resized |
| `NodeStaging.BlockStageMountsNothing` | pkg/azuredisk/nodeserver.go:176-180 | the stage of a block volume mounts nothing |
| `NodeStaging.RunHolders` | pkg/util/util.go:161-175 | in every state of every run a volume is locked exactly while some call works on it |
| `NodeStaging.StepKeepsInv` | pkg/azuredisk/nodeserver.go:111-562 | every step, failed ones included, keeps the invariant |
| `NodeStaging.MountsOpenIff` | pkg/azuredisk/nodeserver.go:173-240 | with one staging path for each volume, mounts always have their device open if and only if disk names are distinct |
| `NodeStaging.NamesakePullsDevice` | pkg/azuredisk/nodeserver.go:239-240 | for any two volumes with one disk name, a run that closes a mounted device |
| `VolumeSizing.RoundUpSize` | pkg/util/util.go:92-98 | the least number of units that holds the size, negative sizes included |
| `VolumeSizing.RoundUpBytesExact` | pkg/util/util.go:67-69 | rounding to bytes holds the size exactly up to the last whole GiB of the 64-bit range; there it is idempotent and adds less than a GiB |
| `VolumeSizing.CreateVolumeSize` | pkg/azuredisk/controllerserver.go:102-118 | refused exactly when a positive limit, rounded up, does not serve the request; otherwise the least GiB count that serves it |
| `VolumeSizing.CapacityIsDiskSizeIff` | pkg/azuredisk/controllerserver.go:296-336 | the reported capacity is the size of the disk exactly when the request fits 2^31 - 1 GiB: no int64 overflow and no int32 truncation |
| `VolumeSizing.CapacityServesRequest` | pkg/azuredisk/controllerserver.go:102-118 | the capacity is whole GiB, holds the request and the minimum (1 GiB, 513 GiB with PerformancePlus), wastes less than a GiB, and exceeds a positive limit by less than a GiB |
| `VolumeSizing.CapacityWithinLimitIff` | pkg/azuredisk/controllerserver.go:115-118 | it is within the limit as written exactly when that is whole GiB or its whole GiBs already serve the request |
| `VolumeSizing.LimitExceeded` | pkg/azuredisk/controllerserver.go:115-118 | a one-byte limit is answered with a GiB |
| `VolumeSizing.ResizeDisk` | pkg/azuredisk/azure_managedDiskController.go:366-414 | never shrinks; success exactly under the stated conditions, and then the disk holds the request and the answer is the request rounded up |
| `VolumeSizing.Expand` | pkg/azuredisk/controllerserver.go:845-902 | after a successful controller part the node part succeeds for every request whose header subtraction does not wrap, and fails for those that wrap |
| `VolumeSizing.SizeCheckIff` | pkg/azuredisk/nodeserver.go:506-582 | on the mapped device the check passes exactly when the disk holds the request less one header |
| `VolumeSizing.SizeCheckMissesSmallDisk` | pkg/azuredisk/nodeserver.go:571-582 | it passes on a disk of any size that is one byte short |
| `VolumeSizing.ExpansionPasses` | pkg/azuredisk/nodeserver.go:506-582 | the check on every disk that holds the request |
| `VolumeSizing.NodeExpandIff` | pkg/azuredisk/nodeserver.go:506-590 | for every request and disk, NodeExpandVolume reports the device exactly when taking 16 MiB off does not wrap and the disk holds the request less 16 MiB; otherwise it fails, whether or not growing the file system failed |
| `DevicePerformance.RequestSizeIsRight` | pkg/optimization/device_perf_linux.go:175-201 | the request size is an integer in 1..512; with it 75% of the IOPS reach the burst bandwidth exactly when 512 would, and with 1 less they do not |
| `DevicePerformance.QueueIsSized` | pkg/optimization/device_perf_linux.go:202-217 | queue depth times request size covers bandwidth times sequential latency, queue depth covers IOPS times random latency, read-ahead is whole requests that cover the sequential load, and no shallower queue would do |
| `DevicePerformance.BurstLimits` | pkg/optimization/device_perf_linux.go:175-195 | a VM that publishes IOPS or bandwidth limits the disk by it, one that does not leaves the disk its own figure |
| `DevicePerformance.LatencySteps` | pkg/optimization/skus.go:160-193 | the latencies grow with the size, in steps above 4096, 8192 and 16384 GiB |
| `DevicePerformance.PublishedBandwidthSustained` | pkg/optimization/device_perf_linux.go:186-217 | with a published VM bandwidth, depth times request size sustains what disk and VM allow |
| `DevicePerformance.UnpublishedBandwidthSustainedIff` | pkg/optimization/device_perf_linux.go:186-217 | without one, it does exactly when burst IOPS times random latency, rounded up, reaches the kB needed in flight, or for a disk of 1 MB/s and 1 IOPS up to 4096 GiB |
| `DevicePerformance.UnpublishedBandwidthUndersizes` | pkg/optimization/device_perf_linux.go:186-195 | an ordinary disk whose queue carries a fiftieth of what is needed on such a VM |
| `DevicePerformance.GetMatchingDiskSku` | pkg/optimization/device_perf_linux.go:232-267 | the loop returns a smallest SKU that meets the request, none exactly when none does; both errors |
| `DevicePerformance.PickIsBest` | pkg/optimization/device_perf_linux.go:256-267 | the same for every visiting order |
| `DevicePerformance.PickInFigures` | pkg/optimization/device_perf_linux.go:256-279 | the SKU is large, fast and wide enough and every smaller one is too slow or too narrow; none only if every SKU is too small, too slow or too narrow |
| `DevicePerformance.OrderIndependentIff` | pkg/optimization/device_perf_linux.go:256-267 | the answer is independent of the order exactly when no two different SKUs are both smallest |
| `DevicePerformance.DistinctSizesFixThePick` | pkg/optimization/device_perf_linux.go:256-267 | in particular when sizes are distinct |
| `SourceDisk.LookupsBounded` | pkg/azuredisk/controllerserver.go:1187-1215 | at most maxDepth - curDepth + 1 lookups, along the copy chain, on every graph |
| `SourceDisk.AnswerIff` | pkg/azuredisk/controllerserver.go:1187-1215 | an answer other than "too deep" is given exactly when the chain ends with it within the remaining depth; a size is the origin's |
| `SourceDisk.TooDeepIff` | pkg/azuredisk/controllerserver.go:1188-1190 | "too deep" exactly when the chain goes on beyond the depth |
| `SourceDisk.CycleIsTooDeep` | pkg/azuredisk/controllerserver.go:1187-1209 | on a cycle of copies the search ends and reports the depth |
| `SourceDisk.DeeperAgrees` | pkg/azuredisk/controllerserver.go:1187-1215 | more depth never changes an answer |
| `DiskStates.Table.DeleteAfter` | pkg/azuredisk/azure_managedDiskController.go:307-315 | after any run of attaches and batched detaches on a new table, a deletion is refused exactly when a call for the disk has begun a detach and no call for it has ended one since |
| `DiskStates.RefusedIff` | pkg/azuredisk/azure_managedDiskController.go:313-315 | the same on the events alone |
| `DiskStates.ProtectedIff` | pkg/azuredisk/azure_controller_common.go:346-349 | a disk is protected whenever it is in a batch being detached, throughout a run, exactly when no call for another disk begins to detach it while no entry for it stands, and no call for it ends while it is in another open batch |
| `DiskStates.JustifiedIff` | pkg/azuredisk/azure_controller_common.go:346-349 | a refused disk is in a batch being detached, throughout a run, exactly when no call for it begins with a batch that lacks it while it is in none, and its last batch never ends under another call's entry |
| `DiskStates.BatchMateIsExposed` | pkg/azuredisk/azure_controller_common.go:347-349 | one call that detaches two disks leaves the other one deletable |
| `DiskStates.ServedCallStrays` | pkg/azuredisk/azure_controller_common.go:347-349 | a call whose own request was served elsewhere blocks the deletion of a disk that nobody is detaching |
| `DiskStates.SecondDetachIsForgotten` | pkg/azuredisk/azure_controller_common.go:347-348 | with two detaches of one disk, after the first ends the second is in flight and the disk is not refused |
| `DiskStates.AttachingDoesNotRefuse` | pkg/azuredisk/azure_controller_common.go:232-233 | an attach that begins protects nothing: the disk is refused afterwards exactly if it was before |

## Left out

- The early part of AttachDisk (a disk already managed by this or another VM, caching mode, encryption set, tags): it returns before the protocol starts, or calls UpdateVM and reads the view without the lock.
- The options of AttachDisk other than the LUN, and which duplicate's options win: the protocol keeps the first request for a disk.
- The bodies of the VM sets, the crypt mapper, mount-utils and the Azure, Kubernetes and gRPC clients: they appear as contracts.
- Throttling caches, timers, sleeps and the initial batching delay: they affect timing only.
- Fairness: runs without new calls end and can always be completed, but nothing is said of a call that others keep overtaking.
- Disks taken off or put on a VM by anything but these calls.
- Regular-expression matching of disk URIs, ParseDiskParameters, the Split-based URI parsers, getDefaultDiskIOPSReadWrite and getDefaultDiskMBPSReadWrite, the base-36 VMSS instance name: easy members.
- The content of the SKU and data-disk-count tables: the results hold for any table.
- NodePublishVolume, NodeUnpublishVolume, NodeGetVolumeStats, CreateSnapshot, DeleteSnapshot, topology and zones.
- The V2 driver, Windows and Darwin code.
- VolumePages.ClusterPage: assumes that every group can be listed and every visible disk rendered; ClusterFailsIff and LaterGroupsDoNotMatter say what happens otherwise.
- ListVolumes.ListVolumesInCluster: takes the sorted groups with their listings; sorting the group names is not modelled.
- ListSnapshots.WalkYieldsAll: holds for a list that does not change between pages.
- DevicePerformance.QueueIsSized: over the reals, for positive SKU limits; rounding of floating point and division by a zero limit are not modelled.
- DevicePerformance.RequestSizeIsRight: over the reals, for positive SKU limits, in the same way.
- VolumeSizing.ResizeDisk: a disk without a state is not modelled; parsing the URI and obtaining the client are part of fetching the disk.
- SourceDisk.LookupsBounded: how a source ID names the next disk is an arbitrary function, so errors in parsing it are not distinguished.
- NodeStaging.StagingIsSafe: assumes distinct disk names and one staging path for each volume; MountsOpenIff shows that the first is needed.
- OccupiedLuns.GetElementsInArray1NotInArray2: sort.Ints is taken as a library that sorts, not modelled step by step.
