# yascheduler, modelled in Dafny

yascheduler runs allocator, consumer, connector and deallocator coroutines in one event loop per daemon. They
interleave at every `await` over a PostgreSQL task and node table (shared with other daemons and the command line),
SSH machine sessions held in memory, and cloud provider APIs. This project models that step system and proves
whole-run invariants of it, plus the self-contained algorithms around it. `dafny verify dfyconfig.toml` checks all of
it.

| file | subject | form |
|---|---|---|
| Prelude.dfy | shared value types | datatypes |
| AllocationTracker.dfy | the allocation tracker | class with its specification functions |
| ProviderSelection.dfy | choice of a cloud provider | loops proved against a declarative choice |
| Provisioning.dfy, ProvisioningSafety.dfy, ProvisioningProtocol.dfy, ProvisioningTheorems.dfy | cloud provisioning, teardown and abandonment in one daemon | transition system over any number of calls |
| ProvisioningLedgers.dfy, ProvisioningLives.dfy, ProvisioningOutcomes.dfy, ProvisioningProgress.dfy | the same runs seen from one VM, one row, one tracker entry; what they leave behind; progress | folds over the events of a run, proved equal to the system |
| TaskStore.dfy, TaskStoreSafety.dfy, TaskStoreSpawns.dfy, TaskStoreCommits.dfy | task and node tables under row locks, any number of daemons and CLI calls | transition system over transactions |
| MachineSession.dfy, SessionPool.dfy | machine slot, monitor, deployment, teardown | class plus transition system |
| UniqueQueue.dfy, ConsumePipeline.dfy | deduplicating queue, workers, at-most-once finalisation | class plus transition systems |
| Download.dfy | output download and the decision that follows it | loop plus decision function |
| Migrations.dfy | forward-only migration runner | loop plus functions on tracker rows |
| DeleteVerify.dfy | confirmed deletion of a VM | loops against a scripted provider and clock |
| HostSpec.dfy | the host argument of yasetnode | parser and printer functions |
| Events.dfy | unit of work and message bus | classes plus a run function |
| Retry.dfy | retry with backoff | loop over real time |

## How the transition systems are built

A coroutine is a frame: a program counter plus the locals it keeps across an `await`. Every await-free block is one
step. A call that can return or raise carries its outcome in the step, so a run is a sequence of steps chosen freely:
any interleaving, any failure. A theorem about `Run(...) == Some(s')` holds for every such run. Frames are never
deleted; a finished frame keeps its outcome.

In `Provisioning`, `Start` to `Link` are yascheduler/application/allocate_task.py:436-468 with
`_select_and_insert_tmp` (220-249); `AcquireSlot` to `Teardown` are yascheduler/infra/cloud/manager.py:140-216;
`Persist` to `UndoDelete` are allocate_task.py:325-375, with the commit (`Persist`) and the return after the
connection is closed (`Return`) as separate steps (yascheduler/infra/persistence/postgres_uow.py:101-115); `CleanUp`,
`DiscardEntry` and `CleanUpAgain` are allocate_task.py:258-290 and 477-490. The reaper steps are
yascheduler/application/deallocate_nodes.py:56-138 and yascheduler/application/abandon_node.py:61-143 with
`CloudProvisionerImpl.deallocate` (yascheduler/infra/cloud/manager.py:237-287). `OtherDiscard` is every discard by a
consumer or by a start on a free machine. `rowOwner`, `entryOwner`, `discards`, `retired`, `persisted`, `dirty`,
`leaks` and `labels` are history: `discards` are the tasks whose entry a consumer or an abandoner has discarded since
its add, `retired` the nodes disabled or removed since their row got its identity, `leaks` the VMs an error log names
by id, `labels` those that an ambiguous create left behind known by label only.

In `TaskStore`, a frame is one `async with uow_factory()` block together with the read it acts on. `SaveSucceeds` is
yascheduler/infra/persistence/sql/task/update_by_id.sql under READ COMMITTED with the constraints of
yascheduler/infra/persistence/sql/schema.sql:58-84; a statement that would wait for a row lock is not enabled.

In `SessionPool`, a session's FREE/BUSY slot, its monitor tasks and its connection are the value of the class
`MachineSession.SSHMachineSession`; the steps use the same functions the class is proved against.

## What the code does not promise after all

- Deployment exclusivity and "FREE means idle" last as long as no consumer re-arms a monitor under a running
  deployment; yascheduler/application/orchestrator.py:551-560 does not look. `RearmBreaksIff` and `RearmBreaksIdleIff`
  show, for every run without such a re-arm so far, that a further re-arm can break them if and only if it hits a
  deployment. Such runs are called quiet.
- Teardown closes the connection in the same step if and only if the slot's monitor is not pending
  (`TeardownClosesAtOnceIff`). After a disturbed deployment a FREE session can have a pending monitor; then, and if
  the job was spawned already, an allocator that had picked the session can still commit RUNNING on it, and otherwise
  it cannot (`LateCommitIff`; `PendingTeardownStrandsTask` is such a run). In quiet runs neither happens
  (`TeardownIsAtomic`, `ClosedSessionNeverRuns`).
- A call that provisions a VM does not keep its tracker entry to itself: a claim whose COMMIT took effect but raised
  lets the allocator go on to `tracker.add` (yascheduler/application/allocate_task.py:201-210, 440) while a consumer
  finishes the task and discards the entry (yascheduler/application/consume_task.py:193, 229, 259;
  yascheduler/application/orchestrator.py:541). An abandoner can discard the entry, or anybody disable the node,
  between the commit of the node and the return. `ExitsAreAllOrNothing` says that the entry is there and linked at a
  successful exit if and only if nobody discarded the task since its add, and the row there and enabled if and only if
  nobody disabled or removed it since the commit; `DiscardLosesEntry` is a failing run. Before the commit no reaper
  can take the entry away (`ReapersSpareFirm`).
- yascheduler/application/deallocate_nodes.py:35 and 51-52 say that no event-loop yield separates the allocator's pick
  from `occupy`. In the code the unit of work is entered and the claim saved in between
  (yascheduler/application/allocate_task.py:110-113). The model follows the code: `Pick` and `Occupy` are separate
  steps, and the loser of a race gets `MachineBusyError`.
- A claim whose COMMIT fails after the spawn returned True leaves a running process and a TO_DO task, so the task is
  spawned again (`LostCommitSpawnsTwice`); yascheduler/application/allocate_task.py:82 says that failure has no side
  effects. `FurtherSpawnIff` says exactly when a further spawn can return True. When the connection drops during a
  spawn the row lock goes with it and two spawns can be in progress (`DroppedSpawnOverlaps`).
- A commit that raises after the spawn also leaves the machine BUSY with neither holder nor monitor until a consumer
  re-arms it for a RUNNING task (`RaisingCommitForgetsMachine`); `NoForgottenMachine` says that nothing else does.
- The machine-gone path saves the listed task without reading it again
  (yascheduler/application/orchestrator.py:516-536). `StaleAbandonIff` shows that it can save a task a second time if
  and only if the task is no longer RUNNING when it is taken; `StaleMessageOverwritesResult` is a run that gets there.
- `clouds.deallocate` returns without deleting when it finds no adapter, config or external id, and the row is removed
  all the same; `NoSilentOrphanIff` gives the exact condition for the accounting of VMs.
- The migration runner does not check prefixes. `AlwaysResumesIff` shows that interrupted runs always resume to the
  end if and only if prefixes increase along the file order; distinct prefixes of one length suffice.

## Model

| member | source | states |
|---|---|---|
| Tracking.AllocationTracker.Add | yascheduler/application/allocation_tracker.py:35-46 | a tracked task is refused and nothing changes; otherwise exactly its entry is added |
| Tracking.AllocationTracker.SetNode | yascheduler/application/allocation_tracker.py:49-53 | the link is set only for a tracked task |
| Tracking.AllocationTracker.Discard | yascheduler/application/allocation_tracker.py:56-58 | exactly the task's entry is gone |
| Tracking.AllocationTracker.DiscardByNode | yascheduler/application/allocation_tracker.py:62-69 | exactly the entries linked to the node are gone, and their number is returned |
| Tracking.AddLinkDiscardRoundTrip | yascheduler/application/allocation_tracker.py:35-69 | add, link and either discard give back the tracker as it was, and a second add in between is refused |
| ProviderSelection.AdapterSupportsAnyPlatform | yascheduler/infra/cloud/provider_selection.py:83-89 | true exactly when some platform passes some check of the adapter |
| ProviderSelection.FilterSuitable | yascheduler/infra/cloud/provider_selection.py:31-68 | the loop collects the suitable adapters in order |
| ProviderSelection.SortedHead | yascheduler/infra/cloud/provider_selection.py:69-75 | the head of the stable descending sort is the first of the greatest elements |
| ProviderSelection.SelectProviderPure | yascheduler/infra/cloud/provider_selection.py:25-75 | the choice is the first adapter of highest priority with config, spare capacity and a supported platform; none exactly when no adapter is suitable |
| ProviderSelection.ChoiceIsUnique | yascheduler/infra/cloud/provider_selection.py:69-75 | the declarative choice is unique, so the function is determined |
| Provisioning.CountNodesByCloud | yascheduler/application/allocate_task.py:220-225 | for every provider the number of listed nodes that belong to it |
| Provisioning.CountsOfListing | yascheduler/application/allocate_task.py:239-240 | counting a listing that shows each row once counts the table, which is what the step under the lock reads |
| ProvisioningTheorems.NoSilentOrphan | yascheduler/application/allocate_task.py:294-364 | in every run each live VM is held by a call in flight, named by a row, reported by its id in an error log, or, after an ambiguous create only, by its label |
| ProvisioningTheorems.UncoveredRowOrphans | yascheduler/infra/cloud/manager.py:237-287 | a row naming a live VM without provider, adapter or config has a run, a disable and a deallocation, that orphans the VM silently |
| ProvisioningTheorems.NoSilentOrphanIff | yascheduler/infra/cloud/manager.py:237-287 | no run orphans a VM silently if and only if every row naming a live unreported VM has its provider, adapter and config |
| ProvisioningLedgers.VmLedger | yascheduler/infra/cloud/manager.py:140-287 | the books of VMs are exact in every run: those that exist are those of the start and those started, without those whose delete returned or removed them; reported by id are those whose delete raised, by label those whose create was ambiguous |
| ProvisioningLedgers.DeletesDelete | yascheduler/infra/cloud/manager.py:199-208 | in every run a delete that returns leaves the VM gone and reports nothing, one that raises reports it, and no other VM is concerned |
| ProvisioningLedgers.ReportedIff | yascheduler/infra/cloud/manager.py:199-208 | a VM is reported by id if and only if it was at the start or a delete of it by the call that answered for it has raised |
| ProvisioningLives.NodeLedger | yascheduler/application/allocate_task.py:231-364 | seen from one node every run is a life of its row: reserved unnamed and disabled for one provider, then named, enabled and bound to the call's VM, disabled, gone; no other step touches it |
| ProvisioningOutcomes.TmpRowsAreOwned | yascheduler/application/allocate_task.py:255-290 | in every run an unnamed cloud row belongs to a call in flight, or to one of which both cleanups raised without effect, unless an insert got lost |
| ProvisioningOutcomes.LeftoverNeedsTwoFailures | yascheduler/application/allocate_task.py:474-490 | a failed call leaves its row behind only if both its cleanups raised without effect |
| ProvisioningOutcomes.RemovedNodeHasNoVm | yascheduler/application/deallocate_nodes.py:70-132 | in every run, when a deallocation or abandonment removes the row the VM is gone wherever it could be deleted, and exactly that row goes |
| ProvisioningTheorems.CapacityHolds | yascheduler/application/allocate_task.py:231-249 | in every run a provider's committed rows stay within the larger of max_nodes and the initial count, although counts are read before others commit |
| ProvisioningOutcomes.PicksBestProvider | yascheduler/application/allocate_task.py:237-249 | from reading the table to the insert, whatever runs in between: the tmp row goes to the first provider of highest priority with config, room in the table read, and platform, that is not throttled |
| ProvisioningOutcomes.GivesUpForCause | yascheduler/infra/cloud/manager.py:87-111 | a call gives up at the choice only if nothing fitted in the table read or the best provider is throttled, and leaves the table alone |
| ProvisioningTheorems.OperationsWithinLimit | yascheduler/infra/cloud/manager.py:140-148 | in every run at most op_limit calls at once create, set up or tear down a VM of the provider, and the semaphore counts exactly the slots they leave |
| ProvisioningTheorems.OneProvisioningPerTask | yascheduler/application/allocate_task.py:436-442 | per task at most one call between add and discard, none while an earlier provisioning holds the entry, and one call in the critical section |
| ProvisioningTheorems.ExitsAreAllOrNothing | yascheduler/application/allocate_task.py:436-490 | every exit is one of: a provisioned node whose row, if still there, names its VM and is there and enabled if and only if nobody disabled or removed it since the commit, and whose entry is present and linked if and only if nobody discarded the task since its add; or no entry and no row except one whose insert got lost or whose cleanups all failed; a deduplicated call changes nothing |
| ProvisioningTheorems.DiscardLosesEntry | yascheduler/application/consume_task.py:253-260 | wherever a provider can be chosen, a run in which a consumer discards the entry under the provisioning call, which exits with an enabled row and no entry |
| ProvisioningTheorems.OnlyDisabledRowsLoseTheirVm | yascheduler/application/abandon_node.py:60-98 | a reaper deletes a VM only while the row that names it, if it still exists, is disabled |
| ProvisioningTheorems.ReapersSpareFirm | yascheduler/application/abandon_node.py:123-143 | in every run no step of a deallocator or abandoner touches the entry of a call on its way from tracker.add to the commit of its node |
| ProvisioningLives.EntryLedger | yascheduler/application/allocation_tracker.py:35-69 | seen from one task every run is a life of its entry: added, linked by its own call to its own node, released by its call, a consumer or the abandonment of that node; no other step touches it |
| ProvisioningLives.AbandonmentReleases | yascheduler/application/abandon_node.py:119-130 | in every run, when an abandonment ends by success, abort or failed delete, exactly the entries linked to its node are gone; a deallocation leaves all entries alone |
| ProvisioningLives.AbandonedNodesAreForgotten | yascheduler/application/abandon_node.py:119-130 | in every run no task is ever linked to a node whose abandonment is over |
| ProvisioningProtocol.ReaperSparesFirm | yascheduler/application/abandon_node.py:123-143 | the node a reaper was given is never the one a call still provisioning is linked to |
| ProvisioningTheorems.StepKeeps | yascheduler/application/allocate_task.py:383-490 | every step of every call, reaper, CLI or consumer keeps structure, protocol, slot limits and capacity, and the accounting where adapters cover |
| ProvisioningProgress.NothingGetsStuck | yascheduler/application/allocate_task.py:436-490 | in every run a call in flight waits only for the lock another holds or for a slot when none is free, and whatever it awaits may return or raise; reapers wait for nothing |
| ProvisioningProgress.EverythingEnds | yascheduler/application/allocate_task.py:436-490 | in every run a call makes at most fifteen steps and a reaper four, and each is over exactly when none is left |
| TaskStore.RunOn | yascheduler/domain/model.py:295-309 | legal exactly from TO_DO; the RUNNING row carries the given node and folder, no error, and passes the schema check |
| TaskStore.Reject | yascheduler/domain/model.py:315-331 | legal exactly from TO_DO; the DONE row carries the reason, no node and the folder it had |
| TaskStore.Finish | yascheduler/domain/model.py:335-378 | legal exactly from RUNNING; the DONE row keeps the node and carries the given folder and error |
| TaskStore.Abandon | yascheduler/domain/model.py:383-400 | legal exactly from RUNNING; the DONE row keeps node and folder and carries the abandonment error |
| TaskStoreSafety.RemoveOk | yascheduler/infra/persistence/postgres.py:484-491 | deleting a node clears every reference to it and can only succeed when no RUNNING task refers to it |
| TaskStoreSafety.CommitSparesOther | yascheduler/infra/persistence/postgres_uow.py:123-131 | a commit leaves everything another open transaction relies on as it was |
| TaskStoreSafety.StepKeeps | yascheduler/infra/persistence/postgres.py:140-168 | every statement and commit of every program keeps the table invariant and only moves statuses forward |
| TaskStoreSafety.StatusNeverFallsBack | yascheduler/infra/persistence/postgres.py:140-168 | over any run the status rank never decreases, and a row that stays RUNNING does not change |
| TaskStoreSafety.RunningRowsAreComplete | yascheduler/infra/persistence/sql/schema.sql:58-84 | every RUNNING row has a node, a folder and no error, and every referenced node row exists |
| TaskStoreSafety.OneWinnerPerTask | yascheduler/application/allocate_task.py:107-116 | over all daemons at most one claim of a task is spawning under its lock or has committed, and until it commits the task is TO_DO for the others; claims whose connection was dropped are the subject of SpawnsInProgressBound |
| TaskStoreSafety.TrueSpawnsBound | yascheduler/application/allocate_task.py:110-116 | at most one spawn of a task returns True, plus one per commit lost after a True spawn |
| TaskStoreSpawns.LostCommitSpawnsTwice | yascheduler/application/allocate_task.py:110-116 | from every TO_DO task on an existing node: one lost commit, two True spawns |
| TaskStoreSpawns.SecondSpawnNeedsLoss | yascheduler/application/allocate_task.py:110-116 | of two True spawns of a task one lost its commit |
| TaskStoreSpawns.LostCommitSpawnsAgain | yascheduler/application/allocate_task.py:110-116 | in every reachable state a lost commit and a TO_DO task allow a further True spawn |
| TaskStoreSpawns.FurtherSpawnIff | yascheduler/application/allocate_task.py:107-116 | in every reachable state a further spawn can return True if and only if the task is TO_DO or a claim of it is still spawning |
| TaskStoreSpawns.SpawnsInProgressBound | yascheduler/application/allocate_task.py:110-116 | at most one spawn of a task is in progress, plus one per spawning claim whose connection was dropped |
| TaskStoreSpawns.DropMakesOverlapPossible | yascheduler/application/allocate_task.py:110-116 | dropping the connection of a live spawning claim leaves the spawn going and the task TO_DO for everybody |
| TaskStoreSpawns.DroppedSpawnOverlaps | yascheduler/application/allocate_task.py:110-116 | once such a connection is dropped, a second spawn of the task can be in progress beside the first |
| TaskStoreSafety.HardRemovalFinishesTasks | yascheduler/entrypoints/cli/manage_node.py:255-270 | a committed hard removal turns every task RUNNING on the node into DONE with the error, removes the node and leaves all other statuses alone |
| TaskStoreCommits.FinaliseStores | yascheduler/infra/persistence/postgres.py:140-168 | from its start to its COMMIT, whatever runs in between: a finalising transaction stores DONE with its error, its folder and the node it read, and changes nothing else |
| TaskStoreCommits.AbandonStores | yascheduler/application/orchestrator.py:516-536 | the same for an abandonment: node and folder as read, error "node is gone" |
| TaskStoreCommits.RejectStores | yascheduler/application/allocate_task.py:68-71 | the same for a rejection: the reason, no node, the folder as read |
| TaskStoreCommits.ClaimStores | yascheduler/application/allocate_task.py:111-116 | a committed claim stores RUNNING with its node and folder over a row that was TO_DO until then, and changes nothing else |
| TaskStoreCommits.FinaliseGoesThrough | yascheduler/application/consume_task.py:158-162 | with no lock in the way, finalising a RUNNING task reaches its COMMIT |
| TaskStoreCommits.NodeRemovalStores | yascheduler/infra/persistence/postgres.py:484-488 | a committed deletion removes the node, clears exactly the references to it and changes nothing else |
| TaskStoreCommits.HardRemovalVisitsAll | yascheduler/entrypoints/cli/manage_node.py:255-270 | in every run, when a hard removal comes to delete the node every task RUNNING there at its listing is DONE, or DONE with the error in what it is to commit |
| TaskStoreCommits.TransactionsGoOn | yascheduler/infra/persistence/postgres_uow.py:100-140 | a transaction can raise at any point, and only saves and deletions can have to wait |
| TaskStoreCommits.HardRemovalGoesThrough | yascheduler/entrypoints/cli/manage_node.py:255-270 | with no other transaction open, the hard removal of an existing node commits, however many tasks run there |
| TaskStoreCommits.StartsAreLegal | yascheduler/domain/model.py:295-400 | a task can be claimed or rejected exactly while it is TO_DO, finished or abandoned exactly while it is RUNNING |
| TaskStoreCommits.TablesStand | yascheduler/infra/persistence/postgres_uow.py:123-131 | nothing but COMMIT changes an existing row; submitting adds one TO_DO row |
| MachineSession.SSHMachineSession.Occupy | yascheduler/infra/ssh/session.py:112-114 | refuses a BUSY machine and changes nothing else |
| MachineSession.SSHMachineSession.Release | yascheduler/infra/ssh/session.py:121-123 | frees the machine and changes nothing else |
| MachineSession.SSHMachineSession.InstallMonitor | yascheduler/infra/ssh/session.py:349-395 | cancels the prior live monitor, arms the new one in the slot, does nothing on a closed session, keeps the slot discipline |
| MachineSession.SSHMachineSession.CancelMonitor | yascheduler/infra/ssh/session.py:401-406 | empties the slot and leaves no monitor that could still release |
| MachineSession.SSHMachineSession.Close | yascheduler/infra/ssh/session.py:415-439 | idempotent, closes the connection in the same step unless it has to wait for a pending monitor, leaves no monitor armed |
| MachineSession.SSHMachineSession.StartOccupancyCheck | yascheduler/infra/ssh/operations/occupancy.py:129-157 | occupies only a FREE machine, then replaces the monitor |
| MachineSession.SlotOkKept | yascheduler/infra/ssh/session.py:349-439 | every operation and event keeps: the only task that may release is the one in the slot of an open session |
| MachineSession.ReplacementSurvives | yascheduler/infra/ssh/session.py:380-394 | a prior monitor's callback never evicts its successor |
| SessionPool.OnlyTheSlotMonitorIsArmed | yascheduler/infra/ssh/session.py:349-439 | in every run at most one monitor per session can still release it, it is in the slot, and the session is open |
| SessionPool.RearmBreaksIff | yascheduler/application/orchestrator.py:551-560 | in every quiet run at most one allocator holds a session, and a further re-arm can lead to two if and only if it hits a deployment |
| SessionPool.RearmBreaksIdleIff | yascheduler/application/orchestrator.py:551-560 | in every quiet run a FREE machine has no armed monitor and no allocator between occupy and release, with the same exact condition |
| SessionPool.RollbackIsOwn | yascheduler/infra/ssh/operations/deployment.py:225-257 | in every state a failed deployment leaves a closed session alone and frees any other, taking it from another allocator exactly when there were two; a MachineBusyError changes no session |
| SessionPool.HeldUntilOwnerMoves | yascheduler/infra/ssh/operations/deployment.py:225-257 | over any quiet continuation of a quiet run in which its holder makes no step, a held session stays held and BUSY, and neither its closed flag nor its connection changes |
| SessionPool.NoForgottenMachine | yascheduler/application/allocate_task.py:110-126 | in every run an open BUSY session is held by an allocator or watched by the armed monitor in its slot, unless a commit raised on it after the spawn |
| SessionPool.RaisingCommitForgetsMachine | yascheduler/application/allocate_task.py:111-125 | that exception is real: in quiet runs a raising commit leaves the machine BUSY with neither holder nor monitor |
| SessionPool.CommitArmsMonitor | yascheduler/infra/ssh/operations/occupancy.py:129-157 | in every run a commit leaves the machine BUSY and, unless the session was closed, with exactly the new monitor armed, in the slot |
| SessionPool.PicksUsableSession | yascheduler/application/allocate_task.py:137-156 | in every run an allocator is offered only a session that is registered, FREE, open and connected |
| SessionPool.PoolGoesOn | yascheduler/infra/ssh/operations/deployment.py:172-262 | in every run no allocator, monitor task or closing session is stuck; pick and teardown are possible exactly for a FREE session |
| SessionPool.AllocatorAdvances | yascheduler/infra/ssh/operations/deployment.py:172-262 | every step of an allocator brings it nearer to its end, and nobody else moves it |
| SessionPool.TeardownClosesAtOnceIff | yascheduler/application/deallocate_nodes.py:56-65 | in every run teardown closes only a FREE session, touches no other, and closes the connection in the same step if and only if the slot's monitor is not pending |
| SessionPool.LateCommitIff | yascheduler/infra/ssh/repository.py:274-286 | in every run an allocator that picked the session before its teardown can commit RUNNING on it if and only if the monitor was pending or the job was already spawned |
| SessionPool.PendingTeardownStrandsTask | yascheduler/infra/ssh/session.py:415-439 | a run that tears down a session with a pending monitor and then commits RUNNING there |
| SessionPool.TeardownIsAtomic | yascheduler/application/deallocate_nodes.py:56-65 | in quiet runs nobody holds the session that is torn down, and pop, closed flag and connection close are one step |
| SessionPool.ClosedSessionNeverRuns | yascheduler/infra/ssh/repository.py:274-286 | after a quiet run, whatever follows, a deployment on a session closed before its spawn never commits RUNNING |
| UniqueQueues.UniqueQueue.Put | yascheduler/application/queue.py:85-93 | drops a message whose id is queued or in progress, waits when full, appends otherwise |
| UniqueQueues.UniqueQueue.Get | yascheduler/application/queue.py:74-81 | returns the oldest message and marks its id in progress |
| UniqueQueues.UniqueQueue.ItemDone | yascheduler/application/queue.py:100-103 | succeeds exactly for an id in progress and keeps the queue invariant |
| UniqueQueues.ResumedKeeps | yascheduler/application/queue.py:85-93 | a put that waited may append: its id is still neither queued nor in progress |
| UniqueQueues.OfferedIsNeverLost | yascheduler/application/queue.py:85-93 | in every run a put of a known id changes nothing, a new id waits exactly when the queue is full and is accepted otherwise, and unless its put is cancelled it is never dropped |
| UniqueQueues.GetLetsWaitingPutIn | yascheduler/application/queue.py:85-93 | in every run the first get lets a waiting put append its message, behind all others |
| UniqueQueues.QueueTheorem | yascheduler/application/orchestrator.py:672-692 | in every run ids are distinct and disjoint from those in progress, the counter and the bound hold, delivery is FIFO, no two workers hold one id, and item_done never fails |
| ConsumePipeline.FinalisedAtMostOnce | yascheduler/application/consume_task.py:240-300 | with any number of workers and stale messages consume_task saves each task as DONE at most once |
| ConsumePipeline.ConsumingTasksAreKnown | yascheduler/application/orchestrator.py:485-498 | in every run the producer never yields a task that is being consumed, and the queue would drop it anyway |
| ConsumePipeline.PipelineGoesOn | yascheduler/application/orchestrator.py:672-692 | in every run no worker that holds a message is stuck, and a free one can take the oldest message |
| ConsumePipeline.WorkerAdvances | yascheduler/application/orchestrator.py:672-692 | every step of a worker brings it nearer to the end of its message |
| ConsumePipeline.StaleAbandonIff | yascheduler/application/orchestrator.py:513-541 | at most one terminal save per task by either path as long as the machine-gone path was never taken for a task no longer RUNNING, and taking it can lead to a second save if and only if the task is not RUNNING |
| ConsumePipeline.StaleMessageOverwritesResult | yascheduler/application/orchestrator.py:513-541 | such a case is reachable: a completed task is abandoned by a stale message |
| Download.DownloadOutputs | yascheduler/infra/ssh/operations/download.py:67-108 | which files are fetched, which entries are recorded in which order, and when the remote tree is touched |
| Download.FilesAreIndependent | yascheduler/infra/ssh/operations/download.py:70-91 | as long as no earlier file failed to open, escaped or failed to close, each file is fetched, recorded transient or recorded permanent exactly as its own get says |
| Download.SessionEntryIff | yascheduler/infra/ssh/operations/download.py:96-106 | the session-level entry appears if and only if some file failed to open, escaped or failed to close, or the tree removal raised; no file after such a one is fetched |
| Download.EveryFileAccounted | yascheduler/infra/ssh/operations/download.py:67-108 | each file is fetched, recorded, or covered by a session-level entry, and is local or still remote |
| Download.DecisionFollowsDownload | yascheduler/application/consume_task.py:78-126 | complete without error iff all files came and the tree was removed; fail iff a file that is tried fails for good; RUNNING and unsaved otherwise |
| Migrations.LessMeans | yascheduler/infra/persistence/postgres_migrations.py:88-90 | the order of names is that of Python's strings: by the first differing character, a proper prefix first |
| Migrations.NameOrderIsPrefixOrder | yascheduler/infra/persistence/postgres_migrations.py:81-90 | distinct prefixes of one length order the files as their names do |
| Migrations.SortedFilesAreIncreasing | yascheduler/infra/persistence/postgres_migrations.py:81-90 | a sorted scan with distinct prefixes of one length has increasing prefixes |
| Migrations.ScanIsSorted | yascheduler/infra/persistence/postgres_migrations.py:88-90 | the scan is sorted by name and keeps every file |
| Migrations.PendingIsSuffix | yascheduler/infra/persistence/postgres_migrations.py:179-182 | along increasing prefixes the pending files are a suffix |
| Migrations.ApplyMigrations | yascheduler/infra/persistence/postgres_migrations.py:334-362 | the loop computes the run function: it stops at the first failure and never inserts an id twice |
| Migrations.RunCommitsExactly | yascheduler/infra/persistence/postgres_migrations.py:334-362 | along increasing prefixes the outcomes alone decide what a run commits: it goes on while migrations commit, and a commit whose answer is lost still counts |
| Migrations.CrashSafe | yascheduler/infra/persistence/postgres_migrations.py:231-245 | over any series of interrupted runs the committed migrations are, once each and in order, a contiguous run after the tracker maximum |
| Migrations.NothingPendingIff | yascheduler/infra/persistence/postgres_migrations.py:101-135 | nothing is pending exactly when the status is CURRENT or AHEAD |
| Migrations.StatusMeans | yascheduler/infra/persistence/postgres_migrations.py:101-135 | EMPTY, BEHIND, CURRENT and AHEAD in terms of the tracker rows: no row, all before the last file, its row is the greatest, a greater row |
| Migrations.CompletedRunIsCurrent | yascheduler/infra/persistence/postgres_migrations.py:334-362 | a completed run has applied all that was pending and leaves CURRENT, or AHEAD if it was |
| Migrations.AlwaysResumesIff | yascheduler/infra/persistence/postgres_migrations.py:161-182 | a killed run can always be resumed to the end if and only if prefixes increase along the scan |
| DeleteVerify.VerifyGone | yascheduler/infra/cloud/providers/hetzner.py:596-628 | true if and only if the provider answers 404 to a poll starting before the deadline; polls go on until then or until a 404 |
| DeleteVerify.DeleteAndVerify | yascheduler/infra/cloud/providers/hetzner.py:554-588 | true if and only if, after transient errors only and within the attempts, a DELETE is answered 404 or is accepted and a poll confirms; otherwise why it gave up |
| DeleteVerify.Budgets | yascheduler/infra/cloud/providers/vultr.py:657-745 | at most 3 DELETEs, 24 GETs for Hetzner and 18 for Vultr, which fruitless polling with exact sleeps uses up; 5 and 10 rounds of reconciling |
| DeleteVerify.FindOrphan | yascheduler/infra/cloud/providers/vultr.py:597-650 | finds a match exactly when one of the allowed listings shows it |
| DeleteVerify.ReconcileHetzner | yascheduler/infra/cloud/providers/hetzner.py:477-545 | gone if and only if a listing shows the server and one of the rounds confirms; stops with the first that does, gives up on a found server only after all rounds, within the summed budgets |
| DeleteVerify.ReconcileVultr | yascheduler/infra/cloud/providers/vultr.py:597-650 | a match is deleted and verified once; gone if and only if a listing shows it and the provider confirms |
| DeleteVerify.DeallocateCloudNode | yascheduler/application/deallocate_nodes.py:70-138 | the exact conditions: delete is called iff the disable committed, the node is deletable and its id parses; the row goes iff both commits succeed and a deletable node's id parses and is confirmed gone |
| HostSpecs.AcceptedSpecsAreInBounds | yascheduler/entrypoints/cli/manage_node.py:188-195 | every accepted spec has a host, a port in range, ncpus absent or positive, and no empty user |
| HostSpecs.DefaultsApply | yascheduler/entrypoints/cli/manage_node.py:135-184 | a spec without port means port 22, and zero ncpus mean none |
| HostSpecs.RefusalNamesArgument | yascheduler/entrypoints/cli/manage_node.py:120-189 | a refused spec is refused as malformed, naming the whole argument |
| HostSpecs.ParsePrintInt | yascheduler/entrypoints/cli/manage_node.py:145-152 | int() reads back any printed integer |
| HostSpecs.IntegersAccepted | yascheduler/entrypoints/cli/manage_node.py:144-181 | int() reads decimal digits by their value, with a sign, with white space around, and with an underscore inside |
| HostSpecs.PrintParseIff | yascheduler/entrypoints/cli/manage_node.py:120-195 | parsing a printed spec gives it back if and only if the spec is valid |
| HostSpecs.PrintedSpecIsNotAnId | yascheduler/entrypoints/cli/manage_node.py:198-201 | a printed spec never takes the node-id branch |
| HostSpecs.AcceptedSpecsReprint | yascheduler/entrypoints/cli/manage_node.py:120-195 | every accepted argument has a canonical form that parses to the same spec, except for a bracketed host that itself starts with a bracket and has no colon |
| HostSpecs.NodeIdBranch | yascheduler/entrypoints/cli/manage_node.py:198-201 | an argument is a node id exactly when it is all digits, leading zeros included, with a positive value, which is the id; zero is refused |
| Events.MessageBus.Register | yascheduler/application/message_bus.py:37-39 | appends the handler for its type and touches no other type |
| Events.MessageBus.Dispatch | yascheduler/application/message_bus.py:45-58 | the same handlers are called in the same order whatever they raise |
| Events.InvocationsCount | yascheduler/application/message_bus.py:45-58 | a handler is called for an event as often as the event occurs times as often as it is registered |
| Events.OrderOfCalls | yascheduler/application/message_bus.py:45-58 | the calls for an event come behind those for all earlier events, in the order of registration |
| Events.UnitOfWork.Save | yascheduler/infra/persistence/postgres.py:140-168 | a save that hits no row raises and is not remembered; one that hits is remembered last and reaches the connection |
| Events.UnitOfWork.Rollback | yascheduler/infra/persistence/postgres_uow.py:136-140 | saved tasks are forgotten exactly when ROLLBACK succeeded |
| Events.UnitOfWork.CollectEvents | yascheduler/infra/persistence/postgres_uow.py:146-152 | returns the events of the saved tasks in save order and forgets the tasks |
| Events.UnitOfWork.Commit | yascheduler/infra/persistence/postgres_uow.py:123-131 | dispatches the saved tasks' events if COMMIT succeeded and nothing otherwise; raises exactly when COMMIT raised |
| Events.OneTransaction | yascheduler/infra/persistence/postgres_uow.py:74-164 | a block of saves with one end: all writes and all events in order, or none |
| Events.EventsMatchIff | yascheduler/infra/persistence/postgres_uow.py:74-164 | over any sequence of operations the dispatched events are those of the durable saves if and only if none were stranded |
| Retry.DelayClosedForm | yascheduler/shared/retry.py:56-74 | the k-th delay is min(initial_delay * factor^k, max_delay) |
| Retry.Call | yascheduler/shared/retry.py:54-74 | how the call ends and why, its delays, and with exact sleeps a last start less than max_delay after the deadline |
| Retry.CallsBound | yascheduler/shared/retry.py:54-74 | at most one call more than the delays that fill the deadline |
| Retry.DefaultsAllowTenCalls | yascheduler/shared/retry.py:30-39 | with the defaults nine delays fill the sixty seconds, so ten calls at most, and the tenth delay is the first to meet the cap |

## Left out

- Coroutines: an `async def` is a family of step functions over a frame, not a method; what a frame does between two
  suspensions is one indivisible step.
- ProvisioningTheorems.NoSilentOrphan: ordinary exceptions only. Cancellation between the commit of the tmp row and
  the return of `_select_and_insert_tmp`, a second cancellation during cleanup, `stop()`, and removal of cloud rows
  from the command line are not steps of the model.
- ProvisioningTheorems.NoSilentOrphan: a VM whose create was ambiguous and that no listing shows is known by its label
  only; the model keeps such VMs apart from those reported by id.
- ProvisioningTheorems.NoSilentOrphan: a delete_node that returns is taken to mean that the VM is gone. UpCloud's
  returns silently when the listing lacks the address (yascheduler/infra/cloud/providers/upcloud.py:234-235).
- ProvisioningTheorems.ExitsAreAllOrNothing: a row may stay behind when the insert's COMMIT took effect but raised, or
  when both cleanups of the tmp row failed; the frame records this.
- ProvisioningTheorems.CapacityHolds: one daemon, because the lock around reading and inserting is local to a process.
- TaskStoreSafety.TrueSpawnsBound: whether the spawned process really started is not modelled, only what the spawn
  returned.
- TaskStore.Row: columns that the status does not constrain (title, engine, local_folder, webhook, extra, timestamps).
- Contents of a DONE row may be overwritten by another terminal save; only the status is claimed to be monotone.
- SessionPool: `disconnect` during a failed setup and `disconnect_all` at shutdown; the session of a node being set up
  is not offered to allocators because its row is not enabled.
- SessionPool.ClosedSessionNeverRuns: relies on an SSH operation on a closed connection raising.
- MachineSession: `free_since` and the order of `list_free`, command execution, SFTP and the ncpus cache.
- UniqueQueues: the order in which asyncio wakes waiting getters and putters.
- ConsumePipeline: what makes the consumer skip a message (BUSY machine, unknown engine, a machine not yet gone for
  more than 20 passes) is one free choice. A worker's get and its choice of path are two steps, although the code has
  no await between them: the model has more runs.
- Download.DownloadOutputs: the retries inside one `sftp.get` appear as its final result; error texts are one opaque
  message.
- Migrations.LastApplied: `MAX(migration_id)` is taken in code-point order, as Python compares, not in the database's
  collation; Python migrations that commit by themselves and the retry of `_record_py_tracker` are not modelled.
- DeleteVerify: HTTP details, Vultr's polling for an active instance, Azure, UpCloud and VastAI.
- HostSpecs.ParseInt: ASCII digits and white space only, no limit on the number of digits.
- Retry.Call: time is real-valued; cancellation passes through.
- Deallocation producer, idle tolerance, connect grace, statistics, configuration, rendering, webhooks, AiiDA plugin:
  plumbing that would add easy members.
