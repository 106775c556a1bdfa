/** Cloud provisioning by one daemon as a transition system (application/allocate_task.py,
    infra/cloud/manager.py, application/deallocate_nodes.py, application/abandon_node.py).

    Every await-free block of the coroutines is one atomic step; steps of any number of allocators,
    deallocators and abandoners interleave. A call that may fail carries its outcome in the step. */
module Provisioning {
  import opened Prelude
  import opened ProviderSelection
  import T = Tracking

  type VmId = nat
  type FrameId = nat

  /** A row of yascheduler_nodes; `named` says that hostname differs from ''. */
  datatype NodeRow = NodeRow(cloud: Option<Provider>, named: bool, enabled: bool, externalId: Option<VmId>)

  datatype ReaperKind = Deallocator | Abandoner

  /** Suspension points of allocate_task from the tracker dedup on, and its exits. */
  datatype Pc =
    | Queued | AwaitLock | Reading | Counted | Inserted | AwaitSlot | Creating | SettingUp | TearingDown | Persisting
    | Returning | Undoing | Cleaning | Finishing | LastCleaning
    | Deduplicated | NoNode | Provisioned | Failed

  /** A suspended allocate_task: its program counter and locals. `vm` is the VM this call answers for. History:
      `persisted` is the VM whose id it committed to its row, `dirty` says that a row of its own may stay behind, as the
      insert got lost or no cleanup succeeded. */
  datatype Alloc = Alloc(pc: Pc, task: TaskId, counts: Counts, p: Option<Provider>, n: Option<NodeId>,
                         vm: Option<VmId>, persisted: Option<VmId>, dirty: bool)

  datatype ReapPc = Disabling | Deleting | Removing | Reaped

  /** A suspended deallocate_node or abandon_node and the node object it was given. */
  datatype Reaper = Reaper(pc: ReapPc, kind: ReaperKind, n: NodeId, row: NodeRow)

  datatype State = State(
    rows: map<NodeId, NodeRow>,
    vms: set<VmId>,                    // VMs that exist and bill
    leaks: set<VmId>,                  // VMs named by id in an error log for manual deletion
    labels: set<VmId>,                 // VMs whose create was ambiguous, logged by the label of the request only
    tracker: T.Entries,
    lock: Option<FrameId>,             // allocation_lock
    slots: map<Provider, int>,         // semaphore values
    inProgress: map<TaskId, FrameId>,  // messages of the allocate queue being processed
    allocs: map<FrameId, Alloc>,
    reapers: map<FrameId, Reaper>,
    nextNode: NodeId,
    nextVm: VmId,
    rowOwner: map<NodeId, FrameId>,    // history: which call inserted a tmp row
    entryOwner: map<TaskId, FrameId>,  // history: which call added a tracker entry
    discards: set<TaskId>,             // history: tasks discarded by others since their entry was added
    retired: set<NodeId>)              // history: nodes disabled or removed since their row got its identity

  datatype World = World(adapters: seq<Adapter>, configs: Configs, opLimit: map<Provider, nat>)

  /** A transaction commits, raises with no effect, or raises after the server committed it. */
  datatype Outcome = Commits | RaisesClean | RaisesApplied

  /** delete_node returns once the VM is confirmed gone; when it raises the VM may or may not be gone. */
  datatype Deletion = Confirmed | RaisesGone | RaisesLive

  // ---- views of a frame ----

  /** Between tracker.add and the finally block's discard. */
  predicate InSection(pc: Pc) {
    match pc
    case Queued | LastCleaning | Deduplicated | NoNode | Provisioned | Failed => false
    case _ => true
  }

  /** allocate_task has not returned. */
  predicate Active(pc: Pc) {
    pc.Queued? || InSection(pc) || pc.LastCleaning?
  }

  /** The tmp row has been inserted but not given the VM's identity yet. */
  predicate Unpersisted(pc: Pc) {
    pc.Inserted? || pc.AwaitSlot? || pc.Creating? || pc.SettingUp? || pc.TearingDown? || pc.Persisting?
  }

  /** The failure path after the VM has been dealt with. */
  predicate Compensating(pc: Pc) {
    pc.Cleaning? || pc.Finishing? || pc.LastCleaning?
  }

  predicate HoldsLock(pc: Pc) {
    pc.Reading? || pc.Counted? || pc.Inserted?
  }

  predicate HoldsSlot(pc: Pc) {
    pc.Creating? || pc.SettingUp? || pc.TearingDown?
  }

  // ---- counting rows per provider ----

  ghost function CloudRows(rows: map<NodeId, NodeRow>, p: Provider): set<NodeId> {
    set n | n in rows && rows[n].cloud == Some(p)
  }

  ghost function Counting(rows: map<NodeId, NodeRow>): Counts {
    map p: Provider | p in (set n | n in rows && rows[n].cloud.Some? :: rows[n].cloud.value) :: |CloudRows(rows, p)|
  }

  lemma CountingCounts(rows: map<NodeId, NodeRow>, p: Provider)
    ensures CountOf(Counting(rows), p) == |CloudRows(rows, p)|
  {
    var clouds := set n | n in rows && rows[n].cloud.Some? :: rows[n].cloud.value;
    assert forall n :: n in CloudRows(rows, p) ==> rows[n].cloud.value in clouds;
    assert p !in clouds ==> CloudRows(rows, p) == {};
  }

  /** How many of the listed nodes belong to p. */
  function Occurrences(nodes: seq<NodeRow>, p: Provider): nat {
    if nodes == [] then 0
    else Occurrences(nodes[..|nodes| - 1], p) + if nodes[|nodes| - 1].cloud == Some(p) then 1 else 0
  }

  /** _count_nodes_by_cloud: one pass over the listed nodes. */
  method CountNodesByCloud(nodes: seq<NodeRow>) returns (counts: Counts)
    ensures forall p: Provider :: CountOf(counts, p) == Occurrences(nodes, p)
  {
    counts := map[];
    for i := 0 to |nodes|
      invariant forall p: Provider :: CountOf(counts, p) == Occurrences(nodes[..i], p)
    {
      assert nodes[..i + 1][..i] == nodes[..i];
      if nodes[i].cloud.Some? {
        counts := counts[nodes[i].cloud.value := CountOf(counts, nodes[i].cloud.value) + 1];
      }
    }
    assert nodes[..|nodes|] == nodes;
  }

  lemma CloudRowsWithout(rows: map<NodeId, NodeRow>, n: NodeId, p: Provider)
    requires n in rows
    ensures |CloudRows(rows, p)| == |CloudRows(rows - {n}, p)| + if rows[n].cloud == Some(p) then 1 else 0
  {
    assert CloudRows(rows, p) == CloudRows(rows - {n}, p) + (if rows[n].cloud == Some(p) then {n} else {});
  }

  /** The rows a listing shows, in its order. */
  function Listed(rows: map<NodeId, NodeRow>, ids: seq<NodeId>): (nodes: seq<NodeRow>)
    requires forall n :: n in ids ==> n in rows
    ensures |nodes| == |ids| && forall i :: 0 <= i < |ids| ==> nodes[i] == rows[ids[i]]
  {
    if ids == [] then [] else Listed(rows, ids[..|ids| - 1]) + [rows[ids[|ids| - 1]]]
  }

  lemma {:induction false} ListedFrame(rows: map<NodeId, NodeRow>, rest: map<NodeId, NodeRow>, ids: seq<NodeId>)
    requires forall n :: n in ids ==> n in rows && n in rest && rows[n] == rest[n]
    ensures Listed(rows, ids) == Listed(rest, ids)
  {
  }

  /** list_all returns every row once, so counting the listing counts the table. */
  lemma {:induction false} ListingCountsTable(rows: map<NodeId, NodeRow>, ids: seq<NodeId>, p: Provider)
    requires forall i, j :: 0 <= i < j < |ids| ==> ids[i] != ids[j]
    requires forall n :: n in ids ==> n in rows
    requires forall n :: n in CloudRows(rows, p) ==> n in ids
    ensures Occurrences(Listed(rows, ids), p) == |CloudRows(rows, p)|
  {
    if ids == [] {
      assert CloudRows(rows, p) == {};
    } else {
      hide Listed, Occurrences;
      var front, last := ids[..|ids| - 1], ids[|ids| - 1];
      var rest := rows - {last};
      assert ids == front + [last];
      forall n | n in front ensures n in rest {
        var i :| 0 <= i < |front| && front[i] == n;
        assert ids[i] != ids[|ids| - 1];
      }
      forall n | n in CloudRows(rest, p) ensures n in front {
        assert n in CloudRows(rows, p) && n != last;
      }
      ListingCountsTable(rest, front, p);
      ListedFrame(rows, rest, front);
      CloudRowsWithout(rows, last, p);
      ListedLast(rows, ids, p);
    }
  }

  /** What the loop computes over list_all is what the step under the lock reads. */
  lemma CountsOfListing(rows: map<NodeId, NodeRow>, ids: seq<NodeId>, counts: Counts, p: Provider)
    requires forall i, j :: 0 <= i < j < |ids| ==> ids[i] != ids[j]
    requires forall n :: n in ids <==> n in rows
    requires CountOf(counts, p) == Occurrences(Listed(rows, ids), p)
    ensures CountOf(counts, p) == CountOf(Counting(rows), p) == |CloudRows(rows, p)|
  {
    ListingCountsTable(rows, ids, p);
    CountingCounts(rows, p);
  }

  lemma ListedLast(rows: map<NodeId, NodeRow>, ids: seq<NodeId>, p: Provider)
    requires ids != [] && forall n :: n in ids ==> n in rows
    ensures var front, last := ids[..|ids| - 1], ids[|ids| - 1];
            Occurrences(Listed(rows, ids), p)
            == Occurrences(Listed(rows, front), p) + if rows[last].cloud == Some(p) then 1 else 0
  {
    assert Listed(rows, ids)[..|ids| - 1] == Listed(rows, ids[..|ids| - 1]);
  }

  // ---- steps ----

  predicate HasAdapter(w: World, p: Provider) {
    p in w.configs && exists i :: 0 <= i < |w.adapters| && w.adapters[i].name == p
  }

  predicate AtPc(s: State, f: FrameId, pc: Pc) {
    f in s.allocs && s.allocs[f].pc == pc
  }

  /** The call has its row: provider and node id are set. */
  predicate AtRowPc(s: State, f: FrameId, pc: Pc) {
    AtPc(s, f, pc) && s.allocs[f].p.Some? && s.allocs[f].n.Some?
  }

  predicate AtVmPc(s: State, f: FrameId, pc: Pc) {
    AtRowPc(s, f, pc) && s.allocs[f].vm.Some?
  }

  function To(s: State, f: FrameId, fr: Alloc): State {
    s.(allocs := s.allocs[f := fr])
  }

  /** The allocate queue hands out a message only while no worker holds one for the same task. */
  ghost function DoStart(s: State, f: FrameId, task: TaskId): Option<State> {
    if f in s.allocs || task in s.inProgress then None else
      Some(To(s, f, Alloc(Queued, task, map[], None, None, None, None, false)).(inProgress := s.inProgress[task := f]))
  }

  /** allocate_task returns or raises; the worker's item_done follows. */
  function Exit(s: State, f: FrameId, fr: Alloc): State {
    To(s, f, fr).(inProgress := s.inProgress - {fr.task})
  }

  /** tracker.add refuses a tracked task: allocate_task returns. */
  ghost function DoDeduplicate(s: State, f: FrameId): Option<State> {
    if !AtPc(s, f, Queued) || s.allocs[f].task !in s.tracker then None else
      Some(Exit(s, f, s.allocs[f].(pc := Deduplicated)))
  }

  ghost function DoAddToTracker(s: State, f: FrameId): Option<State> {
    if !AtPc(s, f, Queued) || s.allocs[f].task in s.tracker then None else
      var fr := s.allocs[f];
      Some(To(s, f, fr.(pc := AwaitLock)).(tracker := T.Added(s.tracker, fr.task, None),
                                           entryOwner := s.entryOwner[fr.task := f],
                                           discards := s.discards - {fr.task}))
  }

  ghost function DoAcquireLock(s: State, f: FrameId): Option<State> {
    if !AtPc(s, f, AwaitLock) || s.lock.Some? then None else
      Some(To(s, f, s.allocs[f].(pc := Reading)).(lock := Some(f)))
  }

  /** The critical section is left without a row: the lock is released and the finally block discards the entry. */
  ghost function LeaveLock(s: State, f: FrameId, fr: Alloc): State {
    Exit(s, f, fr.(pc := NoNode)).(lock := None, tracker := T.Discarded(s.tracker, fr.task))
  }

  /** Opening the unit of work, reading or inserting raises. */
  ghost function DoFailUnderLock(s: State, f: FrameId): Option<State> {
    if !AtPc(s, f, Reading) && !AtPc(s, f, Counted) then None else Some(LeaveLock(s, f, s.allocs[f]))
  }

  ghost function DoReadCounts(s: State, f: FrameId): Option<State> {
    if !AtPc(s, f, Reading) then None else
      Some(To(s, f, s.allocs[f].(pc := Counted, counts := Counting(s.rows))))
  }

  function Value(slots: map<Provider, int>, p: Provider): int {
    if p in slots then slots[p] else 0
  }

  /** semaphore.locked(): no slot is free or, in later versions of Python, somebody waits for one. */
  ghost predicate Throttled(s: State, p: Provider) {
    Value(s.slots, p) == 0 || exists g :: g in s.allocs && s.allocs[g].pc.AwaitSlot? && s.allocs[g].p == Some(p)
  }

  /** No suitable provider, or the chosen one is throttled. */
  ghost function DoSelectNone(w: World, s: State, f: FrameId, platforms: seq<string>): Option<State> {
    if !AtPc(s, f, Counted) then None
    else if exists i: nat :: IsChoice(w.adapters, w.configs, platforms, s.allocs[f].counts, i)
                             && !Throttled(s, w.adapters[i].name) then None
    else Some(LeaveLock(s, f, s.allocs[f]))
  }

  function TmpRow(p: Provider): NodeRow {
    NodeRow(Some(p), false, false, None)
  }

  /** select_provider picks the adapter `choice`, which is not throttled. */
  ghost predicate Selects(w: World, s: State, f: FrameId, platforms: seq<string>, choice: nat) {
    && AtPc(s, f, Counted)
    && IsChoice(w.adapters, w.configs, platforms, s.allocs[f].counts, choice)
    && Value(s.slots, w.adapters[choice].name) != 0
  }

  /** The chosen provider gets a tmp row, committed while the lock is still held. */
  ghost function DoInsertTmp(w: World, s: State, f: FrameId, platforms: seq<string>, choice: nat): Option<State> {
    if !Selects(w, s, f, platforms, choice) then None else
      var p := w.adapters[choice].name;
      Some(To(s, f, s.allocs[f].(pc := Inserted, p := Some(p), n := Some(s.nextNode)))
           .(rows := s.rows[s.nextNode := TmpRow(p)], rowOwner := s.rowOwner[s.nextNode := f],
             nextNode := s.nextNode + 1))
  }

  /** Insert or commit raises, but the server has committed the row: nobody will remove it. */
  ghost function DoInsertLost(w: World, s: State, f: FrameId, platforms: seq<string>, choice: nat): Option<State> {
    if !Selects(w, s, f, platforms, choice) then None else
      Some(LeaveLock(s, f, s.allocs[f].(dirty := true))
           .(rows := s.rows[s.nextNode := TmpRow(w.adapters[choice].name)], nextNode := s.nextNode + 1))
  }

  /** The lock is released and tracker.set_node runs without an await in between. */
  ghost function DoLink(s: State, f: FrameId): Option<State> {
    if !AtRowPc(s, f, Inserted) then None else
      var fr := s.allocs[f];
      Some(To(s, f, fr.(pc := AwaitSlot)).(lock := None, tracker := T.Linked(s.tracker, fr.task, fr.n.value)))
  }

  ghost function DoAcquireSlot(s: State, f: FrameId): Option<State> {
    if !AtRowPc(s, f, AwaitSlot) || Value(s.slots, s.allocs[f].p.value) <= 0 then None else
      var fr := s.allocs[f];
      Some(To(s, f, fr.(pc := Creating)).(slots := s.slots[fr.p.value := Value(s.slots, fr.p.value) - 1]))
  }

  function Released(slots: map<Provider, int>, p: Provider): map<Provider, int> {
    slots[p := Value(slots, p) + 1]
  }

  /** The provider accepted the create request: from here on the VM bills. */
  ghost function DoVmStarts(s: State, f: FrameId): Option<State> {
    if !AtRowPc(s, f, Creating) || s.allocs[f].vm.Some? then None else
      Some(To(s, f, s.allocs[f].(vm := Some(s.nextVm))).(vms := s.vms + {s.nextVm}, nextVm := s.nextVm + 1))
  }

  ghost function DoCreateReturns(s: State, f: FrameId): Option<State> {
    if !AtVmPc(s, f, Creating) then None else Some(To(s, f, s.allocs[f].(pc := SettingUp)))
  }

  /** delete_node plus the error log its caller writes when it raises. */
  function Deleted(s: State, v: VmId, d: Deletion): State {
    s.(vms := if d.RaisesLive? then s.vms else s.vms - {v},
       leaks := if d.Confirmed? then s.leaks else s.leaks + {v})
  }

  /** create_node raises before a VM was started. */
  ghost function DoCreateRaises(s: State, f: FrameId): Option<State> {
    if !AtRowPc(s, f, Creating) || s.allocs[f].vm.Some? then None else
      var fr := s.allocs[f];
      Some(To(s, f, fr.(pc := Cleaning)).(slots := Released(s.slots, fr.p.value)))
  }

  /** create_node raises after it started a VM whose id it knows or has found by label: the provider module has removed
      that VM, or has reported it by id. */
  ghost function DoCreateAborted(s: State, f: FrameId, d: Deletion): Option<State> {
    if !AtVmPc(s, f, Creating) then None else
      var fr := s.allocs[f];
      Some(To(Deleted(s, fr.vm.value, d), f, fr.(pc := Cleaning, vm := None)).(slots := Released(s.slots, fr.p.value)))
  }

  /** The create request broke after the provider had accepted it and no listing shows the VM: only its label is
      known. */
  ghost function DoCreateAmbiguous(s: State, f: FrameId): Option<State> {
    if !AtVmPc(s, f, Creating) then None else
      var fr := s.allocs[f];
      Some(To(s, f, fr.(pc := Cleaning, vm := None))
           .(labels := s.labels + {fr.vm.value}, slots := Released(s.slots, fr.p.value)))
  }

  ghost function DoSetupReturns(s: State, f: FrameId): Option<State> {
    if !AtVmPc(s, f, SettingUp) then None else
      var fr := s.allocs[f];
      Some(To(s, f, fr.(pc := Persisting)).(slots := Released(s.slots, fr.p.value)))
  }

  /** Any setup failure goes through the best-effort disconnect to the teardown delete. */
  ghost function DoSetupRaises(s: State, f: FrameId): Option<State> {
    if !AtVmPc(s, f, SettingUp) then None else Some(To(s, f, s.allocs[f].(pc := TearingDown)))
  }

  ghost function DoTeardown(s: State, f: FrameId, d: Deletion): Option<State> {
    if !AtVmPc(s, f, TearingDown) then None else
      var fr := s.allocs[f];
      Some(To(Deleted(s, fr.vm.value, d), f, fr.(pc := Cleaning, vm := None)).(slots := Released(s.slots, fr.p.value)))
  }

  /** nodes.update and commit; the unit of work still has to close its connection. */
  ghost function DoPersist(s: State, f: FrameId): Option<State> {
    if !AtVmPc(s, f, Persisting) || s.allocs[f].n.value !in s.rows then None else
      var fr := s.allocs[f];
      Some(To(s, f, fr.(pc := Returning, vm := None, persisted := fr.vm))
           .(rows := s.rows[fr.n.value := NodeRow(fr.p, true, true, fr.vm)], retired := s.retired - {fr.n.value}))
  }

  /** The connection is closed and allocate_task returns with its entry kept; others may have run since the commit. */
  ghost function DoReturn(s: State, f: FrameId): Option<State> {
    if !AtRowPc(s, f, Returning) then None else Some(Exit(s, f, s.allocs[f].(pc := Provisioned)))
  }

  /** The update raises: row missing (NodeRowNotFoundError) or any other error without effect. */
  ghost function DoPersistRaises(s: State, f: FrameId): Option<State> {
    if !AtVmPc(s, f, Persisting) then None else Some(To(s, f, s.allocs[f].(pc := Undoing)))
  }

  /** The commit raises although the server has committed. */
  ghost function DoPersistLost(s: State, f: FrameId): Option<State> {
    if !AtVmPc(s, f, Persisting) || s.allocs[f].n.value !in s.rows then None else
      var fr := s.allocs[f];
      Some(To(s, f, fr.(pc := Undoing))
           .(rows := s.rows[fr.n.value := NodeRow(fr.p, true, true, fr.vm)], retired := s.retired - {fr.n.value}))
  }

  ghost function DoUndoDelete(s: State, f: FrameId, d: Deletion): Option<State> {
    if !AtVmPc(s, f, Undoing) then None else
      var fr := s.allocs[f];
      Some(To(Deleted(s, fr.vm.value, d), f, fr.(pc := Cleaning, vm := None)))
  }

  /** nodes.remove and commit; a missing row raises NodeRowNotFoundError, which every caller swallows. */
  function Removed(s: State, n: NodeId, o: Outcome): State {
    if o.RaisesClean? then s else s.(rows := s.rows - {n}, retired := s.retired + {n})
  }

  /** Neither removed nor found missing: the cleanup was logged as failed. */
  predicate CleanupFailed(rows: map<NodeId, NodeRow>, n: NodeId, o: Outcome) {
    n in rows && !o.Commits?
  }

  ghost function DoCleanUp(s: State, f: FrameId, o: Outcome): Option<State> {
    if !AtRowPc(s, f, Cleaning) then None else
      var fr := s.allocs[f];
      Some(To(Removed(s, fr.n.value, o), f, fr.(pc := Finishing, dirty := CleanupFailed(s.rows, fr.n.value, o))))
  }

  ghost function DoDiscardEntry(s: State, f: FrameId): Option<State> {
    if !AtRowPc(s, f, Finishing) then None else
      var fr := s.allocs[f];
      Some(To(s, f, fr.(pc := LastCleaning)).(tracker := T.Discarded(s.tracker, fr.task)))
  }

  /** The finally block's safety net; `dirty` ends up true only when both cleanups failed. */
  ghost function DoCleanUpAgain(s: State, f: FrameId, o: Outcome): Option<State> {
    if !AtRowPc(s, f, LastCleaning) then None else
      var fr := s.allocs[f];
      var dirty := fr.dirty && CleanupFailed(s.rows, fr.n.value, o);
      Some(Exit(Removed(s, fr.n.value, o), f, fr.(pc := Failed, dirty := dirty)))
  }

  function ToReaper(s: State, f: FrameId, r: Reaper): State {
    s.(reapers := s.reapers[f := r])
  }

  predicate ReaperAt(s: State, f: FrameId, pc: ReapPc) {
    f in s.reapers && s.reapers[f].pc == pc
  }

  /** The deallocator is given rows of list_disabled; the abandoner enabled rows or disabled named ones. */
  ghost function DoReap(s: State, f: FrameId, kind: ReaperKind, n: NodeId): Option<State> {
    if f in s.reapers || n !in s.rows then None
    else if kind.Deallocator? && (s.rows[n].enabled || !s.rows[n].named) then None
    else if kind.Abandoner? && !s.rows[n].enabled && !s.rows[n].named then None
    else Some(ToReaper(s, f, Reaper(Disabling, kind, n, s.rows[n])))
  }

  /** abandon_node's finally block discards by node; deallocate_node has none. */
  ghost function ReapExit(s: State, f: FrameId, r: Reaper): State {
    ToReaper(s, f, r.(pc := Reaped))
    .(tracker := if r.kind.Abandoner? then T.DiscardedByNode(s.tracker, r.n) else s.tracker,
      discards := if r.kind.Abandoner? then s.discards + T.TasksOf(s.tracker, r.n) else s.discards)
  }

  /** A BUSY machine is skipped; a raising disconnect or disable (also on a missing row) ends the call. */
  ghost function DoReapAborts(s: State, f: FrameId): Option<State> {
    if !ReaperAt(s, f, Disabling) then None else Some(ReapExit(s, f, s.reapers[f]))
  }

  /** Static nodes have no VM: the call goes straight to the row removal. */
  ghost function DoReapStatic(s: State, f: FrameId): Option<State> {
    if !ReaperAt(s, f, Disabling) || s.reapers[f].row.cloud.Some? then None else
      Some(ToReaper(s, f, s.reapers[f].(pc := Removing)))
  }

  function Disabled(s: State, n: NodeId): State
    requires n in s.rows
  {
    s.(rows := s.rows[n := s.rows[n].(enabled := false)], retired := s.retired + {n})
  }

  /** Cloud nodes are disabled before the VM is deleted. */
  ghost function DoReapDisable(s: State, f: FrameId): Option<State> {
    if !ReaperAt(s, f, Disabling) || s.reapers[f].row.cloud.None? || s.reapers[f].n !in s.rows then None else
      var r := s.reapers[f];
      Some(ToReaper(Disabled(s, r.n), f, r.(pc := Deleting)))
  }

  /** clouds.deallocate finds an adapter, a config and an external_id. */
  predicate CanDelete(w: World, row: NodeRow) {
    row.cloud.Some? && HasAdapter(w, row.cloud.value) && row.externalId.Some?
  }

  /** clouds.deallocate warns and returns without deleting anything. */
  ghost function DoReapNoDelete(w: World, s: State, f: FrameId): Option<State> {
    if !ReaperAt(s, f, Deleting) || CanDelete(w, s.reapers[f].row) then None else
      Some(ToReaper(s, f, s.reapers[f].(pc := Removing)))
  }

  ghost function DoReapDelete(w: World, s: State, f: FrameId): Option<State> {
    if !ReaperAt(s, f, Deleting) || !CanDelete(w, s.reapers[f].row) then None else
      var r := s.reapers[f];
      Some(ToReaper(s, f, r.(pc := Removing)).(vms := s.vms - {r.row.externalId.value}))
  }

  /** delete_node raises; the VM may be gone all the same. */
  ghost function DoReapDeleteRaises(w: World, s: State, f: FrameId, gone: bool): Option<State> {
    if !ReaperAt(s, f, Deleting) || !CanDelete(w, s.reapers[f].row) then None else
      var r := s.reapers[f];
      Some(ReapExit(s, f, r).(vms := if gone then s.vms - {r.row.externalId.value} else s.vms))
  }

  ghost function DoReapRemove(s: State, f: FrameId, o: Outcome): Option<State> {
    if !ReaperAt(s, f, Removing) then None else
      var r := s.reapers[f];
      Some(ReapExit(Removed(s, r.n, o), f, r))
  }

  /** Consumers and free-machine starts discard the entry of their task whatever else is going on for it: a claim whose
      COMMIT took effect but raised lets the allocator go on to provision while a consumer finishes the task. */
  ghost function DoOtherDiscard(s: State, task: TaskId): Option<State> {
    Some(s.(tracker := T.Discarded(s.tracker, task), discards := s.discards + {task}))
  }

  /** The idle phase of deallocate_nodes and soft removal. */
  ghost function DoDisable(s: State, n: NodeId): Option<State> {
    if n !in s.rows then None else Some(Disabled(s, n))
  }

  ghost function DoCliAdd(s: State): Option<State> {
    Some(s.(rows := s.rows[s.nextNode := NodeRow(None, true, false, None)], nextNode := s.nextNode + 1))
  }

  ghost function DoCliEnable(s: State, n: NodeId): Option<State> {
    if n !in s.rows || s.rows[n].cloud.Some? then None else Some(s.(rows := s.rows[n := s.rows[n].(enabled := true)]))
  }

  /** CLI removal of a row that names no VM. */
  ghost function DoCliRemove(s: State, n: NodeId): Option<State> {
    if n !in s.rows || s.rows[n].externalId.Some? then None else Some(Removed(s, n, Commits))
  }

  ghost function DoVmVanish(s: State, v: VmId): Option<State> {
    Some(s.(vms := s.vms - {v}))
  }

  datatype Step =
    | Start(f: FrameId, task: TaskId)
    | Deduplicate(f: FrameId)
    | AddToTracker(f: FrameId)
    | AcquireLock(f: FrameId)
    | FailUnderLock(f: FrameId)
    | ReadCounts(f: FrameId)
    | SelectNone(f: FrameId, platforms: seq<string>)
    | InsertTmp(f: FrameId, platforms: seq<string>, choice: nat)
    | InsertLost(f: FrameId, platforms: seq<string>, choice: nat)
    | Link(f: FrameId)
    | AcquireSlot(f: FrameId)
    | VmStarts(f: FrameId)
    | CreateReturns(f: FrameId)
    | CreateRaises(f: FrameId)
    | CreateAborted(f: FrameId, d: Deletion)
    | CreateAmbiguous(f: FrameId)
    | SetupReturns(f: FrameId)
    | SetupRaises(f: FrameId)
    | Teardown(f: FrameId, d: Deletion)
    | Persist(f: FrameId)
    | Return(f: FrameId)
    | PersistRaises(f: FrameId)
    | PersistLost(f: FrameId)
    | UndoDelete(f: FrameId, d: Deletion)
    | CleanUp(f: FrameId, o: Outcome)
    | DiscardEntry(f: FrameId)
    | CleanUpAgain(f: FrameId, o: Outcome)
    | Reap(f: FrameId, kind: ReaperKind, n: NodeId)
    | ReapAborts(f: FrameId)
    | ReapStatic(f: FrameId)
    | ReapDisable(f: FrameId)
    | ReapNoDelete(f: FrameId)
    | ReapDelete(f: FrameId)
    | ReapDeleteRaises(f: FrameId, gone: bool)
    | ReapRemove(f: FrameId, o: Outcome)
    | OtherDiscard(task: TaskId)
    | Disable(n: NodeId)
    | CliAdd
    | CliEnable(n: NodeId)
    | CliRemove(n: NodeId)
    | VmVanish(v: VmId)

  /** allocate_task up to a provider choice. */
  ghost function LockNext(w: World, s: State, step: Step): Option<State> {
    match step
    case Start(f, task) => DoStart(s, f, task)
    case Deduplicate(f) => DoDeduplicate(s, f)
    case AddToTracker(f) => DoAddToTracker(s, f)
    case AcquireLock(f) => DoAcquireLock(s, f)
    case FailUnderLock(f) => DoFailUnderLock(s, f)
    case ReadCounts(f) => DoReadCounts(s, f)
    case SelectNone(f, platforms) => DoSelectNone(w, s, f, platforms)
    case _ => None
  }

  /** From the tmp row to the VM. */
  ghost function VmNext(w: World, s: State, step: Step): Option<State> {
    match step
    case InsertTmp(f, platforms, choice) => DoInsertTmp(w, s, f, platforms, choice)
    case InsertLost(f, platforms, choice) => DoInsertLost(w, s, f, platforms, choice)
    case Link(f) => DoLink(s, f)
    case AcquireSlot(f) => DoAcquireSlot(s, f)
    case VmStarts(f) => DoVmStarts(s, f)
    case CreateReturns(f) => DoCreateReturns(s, f)
    case CreateRaises(f) => DoCreateRaises(s, f)
    case CreateAborted(f, d) => DoCreateAborted(s, f, d)
    case CreateAmbiguous(f) => DoCreateAmbiguous(s, f)
    case _ => None
  }

  /** Setup, persisting and the ways out. */
  ghost function FinishNext(s: State, step: Step): Option<State> {
    match step
    case SetupReturns(f) => DoSetupReturns(s, f)
    case SetupRaises(f) => DoSetupRaises(s, f)
    case Teardown(f, d) => DoTeardown(s, f, d)
    case Persist(f) => DoPersist(s, f)
    case Return(f) => DoReturn(s, f)
    case PersistRaises(f) => DoPersistRaises(s, f)
    case PersistLost(f) => DoPersistLost(s, f)
    case UndoDelete(f, d) => DoUndoDelete(s, f, d)
    case CleanUp(f, o) => DoCleanUp(s, f, o)
    case DiscardEntry(f) => DoDiscardEntry(s, f)
    case CleanUpAgain(f, o) => DoCleanUpAgain(s, f, o)
    case _ => None
  }

  /** Reapers, consumers, the CLI and the cloud. */
  ghost function OutsideNext(w: World, s: State, step: Step): Option<State> {
    match step
    case Reap(f, kind, n) => DoReap(s, f, kind, n)
    case ReapAborts(f) => DoReapAborts(s, f)
    case ReapStatic(f) => DoReapStatic(s, f)
    case ReapDisable(f) => DoReapDisable(s, f)
    case ReapNoDelete(f) => DoReapNoDelete(w, s, f)
    case ReapDelete(f) => DoReapDelete(w, s, f)
    case ReapDeleteRaises(f, gone) => DoReapDeleteRaises(w, s, f, gone)
    case ReapRemove(f, o) => DoReapRemove(s, f, o)
    case OtherDiscard(task) => DoOtherDiscard(s, task)
    case Disable(n) => DoDisable(s, n)
    case CliAdd => DoCliAdd(s)
    case CliEnable(n) => DoCliEnable(s, n)
    case CliRemove(n) => DoCliRemove(s, n)
    case VmVanish(v) => DoVmVanish(s, v)
    case _ => None
  }

  datatype Phase = Locking | Creation | Ending | Outside

  function PhaseOf(step: Step): Phase {
    match step
    case Start(_, _) | Deduplicate(_) | AddToTracker(_) | AcquireLock(_) | FailUnderLock(_) | ReadCounts(_) => Locking
    case SelectNone(_, _) => Locking
    case InsertTmp(_, _, _) | InsertLost(_, _, _) | Link(_) | AcquireSlot(_) | VmStarts(_) => Creation
    case CreateReturns(_) | CreateRaises(_) | CreateAborted(_, _) | CreateAmbiguous(_) => Creation
    case SetupReturns(_) | SetupRaises(_) | Teardown(_, _) | Persist(_) | PersistRaises(_) | PersistLost(_) => Ending
    case Return(_) | UndoDelete(_, _) | CleanUp(_, _) | DiscardEntry(_) | CleanUpAgain(_, _) => Ending
    case _ => Outside
  }

  ghost function Next(w: World, s: State, step: Step): Option<State> {
    match PhaseOf(step)
    case Locking => LockNext(w, s, step)
    case Creation => VmNext(w, s, step)
    case Ending => FinishNext(s, step)
    case Outside => OutsideNext(w, s, step)
  }

  /** The state after a whole run, None when some step was not enabled. */
  ghost function Run(w: World, s: State, steps: seq<Step>): Option<State>
    decreases |steps|
  {
    if steps == [] then Some(s) else
      match Next(w, s, steps[0])
      case None => None
      case Some(s') => Run(w, s', steps[1..])
  }
}
