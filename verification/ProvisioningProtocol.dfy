/** Lock, queue, tracker, semaphore and capacity discipline of the provisioning system. */
module ProvisioningProtocol {
  import opened Prelude
  import opened ProviderSelection
  import opened Provisioning
  import opened ProvisioningSafety
  import T = Tracking

  /** No abandoner can release the entry: the row is not yet visible to it. */
  predicate Firm(pc: Pc) {
    pc.AwaitLock? || pc.Reading? || pc.Counted? || Unpersisted(pc)
  }

  /** The call counts on its entry. */
  predicate Entered(pc: Pc) {
    Firm(pc) || pc.Returning?
  }

  /** From the accepted tracker.add until the call returns. */
  predicate Releasing(pc: Pc) {
    InSection(pc) || pc.LastCleaning?
  }

  predicate LinkedToRow(pc: Pc) {
    (Unpersisted(pc) && !pc.Inserted?) || pc.Returning?
  }

  ghost predicate CountsDominate(counts: Counts, rows: map<NodeId, NodeRow>) {
    forall p: Provider :: |CloudRows(rows, p)| <= CountOf(counts, p)
  }

  /** What one call may rely on while it is suspended. */
  ghost predicate CallOk(s: State, f: FrameId)
    requires f in s.allocs
  {
    var fr := s.allocs[f];
    && (HoldsLock(fr.pc) <==> s.lock == Some(f))
    && (Active(fr.pc) <==> fr.task in s.inProgress && s.inProgress[fr.task] == f)
    && (Entered(fr.pc) && fr.task !in s.discards ==> fr.task in s.tracker)
    && (Releasing(fr.pc) && fr.task in s.discards ==> fr.task !in s.tracker)
    && (Releasing(fr.pc) && fr.task in s.tracker ==> fr.task in s.entryOwner && s.entryOwner[fr.task] == f)
    && (LinkedToRow(fr.pc) && fr.task in s.tracker ==> fr.n.Some? && s.tracker[fr.task] == fr.n)
    && (fr.pc.Counted? ==> CountsDominate(fr.counts, s.rows))
    && (HoldsSlot(fr.pc) ==> fr.p.Some?)
    && (fr.pc.Queued? || fr.pc.AwaitLock? || fr.pc.Reading? || fr.pc.Counted? ==> fr.n.None?)
  }

  /** Every entry belongs to a call that is still in its section or has provisioned its node. */
  ghost predicate EntryOk(s: State, task: TaskId)
    requires task in s.tracker
  {
    && task in s.entryOwner && s.entryOwner[task] in s.allocs
    && var fr := s.allocs[s.entryOwner[task]];
       && fr.task == task
       && (InSection(fr.pc) || fr.pc.Provisioned?)
       && (s.tracker[task].Some? ==> s.tracker[task] == fr.n)
  }

  ghost predicate Protocol(s: State) {
    && (s.lock.Some? ==> s.lock.value in s.allocs)
    && (forall t :: t in s.inProgress ==> s.inProgress[t] in s.allocs && s.allocs[s.inProgress[t]].task == t)
    && (forall f :: f in s.allocs ==> CallOk(s, f))
    && (forall t :: t in s.tracker ==> EntryOk(s, t))
  }

  // ---- how a step may touch the shared state ----

  /** No cloud row appears and none changes provider. */
  ghost predicate CloudKept(s: State, s': State) {
    forall n :: n in s'.rows && s'.rows[n].cloud.Some? ==> n in s.rows && s.rows[n].cloud == s'.rows[n].cloud
  }

  /** The call adds one cloud row, for a provider whose limit exceeds the count it read. */
  ghost predicate InsertsWithinLimit(w: World, s: State, s': State, f: FrameId) {
    && f in s.allocs && s.allocs[f].pc.Counted?
    && exists p: Provider :: p in w.configs && CountOf(s.allocs[f].counts, p) < w.configs[p].maxNodes
                             && s'.rows == s.rows[s.nextNode := TmpRow(p)]
  }

  ghost predicate SlotMove(s: State, s': State, f: FrameId)
    requires f in s'.allocs
  {
    var held, holds := f in s.allocs && HoldsSlot(s.allocs[f].pc), HoldsSlot(s'.allocs[f].pc);
    && (held == holds ==> s'.slots == s.slots && (held ==> s'.allocs[f].p == s.allocs[f].p))
    && (!held && holds ==> s'.allocs[f].p.Some? && Value(s.slots, s'.allocs[f].p.value) > 0
                           && s'.slots == s.slots[s'.allocs[f].p.value := Value(s.slots, s'.allocs[f].p.value) - 1])
    && (held && !holds ==> s.allocs[f].p.Some? && s'.slots == Released(s.slots, s.allocs[f].p.value))
  }

  /** What the state looks like the moment a call returns or raises. */
  ghost predicate AllOrNothing(s: State, s': State, f: FrameId) {
    f in s.allocs && f in s'.allocs &&
    var fr := s'.allocs[f];
    match fr.pc
    case Deduplicated => fr.task in s.tracker && s'.tracker == s.tracker && s'.rows == s.rows && fr.n == None
    case NoNode => fr.task !in s'.tracker && fr.n == None && (s'.rows == s.rows || fr.dirty)
    case Provisioned =>
      && fr.n.Some? && fr.persisted.Some?
      && (fr.task in s'.tracker <==> fr.task !in s'.discards) && (fr.task in s'.tracker ==> s'.tracker[fr.task] == fr.n)
      && (fr.n.value in s'.rows && s'.rows[fr.n.value].enabled <==> fr.n.value !in s'.retired)
      && (fr.n.value in s'.rows ==>
            s'.rows[fr.n.value] == NodeRow(fr.p, true, fr.n.value !in s'.retired, fr.persisted))
    case Failed =>
      && fr.task !in s'.tracker && fr.vm == None && fr.n.Some?
      && (fr.n.value in s'.rows ==> fr.dirty && Settled(s', s'.rows[fr.n.value]))
    case _ => false
  }

  /** The call f moves; other tasks' shared state is untouched. */
  ghost predicate CallMove(w: World, s: State, s': State, f: FrameId) {
    && f in s'.allocs
    && (forall g :: g in s'.allocs <==> g in s.allocs || g == f)
    && (forall g :: g in s.allocs && g != f ==> s'.allocs[g] == s.allocs[g])
    && (f in s.allocs ==> s'.allocs[f].task == s.allocs[f].task)
    && (f in s.allocs ==> Active(s.allocs[f].pc))
    && (f !in s.allocs ==> s'.allocs[f].task !in s.inProgress)
    && (s.lock == Some(f) || s.lock == s'.lock || (s.lock.None? && s'.lock == Some(f)))
    && (s.lock == Some(f) ==> s'.lock == s.lock || s'.lock.None?)
    && (CloudKept(s, s') || (s.lock == Some(f) && InsertsWithinLimit(w, s, s', f)))
    && var task := s'.allocs[f].task;
       && (forall t :: t != task ==> (t in s'.inProgress <==> t in s.inProgress))
       && (forall t :: t != task && t in s.inProgress ==> s'.inProgress[t] == s.inProgress[t])
       && (task in s'.inProgress ==> s'.inProgress[task] == f)
       && (forall t :: t != task ==> (t in s'.tracker <==> t in s.tracker))
       && (forall t :: t != task && t in s.tracker ==> s'.tracker[t] == s.tracker[t])
       && (forall t :: t != task ==> (t in s'.discards <==> t in s.discards))
       && (forall t :: t != task && t in s.entryOwner ==> t in s'.entryOwner && s'.entryOwner[t] == s.entryOwner[t])
       && (task in s'.tracker ==> EntryOk(s', task))
       && CallOk(s', f)
       && SlotMove(s, s', f)
       && (f in s.allocs && !Active(s'.allocs[f].pc) ==> AllOrNothing(s, s', f))
  }

  /** What the step of call f may rely on. */
  ghost predicate CallReady(w: World, s: State, f: FrameId) {
    f in s.allocs ==>
      CallOk(s, f) && AllocOk(w, s, f) && (s.allocs[f].task in s.tracker ==> EntryOk(s, s.allocs[f].task))
  }

  lemma CloudKeptCounts(s: State, s': State, p: Provider)
    requires CloudKept(s, s')
    ensures |CloudRows(s'.rows, p)| <= |CloudRows(s.rows, p)|
  {
    SubsetCount(CloudRows(s'.rows, p), CloudRows(s.rows, p));
  }

  lemma SubsetCount(a: set<NodeId>, b: set<NodeId>)
    requires a <= b
    ensures |a| <= |b|
  {
    assert b == a + (b - a);
  }

  lemma OtherCallKept(w: World, s: State, s': State, f: FrameId, g: FrameId)
    requires Protocol(s) && CallMove(w, s, s', f)
    requires g in s.allocs && g != f
    ensures CallOk(s', g)
  {
    assert CallOk(s, g);
    if f in s.allocs {
      assert CallOk(s, f);
    }
    var fr := s.allocs[g];
    if fr.pc.Counted? {
      forall p: Provider ensures |CloudRows(s'.rows, p)| <= CountOf(fr.counts, p) {
        CloudKeptCounts(s, s', p);
      }
    }
  }

  lemma CallMoveKeeps(w: World, s: State, s': State, f: FrameId)
    requires Protocol(s) && CallMove(w, s, s', f)
    ensures Protocol(s')
  {
    forall g | g in s'.allocs ensures CallOk(s', g) {
      if g != f {
        OtherCallKept(w, s, s', f, g);
      }
    }
    forall t | t in s'.tracker ensures EntryOk(s', t) {
      if t != s'.allocs[f].task {
        assert EntryOk(s, t);
      }
    }
  }

  /** No call moves: entries may only go when nobody in flight relies on them. */
  ghost predicate OutsideMove(s: State, s': State) {
    && s'.allocs == s.allocs && s'.lock == s.lock && s'.inProgress == s.inProgress && s'.slots == s.slots
    && s'.entryOwner == s.entryOwner
    && CloudKept(s, s')
    && (forall t :: t in s'.tracker ==> t in s.tracker && s'.tracker[t] == s.tracker[t])
    && (forall t :: t in s.discards ==> t in s'.discards)
    && (forall t :: t in s'.discards ==> t in s.discards || t !in s'.tracker)
    && (forall t :: t in s.tracker ==> t in s'.tracker || t in s'.discards)
  }

  lemma OutsideMoveKeeps(s: State, s': State)
    requires Protocol(s) && OutsideMove(s, s')
    ensures Protocol(s')
  {
    forall g | g in s'.allocs ensures CallOk(s', g) {
      assert CallOk(s, g);
      var fr := s.allocs[g];
      if fr.pc.Counted? {
        forall p: Provider ensures |CloudRows(s'.rows, p)| <= CountOf(fr.counts, p) {
          CloudKeptCounts(s, s', p);
        }
      }
    }
    forall t | t in s'.tracker ensures EntryOk(s', t) {
      assert EntryOk(s, t);
    }
  }

  /** What a reaper was given is no longer being provisioned, so discarding by node spares every firm call. */
  lemma ReaperSparesFirm(w: World, s: State, f: FrameId, g: FrameId)
    requires Structure(w, s) && Protocol(s) && f in s.reapers
    requires g in s.allocs && Firm(s.allocs[g].pc)
    ensures s.allocs[g].task in s.tracker ==> s.tracker[s.allocs[g].task] != Some(s.reapers[f].n)
  {
    assert CallOk(s, g) && AllocOk(w, s, g) && ReaperOk(s, f);
    assert s.allocs[g].task in s.tracker ==> EntryOk(s, s.allocs[g].task);
  }

  /** The choice had room in the counts that were read. */
  lemma ChoiceHasRoom(w: World, s: State, f: FrameId, platforms: seq<string>, choice: nat, s': State)
    requires Selects(w, s, f, platforms, choice)
    requires s'.rows == s.rows[s.nextNode := TmpRow(w.adapters[choice].name)]
    ensures InsertsWithinLimit(w, s, s', f)
  {
  }

  // ---- the steps, one by one ----

  lemma StartCalls(w: World, s: State, f: FrameId, task: TaskId, s': State)
    requires s.lock.Some? ==> s.lock.value in s.allocs
    requires task in s.tracker ==> EntryOk(s, task)
    requires DoStart(s, f, task) == Some(s')
    ensures CallMove(w, s, s', f)
  {
    hide CountsDominate, AllOrNothing, InsertsWithinLimit;
  }

  lemma DeduplicateCalls(w: World, s: State, f: FrameId, s': State)
    requires CallReady(w, s, f) && DoDeduplicate(s, f) == Some(s')
    ensures CallMove(w, s, s', f)
  {
    hide AllocOk;
  }

  lemma AddToTrackerCalls(w: World, s: State, f: FrameId, s': State)
    requires CallReady(w, s, f) && DoAddToTracker(s, f) == Some(s')
    ensures CallMove(w, s, s', f)
  {
    hide AllocOk;
  }

  lemma AcquireLockCalls(w: World, s: State, f: FrameId, s': State)
    requires CallReady(w, s, f) && DoAcquireLock(s, f) == Some(s')
    ensures CallMove(w, s, s', f)
  {
    hide AllocOk;
  }

  lemma FailUnderLockCalls(w: World, s: State, f: FrameId, s': State)
    requires CallReady(w, s, f) && DoFailUnderLock(s, f) == Some(s')
    ensures CallMove(w, s, s', f)
  {
    hide CountsDominate, AllocOk;
  }

  lemma ReadCountsCalls(w: World, s: State, f: FrameId, s': State)
    requires CallReady(w, s, f) && DoReadCounts(s, f) == Some(s')
    ensures CallMove(w, s, s', f)
  {
    hide AllocOk;
  }

  lemma SelectNoneCalls(w: World, s: State, f: FrameId, platforms: seq<string>, s': State)
    requires CallReady(w, s, f) && DoSelectNone(w, s, f, platforms) == Some(s')
    ensures CallMove(w, s, s', f)
  {
    hide CountsDominate, AllocOk, IsChoice, Throttled;
  }

  lemma InsertTmpCalls(w: World, s: State, f: FrameId, platforms: seq<string>, choice: nat, s': State)
    requires CallReady(w, s, f) && DoInsertTmp(w, s, f, platforms, choice) == Some(s')
    ensures CallMove(w, s, s', f)
  {
    hide CountsDominate, IsChoice, InsertsWithinLimit;
    ChoiceHasRoom(w, s, f, platforms, choice, s');
  }

  lemma InsertLostExits(w: World, s: State, f: FrameId, platforms: seq<string>, choice: nat, s': State)
    requires CallReady(w, s, f) && DoInsertLost(w, s, f, platforms, choice) == Some(s')
    ensures AllOrNothing(s, s', f)
  {
    hide CountsDominate, AllocOk, IsChoice;
  }

  lemma InsertLostCalls(w: World, s: State, f: FrameId, platforms: seq<string>, choice: nat, s': State)
    requires CallReady(w, s, f) && DoInsertLost(w, s, f, platforms, choice) == Some(s')
    ensures CallMove(w, s, s', f)
  {
    hide CountsDominate, AllocOk, IsChoice, InsertsWithinLimit, AllOrNothing;
    ChoiceHasRoom(w, s, f, platforms, choice, s');
    InsertLostExits(w, s, f, platforms, choice, s');
  }

  lemma LinkCalls(w: World, s: State, f: FrameId, s': State)
    requires CallReady(w, s, f) && DoLink(s, f) == Some(s')
    ensures CallMove(w, s, s', f)
  {
    hide AllocOk;
  }

  lemma AcquireSlotCalls(w: World, s: State, f: FrameId, s': State)
    requires CallReady(w, s, f) && DoAcquireSlot(s, f) == Some(s')
    ensures CallMove(w, s, s', f)
  {
    hide AllocOk;
  }

  lemma VmStartsCalls(w: World, s: State, f: FrameId, s': State)
    requires CallReady(w, s, f) && DoVmStarts(s, f) == Some(s')
    ensures CallMove(w, s, s', f)
  {
    hide AllocOk;
  }

  lemma CreateReturnsCalls(w: World, s: State, f: FrameId, s': State)
    requires CallReady(w, s, f) && DoCreateReturns(s, f) == Some(s')
    ensures CallMove(w, s, s', f)
  {
    hide AllocOk;
  }

  lemma CreateRaisesCalls(w: World, s: State, f: FrameId, s': State)
    requires CallReady(w, s, f) && DoCreateRaises(s, f) == Some(s')
    ensures CallMove(w, s, s', f)
  {
    hide AllocOk;
  }

  lemma CreateAbortedCalls(w: World, s: State, f: FrameId, d: Deletion, s': State)
    requires CallReady(w, s, f) && DoCreateAborted(s, f, d) == Some(s')
    ensures CallMove(w, s, s', f)
  {
    hide AllocOk;
  }

  lemma CreateAmbiguousCalls(w: World, s: State, f: FrameId, s': State)
    requires CallReady(w, s, f) && DoCreateAmbiguous(s, f) == Some(s')
    ensures CallMove(w, s, s', f)
  {
    hide AllocOk;
  }

  lemma SetupReturnsCalls(w: World, s: State, f: FrameId, s': State)
    requires CallReady(w, s, f) && DoSetupReturns(s, f) == Some(s')
    ensures CallMove(w, s, s', f)
  {
    hide AllocOk;
  }

  lemma SetupRaisesCalls(w: World, s: State, f: FrameId, s': State)
    requires CallReady(w, s, f) && DoSetupRaises(s, f) == Some(s')
    ensures CallMove(w, s, s', f)
  {
    hide AllocOk;
  }

  lemma TeardownCalls(w: World, s: State, f: FrameId, d: Deletion, s': State)
    requires CallReady(w, s, f) && DoTeardown(s, f, d) == Some(s')
    ensures CallMove(w, s, s', f)
  {
    hide AllocOk;
  }

  lemma PersistCalls(w: World, s: State, f: FrameId, s': State)
    requires CallReady(w, s, f) && DoPersist(s, f) == Some(s')
    ensures CallMove(w, s, s', f)
  {
    hide CountsDominate;
  }

  lemma ReturnCalls(w: World, s: State, f: FrameId, s': State)
    requires CallReady(w, s, f) && DoReturn(s, f) == Some(s')
    ensures CallMove(w, s, s', f)
  {
    hide CountsDominate;
  }

  lemma PersistRaisesCalls(w: World, s: State, f: FrameId, s': State)
    requires CallReady(w, s, f) && DoPersistRaises(s, f) == Some(s')
    ensures CallMove(w, s, s', f)
  {
    hide AllocOk;
  }

  lemma PersistLostCalls(w: World, s: State, f: FrameId, s': State)
    requires CallReady(w, s, f) && DoPersistLost(s, f) == Some(s')
    ensures CallMove(w, s, s', f)
  {
    hide CountsDominate;
  }

  lemma UndoDeleteCalls(w: World, s: State, f: FrameId, d: Deletion, s': State)
    requires CallReady(w, s, f) && DoUndoDelete(s, f, d) == Some(s')
    ensures CallMove(w, s, s', f)
  {
    hide AllocOk;
  }

  lemma CleanUpCalls(w: World, s: State, f: FrameId, o: Outcome, s': State)
    requires CallReady(w, s, f) && DoCleanUp(s, f, o) == Some(s')
    ensures CallMove(w, s, s', f)
  {
    hide AllocOk;
  }

  lemma DiscardEntryCalls(w: World, s: State, f: FrameId, s': State)
    requires CallReady(w, s, f) && DoDiscardEntry(s, f) == Some(s')
    ensures CallMove(w, s, s', f)
  {
    hide AllocOk;
  }

  lemma CleanUpAgainExits(w: World, s: State, f: FrameId, o: Outcome, s': State)
    requires CallReady(w, s, f) && DoCleanUpAgain(s, f, o) == Some(s')
    ensures AllOrNothing(s, s', f)
  {
    hide CountsDominate;
  }

  lemma CleanUpAgainCalls(w: World, s: State, f: FrameId, o: Outcome, s': State)
    requires CallReady(w, s, f) && DoCleanUpAgain(s, f, o) == Some(s')
    ensures CallMove(w, s, s', f)
  {
    hide CountsDominate, AllOrNothing, AllocOk, InsertsWithinLimit;
    CleanUpAgainExits(w, s, f, o, s');
  }

  lemma ReapCalls(w: World, s: State, f: FrameId, kind: ReaperKind, n: NodeId, s': State)
    requires DoReap(s, f, kind, n) == Some(s')
    ensures OutsideMove(s, s')
  {
  }

  lemma ReapAbortsCalls(w: World, s: State, f: FrameId, s': State)
    requires DoReapAborts(s, f) == Some(s')
    ensures OutsideMove(s, s')
  {
  }

  lemma ReapStaticCalls(w: World, s: State, f: FrameId, s': State)
    requires DoReapStatic(s, f) == Some(s')
    ensures OutsideMove(s, s')
  {
  }

  lemma ReapDisableCalls(w: World, s: State, f: FrameId, s': State)
    requires DoReapDisable(s, f) == Some(s')
    ensures OutsideMove(s, s')
  {
  }

  lemma ReapNoDeleteCalls(w: World, s: State, f: FrameId, s': State)
    requires DoReapNoDelete(w, s, f) == Some(s')
    ensures OutsideMove(s, s')
  {
  }

  lemma ReapDeleteCalls(w: World, s: State, f: FrameId, s': State)
    requires DoReapDelete(w, s, f) == Some(s')
    ensures OutsideMove(s, s')
  {
  }

  lemma ReapDeleteRaisesCalls(w: World, s: State, f: FrameId, gone: bool, s': State)
    requires DoReapDeleteRaises(w, s, f, gone) == Some(s')
    ensures OutsideMove(s, s')
  {
  }

  lemma ReapRemoveCalls(w: World, s: State, f: FrameId, o: Outcome, s': State)
    requires DoReapRemove(s, f, o) == Some(s')
    ensures OutsideMove(s, s')
  {
  }

  lemma OtherDiscardCalls(w: World, s: State, task: TaskId, s': State)
    requires Protocol(s) && DoOtherDiscard(s, task) == Some(s')
    ensures OutsideMove(s, s')
  {
  }

  lemma DisableCalls(w: World, s: State, n: NodeId, s': State)
    requires DoDisable(s, n) == Some(s')
    ensures OutsideMove(s, s')
  {
  }

  lemma CliAddCalls(w: World, s: State, s': State)
    requires DoCliAdd(s) == Some(s')
    ensures OutsideMove(s, s')
  {
  }

  lemma CliEnableCalls(w: World, s: State, n: NodeId, s': State)
    requires DoCliEnable(s, n) == Some(s')
    ensures OutsideMove(s, s')
  {
  }

  lemma CliRemoveCalls(w: World, s: State, n: NodeId, s': State)
    requires DoCliRemove(s, n) == Some(s')
    ensures OutsideMove(s, s')
  {
  }

  lemma VmVanishCalls(w: World, s: State, v: VmId, s': State)
    requires DoVmVanish(s, v) == Some(s')
    ensures OutsideMove(s, s')
  {
  }
}
