/** The whole-run theorems about provisioning: accounting, capacity, exits, exclusion and slots. */
module ProvisioningTheorems {
  import opened Prelude
  import opened ProviderSelection
  import opened Provisioning
  import opened ProvisioningSafety
  import opened ProvisioningProtocol
  import T = Tracking

  // ---- every step is one of the two kinds of move ----

  function ReaperOf(step: Step): Option<FrameId> {
    match step
    case Reap(f, _, _) => Some(f)
    case ReapAborts(f) => Some(f)
    case ReapStatic(f) => Some(f)
    case ReapDisable(f) => Some(f)
    case ReapNoDelete(f) => Some(f)
    case ReapDelete(f) => Some(f)
    case ReapDeleteRaises(f, _) => Some(f)
    case ReapRemove(f, _) => Some(f)
    case _ => None
  }

  lemma StartReady(s: State, task: TaskId)
    requires Protocol(s)
    ensures s.lock.Some? ==> s.lock.value in s.allocs
    ensures task in s.tracker ==> EntryOk(s, task)
  {
    hide CallOk, EntryOk;
  }

  lemma LockStepMoves(w: World, s: State, step: Step, s': State)
    requires Structure(w, s) && Protocol(s) && PhaseOf(step) == Locking && Next(w, s, step) == Some(s')
    requires MoveReady(w, s, step.f) && CallReady(w, s, step.f)
    ensures AllocMove(w, s, s', step.f) && CallMove(w, s, s', step.f)
  {
    hide Structure, Protocol, RowsOk, MoveReady, CallReady, AllocMove, CallMove, AllOrNothing;
    hide VmNext, FinishNext, OutsideNext, DoStart, DoDeduplicate, DoAddToTracker, DoAcquireLock,
         DoFailUnderLock, DoReadCounts, DoSelectNone;
    match step
    case Start(f, task) => StartReady(s, task); StartMoves(w, s, f, task, s'); StartCalls(w, s, f, task, s');
    case Deduplicate(f) => DeduplicateMoves(w, s, f, s'); DeduplicateCalls(w, s, f, s');
    case AddToTracker(f) => AddToTrackerMoves(w, s, f, s'); AddToTrackerCalls(w, s, f, s');
    case AcquireLock(f) => AcquireLockMoves(w, s, f, s'); AcquireLockCalls(w, s, f, s');
    case FailUnderLock(f) => FailUnderLockMoves(w, s, f, s'); FailUnderLockCalls(w, s, f, s');
    case ReadCounts(f) => ReadCountsMoves(w, s, f, s'); ReadCountsCalls(w, s, f, s');
    case SelectNone(f, platforms) =>
      SelectNoneMoves(w, s, f, platforms, s');
      SelectNoneCalls(w, s, f, platforms, s');
  }

  lemma VmStepMoves(w: World, s: State, step: Step, s': State)
    requires Structure(w, s) && Protocol(s) && PhaseOf(step) == Creation && Next(w, s, step) == Some(s')
    requires MoveReady(w, s, step.f) && CallReady(w, s, step.f)
    ensures AllocMove(w, s, s', step.f) && CallMove(w, s, s', step.f)
  {
    hide Structure, Protocol, RowsOk, MoveReady, CallReady, AllocMove, CallMove, AllOrNothing;
    hide LockNext, FinishNext, OutsideNext, DoInsertTmp, DoInsertLost, DoLink, DoAcquireSlot, DoVmStarts,
         DoCreateReturns, DoCreateRaises, DoCreateAborted, DoCreateAmbiguous;
    match step
    case InsertTmp(f, platforms, choice) =>
      InsertTmpMoves(w, s, f, platforms, choice, s');
      InsertTmpCalls(w, s, f, platforms, choice, s');
    case InsertLost(f, platforms, choice) =>
      InsertLostMoves(w, s, f, platforms, choice, s');
      InsertLostCalls(w, s, f, platforms, choice, s');
    case Link(f) => LinkMoves(w, s, f, s'); LinkCalls(w, s, f, s');
    case AcquireSlot(f) => AcquireSlotMoves(w, s, f, s'); AcquireSlotCalls(w, s, f, s');
    case VmStarts(f) => VmStartsMoves(w, s, f, s'); VmStartsCalls(w, s, f, s');
    case CreateReturns(f) => CreateReturnsMoves(w, s, f, s'); CreateReturnsCalls(w, s, f, s');
    case CreateRaises(f) => CreateRaisesMoves(w, s, f, s'); CreateRaisesCalls(w, s, f, s');
    case CreateAborted(f, d) => CreateAbortedMoves(w, s, f, d, s'); CreateAbortedCalls(w, s, f, d, s');
    case CreateAmbiguous(f) => CreateAmbiguousMoves(w, s, f, s'); CreateAmbiguousCalls(w, s, f, s');
  }

  lemma EndStepMoves(w: World, s: State, step: Step, s': State)
    requires Structure(w, s) && Protocol(s) && PhaseOf(step) == Ending && Next(w, s, step) == Some(s')
    requires MoveReady(w, s, step.f) && CallReady(w, s, step.f)
    ensures AllocMove(w, s, s', step.f) && CallMove(w, s, s', step.f)
  {
    hide Structure, Protocol, RowsOk, MoveReady, CallReady, AllocMove, CallMove, AllOrNothing;
    hide LockNext, VmNext, OutsideNext, DoSetupReturns, DoSetupRaises, DoTeardown, DoPersist, DoReturn,
         DoPersistRaises, DoPersistLost, DoUndoDelete, DoCleanUp, DoDiscardEntry, DoCleanUpAgain;
    match step
    case SetupReturns(f) => SetupReturnsMoves(w, s, f, s'); SetupReturnsCalls(w, s, f, s');
    case SetupRaises(f) => SetupRaisesMoves(w, s, f, s'); SetupRaisesCalls(w, s, f, s');
    case Teardown(f, d) => TeardownMoves(w, s, f, d, s'); TeardownCalls(w, s, f, d, s');
    case Persist(f) => PersistMoves(w, s, f, s'); PersistCalls(w, s, f, s');
    case Return(f) => ReturnMoves(w, s, f, s'); ReturnCalls(w, s, f, s');
    case PersistRaises(f) => PersistRaisesMoves(w, s, f, s'); PersistRaisesCalls(w, s, f, s');
    case PersistLost(f) => PersistLostMoves(w, s, f, s'); PersistLostCalls(w, s, f, s');
    case UndoDelete(f, d) => UndoDeleteMoves(w, s, f, d, s'); UndoDeleteCalls(w, s, f, d, s');
    case CleanUp(f, o) => CleanUpMoves(w, s, f, o, s'); CleanUpCalls(w, s, f, o, s');
    case DiscardEntry(f) => DiscardEntryMoves(w, s, f, s'); DiscardEntryCalls(w, s, f, s');
    case CleanUpAgain(f, o) => CleanUpAgainMoves(w, s, f, o, s'); CleanUpAgainCalls(w, s, f, o, s');
  }

  lemma CallStepMoves(w: World, s: State, step: Step, s': State)
    requires Structure(w, s) && Protocol(s) && PhaseOf(step) != Outside && Next(w, s, step) == Some(s')
    requires MoveReady(w, s, step.f) && CallReady(w, s, step.f)
    ensures AllocMove(w, s, s', step.f) && CallMove(w, s, s', step.f)
  {
    hide Next, Structure, Protocol, RowsOk, MoveReady, CallReady, AllocMove, CallMove, AllOrNothing, PhaseOf;
    match PhaseOf(step)
    case Locking => LockStepMoves(w, s, step, s');
    case Creation => VmStepMoves(w, s, step, s');
    case Ending => EndStepMoves(w, s, step, s');
  }

  lemma OutsideStepMoves(w: World, s: State, step: Step, s': State)
    requires Structure(w, s) && Protocol(s) && PhaseOf(step) == Outside && Next(w, s, step) == Some(s')
    requires RowsOk(s) && (ReaperOf(step).Some? ==> MoveReady(w, s, ReaperOf(step).value))
    ensures OtherMove(w, s, s', ReaperOf(step)) && OutsideMove(s, s')
  {
    hide Structure, Protocol, RowsOk, MoveReady, OtherMove, OutsideMove;
    hide LockNext, VmNext, FinishNext, DoReap, DoReapAborts, DoReapStatic, DoReapDisable, DoReapNoDelete,
         DoReapDelete, DoReapDeleteRaises, DoReapRemove, DoOtherDiscard, DoDisable, DoCliAdd, DoCliEnable,
         DoCliRemove, DoVmVanish;
    match step
    case Reap(f, kind, n) => ReapMoves(w, s, f, kind, n, s'); ReapCalls(w, s, f, kind, n, s');
    case ReapAborts(f) => ReapAbortsMoves(w, s, f, s'); ReapAbortsCalls(w, s, f, s');
    case ReapStatic(f) => ReapStaticMoves(w, s, f, s'); ReapStaticCalls(w, s, f, s');
    case ReapDisable(f) => ReapDisableMoves(w, s, f, s'); ReapDisableCalls(w, s, f, s');
    case ReapNoDelete(f) => ReapNoDeleteMoves(w, s, f, s'); ReapNoDeleteCalls(w, s, f, s');
    case ReapDelete(f) => ReapDeleteMoves(w, s, f, s'); ReapDeleteCalls(w, s, f, s');
    case ReapDeleteRaises(f, gone) =>
      ReapDeleteRaisesMoves(w, s, f, gone, s');
      ReapDeleteRaisesCalls(w, s, f, gone, s');
    case ReapRemove(f, o) => ReapRemoveMoves(w, s, f, o, s'); ReapRemoveCalls(w, s, f, o, s');
    case OtherDiscard(task) => OtherDiscardMoves(w, s, task, s'); OtherDiscardCalls(w, s, task, s');
    case Disable(n) => DisableMoves(w, s, n, s'); DisableCalls(w, s, n, s');
    case CliAdd => CliAddMoves(w, s, s'); CliAddCalls(w, s, s');
    case CliEnable(n) => CliEnableMoves(w, s, n, s'); CliEnableCalls(w, s, n, s');
    case CliRemove(n) => CliRemoveMoves(w, s, n, s'); CliRemoveCalls(w, s, n, s');
    case VmVanish(v) => VmVanishMoves(w, s, v, s'); VmVanishCalls(w, s, v, s');
  }

  // ---- the inductive invariant ----

  ghost predicate Holds(s: State, f: FrameId, p: Provider) {
    f in s.allocs && HoldsSlot(s.allocs[f].pc) && s.allocs[f].p == Some(p)
  }

  /** The calls that hold one of p's operation slots. */
  ghost function Holders(s: State, p: Provider): set<FrameId> {
    set f | f in s.allocs && Holds(s, f, p)
  }

  function Limit(w: World, p: Provider): nat {
    if p in w.opLimit then w.opLimit[p] else 0
  }

  /** Every slot is free or held, and the semaphore never goes below zero. */
  ghost predicate SlotsOk(w: World, s: State) {
    forall p: Provider :: 0 <= Value(s.slots, p) && Value(s.slots, p) + |Holders(s, p)| == Limit(w, p)
  }

  function Capacity(w: World, p: Provider): int {
    if p in w.configs then w.configs[p].maxNodes else 0
  }

  ghost predicate Invariant(w: World, s: State) {
    Structure(w, s) && Protocol(s) && SlotsOk(w, s)
  }

  lemma Ready(w: World, s: State, f: FrameId)
    requires Structure(w, s) && Protocol(s)
    ensures RowsOk(s) && MoveReady(w, s, f) && CallReady(w, s, f)
  {
    if f in s.allocs {
      assert AllocOk(w, s, f) && CallOk(s, f);
    }
  }

  lemma CountWithout(a: set<FrameId>, b: set<FrameId>, f: FrameId)
    requires a - {f} == b - {f}
    ensures |a| - (if f in a then 1 else 0) == |b| - (if f in b then 1 else 0)
  {
    var others := a - {f};
    assert a == if f in a then others + {f} else others;
    assert b == if f in b then others + {f} else others;
  }

  lemma HoldersCount(s: State, s': State, f: FrameId, p: Provider)
    requires forall g :: g in s'.allocs <==> g in s.allocs || g == f
    requires forall g :: g in s.allocs && g != f ==> s'.allocs[g] == s.allocs[g]
    ensures |Holders(s', p)| - (if Holds(s', f, p) then 1 else 0) == |Holders(s, p)| - (if Holds(s, f, p) then 1 else 0)
  {
    forall g | g != f ensures g in Holders(s', p) <==> g in Holders(s, p) {
      assert Holds(s', g, p) == Holds(s, g, p);
    }
    hide Holds;
    CountWithout(Holders(s', p), Holders(s, p), f);
  }

  lemma HoldersMove(s: State, s': State, f: FrameId, p: Provider)
    requires forall g :: g in s'.allocs <==> g in s.allocs || g == f
    requires forall g :: g in s.allocs && g != f ==> s'.allocs[g] == s.allocs[g]
    requires f in s.allocs && HoldsSlot(s.allocs[f].pc) ==> s.allocs[f].p.Some?
    requires HoldsSlot(s'.allocs[f].pc) ==> s'.allocs[f].p.Some?
    requires SlotMove(s, s', f)
    ensures Value(s'.slots, p) + |Holders(s', p)| == Value(s.slots, p) + |Holders(s, p)|
    ensures 0 <= Value(s.slots, p) ==> 0 <= Value(s'.slots, p)
  {
    HoldersCount(s, s', f, p);
    hide Holders;
  }

  lemma CallStepKeeps(w: World, s: State, s': State, f: FrameId)
    requires Invariant(w, s) && AllocMove(w, s, s', f) && CallMove(w, s, s', f)
    ensures Invariant(w, s') && (Accounting(w, s) ==> Accounting(w, s'))
  {
    AllocMoveKeeps(w, s, s', f);
    CallMoveKeeps(w, s, s', f);
    if Accounting(w, s) {
      AccountingAfterAllocMove(w, s, s', f);
    }
    assert f in s.allocs ==> CallOk(s, f);
    assert CallOk(s', f);
    assert SlotsOk(w, s') by {
      forall p: Provider ensures 0 <= Value(s'.slots, p) && Value(s'.slots, p) + |Holders(s', p)| == Limit(w, p) {
        HoldersMove(s, s', f, p);
      }
    }
  }

  lemma SlotsOkStays(w: World, s: State, s': State)
    requires SlotsOk(w, s) && s'.allocs == s.allocs && s'.slots == s.slots
    ensures SlotsOk(w, s')
  {
    forall p: Provider ensures 0 <= Value(s'.slots, p) && Value(s'.slots, p) + |Holders(s', p)| == Limit(w, p) {
      assert Holders(s', p) == Holders(s, p);
    }
  }

  lemma OutsideStepKeeps(w: World, s: State, s': State, f: Option<FrameId>)
    requires Invariant(w, s) && OtherMove(w, s, s', f) && OutsideMove(s, s')
    ensures Invariant(w, s') && (Accounting(w, s) ==> Accounting(w, s'))
  {
    SlotsOkStays(w, s, s');
    hide Structure, Protocol, Accounting, SlotsOk, OtherMove, OutsideMove;
    OtherMoveKeeps(w, s, s', f);
    OutsideMoveKeeps(s, s');
    if Accounting(w, s) {
      AccountingAfterOtherMove(w, s, s', f);
    }
  }

  /** The bound covers both the provider's limit and its committed rows. */
  ghost predicate WithinBound(w: World, s: State, p: Provider, bound: nat) {
    |CloudRows(s.rows, p)| <= bound && Capacity(w, p) <= bound
  }

  /** The count read under the lock still covers the table, and the choice needed room in it. */
  lemma InsertCapacity(w: World, s: State, s': State, f: FrameId, p: Provider, bound: nat)
    requires f in s.allocs && CallOk(s, f) && InsertsWithinLimit(w, s, s', f) && WithinBound(w, s, p, bound)
    ensures WithinBound(w, s', p, bound)
  {
    var q: Provider :| q in w.configs && CountOf(s.allocs[f].counts, q) < w.configs[q].maxNodes
                       && s'.rows == s.rows[s.nextNode := TmpRow(q)];
    assert |CloudRows(s.rows, q)| <= CountOf(s.allocs[f].counts, q);
    hide CallOk;
    SubsetCount(CloudRows(s'.rows, p), CloudRows(s.rows, p) + if p == q then {s.nextNode} else {});
  }

  lemma CallStepCapacity(w: World, s: State, s': State, f: FrameId, p: Provider, bound: nat)
    requires Protocol(s) && CallMove(w, s, s', f) && WithinBound(w, s, p, bound)
    ensures WithinBound(w, s', p, bound)
  {
    hide CallOk, EntryOk, SlotMove, AllOrNothing;
    if CloudKept(s, s') {
      CloudKeptCounts(s, s', p);
    } else {
      InsertCapacity(w, s, s', f, p, bound);
    }
  }

  lemma OutsideStepCapacity(s: State, s': State, p: Provider)
    requires OutsideMove(s, s')
    ensures |CloudRows(s'.rows, p)| <= |CloudRows(s.rows, p)|
  {
    CloudKeptCounts(s, s', p);
  }

  lemma StepKeeps(w: World, s: State, step: Step, s': State)
    requires Invariant(w, s) && Next(w, s, step) == Some(s')
    ensures Invariant(w, s') && (Accounting(w, s) ==> Accounting(w, s'))
    ensures forall p: Provider, bound: nat :: WithinBound(w, s, p, bound) ==> WithinBound(w, s', p, bound)
  {
    hide Next, Structure, Protocol, RowsOk, Accounting, SlotsOk, AllocMove, CallMove, OtherMove, OutsideMove, MoveReady,
         CallReady;
    if PhaseOf(step) == Outside {
      Ready(w, s, if ReaperOf(step).Some? then ReaperOf(step).value else 0);
      OutsideStepMoves(w, s, step, s');
      OutsideStepKeeps(w, s, s', ReaperOf(step));
      forall p: Provider, bound: nat | WithinBound(w, s, p, bound) ensures WithinBound(w, s', p, bound) {
        OutsideStepCapacity(s, s', p);
      }
    } else {
      Ready(w, s, step.f);
      CallStepMoves(w, s, step, s');
      CallStepKeeps(w, s, s', step.f);
      forall p: Provider, bound: nat | WithinBound(w, s, p, bound) ensures WithinBound(w, s', p, bound) {
        CallStepCapacity(w, s, s', step.f, p, bound);
      }
    }
  }

  lemma {:induction false} RunKeeps(w: World, s: State, steps: seq<Step>, s': State)
    requires Invariant(w, s) && Run(w, s, steps) == Some(s')
    ensures Invariant(w, s') && (Accounting(w, s) ==> Accounting(w, s'))
    ensures forall p: Provider, bound: nat :: WithinBound(w, s, p, bound) ==> WithinBound(w, s', p, bound)
    decreases |steps|
  {
    hide Invariant, Accounting, Next, WithinBound;
    if steps != [] {
      var middle := Next(w, s, steps[0]).value;
      StepKeeps(w, s, steps[0], middle);
      RunKeeps(w, middle, steps[1..], s');
    }
  }

  // ---- initial states and runs ----

  /** A freshly started daemon: no call in flight, and every id in use has been issued. */
  ghost predicate Started(w: World, s: State) {
    && s.allocs == map[] && s.reapers == map[] && s.inProgress == map[] && s.lock == None
    && s.tracker == map[] && s.rowOwner == map[] && s.entryOwner == map[]
    && (forall p: Provider :: Value(s.slots, p) == Limit(w, p))
    && (forall v :: v in s.vms ==> v < s.nextVm)
    && (forall n :: n in s.rows ==> n < s.nextNode)
    && (forall n :: n in s.rows && s.rows[n].externalId.Some? ==> s.rows[n].externalId.value < s.nextVm)
  }

  /** Every billing VM is named by a row or reported; rows that name a VM have a hostname and name different VMs. */
  ghost predicate OrderlyBooks(s: State) {
    && Accounted(s)
    && (forall n :: n in s.rows && s.rows[n].externalId.Some? ==> s.rows[n].named)
    && (forall n :: n in s.rows && s.rows[n].externalId.Some? ==> s.rows[n].externalId.value !in s.labels)
    && (forall m, n :: m in s.rows && n in s.rows && s.rows[m].externalId.Some? && m != n ==>
          s.rows[m].externalId != s.rows[n].externalId)
  }

  /** Every row naming a VM that still bills belongs to a provider with an adapter and a config. */
  ghost predicate AdaptersCover(w: World, s: State) {
    forall n :: n in s.rows && !Settled(s, s.rows[n]) ==>
      s.rows[n].cloud.Some? && HasAdapter(w, s.rows[n].cloud.value)
  }

  lemma StartedInvariant(w: World, s: State)
    requires Started(w, s)
    ensures Invariant(w, s)
    ensures Accounted(s) && AdaptersCover(w, s) ==> Accounting(w, s)
  {
    assert forall p: Provider :: Holders(s, p) == {};
  }

  // ---- the theorems ----

  /** No silent VM orphan, in any run of any number of calls with any failures. */
  lemma NoSilentOrphan(w: World, s: State, steps: seq<Step>, s': State)
    requires Started(w, s) && Accounted(s) && AdaptersCover(w, s) && Run(w, s, steps) == Some(s')
    ensures Accounted(s')
  {
    StartedInvariant(w, s);
    RunKeeps(w, s, steps, s');
  }

  lemma RunCons(w: World, s: State, step: Step, middle: State, rest: seq<Step>, s': State)
    requires Next(w, s, step) == Some(middle) && Run(w, middle, rest) == Some(s')
    ensures Run(w, s, [step] + rest) == Some(s')
  {
    hide Next;
    assert ([step] + rest)[1..] == rest;
  }

  lemma RunOfFour(w: World, s: State, s1: State, s2: State, s3: State, s4: State, steps: seq<Step>)
    requires |steps| == 4
    requires Next(w, s, steps[0]) == Some(s1) && Next(w, s1, steps[1]) == Some(s2)
    requires Next(w, s2, steps[2]) == Some(s3) && Next(w, s3, steps[3]) == Some(s4)
    ensures Run(w, s, steps) == Some(s4)
  {
    hide Next;
    assert Run(w, s4, steps[4..]) == Some(s4);
    assert steps[3..][1..] == steps[4..] && Run(w, s3, steps[3..]) == Some(s4);
    assert steps[2..][1..] == steps[3..] && Run(w, s2, steps[2..]) == Some(s4);
    assert steps[1..][1..] == steps[2..] && Run(w, s1, steps[1..]) == Some(s4);
  }

  /** The row is gone, its VM is not. */
  ghost predicate RowDropped(s: State, s': State, n: NodeId) {
    && s'.vms == s.vms && s'.leaks == s.leaks && s'.labels == s.labels && s'.allocs == s.allocs
    && forall m :: m in s'.rows ==> m in s.rows && m != n && s'.rows[m].externalId == s.rows[m].externalId
  }

  /** The node is disabled and a deallocator takes it up. */
  lemma TakeUp(s: State, n: NodeId) returns (s1: State, s2: State)
    requires s.reapers == map[] && n in s.rows && s.rows[n].named
    ensures DoDisable(s, n) == Some(s1) && DoReap(s1, 0, Deallocator, n) == Some(s2)
    ensures s2 == ToReaper(Disabled(s, n), 0, Reaper(Disabling, Deallocator, n, s.rows[n].(enabled := false)))
  {
    s1 := DoDisable(s, n).value;
    s2 := DoReap(s1, 0, Deallocator, n).value;
  }

  /** The row is removed after whatever clouds.deallocate did. */
  lemma RemoveTaken(s: State, before: State, n: NodeId) returns (s': State)
    requires ReaperAt(s, 0, Removing) && s.reapers[0].kind == Deallocator && s.reapers[0].n == n
    requires s == before.(rows := s.rows, retired := s.retired, reapers := s.reapers)
    requires forall m :: m in s.rows ==> m in before.rows && s.rows[m].externalId == before.rows[m].externalId
    ensures DoReapRemove(s, 0, Commits) == Some(s') && RowDropped(before, s', n)
  {
    s' := DoReapRemove(s, 0, Commits).value;
  }

  /** A row without provider: the deallocator goes straight to the removal. */
  lemma DropStatic(w: World, s: State, n: NodeId) returns (s1: State, s2: State, s3: State, s4: State)
    requires s.reapers == map[] && n in s.rows && s.rows[n].named && s.rows[n].cloud.None?
    ensures DoDisable(s, n) == Some(s1) && DoReap(s1, 0, Deallocator, n) == Some(s2)
    ensures DoReapStatic(s2, 0) == Some(s3) && DoReapRemove(s3, 0, Commits) == Some(s4) && RowDropped(s, s4, n)
  {
    hide DoDisable, DoReap, DoReapRemove, RowDropped;
    s1, s2 := TakeUp(s, n);
    s3 := DoReapStatic(s2, 0).value;
    s4 := RemoveTaken(s3, s, n);
  }

  /** A cloud row for which clouds.deallocate finds no adapter or config. */
  lemma DropUncovered(w: World, s: State, n: NodeId)
    returns (s1: State, s2: State, s3: State, s4: State, s5: State)
    requires s.reapers == map[] && n in s.rows && s.rows[n].named
    requires s.rows[n].cloud.Some? && !HasAdapter(w, s.rows[n].cloud.value)
    ensures DoDisable(s, n) == Some(s1) && DoReap(s1, 0, Deallocator, n) == Some(s2)
    ensures DoReapDisable(s2, 0) == Some(s3) && DoReapNoDelete(w, s3, 0) == Some(s4)
    ensures DoReapRemove(s4, 0, Commits) == Some(s5) && RowDropped(s, s5, n)
  {
    hide DoDisable, DoReap, DoReapRemove, RowDropped, HasAdapter;
    s1, s2 := TakeUp(s, n);
    s3 := DoReapDisable(s2, 0).value;
    s4 := DoReapNoDelete(w, s3, 0).value;
    s5 := RemoveTaken(s4, s, n);
  }

  lemma ReapNext(w: World, s: State, n: NodeId)
    ensures Next(w, s, Disable(n)) == DoDisable(s, n)
    ensures Next(w, s, Reap(0, Deallocator, n)) == DoReap(s, 0, Deallocator, n)
    ensures Next(w, s, ReapStatic(0)) == DoReapStatic(s, 0) && Next(w, s, ReapDisable(0)) == DoReapDisable(s, 0)
    ensures Next(w, s, ReapNoDelete(0)) == DoReapNoDelete(w, s, 0)
    ensures Next(w, s, ReapRemove(0, Commits)) == DoReapRemove(s, 0, Commits)
  {
    hide DoReap, DoReapAborts, DoReapStatic, DoReapDisable, DoReapNoDelete, DoReapDelete, DoReapDeleteRaises,
         DoReapRemove, DoOtherDiscard, DoDisable, DoCliAdd, DoCliEnable, DoCliRemove, DoVmVanish, LockNext, VmNext,
         FinishNext;
  }

  lemma StaticRowDrops(w: World, s: State, n: NodeId) returns (steps: seq<Step>, s': State)
    requires s.reapers == map[] && n in s.rows && s.rows[n].named && s.rows[n].cloud.None?
    ensures Run(w, s, steps) == Some(s') && RowDropped(s, s', n)
  {
    hide DoDisable, DoReap, DoReapStatic, DoReapDisable, DoReapNoDelete, DoReapRemove, Next, Run, RowDropped;
    var s1, s2, s3;
    s1, s2, s3, s' := DropStatic(w, s, n);
    ReapNext(w, s, n);
    ReapNext(w, s1, n);
    ReapNext(w, s2, n);
    ReapNext(w, s3, n);
    steps := [Disable(n), Reap(0, Deallocator, n), ReapStatic(0), ReapRemove(0, Commits)];
    assert Next(w, s, steps[0]) == Some(s1) && Next(w, s1, steps[1]) == Some(s2);
    assert Next(w, s2, steps[2]) == Some(s3) && Next(w, s3, steps[3]) == Some(s');
    RunOfFour(w, s, s1, s2, s3, s', steps);
  }

  lemma UncoveredRowDrops(w: World, s: State, n: NodeId) returns (steps: seq<Step>, s': State)
    requires s.reapers == map[] && n in s.rows && s.rows[n].named
    requires s.rows[n].cloud.Some? && !HasAdapter(w, s.rows[n].cloud.value)
    ensures Run(w, s, steps) == Some(s') && RowDropped(s, s', n)
  {
    hide DoDisable, DoReap, DoReapStatic, DoReapDisable, DoReapNoDelete, DoReapRemove, HasAdapter, Next, Run,
         RowDropped;
    var s1, s2, s3, s4;
    s1, s2, s3, s4, s' := DropUncovered(w, s, n);
    ReapNext(w, s, n);
    ReapNext(w, s1, n);
    ReapNext(w, s2, n);
    ReapNext(w, s3, n);
    ReapNext(w, s4, n);
    var rest := [Reap(0, Deallocator, n), ReapDisable(0), ReapNoDelete(0), ReapRemove(0, Commits)];
    assert Next(w, s1, rest[0]) == Some(s2) && Next(w, s2, rest[1]) == Some(s3);
    assert Next(w, s3, rest[2]) == Some(s4) && Next(w, s4, rest[3]) == Some(s');
    RunOfFour(w, s1, s2, s3, s4, s', rest);
    RunCons(w, s, Disable(n), s1, rest, s');
    steps := [Disable(n)] + rest;
  }

  /** Without provider, adapter or config nothing is deleted and the row is removed all the same. */
  lemma UncoveredRowOrphans(w: World, s: State, n: NodeId) returns (steps: seq<Step>, s': State)
    requires Started(w, s) && OrderlyBooks(s) && n in s.rows && !Settled(s, s.rows[n])
    requires s.rows[n].cloud.None? || !HasAdapter(w, s.rows[n].cloud.value)
    ensures Run(w, s, steps) == Some(s') && !Accounted(s')
  {
    if s.rows[n].cloud.None? {
      steps, s' := StaticRowDrops(w, s, n);
    } else {
      steps, s' := UncoveredRowDrops(w, s, n);
    }
    hide Run;
    var v := s.rows[n].externalId.value;
    assert v in s'.vms && v !in s'.leaks && v !in s'.labels && !HeldInFlight(s', v) && !NamedByRow(s', v);
  }

  /** The exact condition: no run orphans a VM silently if and only if every billing row has its adapter and config. */
  lemma NoSilentOrphanIff(w: World, s: State)
    requires Started(w, s) && OrderlyBooks(s)
    ensures (forall steps, s' :: Run(w, s, steps) == Some(s') ==> Accounted(s')) <==> AdaptersCover(w, s)
  {
    if AdaptersCover(w, s) {
      forall steps, s' | Run(w, s, steps) == Some(s') ensures Accounted(s') {
        NoSilentOrphan(w, s, steps, s');
      }
    } else {
      var n :| n in s.rows && !Settled(s, s.rows[n])
               && (s.rows[n].cloud.None? || !HasAdapter(w, s.rows[n].cloud.value));
      var steps, s' := UncoveredRowOrphans(w, s, n);
    }
  }

  /** Committed rows of a provider never exceed its max_nodes, or the count the daemon started with. */
  lemma CapacityHolds(w: World, s: State, steps: seq<Step>, s': State, p: Provider, bound: nat)
    requires Started(w, s) && Run(w, s, steps) == Some(s')
    requires |CloudRows(s.rows, p)| <= bound && Capacity(w, p) <= bound
    ensures |CloudRows(s'.rows, p)| <= bound
  {
    hide Started, Run, Invariant;
    assert WithinBound(w, s, p, bound);
    StartedInvariant(w, s);
    RunKeeps(w, s, steps, s');
  }

  /** Creating, setting up and tearing down VMs of one provider never overlap more often than its op_limit. */
  lemma OperationsWithinLimit(w: World, s: State, steps: seq<Step>, s': State, p: Provider)
    requires Started(w, s) && Run(w, s, steps) == Some(s')
    ensures |Holders(s', p)| <= Limit(w, p)
    ensures Value(s'.slots, p) == Limit(w, p) - |Holders(s', p)|
  {
    StartedInvariant(w, s);
    RunKeeps(w, s, steps, s');
  }

  /** Per task at most one call is between tracker.add and discard, and none while an earlier provisioning
      still holds the entry; at most one call is inside the critical section. */
  lemma OneProvisioningPerTask(w: World, s: State, steps: seq<Step>, s': State, f: FrameId, g: FrameId)
    requires Started(w, s) && Run(w, s, steps) == Some(s')
    requires f in s'.allocs && g in s'.allocs
    ensures InSection(s'.allocs[f].pc) && InSection(s'.allocs[g].pc) && s'.allocs[f].task == s'.allocs[g].task ==>
              f == g
    ensures var task := s'.allocs[f].task;
            InSection(s'.allocs[f].pc) && task in s'.tracker ==> task in s'.entryOwner && s'.entryOwner[task] == f
    ensures HoldsLock(s'.allocs[f].pc) && HoldsLock(s'.allocs[g].pc) ==> f == g
  {
    StartedInvariant(w, s);
    RunKeeps(w, s, steps, s');
    assert CallOk(s', f) && CallOk(s', g);
  }

  ghost predicate Exits(s: State, s': State, f: FrameId) {
    f in s.allocs && f in s'.allocs && Active(s.allocs[f].pc) && !Active(s'.allocs[f].pc)
  }

  lemma CallMoveExits(w: World, s: State, s': State, f: FrameId)
    requires CallMove(w, s, s', f)
    ensures forall g :: Exits(s, s', g) ==> AllOrNothing(s, s', g)
  {
    hide CallOk, EntryOk, SlotMove, AllOrNothing, CloudKept, InsertsWithinLimit;
  }

  lemma OutsideMoveExits(s: State, s': State)
    requires OutsideMove(s, s')
    ensures forall g :: !Exits(s, s', g)
  {
  }

  lemma StepExits(w: World, s: State, step: Step, s': State)
    requires Invariant(w, s) && Next(w, s, step) == Some(s')
    ensures forall f :: Exits(s, s', f) ==> AllOrNothing(s, s', f)
  {
    hide Next, Structure, Protocol, RowsOk, Accounting, SlotsOk, AllocMove, CallMove, OtherMove, OutsideMove, MoveReady,
         CallReady, AllOrNothing, Exits;
    if PhaseOf(step) == Outside {
      Ready(w, s, if ReaperOf(step).Some? then ReaperOf(step).value else 0);
      OutsideStepMoves(w, s, step, s');
      OutsideMoveExits(s, s');
    } else {
      Ready(w, s, step.f);
      CallStepMoves(w, s, step, s');
      CallMoveExits(w, s, s', step.f);
    }
  }

  /** In every run, every exit of allocate_task is all-or-nothing. */
  lemma ExitsAreAllOrNothing(w: World, s: State, steps: seq<Step>, s': State, step: Step, s'': State)
    requires Started(w, s) && Run(w, s, steps) == Some(s') && Next(w, s', step) == Some(s'')
    ensures forall f :: Exits(s', s'', f) ==> AllOrNothing(s', s'', f)
  {
    StartedInvariant(w, s);
    RunKeeps(w, s, steps, s');
    StepExits(w, s', step, s'');
  }

  /** A VM is deleted by a deallocator or abandoner only while its row, if it still exists, is disabled and names it. */
  lemma OnlyDisabledRowsLoseTheirVm(w: World, s: State, steps: seq<Step>, s': State, f: FrameId)
    requires Started(w, s) && Run(w, s, steps) == Some(s')
    requires ReaperAt(s', f, Deleting)
    ensures var r := s'.reapers[f];
            && r.row.cloud.Some?
            && (r.n in s'.rows ==> !s'.rows[r.n].enabled && s'.rows[r.n].externalId == r.row.externalId)
  {
    StartedInvariant(w, s);
    RunKeeps(w, s, steps, s');
    assert ReaperOk(s', f);
  }

  /** The tracker is left alone, or exactly the entries of the reaper's node are discarded. */
  ghost predicate DiscardsOwnNode(s: State, s': State, f: FrameId) {
    || (s'.tracker == s.tracker && s'.discards == s.discards)
    || (f in s.reapers && s'.tracker == T.DiscardedByNode(s.tracker, s.reapers[f].n)
        && s'.discards == s.discards + T.TasksOf(s.tracker, s.reapers[f].n))
  }

  lemma ReaperWorks(w: World, s: State, f: FrameId, kind: ReaperKind, n: NodeId)
    ensures DoReap(s, f, kind, n).Some? ==> DiscardsOwnNode(s, DoReap(s, f, kind, n).value, f)
    ensures DoReapStatic(s, f).Some? ==> DiscardsOwnNode(s, DoReapStatic(s, f).value, f)
    ensures DoReapDisable(s, f).Some? ==> DiscardsOwnNode(s, DoReapDisable(s, f).value, f)
    ensures DoReapNoDelete(w, s, f).Some? ==> DiscardsOwnNode(s, DoReapNoDelete(w, s, f).value, f)
    ensures DoReapDelete(w, s, f).Some? ==> DiscardsOwnNode(s, DoReapDelete(w, s, f).value, f)
  {
    hide HasAdapter, T.TasksOf, T.DiscardedByNode;
  }

  lemma ReaperEnds(w: World, s: State, f: FrameId, gone: bool, o: Outcome)
    ensures DoReapAborts(s, f).Some? ==> DiscardsOwnNode(s, DoReapAborts(s, f).value, f)
    ensures DoReapDeleteRaises(w, s, f, gone).Some? ==> DiscardsOwnNode(s, DoReapDeleteRaises(w, s, f, gone).value, f)
    ensures DoReapRemove(s, f, o).Some? ==> DiscardsOwnNode(s, DoReapRemove(s, f, o).value, f)
  {
    hide HasAdapter, T.TasksOf, T.DiscardedByNode;
  }

  lemma ReaperStepDiscards(w: World, s: State, step: Step, s': State)
    requires ReaperOf(step).Some? && Next(w, s, step) == Some(s')
    ensures DiscardsOwnNode(s, s', ReaperOf(step).value)
  {
    hide LockNext, VmNext, FinishNext, DiscardsOwnNode, DoReap, DoReapAborts, DoReapStatic, DoReapDisable,
         DoReapNoDelete, DoReapDelete, DoReapDeleteRaises, DoReapRemove;
    match step
    case Reap(f, kind, n) => ReaperWorks(w, s, f, kind, n);
    case ReapStatic(f) => ReaperWorks(w, s, f, Deallocator, 0);
    case ReapDisable(f) => ReaperWorks(w, s, f, Deallocator, 0);
    case ReapNoDelete(f) => ReaperWorks(w, s, f, Deallocator, 0);
    case ReapDelete(f) => ReaperWorks(w, s, f, Deallocator, 0);
    case ReapAborts(f) => ReaperEnds(w, s, f, false, Commits);
    case ReapDeleteRaises(f, gone) => ReaperEnds(w, s, f, gone, Commits);
    case ReapRemove(f, o) => ReaperEnds(w, s, f, false, o);
  }

  /** In every run reapers leave alone the entry of a call on its way from tracker.add to the commit of its node. */
  lemma ReapersSpareFirm(w: World, s: State, steps: seq<Step>, s': State, step: Step, s'': State, g: FrameId)
    requires Started(w, s) && Run(w, s, steps) == Some(s')
    requires ReaperOf(step).Some? && Next(w, s', step) == Some(s'')
    requires g in s'.allocs && Firm(s'.allocs[g].pc)
    ensures var task := s'.allocs[g].task;
            && (task in s''.tracker <==> task in s'.tracker)
            && (task in s'.tracker ==> s''.tracker[task] == s'.tracker[task])
            && (task in s''.discards <==> task in s'.discards)
  {
    hide Started, Run, Next, Structure, Protocol, SlotsOk, Accounting;
    StartedInvariant(w, s);
    RunKeeps(w, s, steps, s');
    ReaperStepDiscards(w, s', step, s'');
    if ReaperOf(step).value in s'.reapers {
      ReaperSparesFirm(w, s', ReaperOf(step).value, g);
    }
  }

  // ---- an entry discarded under a running provisioning ----

  lemma {:induction false} RunConcat(w: World, s: State, a: seq<Step>, m: State, b: seq<Step>)
    requires Run(w, s, a) == Some(m)
    ensures Run(w, s, a + b) == Run(w, m, b)
    decreases |a|
  {
    hide Next;
    if a == [] {
      assert a + b == b;
    } else {
      RunConcat(w, Next(w, s, a[0]).value, a[1..], m, b);
      assert (a + b)[1..] == a[1..] + b;
    }
  }

  /** The call holds the lock and has read the counts. */
  ghost predicate HasCounted(s: State, before: State, task: TaskId) {
    && AtPc(s, 0, Counted) && s.allocs[0].task == task && s.allocs[0].counts == Counting(before.rows)
    && s.allocs[0].vm.None? && s.rows == before.rows && s.slots == before.slots
  }

  lemma EnterStates(w: World, s: State, task: TaskId) returns (s1: State, s2: State, s3: State, s4: State)
    requires Started(w, s)
    ensures DoStart(s, 0, task) == Some(s1) && DoAddToTracker(s1, 0) == Some(s2)
    ensures DoAcquireLock(s2, 0) == Some(s3) && DoReadCounts(s3, 0) == Some(s4) && HasCounted(s4, s, task)
  {
    hide Counting;
    s1 := DoStart(s, 0, task).value;
    s2 := DoAddToTracker(s1, 0).value;
    s3 := DoAcquireLock(s2, 0).value;
    s4 := DoReadCounts(s3, 0).value;
  }

  lemma LockingNext(w: World, s: State, f: FrameId, task: TaskId)
    ensures Next(w, s, Start(f, task)) == DoStart(s, f, task)
    ensures Next(w, s, AddToTracker(f)) == DoAddToTracker(s, f)
    ensures Next(w, s, AcquireLock(f)) == DoAcquireLock(s, f) && Next(w, s, ReadCounts(f)) == DoReadCounts(s, f)
  {
    hide DoStart, DoDeduplicate, DoAddToTracker, DoAcquireLock, DoFailUnderLock, DoReadCounts, DoSelectNone, VmNext,
         FinishNext, OutsideNext;
  }

  lemma EnterSection(w: World, s: State, task: TaskId) returns (steps: seq<Step>, s': State)
    requires Started(w, s)
    ensures Run(w, s, steps) == Some(s') && HasCounted(s', s, task)
  {
    hide DoStart, DoAddToTracker, DoAcquireLock, DoReadCounts, Started, HasCounted, Next, Run;
    var s1, s2, s3;
    s1, s2, s3, s' := EnterStates(w, s, task);
    LockingNext(w, s, 0, task);
    LockingNext(w, s1, 0, task);
    LockingNext(w, s2, 0, task);
    LockingNext(w, s3, 0, task);
    steps := [Start(0, task), AddToTracker(0), AcquireLock(0), ReadCounts(0)];
    assert Next(w, s, steps[0]) == Some(s1) && Next(w, s1, steps[1]) == Some(s2);
    assert Next(w, s2, steps[2]) == Some(s3) && Next(w, s3, steps[3]) == Some(s');
    RunOfFour(w, s, s1, s2, s3, s', steps);
  }

  lemma StartVmStates(w: World, s: State, before: State, task: TaskId, platforms: seq<string>, choice: nat)
    returns (s1: State, s2: State, s3: State, s4: State)
    requires HasCounted(s, before, task)
    requires IsChoice(w.adapters, w.configs, platforms, Counting(before.rows), choice)
    requires Value(s.slots, w.adapters[choice].name) > 0
    ensures DoInsertTmp(w, s, 0, platforms, choice) == Some(s1) && DoLink(s1, 0) == Some(s2)
    ensures DoAcquireSlot(s2, 0) == Some(s3) && DoVmStarts(s3, 0) == Some(s4)
    ensures AtVmPc(s4, 0, Creating) && s4.allocs[0].task == task && s4.allocs[0].n.value in s4.rows
  {
    hide Counting;
    s1 := DoInsertTmp(w, s, 0, platforms, choice).value;
    hide IsChoice;
    s2 := DoLink(s1, 0).value;
    s3 := DoAcquireSlot(s2, 0).value;
    s4 := DoVmStarts(s3, 0).value;
  }

  lemma CreationNext(w: World, s: State, f: FrameId, platforms: seq<string>, choice: nat)
    ensures Next(w, s, InsertTmp(f, platforms, choice)) == DoInsertTmp(w, s, f, platforms, choice)
    ensures Next(w, s, Link(f)) == DoLink(s, f) && Next(w, s, AcquireSlot(f)) == DoAcquireSlot(s, f)
    ensures Next(w, s, VmStarts(f)) == DoVmStarts(s, f) && Next(w, s, CreateReturns(f)) == DoCreateReturns(s, f)
  {
    hide DoInsertTmp, DoInsertLost, DoLink, DoAcquireSlot, DoVmStarts, DoCreateReturns, DoCreateRaises,
         DoCreateAborted, DoCreateAmbiguous, LockNext, FinishNext, OutsideNext;
  }

  lemma EndNext(w: World, s: State, f: FrameId)
    ensures Next(w, s, SetupReturns(f)) == DoSetupReturns(s, f) && Next(w, s, Persist(f)) == DoPersist(s, f)
    ensures Next(w, s, Return(f)) == DoReturn(s, f)
  {
    hide DoSetupReturns, DoSetupRaises, DoTeardown, DoPersist, DoReturn, DoPersistRaises, DoPersistLost, DoUndoDelete,
         DoCleanUp, DoDiscardEntry, DoCleanUpAgain, LockNext, VmNext, OutsideNext;
  }

  lemma DiscardNext(w: World, s: State, task: TaskId)
    ensures Next(w, s, OtherDiscard(task)) == DoOtherDiscard(s, task)
  {
    hide LockNext, VmNext, FinishNext;
  }

  lemma StartVm(w: World, s: State, before: State, task: TaskId, platforms: seq<string>, choice: nat)
    returns (steps: seq<Step>, s': State)
    requires HasCounted(s, before, task)
    requires IsChoice(w.adapters, w.configs, platforms, Counting(before.rows), choice)
    requires Value(s.slots, w.adapters[choice].name) > 0
    ensures Run(w, s, steps) == Some(s')
    ensures AtVmPc(s', 0, Creating) && s'.allocs[0].task == task && s'.allocs[0].n.value in s'.rows
  {
    hide DoInsertTmp, DoLink, DoAcquireSlot, DoVmStarts, IsChoice, Counting, HasCounted, Next, Run;
    var s1, s2, s3;
    s1, s2, s3, s' := StartVmStates(w, s, before, task, platforms, choice);
    CreationNext(w, s, 0, platforms, choice);
    CreationNext(w, s1, 0, platforms, choice);
    CreationNext(w, s2, 0, platforms, choice);
    CreationNext(w, s3, 0, platforms, choice);
    steps := [InsertTmp(0, platforms, choice), Link(0), AcquireSlot(0), VmStarts(0)];
    assert Next(w, s, steps[0]) == Some(s1) && Next(w, s1, steps[1]) == Some(s2);
    assert Next(w, s2, steps[2]) == Some(s3) && Next(w, s3, steps[3]) == Some(s');
    RunOfFour(w, s, s1, s2, s3, s', steps);
  }

  /** The call has returned with its node enabled, and nothing in the tracker says so. */
  ghost predicate ProvisionedUntracked(s: State, task: TaskId) {
    && AtPc(s, 0, Provisioned) && s.allocs[0].task == task && s.allocs[0].n.Some?
    && s.allocs[0].n.value in s.rows && s.rows[s.allocs[0].n.value].enabled
    && task !in s.tracker
  }

  lemma SetUpStates(s: State, task: TaskId) returns (s1: State, s2: State)
    requires AtVmPc(s, 0, Creating) && s.allocs[0].task == task && s.allocs[0].n.value in s.rows
    ensures DoCreateReturns(s, 0) == Some(s1) && DoSetupReturns(s1, 0) == Some(s2)
    ensures AtVmPc(s2, 0, Persisting) && s2.allocs[0].task == task && s2.allocs[0].n.value in s2.rows
  {
    s1 := DoCreateReturns(s, 0).value;
    s2 := DoSetupReturns(s1, 0).value;
  }

  lemma PersistStates(s: State, task: TaskId) returns (s1: State, s2: State, s3: State)
    requires AtVmPc(s, 0, Persisting) && s.allocs[0].task == task && s.allocs[0].n.value in s.rows
    ensures DoOtherDiscard(s, task) == Some(s1) && DoPersist(s1, 0) == Some(s2) && DoReturn(s2, 0) == Some(s3)
    ensures ProvisionedUntracked(s3, task)
  {
    s1 := DoOtherDiscard(s, task).value;
    s2 := DoPersist(s1, 0).value;
    s3 := DoReturn(s2, 0).value;
  }

  lemma PersistDiscarded(w: World, s: State, task: TaskId) returns (steps: seq<Step>, s': State)
    requires AtVmPc(s, 0, Creating) && s.allocs[0].task == task && s.allocs[0].n.value in s.rows
    ensures Run(w, s, steps) == Some(s') && ProvisionedUntracked(s', task)
  {
    hide DoCreateReturns, DoSetupReturns, DoOtherDiscard, DoPersist, DoReturn, ProvisionedUntracked, Next, Run;
    var s1, s2, s3, s4;
    s1, s2 := SetUpStates(s, task);
    s3, s4, s' := PersistStates(s2, task);
    CreationNext(w, s, 0, [], 0);
    EndNext(w, s1, 0);
    DiscardNext(w, s2, task);
    EndNext(w, s3, 0);
    EndNext(w, s4, 0);
    var rest := [SetupReturns(0), OtherDiscard(task), Persist(0), Return(0)];
    assert Next(w, s1, rest[0]) == Some(s2) && Next(w, s2, rest[1]) == Some(s3);
    assert Next(w, s3, rest[2]) == Some(s4) && Next(w, s4, rest[3]) == Some(s');
    RunOfFour(w, s1, s2, s3, s4, s', rest);
    RunCons(w, s, CreateReturns(0), s1, rest, s');
    steps := [CreateReturns(0)] + rest;
  }

  /** Wherever a provider can be chosen, there is a run in which a consumer discards the entry while the call
      provisions, so that it exits with an enabled row and no linked entry. */
  lemma DiscardLosesEntry(w: World, s: State, task: TaskId, platforms: seq<string>, choice: nat)
    returns (steps: seq<Step>, s': State)
    requires Started(w, s) && IsChoice(w.adapters, w.configs, platforms, Counting(s.rows), choice)
    requires Limit(w, w.adapters[choice].name) > 0
    ensures Run(w, s, steps) == Some(s') && ProvisionedUntracked(s', task)
  {
    var a, sa := EnterSection(w, s, task);
    assert Value(s.slots, w.adapters[choice].name) == Limit(w, w.adapters[choice].name);
    hide Started, Run, IsChoice, ProvisionedUntracked;
    var b, sb := StartVm(w, sa, s, task, platforms, choice);
    var c, sc := PersistDiscarded(w, sb, task);
    RunConcat(w, s, a, sa, b);
    RunConcat(w, s, a + b, sb, c);
    steps, s' := a + b + c, sc;
  }
}
