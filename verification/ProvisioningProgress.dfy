/** Progress of provisioning: no call and no reaper is ever stuck, every outcome of an external call is possible, and
    each of them makes only a bounded number of steps. */
module ProvisioningProgress {
  import opened Prelude
  import opened ProviderSelection
  import opened Provisioning
  import opened ProvisioningSafety
  import opened ProvisioningProtocol
  import opened ProvisioningTheorems
  import opened ProvisioningLives
  import opened ProvisioningOutcomes

  // ---- what can happen next ----

  ghost predicate Can(w: World, s: State, step: Step) {
    Next(w, s, step).Some?
  }

  /** Up to the choice of a provider a call can only wait for the lock, and it always finds a way on. */
  ghost predicate LockingGoesOn(w: World, s: State, f: FrameId)
    requires f in s.allocs
  {
    match s.allocs[f].pc
    case Queued => if s.allocs[f].task in s.tracker then Can(w, s, Deduplicate(f)) else Can(w, s, AddToTracker(f))
    case AwaitLock => Can(w, s, AcquireLock(f)) <==> s.lock.None?
    case Reading => Can(w, s, ReadCounts(f)) && Can(w, s, FailUnderLock(f))
    case Counted =>
      && Can(w, s, FailUnderLock(f))
      && forall platforms :: Can(w, s, SelectNone(f, platforms))
                             || exists choice: nat :: Can(w, s, InsertTmp(f, platforms, choice))
                                                      && Can(w, s, InsertLost(f, platforms, choice))
    case _ => true
  }

  /** While it creates a VM a call can only wait for a slot, and the provider may answer in any way. */
  ghost predicate CreationGoesOn(w: World, s: State, f: FrameId)
    requires f in s.allocs
  {
    var fr := s.allocs[f];
    match fr.pc
    case Inserted => Can(w, s, Link(f))
    case AwaitSlot => fr.p.Some? && (Can(w, s, AcquireSlot(f)) <==> Value(s.slots, fr.p.value) > 0)
    case Creating =>
      if fr.vm.None? then Can(w, s, VmStarts(f)) && Can(w, s, CreateRaises(f))
      else
        && Can(w, s, CreateReturns(f)) && Can(w, s, CreateAmbiguous(f))
        && forall d :: Can(w, s, CreateAborted(f, d))
    case _ => true
  }

  /** From the setup on a call waits for nobody, and everything it calls may return or raise. */
  ghost predicate EndingGoesOn(w: World, s: State, f: FrameId)
    requires f in s.allocs
  {
    var fr := s.allocs[f];
    match fr.pc
    case SettingUp => Can(w, s, SetupReturns(f)) && Can(w, s, SetupRaises(f))
    case TearingDown => forall d :: Can(w, s, Teardown(f, d))
    case Persisting =>
      && Can(w, s, PersistRaises(f))
      && (fr.n.Some? && fr.n.value in s.rows ==> Can(w, s, Persist(f)) && Can(w, s, PersistLost(f)))
    case Returning => Can(w, s, Return(f))
    case Undoing => forall d :: Can(w, s, UndoDelete(f, d))
    case Cleaning => forall o :: Can(w, s, CleanUp(f, o))
    case Finishing => Can(w, s, DiscardEntry(f))
    case LastCleaning => forall o :: Can(w, s, CleanUpAgain(f, o))
    case _ => true
  }

  ghost predicate ReaperGoesOn(w: World, s: State, f: FrameId)
    requires f in s.reapers
  {
    var r := s.reapers[f];
    match r.pc
    case Disabling =>
      && Can(w, s, ReapAborts(f))
      && (r.row.cloud.None? ==> Can(w, s, ReapStatic(f)))
      && (r.row.cloud.Some? && r.n in s.rows ==> Can(w, s, ReapDisable(f)))
    case Deleting =>
      if CanDelete(w, r.row) then Can(w, s, ReapDelete(f)) && forall gone :: Can(w, s, ReapDeleteRaises(f, gone))
      else Can(w, s, ReapNoDelete(f))
    case Removing => forall o :: Can(w, s, ReapRemove(f, o))
    case Reaped => true
  }

  lemma InsertCan(w: World, s: State, f: FrameId, platforms: seq<string>, choice: nat)
    requires Selects(w, s, f, platforms, choice)
    ensures Can(w, s, InsertTmp(f, platforms, choice)) && Can(w, s, InsertLost(f, platforms, choice))
  {
    hide IsChoice, LockNext, FinishNext, OutsideNext;
  }

  lemma SelectNoneCan(w: World, s: State, f: FrameId, platforms: seq<string>)
    requires DoSelectNone(w, s, f, platforms).Some?
    ensures Can(w, s, SelectNone(f, platforms))
  {
    hide DoSelectNone, VmNext, FinishNext, OutsideNext;
  }

  lemma ChoosingGoesOn(w: World, s: State, f: FrameId, platforms: seq<string>)
    requires AtPc(s, f, Counted)
    ensures Can(w, s, SelectNone(f, platforms))
            || exists choice: nat :: Can(w, s, InsertTmp(f, platforms, choice))
                                     && Can(w, s, InsertLost(f, platforms, choice))
  {
    hide Next, Suitable;
    if i: nat :| IsChoice(w.adapters, w.configs, platforms, s.allocs[f].counts, i)
                 && !Throttled(s, w.adapters[i].name) {
      InsertCan(w, s, f, platforms, i);
    } else {
      SelectNoneCan(w, s, f, platforms);
    }
  }

  lemma LockingCan(w: World, s: State, f: FrameId)
    requires f in s.allocs
    ensures LockingGoesOn(w, s, f)
  {
    hide IsChoice, Throttled, Counting;
    if s.allocs[f].pc.Counted? {
      forall platforms
        ensures Can(w, s, SelectNone(f, platforms))
                || exists choice: nat :: Can(w, s, InsertTmp(f, platforms, choice))
                                         && Can(w, s, InsertLost(f, platforms, choice))
      {
        ChoosingGoesOn(w, s, f, platforms);
      }
      assert DoFailUnderLock(s, f).Some?;
      hide VmNext;
    }
  }

  lemma CreationCan(w: World, s: State, f: FrameId)
    requires f in s.allocs && AllocOk(w, s, f)
    ensures CreationGoesOn(w, s, f)
  {
    hide LockNext, FinishNext, OutsideNext, HasAdapter, DoInsertTmp, DoInsertLost;
  }

  lemma EndingCan(w: World, s: State, f: FrameId)
    requires f in s.allocs && AllocOk(w, s, f)
    ensures EndingGoesOn(w, s, f)
  {
    hide Next, HasAdapter, DoTeardown, DoUndoDelete, DoCleanUp, DoCleanUpAgain;
    EndingSteps(w, s, f);
    match s.allocs[f].pc
    case TearingDown => forall d ensures Can(w, s, Teardown(f, d)) { TeardownCan(w, s, f, d); }
    case Undoing => forall d ensures Can(w, s, UndoDelete(f, d)) { TeardownCan(w, s, f, d); }
    case Cleaning => forall o ensures Can(w, s, CleanUp(f, o)) { CleanUpCan(w, s, f, o); }
    case LastCleaning => forall o ensures Can(w, s, CleanUpAgain(f, o)) { CleanUpCan(w, s, f, o); }
    case _ =>
  }

  lemma EndingSteps(w: World, s: State, f: FrameId)
    ensures Next(w, s, SetupReturns(f)) == DoSetupReturns(s, f) && Next(w, s, SetupRaises(f)) == DoSetupRaises(s, f)
    ensures Next(w, s, Persist(f)) == DoPersist(s, f) && Next(w, s, PersistLost(f)) == DoPersistLost(s, f)
    ensures Next(w, s, PersistRaises(f)) == DoPersistRaises(s, f) && Next(w, s, Return(f)) == DoReturn(s, f)
    ensures Next(w, s, DiscardEntry(f)) == DoDiscardEntry(s, f)
  {
    hide DoSetupReturns, DoSetupRaises, DoTeardown, DoPersist, DoReturn, DoPersistRaises, DoPersistLost, DoUndoDelete,
         DoCleanUp, DoDiscardEntry, DoCleanUpAgain, LockNext, VmNext, OutsideNext;
  }

  lemma TeardownCan(w: World, s: State, f: FrameId, d: Deletion)
    ensures AtVmPc(s, f, TearingDown) ==> Can(w, s, Teardown(f, d))
    ensures AtVmPc(s, f, Undoing) ==> Can(w, s, UndoDelete(f, d))
  {
    hide LockNext, VmNext, OutsideNext, Deleted, Released;
  }

  lemma CleanUpCan(w: World, s: State, f: FrameId, o: Outcome)
    ensures AtRowPc(s, f, Cleaning) ==> Can(w, s, CleanUp(f, o))
    ensures AtRowPc(s, f, LastCleaning) ==> Can(w, s, CleanUpAgain(f, o))
  {
    hide LockNext, VmNext, OutsideNext, Removed, CleanupFailed;
  }

  lemma ReaperCan(w: World, s: State, f: FrameId)
    requires f in s.reapers
    ensures ReaperGoesOn(w, s, f)
  {
    hide LockNext, VmNext, FinishNext, HasAdapter;
  }

  /** In every run a call in flight can go on unless it waits for the lock that another holds or for a slot when none is
      free, and whatever it awaits may return or raise; the same for every reaper. */
  lemma NothingGetsStuck(w: World, s: State, steps: seq<Step>, s': State, f: FrameId)
    requires Started(w, s) && Run(w, s, steps) == Some(s')
    ensures f in s'.allocs ==> LockingGoesOn(w, s', f) && CreationGoesOn(w, s', f) && EndingGoesOn(w, s', f)
    ensures f in s'.reapers ==> ReaperGoesOn(w, s', f)
  {
    StartedInvariant(w, s);
    RunKeeps(w, s, steps, s');
    hide Started, Run, LockingGoesOn, CreationGoesOn, EndingGoesOn, ReaperGoesOn;
    if f in s'.allocs {
      assert AllocOk(w, s', f);
      LockingCan(w, s', f);
      CreationCan(w, s', f);
      EndingCan(w, s', f);
    }
    if f in s'.reapers {
      ReaperCan(w, s', f);
    }
  }

  // ---- how long it can go on ----

  /** At most so many steps separate this suspension point from the call's exit. */
  function Distance(pc: Pc, vm: Option<VmId>): nat {
    match pc
    case Queued => 14
    case AwaitLock => 13
    case Reading => 12
    case Counted => 11
    case Inserted => 10
    case AwaitSlot => 9
    case Creating => if vm.None? then 8 else 7
    case SettingUp => 6
    case Persisting => 5
    case TearingDown | Undoing => 4
    case Cleaning => 3
    case Finishing => 2
    case LastCleaning | Returning => 1
    case Deduplicated | NoNode | Provisioned | Failed => 0
  }

  function CallStepsLeft(s: State, f: FrameId): nat {
    if f !in s.allocs then 15 else Distance(s.allocs[f].pc, s.allocs[f].vm)
  }

  function ReaperStepsLeft(s: State, f: FrameId): nat {
    if f !in s.reapers then 4
    else
      match s.reapers[f].pc
      case Disabling => 3
      case Deleting => 2
      case Removing => 1
      case Reaped => 0
  }

  /** The call's own step brings it nearer to its exit. */
  ghost predicate Advances(s: State, f: FrameId, s': State) {
    CallStepsLeft(s', f) < CallStepsLeft(s, f)
  }

  lemma LockAdvances(w: World, s: State, step: Step, s': State)
    requires PhaseOf(step).Locking? && Next(w, s, step) == Some(s')
    ensures Advances(s, step.f, s')
  {
    hide VmNext, FinishNext, OutsideNext, IsChoice, Throttled, Counting;
  }

  lemma InsertAdvances(w: World, s: State, step: Step, s': State)
    requires (step.InsertTmp? || step.InsertLost?) && VmNext(w, s, step) == Some(s')
    ensures Advances(s, step.f, s')
  {
    hide IsChoice;
  }

  lemma CreationAdvances(w: World, s: State, step: Step, s': State)
    requires PhaseOf(step).Creation? && Next(w, s, step) == Some(s')
    ensures Advances(s, step.f, s')
  {
    hide LockNext, FinishNext, OutsideNext, DoInsertTmp, DoInsertLost, Released;
    if step.InsertTmp? || step.InsertLost? {
      InsertAdvances(w, s, step, s');
    }
  }

  lemma CleanUpAdvances(s: State, f: FrameId, o: Outcome, s': State)
    requires DoCleanUp(s, f, o) == Some(s') || DoCleanUpAgain(s, f, o) == Some(s')
    ensures Advances(s, f, s')
  {
  }

  lemma DeleteAdvances(s: State, f: FrameId, d: Deletion, s': State)
    requires DoTeardown(s, f, d) == Some(s') || DoUndoDelete(s, f, d) == Some(s')
    ensures Advances(s, f, s')
  {
  }

  lemma SetupAdvances(s: State, step: Step, s': State)
    requires PhaseOf(step).Ending? && !step.CleanUp? && !step.CleanUpAgain? && !step.Teardown? && !step.UndoDelete?
    requires FinishNext(s, step) == Some(s')
    ensures Advances(s, step.f, s')
  {
    hide DoCleanUp, DoCleanUpAgain, DoTeardown, DoUndoDelete, Released;
  }

  lemma EndAdvances(w: World, s: State, step: Step, s': State)
    requires PhaseOf(step).Ending? && Next(w, s, step) == Some(s')
    ensures Advances(s, step.f, s')
  {
    hide LockNext, VmNext, OutsideNext, Advances, DoCleanUp, DoCleanUpAgain, DoTeardown, DoUndoDelete;
    match step
    case CleanUp(f, o) => CleanUpAdvances(s, f, o, s');
    case CleanUpAgain(f, o) => CleanUpAdvances(s, f, o, s');
    case Teardown(f, d) => DeleteAdvances(s, f, d, s');
    case UndoDelete(f, d) => DeleteAdvances(s, f, d, s');
    case _ => SetupAdvances(s, step, s');
  }

  /** Only its own steps move a call. */
  lemma OthersDoNotMoveCall(w: World, s: State, step: Step, s': State, f: FrameId)
    requires Invariant(w, s) && Next(w, s, step) == Some(s') && (PhaseOf(step) == Outside || step.f != f)
    ensures CallStepsLeft(s', f) == CallStepsLeft(s, f)
  {
    hide Next, Structure, Protocol, RowsOk, SlotsOk, CallMove, MoveReady, CallReady, Distance, LateFrame;
    if PhaseOf(step) == Outside {
      OutsideNeverLate(w, s, step, s', f);
    } else {
      Ready(w, s, step.f);
      CallStepMoves(w, s, step, s');
    }
  }

  lemma StepAdvances(w: World, s: State, step: Step, s': State, f: FrameId)
    requires Invariant(w, s) && Next(w, s, step) == Some(s')
    ensures if PhaseOf(step) != Outside && step.f == f then Advances(s, f, s')
            else CallStepsLeft(s', f) == CallStepsLeft(s, f)
  {
    hide Next, Invariant, Advances, CallStepsLeft;
    if PhaseOf(step) == Outside || step.f != f {
      OthersDoNotMoveCall(w, s, step, s', f);
    } else {
      match PhaseOf(step)
      case Locking => LockAdvances(w, s, step, s');
      case Creation => CreationAdvances(w, s, step, s');
      case Ending => EndAdvances(w, s, step, s');
    }
  }

  lemma RemovalAdvances(s: State, f: FrameId, o: Outcome, s': State)
    requires DoReapRemove(s, f, o) == Some(s')
    ensures ReaperStepsLeft(s', f) < ReaperStepsLeft(s, f)
  {
  }

  lemma OwnReaperAdvances(w: World, s: State, step: Step, s': State, f: FrameId)
    requires ReaperOf(step) == Some(f) && Next(w, s, step) == Some(s')
    ensures ReaperStepsLeft(s', f) < ReaperStepsLeft(s, f)
  {
    hide LockNext, VmNext, FinishNext, HasAdapter, DoReapRemove, DoOtherDiscard, DoDisable, DoCliAdd, DoCliEnable,
         DoCliRemove, DoVmVanish;
    match step
    case ReapRemove(_, o) => RemovalAdvances(s, f, o, s');
    case _ =>
  }

  lemma OthersDoNotMoveReaper(w: World, s: State, step: Step, s': State, f: FrameId)
    requires Invariant(w, s) && Next(w, s, step) == Some(s') && ReaperOf(step) != Some(f)
    ensures ReaperStepsLeft(s', f) == ReaperStepsLeft(s, f)
  {
    hide Next, Structure, Protocol, RowsOk, SlotsOk, ReaperOk, Evolves, NewRowsOk, ReaperMove, OutsideMove, MoveReady;
    if PhaseOf(step) == Outside {
      Ready(w, s, if ReaperOf(step).Some? then ReaperOf(step).value else 0);
      OutsideStepMoves(w, s, step, s');
    } else {
      CallSparesReapers(w, s, step, s');
    }
  }

  lemma StepAdvancesReaper(w: World, s: State, step: Step, s': State, f: FrameId)
    requires Invariant(w, s) && Next(w, s, step) == Some(s')
    ensures if ReaperOf(step) == Some(f) then ReaperStepsLeft(s', f) < ReaperStepsLeft(s, f)
            else ReaperStepsLeft(s', f) == ReaperStepsLeft(s, f)
  {
    hide Next, Invariant, ReaperStepsLeft;
    if ReaperOf(step) == Some(f) {
      OwnReaperAdvances(w, s, step, s', f);
    } else {
      OthersDoNotMoveReaper(w, s, step, s', f);
    }
  }

  /** Steps of the run made by the call f, and by the reaper f. */
  function OwnSteps(steps: seq<Step>, f: FrameId): nat {
    if steps == [] then 0
    else (if PhaseOf(steps[0]) != Outside && steps[0].f == f then 1 else 0) + OwnSteps(steps[1..], f)
  }

  function OwnReaperSteps(steps: seq<Step>, f: FrameId): nat {
    if steps == [] then 0
    else (if ReaperOf(steps[0]) == Some(f) then 1 else 0) + OwnReaperSteps(steps[1..], f)
  }

  lemma {:induction false} RunAdvances(w: World, s: State, steps: seq<Step>, s': State, f: FrameId)
    requires Invariant(w, s) && Run(w, s, steps) == Some(s')
    ensures OwnSteps(steps, f) + CallStepsLeft(s', f) <= CallStepsLeft(s, f)
    ensures OwnReaperSteps(steps, f) + ReaperStepsLeft(s', f) <= ReaperStepsLeft(s, f)
    decreases |steps|
  {
    hide Next, Invariant, CallStepsLeft, ReaperStepsLeft;
    if steps != [] {
      var m := Next(w, s, steps[0]).value;
      StepAdvances(w, s, steps[0], m, f);
      StepAdvancesReaper(w, s, steps[0], m, f);
      StepKeeps(w, s, steps[0], m);
      RunAdvances(w, m, steps[1..], s', f);
    }
  }

  /** In every run a call makes at most fifteen steps and is over exactly when none is left; a reaper at most four. */
  lemma EverythingEnds(w: World, s: State, steps: seq<Step>, s': State, f: FrameId)
    requires Started(w, s) && Run(w, s, steps) == Some(s')
    ensures OwnSteps(steps, f) + CallStepsLeft(s', f) <= 15
    ensures f in s'.allocs ==> (CallStepsLeft(s', f) == 0 <==> !Active(s'.allocs[f].pc))
    ensures OwnReaperSteps(steps, f) + ReaperStepsLeft(s', f) <= 4
    ensures f in s'.reapers ==> (ReaperStepsLeft(s', f) == 0 <==> s'.reapers[f].pc.Reaped?)
  {
    hide Run, Invariant, CallStepsLeft, ReaperStepsLeft, Active;
    StartedInvariant(w, s);
    StartsFull(w, s, f);
    RunAdvances(w, s, steps, s', f);
    OverIff(s', f);
  }

  lemma StartsFull(w: World, s: State, f: FrameId)
    requires Started(w, s)
    ensures CallStepsLeft(s, f) == 15 && ReaperStepsLeft(s, f) == 4
  {
  }

  lemma OverIff(s: State, f: FrameId)
    ensures f in s.allocs ==> (CallStepsLeft(s, f) == 0 <==> !Active(s.allocs[f].pc))
    ensures f in s.reapers ==> (ReaperStepsLeft(s, f) == 0 <==> s.reapers[f].pc.Reaped?)
  {
  }
}
