/** What provisioning leaves behind, over whole runs: tmp rows, removed nodes, and the provider that was picked. */
module ProvisioningOutcomes {
  import opened Prelude
  import opened ProviderSelection
  import opened Provisioning
  import opened ProvisioningSafety
  import opened ProvisioningProtocol
  import opened ProvisioningTheorems
  import opened ProvisioningLedgers
  import opened ProvisioningLives

  // ---- tmp rows ----

  predicate Late(pc: Pc) {
    pc.Returning? || pc.Provisioned? || pc.Finishing? || pc.LastCleaning? || pc.Failed?
  }

  /** The step that gets a call to one of its last suspension points or exits. */
  predicate GetsLate(before: Pc, step: Step, f: FrameId, after: Pc) {
    match after
    case Returning => step == Persist(f)
    case Provisioned => step == Return(f) && before.Returning?
    case Finishing => step.CleanUp? && step.f == f
    case LastCleaning => step == DiscardEntry(f) && before.Finishing?
    case Failed => step.CleanUpAgain? && step.f == f && before.LastCleaning?
    case _ => false
  }

  ghost predicate LateFrame(s: State, step: Step, s': State, f: FrameId) {
    f in s'.allocs && Late(s'.allocs[f].pc) ==>
      && f in s.allocs && s'.allocs[f].n == s.allocs[f].n
      && (s'.allocs[f] == s.allocs[f] || GetsLate(s.allocs[f].pc, step, f, s'.allocs[f].pc))
  }

  lemma CleanUpGetsLate(s: State, g: FrameId, o: Outcome, s': State, f: FrameId)
    requires DoCleanUp(s, g, o) == Some(s')
    ensures LateFrame(s, CleanUp(g, o), s', f)
  {
  }

  lemma CleanUpAgainGetsLate(s: State, g: FrameId, o: Outcome, s': State, f: FrameId)
    requires DoCleanUpAgain(s, g, o) == Some(s')
    ensures LateFrame(s, CleanUpAgain(g, o), s', f)
  {
  }

  lemma SetupGetsLate(s: State, step: Step, s': State, f: FrameId)
    requires PhaseOf(step).Ending? && !step.CleanUp? && !step.CleanUpAgain? && FinishNext(s, step) == Some(s')
    ensures LateFrame(s, step, s', f)
  {
    hide DoCleanUp, DoCleanUpAgain, Released;
  }

  lemma EndGetsLate(w: World, s: State, step: Step, s': State, f: FrameId)
    requires PhaseOf(step).Ending? && Next(w, s, step) == Some(s')
    ensures LateFrame(s, step, s', f)
  {
    hide LockNext, VmNext, OutsideNext, LateFrame, DoCleanUp, DoCleanUpAgain;
    match step
    case CleanUp(g, o) => CleanUpGetsLate(s, g, o, s', f);
    case CleanUpAgain(g, o) => CleanUpAgainGetsLate(s, g, o, s', f);
    case _ => SetupGetsLate(s, step, s', f);
  }

  lemma LockNeverLate(w: World, s: State, step: Step, s': State, f: FrameId)
    requires PhaseOf(step).Locking? && Next(w, s, step) == Some(s')
    ensures LateFrame(s, step, s', f)
  {
    hide VmNext, FinishNext, OutsideNext, IsChoice, Throttled, Counting;
  }

  lemma InsertNeverLate(w: World, s: State, step: Step, s': State, f: FrameId)
    requires (step.InsertTmp? || step.InsertLost?) && VmNext(w, s, step) == Some(s')
    ensures LateFrame(s, step, s', f)
  {
    hide IsChoice, Selects;
  }

  lemma CreationNeverLate(w: World, s: State, step: Step, s': State, f: FrameId)
    requires PhaseOf(step).Creation? && Next(w, s, step) == Some(s')
    ensures LateFrame(s, step, s', f)
  {
    hide LockNext, FinishNext, OutsideNext, DoInsertTmp, DoInsertLost, Released;
    if step.InsertTmp? || step.InsertLost? {
      InsertNeverLate(w, s, step, s', f);
    }
  }

  lemma OutsideNeverLate(w: World, s: State, step: Step, s': State, f: FrameId)
    requires PhaseOf(step).Outside? && Next(w, s, step) == Some(s')
    ensures s'.allocs == s.allocs && s'.rowOwner == s.rowOwner && LateFrame(s, step, s', f)
  {
    hide LockNext, VmNext, FinishNext, HasAdapter;
  }

  lemma StepLate(w: World, s: State, step: Step, s': State, f: FrameId)
    requires Next(w, s, step) == Some(s')
    ensures LateFrame(s, step, s', f)
  {
    hide Next, LateFrame, PhaseOf;
    match PhaseOf(step)
    case Locking => LockNeverLate(w, s, step, s', f);
    case Creation => CreationNeverLate(w, s, step, s', f);
    case Ending => EndGetsLate(w, s, step, s', f);
    case Outside => OutsideNeverLate(w, s, step, s', f);
  }

  ghost predicate LostInsert(steps: seq<Step>) {
    exists i :: 0 <= i < |steps| && steps[i].InsertLost?
  }

  /** What the steps done so far explain about node n, whose row, if any, appeared at or after `base`. */
  ghost predicate Explained(s: State, done: seq<Step>, base: NodeId, n: NodeId) {
    && (n in s.rows && n >= base && s.rows[n].cloud.Some? && !s.rows[n].named ==> n in s.rowOwner || LostInsert(done))
    && (n in s.rows && n in s.rowOwner && s.rowOwner[n] in s.allocs ==>
          OwnerExplained(s.rows[n], done, s.rowOwner[n], s.allocs[s.rowOwner[n]].pc))
  }

  /** The row of a call that has persisted is named, and one that outlives a cleanup does so because the cleanup raised
      without effect. */
  ghost predicate OwnerExplained(row: NodeRow, done: seq<Step>, f: FrameId, pc: Pc) {
    && (pc.Returning? || pc.Provisioned? ==> row.named)
    && (pc.Finishing? || pc.LastCleaning? || pc.Failed? ==> CleanUp(f, RaisesClean) in done)
    && (pc.Failed? ==> CleanUpAgain(f, RaisesClean) in done)
  }

  lemma LostInsertStays(done: seq<Step>, step: Step)
    ensures LostInsert(done) || step.InsertLost? ==> LostInsert(done + [step])
  {
    if i :| 0 <= i < |done| && done[i].InsertLost? {
      assert (done + [step])[i].InsertLost?;
    } else if step.InsertLost? {
      assert (done + [step])[|done|].InsertLost?;
    }
  }

  /** A row that is there after the step was there before it, with the same provider, or is the new one. */
  lemma RowBefore(w: World, s: State, step: Step, s': State, n: NodeId)
    requires LivesOn(w, s, step, s', n) && n in s'.rows
    ensures n == s.nextNode || n in s.rows
    ensures n in s.rows && n != s.nextNode ==>
              s'.rows[n].cloud == s.rows[n].cloud && (s.rows[n].named ==> s'.rows[n].named)
    ensures n !in s.rows && s'.rows[n].cloud.Some? ==> step.InsertTmp? || step.InsertLost?
  {
    assert LifeAt(s', n).row == Some(s'.rows[n]);
  }

  lemma OwnStepOnRow(w: World, s: State, step: Step, s': State, n: NodeId, f: FrameId)
    requires LivesOn(w, s, step, s', n) && n in s'.rows && IsRowOf(s, f, n)
    ensures step.CleanUp? && step.f == f ==> step == CleanUp(f, RaisesClean)
    ensures step.CleanUpAgain? && step.f == f ==> step == CleanUpAgain(f, RaisesClean)
    ensures step == Persist(f) && s.allocs[f].vm.Some? ==> s'.rows[n].named
  {
    assert LifeAt(s', n).row == Some(s'.rows[n]);
  }

  lemma PersistHoldsVm(w: World, s: State, f: FrameId, s': State)
    requires Next(w, s, Persist(f)) == Some(s')
    ensures f in s.allocs && s.allocs[f].vm.Some?
  {
    assert DoPersist(s, f) == Some(s');
  }

  lemma OwnerStaysExplained(w: World, s: State, step: Step, s': State, done: seq<Step>, n: NodeId, f: FrameId)
    requires Next(w, s, step) == Some(s') && LivesOn(w, s, step, s', n) && LateFrame(s, step, s', f)
    requires n in s.rows && n in s'.rows && n != s.nextNode && IsRowOf(s, f, n) && f in s'.allocs
    requires OwnerExplained(s.rows[n], done, f, s.allocs[f].pc)
    ensures OwnerExplained(s'.rows[n], done + [step], f, s'.allocs[f].pc)
  {
    hide Next, LivesOn;
    RowBefore(w, s, step, s', n);
    OwnStepOnRow(w, s, step, s', n, f);
    if step == Persist(f) {
      PersistHoldsVm(w, s, f, s');
    }
  }

  /** The owner of a row changes only when the row is inserted. */
  ghost predicate OwnersStand(s: State, step: Step, s': State) {
    && (forall n :: n in s.rowOwner ==> n in s'.rowOwner && s'.rowOwner[n] == s.rowOwner[n])
    && (forall n :: n in s'.rowOwner ==> n in s.rowOwner || n == s.nextNode)
    && (step.InsertTmp? ==> s.nextNode in s'.rowOwner)
    && s.nextNode <= s'.nextNode
  }

  lemma MoveKeepsOwners(w: World, s: State, s': State, f: FrameId)
    requires RowsOk(s) && AllocMove(w, s, s', f)
    ensures forall n :: n in s.rowOwner ==> n in s'.rowOwner && s'.rowOwner[n] == s.rowOwner[n]
    ensures forall n :: n in s'.rowOwner ==> n in s.rowOwner || n == s.nextNode
    ensures s.nextNode <= s'.nextNode
  {
    hide AllocOk, NewRowsOk, NamesKept, HoldKept;
  }

  lemma InsertTmpOwns(w: World, s: State, f: FrameId, platforms: seq<string>, choice: nat, s': State)
    requires Next(w, s, InsertTmp(f, platforms, choice)) == Some(s')
    ensures s.nextNode in s'.rowOwner
  {
    assert DoInsertTmp(w, s, f, platforms, choice) == Some(s');
  }

  lemma StepKeepsOwners(w: World, s: State, step: Step, s': State)
    requires Invariant(w, s) && Next(w, s, step) == Some(s')
    ensures OwnersStand(s, step, s')
  {
    hide Next, Structure, Protocol, RowsOk, SlotsOk, AllocMove, CallMove, OutsideMove, MoveReady, CallReady;
    if PhaseOf(step) == Outside {
      Ready(w, s, if ReaperOf(step).Some? then ReaperOf(step).value else 0);
      OutsideStepMoves(w, s, step, s');
    } else {
      Ready(w, s, step.f);
      CallStepMoves(w, s, step, s');
      MoveKeepsOwners(w, s, s', step.f);
      if step.InsertTmp? {
        InsertTmpOwns(w, s, step.f, step.platforms, step.choice, s');
      }
    }
  }

  lemma RowsOf(w: World, s: State, n: NodeId)
    requires Structure(w, s)
    ensures n in s.rowOwner ==> n < s.nextNode && IsRowOf(s, s.rowOwner[n], n)
    ensures forall f :: IsRowOf(s, f, n) ==> n in s.rowOwner
    ensures n in s.rows ==> n < s.nextNode
  {
    hide ReaperOk;
    forall f | IsRowOf(s, f, n) ensures n in s.rowOwner {
      assert AllocOk(w, s, f);
    }
    hide AllocOk;
  }

  lemma ExplainedStep(w: World, s: State, step: Step, s': State, done: seq<Step>, base: NodeId, n: NodeId)
    requires Structure(w, s) && Structure(w, s') && Next(w, s, step) == Some(s') && Explained(s, done, base, n)
    requires LivesOn(w, s, step, s', n) && OwnersStand(s, step, s')
    ensures Explained(s', done + [step], base, n)
  {
    hide Next, LivesOn, Structure, LostInsert, OwnerExplained;
    LostInsertStays(done, step);
    RowsOf(w, s, n);
    RowsOf(w, s', n);
    if n in s'.rows {
      RowBefore(w, s, step, s', n);
      if n in s'.rowOwner {
        var f := s'.rowOwner[n];
        StepLate(w, s, step, s', f);
        if n in s.rowOwner {
          OwnerStaysExplained(w, s, step, s', done, n, f);
        } else {
          NewOwnerIsEarly(s, step, s', done, n, f);
        }
      }
    }
  }

  lemma NewOwnerIsEarly(s: State, step: Step, s': State, done: seq<Step>, n: NodeId, f: FrameId)
    requires LateFrame(s, step, s', f) && IsRowOf(s', f, n) && !IsRowOf(s, f, n) && n in s'.rows
    ensures OwnerExplained(s'.rows[n], done + [step], f, s'.allocs[f].pc)
  {
  }

  lemma {:induction false} ExplainedRun(w: World, s: State, done: seq<Step>, steps: seq<Step>, s': State, base: NodeId,
                                        n: NodeId)
    requires Invariant(w, s) && Run(w, s, steps) == Some(s') && Explained(s, done, base, n)
    ensures Invariant(w, s') && Explained(s', done + steps, base, n)
    decreases |steps|
  {
    hide Next, Structure, Protocol, SlotsOk, Explained, LivesOn, OwnersStand;
    if steps == [] {
      assert done + steps == done;
    } else {
      var m := Next(w, s, steps[0]).value;
      StepKeeps(w, s, steps[0], m);
      StepLife(w, s, steps[0], n, m);
      StepKeepsOwners(w, s, steps[0], m);
      ExplainedStep(w, s, steps[0], m, done, base, n);
      ExplainedRun(w, m, done + [steps[0]], steps[1..], s', base, n);
      assert done + [steps[0]] + steps[1..] == done + steps;
    }
  }

  /** No tmp row leaks its capacity slot: in every run an unnamed cloud row that was not there at the start belongs to a
      call still in flight, or to one of which both cleanups have raised without effect, unless an insert got lost. */
  lemma TmpRowsAreOwned(w: World, s: State, steps: seq<Step>, s': State, n: NodeId)
    requires Started(w, s) && Run(w, s, steps) == Some(s')
    requires n in s'.rows && n >= s.nextNode && s'.rows[n].cloud.Some? && !s'.rows[n].named
    ensures (exists i :: 0 <= i < |steps| && steps[i].InsertLost?)
            || (exists f :: f in s'.allocs && s'.allocs[f].n == Some(n)
                            && (Active(s'.allocs[f].pc)
                                || (s'.allocs[f].pc.Failed? && CleanUp(f, RaisesClean) in steps
                                    && CleanUpAgain(f, RaisesClean) in steps)))
  {
    StartedInvariant(w, s);
    assert Explained(s, [], s.nextNode, n);
    ExplainedRun(w, s, [], steps, s', s.nextNode, n);
    assert [] + steps == steps;
    hide Run, Started, Protocol, SlotsOk, RowsOk, ReaperOk;
    if !LostInsert(steps) {
      RowsOf(w, s', n);
      var f := s'.rowOwner[n];
      assert AllocOk(w, s', f);
    }
  }

  /** A failed call leaves its row behind only if both its cleanups have raised without effect. */
  lemma LeftoverNeedsTwoFailures(w: World, s: State, steps: seq<Step>, s': State, f: FrameId)
    requires Started(w, s) && Run(w, s, steps) == Some(s')
    requires AtPc(s', f, Failed) && s'.allocs[f].n.Some? && s'.allocs[f].n.value in s'.rows
    ensures CleanUp(f, RaisesClean) in steps && CleanUpAgain(f, RaisesClean) in steps
  {
    StartedInvariant(w, s);
    var n := s'.allocs[f].n.value;
    assert Explained(s, [], s.nextNode, n);
    ExplainedRun(w, s, [], steps, s', s.nextNode, n);
    assert [] + steps == steps;
    hide Run, Started, Protocol, SlotsOk, RowsOk, ReaperOk;
    assert AllocOk(w, s', f);
  }

  // ---- removed nodes ----

  /** A reaper gets to the row removal only after it has deleted the VM, if it could. */
  ghost predicate Emptied(w: World, s: State) {
    forall f :: f in s.reapers && s.reapers[f].pc.Removing? && CanDelete(w, s.reapers[f].row) ==>
      s.reapers[f].row.externalId.value !in s.vms
  }

  /** The step after which a reaper is about to remove the row. */
  ghost predicate GetsToRemoval(w: World, s: State, step: Step, s': State, f: FrameId) {
    f in s'.reapers && s'.reapers[f].pc.Removing? ==>
      && f in s.reapers && s'.reapers[f].row == s.reapers[f].row
      && (s'.reapers[f] == s.reapers[f] || step == ReapDelete(f) || !CanDelete(w, s.reapers[f].row))
  }

  lemma BystanderSparesReapers(w: World, s: State, step: Step, s': State)
    requires Next(w, s, step) == Some(s') && PhaseOf(step) == Outside && ReaperOf(step).None?
    ensures s'.reapers == s.reapers
  {
    hide LockNext, VmNext, FinishNext, HasAdapter;
  }

  lemma ReaperGetsToRemoval(w: World, s: State, step: Step, s': State, f: FrameId)
    requires Next(w, s, step) == Some(s') && ReaperOf(step).Some?
    ensures GetsToRemoval(w, s, step, s', f)
  {
    hide LockNext, VmNext, FinishNext, HasAdapter, DoOtherDiscard, DoDisable, DoCliAdd, DoCliEnable, DoCliRemove,
         DoVmVanish;
  }

  lemma OutsideGetsToRemoval(w: World, s: State, step: Step, s': State, f: FrameId)
    requires Next(w, s, step) == Some(s') && PhaseOf(step) == Outside
    ensures GetsToRemoval(w, s, step, s', f)
  {
    hide Next, PhaseOf, CanDelete;
    if ReaperOf(step).Some? {
      ReaperGetsToRemoval(w, s, step, s', f);
    } else {
      BystanderSparesReapers(w, s, step, s');
    }
  }

  lemma StepGetsToRemoval(w: World, s: State, step: Step, s': State, f: FrameId)
    requires Invariant(w, s) && Next(w, s, step) == Some(s')
    ensures GetsToRemoval(w, s, step, s', f)
  {
    hide Next, Invariant, CanDelete;
    if PhaseOf(step) != Outside {
      CallSparesReapers(w, s, step, s');
    } else {
      OutsideGetsToRemoval(w, s, step, s', f);
    }
  }

  lemma VmStaysGone(w: World, s: State, step: Step, s': State, v: VmId)
    requires Structure(w, s) && Next(w, s, step) == Some(s') && v < s.nextVm && v !in s.vms
    ensures v !in s'.vms
  {
    hide Next, FateOf, Structure;
    StepFate(w, s, step, s');
    FateIsOlder(w, s, step);
  }

  lemma EmptiedStep(w: World, s: State, step: Step, s': State)
    requires Invariant(w, s) && Emptied(w, s) && Next(w, s, step) == Some(s')
    ensures Emptied(w, s')
  {
    assert Structure(w, s);
    hide Next, Invariant, HasAdapter, RowsOk, AllocOk;
    forall f | f in s'.reapers && s'.reapers[f].pc.Removing? && CanDelete(w, s'.reapers[f].row)
      ensures s'.reapers[f].row.externalId.value !in s'.vms
    {
      StepGetsToRemoval(w, s, step, s', f);
      var v := s'.reapers[f].row.externalId.value;
      if step == ReapDelete(f) {
        StepFate(w, s, step, s');
      } else {
        assert ReaperOk(s, f);
        VmStaysGone(w, s, step, s', v);
      }
    }
  }

  lemma {:induction false} EmptiedRun(w: World, s: State, steps: seq<Step>, s': State)
    requires Invariant(w, s) && Emptied(w, s) && Run(w, s, steps) == Some(s')
    ensures Invariant(w, s') && Emptied(w, s')
    decreases |steps|
  {
    hide Next, Invariant, Emptied;
    if steps != [] {
      var m := Next(w, s, steps[0]).value;
      StepKeeps(w, s, steps[0], m);
      EmptiedStep(w, s, steps[0], m);
      EmptiedRun(w, m, steps[1..], s');
    }
  }

  /** In every run, when a deallocation or abandonment removes its row, the VM is gone wherever provider, adapter and
      config are there to delete it, and the row is gone unless the removal raised without effect. */
  lemma RemovedNodeHasNoVm(w: World, s: State, steps: seq<Step>, s': State, f: FrameId, o: Outcome, s'': State)
    requires Started(w, s) && Run(w, s, steps) == Some(s') && Next(w, s', ReapRemove(f, o)) == Some(s'')
    ensures f in s'.reapers
    ensures var r := s'.reapers[f];
            && (r.row.cloud.Some? && HasAdapter(w, r.row.cloud.value) && r.row.externalId.Some? ==>
                  r.row.externalId.value !in s''.vms)
            && (r.n in s''.rows <==> r.n in s'.rows && o.RaisesClean?)
            && s''.rows - {r.n} == s'.rows - {r.n}
  {
    StartedInvariant(w, s);
    EmptiedRun(w, s, steps, s');
    hide Run, Started, Invariant, Next, HasAdapter;
    RemovingStates(w, s', f, o, s'');
  }

  lemma RemovingStates(w: World, s: State, f: FrameId, o: Outcome, s': State)
    requires Next(w, s, ReapRemove(f, o)) == Some(s')
    ensures f in s.reapers && s.reapers[f].pc.Removing? && s'.vms == s.vms
    ensures var n := s.reapers[f].n;
            && (n in s'.rows <==> n in s.rows && o.RaisesClean?)
            && s'.rows - {n} == s.rows - {n}
  {
    assert DoReapRemove(s, f, o) == Some(s');
    hide Next;
  }

  // ---- the provider that was picked ----

  lemma {:induction false} BestOfFirst(adapters: seq<Adapter>, configs: Configs, platforms: seq<string>, counts: Counts,
                                       n: nat) returns (i: nat)
    requires n <= |adapters| && exists j :: 0 <= j < n && Suitable(adapters[j], configs, platforms, counts)
    ensures i < n && Suitable(adapters[i], configs, platforms, counts)
    ensures forall j :: 0 <= j < n && Suitable(adapters[j], configs, platforms, counts) ==>
              if j < i then configs[adapters[j].name].priority < configs[adapters[i].name].priority
              else configs[adapters[j].name].priority <= configs[adapters[i].name].priority
  {
    if exists j :: 0 <= j < n - 1 && Suitable(adapters[j], configs, platforms, counts) {
      i := BestOfFirst(adapters, configs, platforms, counts, n - 1);
      if Suitable(adapters[n - 1], configs, platforms, counts)
         && configs[adapters[i].name].priority < configs[adapters[n - 1].name].priority {
        i := n - 1;
      }
    } else {
      i := n - 1;
    }
  }

  /** The counts that a call has read and not used yet. */
  ghost predicate CountsOf(s: State, f: FrameId, counts: Counts) {
    f in s.allocs && !s.allocs[f].pc.Queued? && !s.allocs[f].pc.AwaitLock? && !s.allocs[f].pc.Reading?
    && (s.allocs[f].pc.Counted? ==> s.allocs[f].counts == counts)
  }

  lemma LockKeepsCounts(w: World, s: State, step: Step, s': State, f: FrameId, counts: Counts)
    requires PhaseOf(step).Locking? && Next(w, s, step) == Some(s') && CountsOf(s, f, counts)
    ensures CountsOf(s', f, counts)
  {
    hide VmNext, FinishNext, OutsideNext, IsChoice, Throttled, Counting;
  }

  lemma InsertKeepsCounts(w: World, s: State, step: Step, s': State, f: FrameId, counts: Counts)
    requires (step.InsertTmp? || step.InsertLost?) && VmNext(w, s, step) == Some(s') && CountsOf(s, f, counts)
    ensures CountsOf(s', f, counts)
  {
    hide IsChoice, Selects;
  }

  lemma CreationKeepsCounts(w: World, s: State, step: Step, s': State, f: FrameId, counts: Counts)
    requires PhaseOf(step).Creation? && Next(w, s, step) == Some(s') && CountsOf(s, f, counts)
    ensures CountsOf(s', f, counts)
  {
    hide LockNext, FinishNext, OutsideNext, DoInsertTmp, DoInsertLost, Released;
    if step.InsertTmp? || step.InsertLost? {
      InsertKeepsCounts(w, s, step, s', f, counts);
    }
  }

  lemma CleanUpKeepsCounts(s: State, g: FrameId, o: Outcome, s': State, f: FrameId, counts: Counts)
    requires DoCleanUp(s, g, o) == Some(s') || DoCleanUpAgain(s, g, o) == Some(s')
    requires CountsOf(s, f, counts)
    ensures CountsOf(s', f, counts)
  {
  }

  lemma SetupKeepsCounts(s: State, step: Step, s': State, f: FrameId, counts: Counts)
    requires PhaseOf(step).Ending? && !step.CleanUp? && !step.CleanUpAgain? && FinishNext(s, step) == Some(s')
    requires CountsOf(s, f, counts)
    ensures CountsOf(s', f, counts)
  {
    hide DoCleanUp, DoCleanUpAgain, Released;
  }

  lemma EndKeepsCounts(w: World, s: State, step: Step, s': State, f: FrameId, counts: Counts)
    requires PhaseOf(step).Ending? && Next(w, s, step) == Some(s') && CountsOf(s, f, counts)
    ensures CountsOf(s', f, counts)
  {
    hide LockNext, VmNext, OutsideNext, CountsOf, DoCleanUp, DoCleanUpAgain;
    match step
    case CleanUp(g, o) => CleanUpKeepsCounts(s, g, o, s', f, counts);
    case CleanUpAgain(g, o) => CleanUpKeepsCounts(s, g, o, s', f, counts);
    case _ => SetupKeepsCounts(s, step, s', f, counts);
  }

  lemma StepKeepsCounts(w: World, s: State, step: Step, s': State, f: FrameId, counts: Counts)
    requires Next(w, s, step) == Some(s') && CountsOf(s, f, counts)
    ensures CountsOf(s', f, counts)
  {
    hide Next, CountsOf, LateFrame;
    match PhaseOf(step)
    case Locking => LockKeepsCounts(w, s, step, s', f, counts);
    case Creation => CreationKeepsCounts(w, s, step, s', f, counts);
    case Ending => EndKeepsCounts(w, s, step, s', f, counts);
    case Outside => OutsideKeepsCounts(w, s, step, s', f, counts);
  }

  lemma OutsideKeepsCounts(w: World, s: State, step: Step, s': State, f: FrameId, counts: Counts)
    requires PhaseOf(step).Outside? && Next(w, s, step) == Some(s') && CountsOf(s, f, counts)
    ensures CountsOf(s', f, counts)
  {
    hide Next, LateFrame;
    OutsideNeverLate(w, s, step, s', f);
  }

  lemma {:induction false} RunKeepsCounts(w: World, s: State, steps: seq<Step>, s': State, f: FrameId, counts: Counts)
    requires Run(w, s, steps) == Some(s') && CountsOf(s, f, counts)
    ensures CountsOf(s', f, counts)
    decreases |steps|
  {
    hide Next, CountsOf;
    if steps != [] {
      var m := Next(w, s, steps[0]).value;
      StepKeepsCounts(w, s, steps[0], m, f, counts);
      RunKeepsCounts(w, m, steps[1..], s', f, counts);
    }
  }

  /** Adapter j has a config, room beside these rows, and a platform. */
  ghost predicate Fits(w: World, rows: map<NodeId, NodeRow>, platforms: seq<string>, j: nat) {
    && j < |w.adapters| && w.adapters[j].name in w.configs
    && |CloudRows(rows, w.adapters[j].name)| < w.configs[w.adapters[j].name].maxNodes
    && exists x :: 0 <= x < |platforms| && Supports(w.adapters[j], platforms[x])
  }

  /** The first of highest priority among those that fit. */
  ghost predicate IsBest(w: World, rows: map<NodeId, NodeRow>, platforms: seq<string>, i: nat) {
    && Fits(w, rows, platforms, i)
    && forall j: nat :: Fits(w, rows, platforms, j) ==>
         var a, b := w.configs[w.adapters[j].name].priority, w.configs[w.adapters[i].name].priority;
         if j < i then a < b else a <= b
  }

  lemma FitsIsSuitable(w: World, rows: map<NodeId, NodeRow>, platforms: seq<string>, j: nat)
    requires j < |w.adapters|
    ensures Suitable(w.adapters[j], w.configs, platforms, Counting(rows)) <==> Fits(w, rows, platforms, j)
  {
    CountingCounts(rows, w.adapters[j].name);
    hide Counting, CloudRows;
  }

  lemma ChoiceIsBest(w: World, rows: map<NodeId, NodeRow>, platforms: seq<string>, i: nat)
    ensures IsChoice(w.adapters, w.configs, platforms, Counting(rows), i) <==> IsBest(w, rows, platforms, i)
  {
    hide Suitable, Counting;
    forall j: nat | j < |w.adapters|
      ensures Suitable(w.adapters[j], w.configs, platforms, Counting(rows)) <==> Fits(w, rows, platforms, j)
    {
      FitsIsSuitable(w, rows, platforms, j);
    }
  }

  lemma ReadingStates(w: World, s: State, f: FrameId, s': State)
    requires Next(w, s, ReadCounts(f)) == Some(s')
    ensures CountsOf(s', f, Counting(s.rows))
  {
    hide Counting;
    assert DoReadCounts(s, f) == Some(s');
  }

  lemma InsertingStates(w: World, s: State, f: FrameId, platforms: seq<string>, choice: nat, s': State)
    requires Next(w, s, InsertTmp(f, platforms, choice)) == Some(s')
    ensures AtPc(s, f, Counted) && IsChoice(w.adapters, w.configs, platforms, s.allocs[f].counts, choice)
    ensures Value(s.slots, w.adapters[choice].name) != 0
    ensures s'.rows == s.rows[s.nextNode := NodeRow(Some(w.adapters[choice].name), false, false, None)]
  {
    assert DoInsertTmp(w, s, f, platforms, choice) == Some(s');
  }

  lemma GivingUpStates(w: World, s: State, f: FrameId, platforms: seq<string>, s': State)
    requires Next(w, s, SelectNone(f, platforms)) == Some(s')
    ensures AtPc(s, f, Counted) && s'.rows == s.rows
    ensures forall i: nat :: IsChoice(w.adapters, w.configs, platforms, s.allocs[f].counts, i) ==>
              Throttled(s, w.adapters[i].name)
  {
    assert DoSelectNone(w, s, f, platforms) == Some(s');
  }

  /** From reading the table to the insert, whatever runs in between: the tmp row goes to the first provider of highest
      priority that had a config, room in the table that was read, and a platform, and that is not throttled now. */
  lemma PicksBestProvider(w: World, s: State, f: FrameId, s1: State, steps: seq<Step>, s2: State,
                          platforms: seq<string>, choice: nat, s3: State)
    requires Next(w, s, ReadCounts(f)) == Some(s1) && Run(w, s1, steps) == Some(s2)
    requires Next(w, s2, InsertTmp(f, platforms, choice)) == Some(s3)
    ensures IsBest(w, s.rows, platforms, choice) && Value(s2.slots, w.adapters[choice].name) != 0
    ensures s3.rows == s2.rows[s2.nextNode := NodeRow(Some(w.adapters[choice].name), false, false, None)]
  {
    hide Next, Run, Counting, IsBest;
    ReadingStates(w, s, f, s1);
    RunKeepsCounts(w, s1, steps, s2, f, Counting(s.rows));
    InsertingStates(w, s2, f, platforms, choice, s3);
    ChoiceIsBest(w, s.rows, platforms, choice);
  }

  /** A call gives up at the choice only if nothing fitted in the table that was read or the best provider is throttled,
      and then leaves the table alone. */
  lemma GivesUpForCause(w: World, s: State, f: FrameId, s1: State, steps: seq<Step>, s2: State, platforms: seq<string>,
                        s3: State)
    requires Next(w, s, ReadCounts(f)) == Some(s1) && Run(w, s1, steps) == Some(s2)
    requires Next(w, s2, SelectNone(f, platforms)) == Some(s3)
    ensures s3.rows == s2.rows
    ensures (forall j: nat :: !Fits(w, s.rows, platforms, j))
            || exists i: nat :: IsBest(w, s.rows, platforms, i) && Throttled(s2, w.adapters[i].name)
  {
    hide Next, Run, Counting, IsBest, Throttled;
    ReadingStates(w, s, f, s1);
    RunKeepsCounts(w, s1, steps, s2, f, Counting(s.rows));
    GivingUpStates(w, s2, f, platforms, s3);
    if j: nat :| Fits(w, s.rows, platforms, j) {
      FitsIsSuitable(w, s.rows, platforms, j);
      hide Fits, Suitable;
      var i := BestOfFirst(w.adapters, w.configs, platforms, Counting(s.rows), |w.adapters|);
      assert IsChoice(w.adapters, w.configs, platforms, Counting(s.rows), i);
      ChoiceIsBest(w, s.rows, platforms, i);
    }
  }
}
