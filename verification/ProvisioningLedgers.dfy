/** Provisioning seen from one VM, one row and one tracker entry: over every run each of them goes through a life of its
    own, written by the events that concern it and by nothing else. */
module ProvisioningLedgers {
  import opened Prelude
  import opened ProviderSelection
  import opened Provisioning
  import opened ProvisioningSafety
  import opened ProvisioningProtocol
  import opened ProvisioningTheorems

  // ---- VMs ----

  /** VMs that a step starts, that cease to exist by it, that it reports by id, and that it reports by label. */
  datatype Fate = Fate(started: set<VmId>, gone: set<VmId>, reported: set<VmId>, labelled: set<VmId>)

  const UNTOUCHED: Fate := Fate({}, {}, {}, {})

  function Both(a: Fate, b: Fate): Fate {
    Fate(a.started + b.started, a.gone + b.gone, a.reported + b.reported, a.labelled + b.labelled)
  }

  /** The VM the call answers for. */
  ghost function HeldBy(s: State, f: FrameId): set<VmId> {
    if f in s.allocs && s.allocs[f].vm.Some? then {s.allocs[f].vm.value} else {}
  }

  /** The VM named by the node a deallocator or abandoner was given. */
  ghost function GivenTo(s: State, f: FrameId): set<VmId> {
    if f in s.reapers && s.reapers[f].row.externalId.Some? then {s.reapers[f].row.externalId.value} else {}
  }

  /** A delete that returns leaves no VM and no report; one that raises reports the VM, gone or not. */
  function DeleteFate(vm: set<VmId>, d: Deletion): Fate {
    match d
    case Confirmed => UNTOUCHED.(gone := vm)
    case RaisesGone => UNTOUCHED.(gone := vm, reported := vm)
    case RaisesLive => UNTOUCHED.(reported := vm)
  }

  ghost function FateOf(s: State, step: Step): Fate {
    match step
    case VmStarts(_) => UNTOUCHED.(started := {s.nextVm})
    case CreateAborted(f, d) => DeleteFate(HeldBy(s, f), d)
    case CreateAmbiguous(f) => UNTOUCHED.(labelled := HeldBy(s, f))
    case Teardown(f, d) => DeleteFate(HeldBy(s, f), d)
    case UndoDelete(f, d) => DeleteFate(HeldBy(s, f), d)
    case ReapDelete(f) => UNTOUCHED.(gone := GivenTo(s, f))
    case ReapDeleteRaises(f, gone) => if gone then UNTOUCHED.(gone := GivenTo(s, f)) else UNTOUCHED
    case VmVanish(v) => UNTOUCHED.(gone := {v} * s.vms)
    case _ => UNTOUCHED
  }

  ghost function FateOfRun(w: World, s: State, steps: seq<Step>): Fate
    decreases |steps|
  {
    if steps == [] || Next(w, s, steps[0]).None? then UNTOUCHED
    else Both(FateOf(s, steps[0]), FateOfRun(w, Next(w, s, steps[0]).value, steps[1..]))
  }

  ghost predicate Follows(s: State, s': State, fate: Fate) {
    && s'.vms == (s.vms + fate.started) - fate.gone
    && s'.leaks == s.leaks + fate.reported && s'.labels == s.labels + fate.labelled
  }

  predicate SameVms(s: State, s': State) {
    s'.vms == s.vms && s'.leaks == s.leaks && s'.labels == s.labels
  }

  lemma LockSpares(w: World, s: State, step: Step, s': State)
    requires PhaseOf(step).Locking? && Next(w, s, step) == Some(s')
    ensures SameVms(s, s')
  {
    hide VmNext, FinishNext, OutsideNext, IsChoice, Throttled, Counting;
  }

  lemma CreationSpares(w: World, s: State, step: Step, s': State)
    requires PhaseOf(step).Creation? && !step.VmStarts? && !step.CreateAborted? && !step.CreateAmbiguous?
    requires Next(w, s, step) == Some(s')
    ensures SameVms(s, s')
  {
    hide LockNext, FinishNext, OutsideNext, IsChoice;
  }

  lemma CleanUpSpares(s: State, f: FrameId, o: Outcome, s': State)
    requires DoCleanUp(s, f, o) == Some(s') || DoCleanUpAgain(s, f, o) == Some(s')
    ensures SameVms(s, s')
  {
  }

  lemma EndSpares(w: World, s: State, step: Step, s': State)
    requires PhaseOf(step).Ending? && !step.Teardown? && !step.UndoDelete? && Next(w, s, step) == Some(s')
    ensures SameVms(s, s')
  {
    hide LockNext, VmNext, OutsideNext, Released, DoCleanUp, DoCleanUpAgain, DoTeardown, DoUndoDelete;
    match step
    case CleanUp(f, o) => CleanUpSpares(s, f, o, s');
    case CleanUpAgain(f, o) => CleanUpSpares(s, f, o, s');
    case _ =>
  }

  lemma RemovalSpares(s: State, f: FrameId, o: Outcome, s': State)
    requires DoReapRemove(s, f, o) == Some(s')
    ensures SameVms(s, s')
  {
  }

  lemma ReaperSpares(w: World, s: State, step: Step, s': State)
    requires ReaperOf(step).Some? && !step.ReapDelete? && !step.ReapDeleteRaises? && Next(w, s, step) == Some(s')
    ensures SameVms(s, s')
  {
    hide LockNext, VmNext, FinishNext, HasAdapter, DoReapDelete, DoReapDeleteRaises, DoReapRemove, DoOtherDiscard,
         DoDisable, DoCliAdd, DoCliEnable, DoCliRemove, DoVmVanish;
    match step
    case ReapRemove(f, o) => RemovalSpares(s, f, o, s');
    case _ =>
  }

  lemma OutsideSpares(w: World, s: State, step: Step, s': State)
    requires PhaseOf(step).Outside? && !step.ReapDelete? && !step.ReapDeleteRaises? && !step.VmVanish?
    requires Next(w, s, step) == Some(s')
    ensures SameVms(s, s')
  {
    hide LockNext, VmNext, FinishNext, DoReap, DoReapAborts, DoReapStatic, DoReapDisable, DoReapNoDelete, DoReapDelete,
         DoReapDeleteRaises, DoReapRemove;
    if ReaperOf(step).Some? {
      ReaperSpares(w, s, step, s');
    }
  }

  lemma VmStartsFate(w: World, s: State, f: FrameId, s': State)
    requires Next(w, s, VmStarts(f)) == Some(s')
    ensures Follows(s, s', FateOf(s, VmStarts(f)))
  {
  }

  lemma CreateAbortedFate(w: World, s: State, f: FrameId, d: Deletion, s': State)
    requires Next(w, s, CreateAborted(f, d)) == Some(s')
    ensures Follows(s, s', FateOf(s, CreateAborted(f, d)))
  {
  }

  lemma CreateAmbiguousFate(w: World, s: State, f: FrameId, s': State)
    requires Next(w, s, CreateAmbiguous(f)) == Some(s')
    ensures Follows(s, s', FateOf(s, CreateAmbiguous(f)))
  {
  }

  lemma TeardownFate(w: World, s: State, f: FrameId, d: Deletion, s': State)
    requires Next(w, s, Teardown(f, d)) == Some(s')
    ensures Follows(s, s', FateOf(s, Teardown(f, d)))
  {
  }

  lemma UndoDeleteFate(w: World, s: State, f: FrameId, d: Deletion, s': State)
    requires Next(w, s, UndoDelete(f, d)) == Some(s')
    ensures Follows(s, s', FateOf(s, UndoDelete(f, d)))
  {
  }

  lemma ReapDeleteFate(w: World, s: State, f: FrameId, s': State)
    requires Next(w, s, ReapDelete(f)) == Some(s')
    ensures Follows(s, s', FateOf(s, ReapDelete(f)))
  {
    hide HasAdapter;
  }

  lemma ReapDeleteRaisesFate(w: World, s: State, f: FrameId, gone: bool, s': State)
    requires Next(w, s, ReapDeleteRaises(f, gone)) == Some(s')
    ensures Follows(s, s', FateOf(s, ReapDeleteRaises(f, gone)))
  {
    hide HasAdapter;
  }

  lemma VmVanishFate(w: World, s: State, v: VmId, s': State)
    requires Next(w, s, VmVanish(v)) == Some(s')
    ensures Follows(s, s', FateOf(s, VmVanish(v)))
  {
  }

  predicate ConcernsVm(step: Step) {
    step.VmStarts? || step.CreateAborted? || step.CreateAmbiguous? || step.Teardown? || step.UndoDelete?
    || step.ReapDelete? || step.ReapDeleteRaises? || step.VmVanish?
  }

  lemma OthersSpare(w: World, s: State, step: Step, s': State)
    requires !ConcernsVm(step) && Next(w, s, step) == Some(s')
    ensures SameVms(s, s')
  {
    hide Next, SameVms, PhaseOf;
    match PhaseOf(step)
    case Locking => LockSpares(w, s, step, s');
    case Creation => CreationSpares(w, s, step, s');
    case Ending => EndSpares(w, s, step, s');
    case Outside => OutsideSpares(w, s, step, s');
  }

  lemma SameFollows(s: State, s': State, step: Step)
    requires !ConcernsVm(step) && SameVms(s, s')
    ensures Follows(s, s', FateOf(s, step))
  {
  }

  lemma ConcernedFate(w: World, s: State, step: Step, s': State)
    requires ConcernsVm(step) && Next(w, s, step) == Some(s')
    ensures Follows(s, s', FateOf(s, step))
  {
    hide Next, Follows, FateOf;
    match step
    case VmStarts(f) => VmStartsFate(w, s, f, s');
    case CreateAborted(f, d) => CreateAbortedFate(w, s, f, d, s');
    case CreateAmbiguous(f) => CreateAmbiguousFate(w, s, f, s');
    case Teardown(f, d) => TeardownFate(w, s, f, d, s');
    case UndoDelete(f, d) => UndoDeleteFate(w, s, f, d, s');
    case ReapDelete(f) => ReapDeleteFate(w, s, f, s');
    case ReapDeleteRaises(f, gone) => ReapDeleteRaisesFate(w, s, f, gone, s');
    case VmVanish(v) => VmVanishFate(w, s, v, s');
  }

  lemma StepFate(w: World, s: State, step: Step, s': State)
    requires Next(w, s, step) == Some(s')
    ensures Follows(s, s', FateOf(s, step))
  {
    hide Next, Follows, FateOf, ConcernsVm;
    if ConcernsVm(step) {
      ConcernedFate(w, s, step, s');
    } else {
      OthersSpare(w, s, step, s');
      SameFollows(s, s', step);
    }
  }

  lemma HeldIsOlder(w: World, s: State, f: FrameId)
    requires Structure(w, s)
    ensures forall v :: v in HeldBy(s, f) ==> v < s.nextVm
  {
    hide RowsOk, ReaperOk;
    if f in s.allocs {
      assert AllocOk(w, s, f);
    }
  }

  lemma GivenIsOlder(w: World, s: State, f: FrameId)
    requires Structure(w, s)
    ensures forall v :: v in GivenTo(s, f) ==> v < s.nextVm
  {
    hide RowsOk, AllocOk;
    if f in s.reapers {
      assert ReaperOk(s, f);
    }
  }

  ghost predicate OlderThan(fate: Fate, next: VmId) {
    (forall v :: v in fate.gone ==> v < next) && (forall v :: v in fate.started ==> v == next)
  }

  lemma OthersAreUntouched(s: State, step: Step)
    requires !ConcernsVm(step)
    ensures OlderThan(FateOf(s, step), s.nextVm)
  {
  }

  lemma DeleteIsOlder(w: World, s: State, f: FrameId, d: Deletion)
    requires Structure(w, s)
    ensures OlderThan(DeleteFate(HeldBy(s, f), d), s.nextVm)
  {
    HeldIsOlder(w, s, f);
    hide HeldBy, Structure;
  }

  lemma GoneIsOlder(w: World, s: State, f: FrameId)
    requires Structure(w, s)
    ensures OlderThan(UNTOUCHED.(gone := GivenTo(s, f)), s.nextVm)
  {
    GivenIsOlder(w, s, f);
    hide GivenTo, Structure;
  }

  lemma VanishedIsOlder(s: State, v: VmId)
    requires RowsOk(s)
    ensures OlderThan(UNTOUCHED.(gone := {v} * s.vms), s.nextVm)
  {
  }

  /** VMs are never started twice: what goes away by a step is older than what it starts. */
  lemma FateIsOlder(w: World, s: State, step: Step)
    requires Structure(w, s)
    ensures OlderThan(FateOf(s, step), s.nextVm)
  {
    assert RowsOk(s);
    hide Structure, RowsOk, HeldBy, GivenTo, DeleteFate;
    if ConcernsVm(step) {
      match step
      case CreateAborted(f, d) => DeleteIsOlder(w, s, f, d);
      case Teardown(f, d) => DeleteIsOlder(w, s, f, d);
      case UndoDelete(f, d) => DeleteIsOlder(w, s, f, d);
      case ReapDelete(f) => GoneIsOlder(w, s, f);
      case ReapDeleteRaises(f, _) => GoneIsOlder(w, s, f);
      case VmVanish(v) => VanishedIsOlder(s, v);
      case _ =>
    } else {
      OthersAreUntouched(s, step);
    }
  }

  lemma StepIssues(w: World, s: State, step: Step, s': State)
    requires Invariant(w, s) && Next(w, s, step) == Some(s')
    ensures s.nextVm <= s'.nextVm
  {
    hide Next, Structure, Protocol, RowsOk, Accounting, SlotsOk, CallMove, OutsideMove, MoveReady, CallReady;
    if PhaseOf(step) == Outside {
      Ready(w, s, if ReaperOf(step).Some? then ReaperOf(step).value else 0);
      OutsideStepMoves(w, s, step, s');
    } else {
      Ready(w, s, step.f);
      CallStepMoves(w, s, step, s');
    }
  }

  lemma FollowsBoth(s: State, m: State, s': State, a: Fate, b: Fate)
    requires Follows(s, m, a) && Follows(m, s', b)
    requires forall v :: v in b.started ==> v !in a.gone
    ensures Follows(s, s', Both(a, b))
  {
  }

  lemma {:induction false} RunFate(w: World, s: State, steps: seq<Step>, s': State)
    requires Invariant(w, s) && Run(w, s, steps) == Some(s')
    ensures Follows(s, s', FateOfRun(w, s, steps))
    ensures forall v :: v in FateOfRun(w, s, steps).started ==> v >= s.nextVm
    decreases |steps|
  {
    hide Next, Invariant, Structure, Protocol, SlotsOk, Follows, FateOf;
    if steps == [] {
      StaysUntouched(s);
    } else {
      var m := Next(w, s, steps[0]).value;
      StepFate(w, s, steps[0], m);
      StepKeeps(w, s, steps[0], m);
      RunFate(w, m, steps[1..], s');
      InvariantStructure(w, s);
      FateIsOlder(w, s, steps[0]);
      StepIssues(w, s, steps[0], m);
      FollowsBoth(s, m, s', FateOf(s, steps[0]), FateOfRun(w, m, steps[1..]));
    }
  }

  lemma StaysUntouched(s: State)
    ensures Follows(s, s, UNTOUCHED)
  {
  }

  lemma InvariantStructure(w: World, s: State)
    requires Invariant(w, s)
    ensures Structure(w, s)
  {
    hide Structure, Protocol, SlotsOk;
  }

  /** The books of VMs are exact in every run: those that exist are those at the start and those started since, without
      those whose delete returned or removed them; those reported are those whose delete raised. */
  lemma VmLedger(w: World, s: State, steps: seq<Step>, s': State)
    requires Started(w, s) && Run(w, s, steps) == Some(s')
    ensures var fate := FateOfRun(w, s, steps);
            && s'.vms == (s.vms + fate.started) - fate.gone
            && s'.leaks == s.leaks + fate.reported && s'.labels == s.labels + fate.labelled
  {
    StartedInvariant(w, s);
    RunFate(w, s, steps, s');
  }

  /** The call f deletes the VM it answers for, with this result. */
  predicate DeletesOwn(step: Step, f: FrameId, d: Deletion) {
    step == Teardown(f, d) || step == UndoDelete(f, d) || step == CreateAborted(f, d)
  }

  /** In every run: a delete that returns leaves the VM gone and reports nothing; one that raises reports it; no other
      VM is concerned, and the call answers for none any more. */
  lemma DeletesDelete(w: World, s: State, steps: seq<Step>, s': State, step: Step, f: FrameId, d: Deletion, s'': State)
    requires Started(w, s) && Run(w, s, steps) == Some(s') && Next(w, s', step) == Some(s'') && DeletesOwn(step, f, d)
    ensures f in s'.allocs && s'.allocs[f].vm.Some? && f in s''.allocs && s''.allocs[f].vm.None?
    ensures var v := s'.allocs[f].vm.value;
            && (d.Confirmed? ==> v !in s''.vms && s''.leaks == s'.leaks)
            && (d.RaisesGone? ==> v !in s''.vms && s''.leaks == s'.leaks + {v})
            && (d.RaisesLive? ==> s''.vms == s'.vms && s''.leaks == s'.leaks + {v})
            && s''.vms - {v} == s'.vms - {v}
  {
    StepFate(w, s', step, s'');
    DeleteLetsGo(w, s', step, f, d, s'');
    hide Next, Run, Started;
  }

  lemma DeleteLetsGo(w: World, s: State, step: Step, f: FrameId, d: Deletion, s': State)
    requires Next(w, s, step) == Some(s') && DeletesOwn(step, f, d)
    ensures f in s.allocs && s.allocs[f].vm.Some? && f in s'.allocs && s'.allocs[f].vm.None?
  {
    if step == Teardown(f, d) {
      assert DoTeardown(s, f, d) == Some(s');
    } else if step == UndoDelete(f, d) {
      assert DoUndoDelete(s, f, d) == Some(s');
    } else {
      assert DoCreateAborted(s, f, d) == Some(s');
    }
  }

  /** The step is a delete that raises, by the call that answers for the VM. */
  ghost predicate RaisesOn(s: State, step: Step, v: VmId) {
    match step
    case CreateAborted(f, d) => !d.Confirmed? && v in HeldBy(s, f)
    case Teardown(f, d) => !d.Confirmed? && v in HeldBy(s, f)
    case UndoDelete(f, d) => !d.Confirmed? && v in HeldBy(s, f)
    case _ => false
  }

  /** Some step of the run is a delete, by the call that answers for the VM, that raises. */
  ghost predicate DeleteRaised(w: World, s: State, steps: seq<Step>, v: VmId)
    decreases |steps|
  {
    steps != [] && Next(w, s, steps[0]).Some? &&
    (RaisesOn(s, steps[0], v) || DeleteRaised(w, Next(w, s, steps[0]).value, steps[1..], v))
  }

  lemma ReportedHere(s: State, step: Step, v: VmId)
    ensures v in FateOf(s, step).reported <==> RaisesOn(s, step, v)
  {
    hide HeldBy, GivenTo;
  }

  lemma {:induction false} ReportedMeansRaised(w: World, s: State, steps: seq<Step>, v: VmId)
    requires Run(w, s, steps).Some?
    ensures v in FateOfRun(w, s, steps).reported <==> DeleteRaised(w, s, steps, v)
    decreases |steps|
  {
    hide Next, FateOf, RaisesOn;
    if steps != [] {
      ReportedHere(s, steps[0], v);
      ReportedMeansRaised(w, Next(w, s, steps[0]).value, steps[1..], v);
    }
  }

  /** A VM is reported by id exactly when it was at the start or a delete of it has raised. */
  lemma ReportedIff(w: World, s: State, steps: seq<Step>, s': State, v: VmId)
    requires Started(w, s) && Run(w, s, steps) == Some(s')
    ensures v in s'.leaks <==> v in s.leaks || DeleteRaised(w, s, steps, v)
  {
    VmLedger(w, s, steps, s');
    ReportedMeansRaised(w, s, steps, v);
  }
}
