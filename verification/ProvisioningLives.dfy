/** Provisioning seen from one row and from one tracker entry: in every run each goes through a life of its own, written
    by the events that concern it and by nothing else. */
module ProvisioningLives {
  import opened Prelude
  import opened ProviderSelection
  import opened Provisioning
  import opened ProvisioningSafety
  import opened ProvisioningProtocol
  import opened ProvisioningTheorems
  import T = Tracking

  // ---- one row ----

  datatype RowEvent = Reserved(p: Provider) | Identified(v: VmId) | SwitchedOff | SwitchedOn | Added | Dropped

  /** A node's row, if it has one, and whether it has been disabled or removed since it got its identity. */
  datatype NodeLife = NodeLife(row: Option<NodeRow>, retired: bool)

  function LifeAt(s: State, n: NodeId): NodeLife {
    NodeLife(if n in s.rows then Some(s.rows[n]) else None, n in s.retired)
  }

  /** Reserved for a provider without name; named, enabled and bound to a VM; disabled; gone. */
  function Live(life: NodeLife, e: RowEvent): NodeLife {
    match e
    case Reserved(p) => life.(row := Some(NodeRow(Some(p), false, false, None)))
    case Identified(v) =>
      if life.row.None? then life
      else NodeLife(Some(NodeRow(life.row.value.cloud, true, true, Some(v))), false)
    case SwitchedOff =>
      if life.row.None? then life else NodeLife(Some(life.row.value.(enabled := false)), true)
    case SwitchedOn =>
      if life.row.None? then life else life.(row := Some(life.row.value.(enabled := true)))
    case Added => life.(row := Some(NodeRow(None, true, false, None)))
    case Dropped => NodeLife(None, true)
  }

  predicate IsRowOf(s: State, f: FrameId, n: NodeId) {
    f in s.allocs && s.allocs[f].n == Some(n)
  }

  predicate IsGiven(s: State, f: FrameId, n: NodeId) {
    f in s.reapers && s.reapers[f].n == n
  }

  /** What a step does to node n. */
  ghost function OnNode(w: World, s: State, step: Step, n: NodeId): Option<RowEvent> {
    match step
    case InsertTmp(_, _, choice) =>
      if n == s.nextNode && choice < |w.adapters| then Some(Reserved(w.adapters[choice].name)) else None
    case InsertLost(_, _, choice) =>
      if n == s.nextNode && choice < |w.adapters| then Some(Reserved(w.adapters[choice].name)) else None
    case Persist(f) => if IsRowOf(s, f, n) && s.allocs[f].vm.Some? then Some(Identified(s.allocs[f].vm.value)) else None
    case PersistLost(f) =>
      if IsRowOf(s, f, n) && s.allocs[f].vm.Some? then Some(Identified(s.allocs[f].vm.value)) else None
    case CleanUp(f, o) => if IsRowOf(s, f, n) && !o.RaisesClean? then Some(Dropped) else None
    case CleanUpAgain(f, o) => if IsRowOf(s, f, n) && !o.RaisesClean? then Some(Dropped) else None
    case ReapDisable(f) => if IsGiven(s, f, n) then Some(SwitchedOff) else None
    case ReapRemove(f, o) => if IsGiven(s, f, n) && !o.RaisesClean? then Some(Dropped) else None
    case Disable(m) => if m == n then Some(SwitchedOff) else None
    case CliAdd => if n == s.nextNode then Some(Added) else None
    case CliEnable(m) => if m == n then Some(SwitchedOn) else None
    case CliRemove(m) => if m == n then Some(Dropped) else None
    case _ => None
  }

  function LiveMaybe(life: NodeLife, e: Option<RowEvent>): NodeLife {
    if e.None? then life else Live(life, e.value)
  }

  /** The events of the run on node n, applied to the life it starts with. */
  ghost function LifeOfRun(w: World, s: State, steps: seq<Step>, n: NodeId, life: NodeLife): NodeLife
    decreases |steps|
  {
    if steps == [] || Next(w, s, steps[0]).None? then life
    else
      LifeOfRun(w, Next(w, s, steps[0]).value, steps[1..], n, LiveMaybe(life, OnNode(w, s, steps[0], n)))
  }

  predicate ConcernsRows(step: Step) {
    step.InsertTmp? || step.InsertLost? || step.Persist? || step.PersistLost? || step.CleanUp? || step.CleanUpAgain?
    || step.ReapDisable? || step.ReapRemove? || step.Disable? || step.CliAdd? || step.CliEnable? || step.CliRemove?
  }

  predicate SameRows(s: State, s': State) {
    s'.rows == s.rows && s'.retired == s.retired
  }

  lemma LockSparesRows(w: World, s: State, step: Step, s': State)
    requires PhaseOf(step).Locking? && Next(w, s, step) == Some(s')
    ensures SameRows(s, s')
  {
    hide VmNext, FinishNext, OutsideNext, IsChoice, Throttled, Counting;
  }

  lemma CreationSparesRows(w: World, s: State, step: Step, s': State)
    requires PhaseOf(step).Creation? && !ConcernsRows(step) && Next(w, s, step) == Some(s')
    ensures SameRows(s, s')
  {
    hide LockNext, FinishNext, OutsideNext, IsChoice;
  }

  lemma EndSparesRows(w: World, s: State, step: Step, s': State)
    requires PhaseOf(step).Ending? && !ConcernsRows(step) && Next(w, s, step) == Some(s')
    ensures SameRows(s, s')
  {
    hide LockNext, VmNext, OutsideNext, Released, DoPersist, DoPersistLost, DoCleanUp, DoCleanUpAgain;
  }

  lemma OutsideSparesRows(w: World, s: State, step: Step, s': State)
    requires PhaseOf(step).Outside? && !ConcernsRows(step) && Next(w, s, step) == Some(s')
    ensures SameRows(s, s')
  {
    hide LockNext, VmNext, FinishNext, HasAdapter, Removed, Disabled;
  }

  lemma OthersSpareRows(w: World, s: State, step: Step, s': State)
    requires !ConcernsRows(step) && Next(w, s, step) == Some(s')
    ensures SameRows(s, s')
  {
    hide Next, SameRows, PhaseOf, ConcernsRows;
    match PhaseOf(step)
    case Locking => LockSparesRows(w, s, step, s');
    case Creation => CreationSparesRows(w, s, step, s');
    case Ending => EndSparesRows(w, s, step, s');
    case Outside => OutsideSparesRows(w, s, step, s');
  }

  /** The step does to node n what its event says. */
  ghost predicate LivesOn(w: World, s: State, step: Step, s': State, n: NodeId) {
    LifeAt(s', n) == LiveMaybe(LifeAt(s, n), OnNode(w, s, step, n))
  }

  lemma SameLife(w: World, s: State, step: Step, s': State, n: NodeId)
    requires !ConcernsRows(step) && SameRows(s, s')
    ensures LivesOn(w, s, step, s', n)
  {
  }

  lemma InsertTmpLife(w: World, s: State, f: FrameId, platforms: seq<string>, choice: nat, n: NodeId, s': State)
    requires DoInsertTmp(w, s, f, platforms, choice) == Some(s')
    ensures LivesOn(w, s, InsertTmp(f, platforms, choice), s', n)
  {
    hide Suitable;
  }

  lemma InsertLostLife(w: World, s: State, f: FrameId, platforms: seq<string>, choice: nat, n: NodeId, s': State)
    requires DoInsertLost(w, s, f, platforms, choice) == Some(s')
    ensures LivesOn(w, s, InsertLost(f, platforms, choice), s', n)
  {
    hide Suitable;
  }

  lemma PersistLife(w: World, s: State, f: FrameId, n: NodeId, s': State)
    requires MoveReady(w, s, f) && DoPersist(s, f) == Some(s')
    ensures LivesOn(w, s, Persist(f), s', n)
  {
    hide RowsOk, HasAdapter;
  }

  lemma PersistLostLife(w: World, s: State, f: FrameId, n: NodeId, s': State)
    requires MoveReady(w, s, f) && DoPersistLost(s, f) == Some(s')
    ensures LivesOn(w, s, PersistLost(f), s', n)
  {
    hide RowsOk, HasAdapter;
  }

  lemma CleanUpLife(w: World, s: State, f: FrameId, o: Outcome, n: NodeId, s': State)
    requires DoCleanUp(s, f, o) == Some(s')
    ensures LivesOn(w, s, CleanUp(f, o), s', n)
  {
  }

  lemma CleanUpAgainLife(w: World, s: State, f: FrameId, o: Outcome, n: NodeId, s': State)
    requires DoCleanUpAgain(s, f, o) == Some(s')
    ensures LivesOn(w, s, CleanUpAgain(f, o), s', n)
  {
  }

  lemma ReapDisableLife(w: World, s: State, f: FrameId, n: NodeId, s': State)
    requires DoReapDisable(s, f) == Some(s')
    ensures LivesOn(w, s, ReapDisable(f), s', n)
  {
  }

  lemma ReapRemoveLife(w: World, s: State, f: FrameId, o: Outcome, n: NodeId, s': State)
    requires DoReapRemove(s, f, o) == Some(s')
    ensures LivesOn(w, s, ReapRemove(f, o), s', n)
  {
  }

  lemma DisableLife(w: World, s: State, m: NodeId, n: NodeId, s': State)
    requires DoDisable(s, m) == Some(s')
    ensures LivesOn(w, s, Disable(m), s', n)
  {
  }

  lemma CliAddLife(w: World, s: State, n: NodeId, s': State)
    requires DoCliAdd(s) == Some(s')
    ensures LivesOn(w, s, CliAdd, s', n)
  {
  }

  lemma CliEnableLife(w: World, s: State, m: NodeId, n: NodeId, s': State)
    requires DoCliEnable(s, m) == Some(s')
    ensures LivesOn(w, s, CliEnable(m), s', n)
  {
  }

  lemma CliRemoveLife(w: World, s: State, m: NodeId, n: NodeId, s': State)
    requires DoCliRemove(s, m) == Some(s')
    ensures LivesOn(w, s, CliRemove(m), s', n)
  {
  }

  lemma CreationLife(w: World, s: State, step: Step, n: NodeId, s': State)
    requires PhaseOf(step).Creation? && ConcernsRows(step) && Next(w, s, step) == Some(s')
    ensures LivesOn(w, s, step, s', n)
  {
    hide LivesOn, LockNext, FinishNext, OutsideNext, DoInsertTmp, DoInsertLost;
    match step
    case InsertTmp(f, platforms, choice) => InsertTmpLife(w, s, f, platforms, choice, n, s');
    case InsertLost(f, platforms, choice) => InsertLostLife(w, s, f, platforms, choice, n, s');
  }

  lemma EndLife(w: World, s: State, step: Step, n: NodeId, s': State)
    requires PhaseOf(step).Ending? && ConcernsRows(step) && Next(w, s, step) == Some(s') && MoveReady(w, s, step.f)
    ensures LivesOn(w, s, step, s', n)
  {
    hide LivesOn, MoveReady, LockNext, VmNext, OutsideNext, DoPersist, DoPersistLost, DoCleanUp, DoCleanUpAgain;
    match step
    case Persist(f) => PersistLife(w, s, f, n, s');
    case PersistLost(f) => PersistLostLife(w, s, f, n, s');
    case CleanUp(f, o) => CleanUpLife(w, s, f, o, n, s');
    case CleanUpAgain(f, o) => CleanUpAgainLife(w, s, f, o, n, s');
  }

  lemma OutsideLife(w: World, s: State, step: Step, n: NodeId, s': State)
    requires PhaseOf(step).Outside? && ConcernsRows(step) && Next(w, s, step) == Some(s')
    ensures LivesOn(w, s, step, s', n)
  {
    hide LivesOn, LockNext, VmNext, FinishNext, DoReapDisable, DoReapRemove, DoDisable, DoCliAdd, DoCliEnable,
         DoCliRemove;
    match step
    case ReapDisable(f) => ReapDisableLife(w, s, f, n, s');
    case ReapRemove(f, o) => ReapRemoveLife(w, s, f, o, n, s');
    case Disable(m) => DisableLife(w, s, m, n, s');
    case CliAdd => CliAddLife(w, s, n, s');
    case CliEnable(m) => CliEnableLife(w, s, m, n, s');
    case CliRemove(m) => CliRemoveLife(w, s, m, n, s');
  }

  lemma ConcernedLife(w: World, s: State, step: Step, n: NodeId, s': State)
    requires Invariant(w, s) && ConcernsRows(step) && Next(w, s, step) == Some(s')
    ensures LivesOn(w, s, step, s', n)
  {
    hide Next, Structure, Protocol, SlotsOk, RowsOk, LivesOn, MoveReady, CallReady;
    if PhaseOf(step).Outside? {
      OutsideLife(w, s, step, n, s');
    } else if PhaseOf(step).Creation? {
      CreationLife(w, s, step, n, s');
    } else {
      Ready(w, s, step.f);
      EndLife(w, s, step, n, s');
    }
  }

  lemma StepLife(w: World, s: State, step: Step, n: NodeId, s': State)
    requires Invariant(w, s) && Next(w, s, step) == Some(s')
    ensures LivesOn(w, s, step, s', n)
  {
    hide Next, Invariant, LivesOn, ConcernsRows;
    if ConcernsRows(step) {
      ConcernedLife(w, s, step, n, s');
    } else {
      OthersSpareRows(w, s, step, s');
      SameLife(w, s, step, s', n);
    }
  }

  lemma {:induction false} RunLife(w: World, s: State, steps: seq<Step>, n: NodeId, s': State)
    requires Invariant(w, s) && Run(w, s, steps) == Some(s')
    ensures LifeAt(s', n) == LifeOfRun(w, s, steps, n, LifeAt(s, n))
    decreases |steps|
  {
    hide Next, Invariant, OnNode, LiveMaybe, LifeAt;
    if steps != [] {
      var m := Next(w, s, steps[0]).value;
      StepLife(w, s, steps[0], n, m);
      StepKeeps(w, s, steps[0], m);
      RunLife(w, m, steps[1..], n, s');
    }
  }

  /** In every run the row of a node is what its own events have made of it, whatever happens to all other nodes. */
  lemma NodeLedger(w: World, s: State, steps: seq<Step>, s': State, n: NodeId)
    requires Started(w, s) && Run(w, s, steps) == Some(s')
    ensures LifeAt(s', n) == LifeOfRun(w, s, steps, n, LifeAt(s, n))
  {
    StartedInvariant(w, s);
    RunLife(w, s, steps, n, s');
  }

  // ---- one tracker entry ----

  datatype EntryEvent = Claimed | LinkedTo(n: NodeId) | GivenBack | TakenAway | Abandoned(n: NodeId)

  /** A task's entry, if it has one, and whether somebody else has discarded it since it was added. */
  datatype EntryLife = EntryLife(entry: Option<Option<NodeId>>, discarded: bool)

  function EntryAt(s: State, t: TaskId): EntryLife {
    EntryLife(if t in s.tracker then Some(s.tracker[t]) else None, t in s.discards)
  }

  /** Added without node; linked to its node; released by the call itself, or taken away by a consumer, or by the
      abandonment of its node. */
  function Pass(life: EntryLife, e: EntryEvent): EntryLife {
    match e
    case Claimed => EntryLife(Some(None), false)
    case LinkedTo(n) => if life.entry.None? then life else life.(entry := Some(Some(n)))
    case GivenBack => life.(entry := None)
    case TakenAway => EntryLife(None, true)
    case Abandoned(n) => if life.entry == Some(Some(n)) then EntryLife(None, true) else life
  }

  predicate IsFor(s: State, f: FrameId, t: TaskId) {
    f in s.allocs && s.allocs[f].task == t
  }

  /** The abandonment, not the deallocation, of a node ends here. */
  function AbandonmentOf(s: State, f: FrameId): Option<EntryEvent> {
    if f in s.reapers && s.reapers[f].kind.Abandoner? then Some(Abandoned(s.reapers[f].n)) else None
  }

  /** What a step does to the entry of task t. */
  ghost function OnEntry(s: State, step: Step, t: TaskId): Option<EntryEvent> {
    match step
    case AddToTracker(f) => if IsFor(s, f, t) then Some(Claimed) else None
    case Link(f) => if IsFor(s, f, t) && s.allocs[f].n.Some? then Some(LinkedTo(s.allocs[f].n.value)) else None
    case FailUnderLock(f) => if IsFor(s, f, t) then Some(GivenBack) else None
    case SelectNone(f, _) => if IsFor(s, f, t) then Some(GivenBack) else None
    case InsertLost(f, _, _) => if IsFor(s, f, t) then Some(GivenBack) else None
    case DiscardEntry(f) => if IsFor(s, f, t) then Some(GivenBack) else None
    case OtherDiscard(task) => if task == t then Some(TakenAway) else None
    case ReapAborts(f) => AbandonmentOf(s, f)
    case ReapDeleteRaises(f, _) => AbandonmentOf(s, f)
    case ReapRemove(f, _) => AbandonmentOf(s, f)
    case _ => None
  }

  function PassMaybe(life: EntryLife, e: Option<EntryEvent>): EntryLife {
    if e.None? then life else Pass(life, e.value)
  }

  ghost function EntryOfRun(w: World, s: State, steps: seq<Step>, t: TaskId, life: EntryLife): EntryLife
    decreases |steps|
  {
    if steps == [] || Next(w, s, steps[0]).None? then life
    else EntryOfRun(w, Next(w, s, steps[0]).value, steps[1..], t, PassMaybe(life, OnEntry(s, steps[0], t)))
  }

  predicate ConcernsEntries(step: Step) {
    step.AddToTracker? || step.Link? || step.FailUnderLock? || step.SelectNone? || step.InsertLost?
    || step.DiscardEntry? || step.OtherDiscard? || step.ReapAborts? || step.ReapDeleteRaises? || step.ReapRemove?
  }

  predicate SameEntries(s: State, s': State) {
    s'.tracker == s.tracker && s'.discards == s.discards
  }

  lemma LockSparesEntries(w: World, s: State, step: Step, s': State)
    requires PhaseOf(step).Locking? && !ConcernsEntries(step) && Next(w, s, step) == Some(s')
    ensures SameEntries(s, s')
  {
    hide VmNext, FinishNext, OutsideNext, IsChoice, Throttled, Counting;
  }

  lemma CreationSparesEntries(w: World, s: State, step: Step, s': State)
    requires PhaseOf(step).Creation? && !ConcernsEntries(step) && Next(w, s, step) == Some(s')
    ensures SameEntries(s, s')
  {
    hide LockNext, FinishNext, OutsideNext, IsChoice;
  }

  lemma CleanUpSparesEntries(s: State, f: FrameId, o: Outcome, s': State)
    requires DoCleanUp(s, f, o) == Some(s') || DoCleanUpAgain(s, f, o) == Some(s')
    ensures SameEntries(s, s')
  {
  }

  lemma EndSparesEntries(w: World, s: State, step: Step, s': State)
    requires PhaseOf(step).Ending? && !ConcernsEntries(step) && Next(w, s, step) == Some(s')
    ensures SameEntries(s, s')
  {
    hide LockNext, VmNext, OutsideNext, Released, DoCleanUp, DoCleanUpAgain, DoDiscardEntry;
    match step
    case CleanUp(f, o) => CleanUpSparesEntries(s, f, o, s');
    case CleanUpAgain(f, o) => CleanUpSparesEntries(s, f, o, s');
    case _ =>
  }

  lemma OutsideSparesEntries(w: World, s: State, step: Step, s': State)
    requires PhaseOf(step).Outside? && !ConcernsEntries(step) && Next(w, s, step) == Some(s')
    ensures SameEntries(s, s')
  {
    hide LockNext, VmNext, FinishNext, HasAdapter;
  }

  lemma OthersSpareEntries(w: World, s: State, step: Step, s': State)
    requires !ConcernsEntries(step) && Next(w, s, step) == Some(s')
    ensures SameEntries(s, s')
  {
    hide Next, SameEntries, PhaseOf, ConcernsEntries;
    match PhaseOf(step)
    case Locking => LockSparesEntries(w, s, step, s');
    case Creation => CreationSparesEntries(w, s, step, s');
    case Ending => EndSparesEntries(w, s, step, s');
    case Outside => OutsideSparesEntries(w, s, step, s');
  }

  ghost predicate PassesOn(s: State, step: Step, s': State, t: TaskId) {
    EntryAt(s', t) == PassMaybe(EntryAt(s, t), OnEntry(s, step, t))
  }

  lemma SameEntry(s: State, step: Step, s': State, t: TaskId)
    requires !ConcernsEntries(step) && SameEntries(s, s')
    ensures PassesOn(s, step, s', t)
  {
  }

  lemma AddToTrackerPasses(w: World, s: State, f: FrameId, t: TaskId, s': State)
    requires DoAddToTracker(s, f) == Some(s')
    ensures PassesOn(s, AddToTracker(f), s', t)
  {
  }

  lemma LinkPasses(w: World, s: State, f: FrameId, t: TaskId, s': State)
    requires DoLink(s, f) == Some(s')
    ensures PassesOn(s, Link(f), s', t)
  {
  }

  lemma FailUnderLockPasses(w: World, s: State, f: FrameId, t: TaskId, s': State)
    requires DoFailUnderLock(s, f) == Some(s')
    ensures PassesOn(s, FailUnderLock(f), s', t)
  {
  }

  lemma SelectNonePasses(w: World, s: State, f: FrameId, platforms: seq<string>, t: TaskId, s': State)
    requires DoSelectNone(w, s, f, platforms) == Some(s')
    ensures PassesOn(s, SelectNone(f, platforms), s', t)
  {
    hide IsChoice, Throttled;
  }

  lemma InsertLostPasses(w: World, s: State, f: FrameId, platforms: seq<string>, choice: nat, t: TaskId, s': State)
    requires DoInsertLost(w, s, f, platforms, choice) == Some(s')
    ensures PassesOn(s, InsertLost(f, platforms, choice), s', t)
  {
    hide IsChoice;
  }

  lemma DiscardEntryPasses(w: World, s: State, f: FrameId, t: TaskId, s': State)
    requires DoDiscardEntry(s, f) == Some(s')
    ensures PassesOn(s, DiscardEntry(f), s', t)
  {
  }

  lemma OtherDiscardPasses(w: World, s: State, t: TaskId, u: TaskId, s': State)
    requires DoOtherDiscard(s, t) == Some(s')
    ensures PassesOn(s, OtherDiscard(t), s', u)
  {
  }

  lemma ReapAbortsPasses(w: World, s: State, f: FrameId, t: TaskId, s': State)
    requires DoReapAborts(s, f) == Some(s')
    ensures PassesOn(s, ReapAborts(f), s', t)
  {
  }

  lemma ReapDeleteRaisesPasses(w: World, s: State, f: FrameId, gone: bool, t: TaskId, s': State)
    requires DoReapDeleteRaises(w, s, f, gone) == Some(s')
    ensures PassesOn(s, ReapDeleteRaises(f, gone), s', t)
  {
    hide HasAdapter;
  }

  lemma ReapRemovePasses(w: World, s: State, f: FrameId, o: Outcome, t: TaskId, s': State)
    requires DoReapRemove(s, f, o) == Some(s')
    ensures PassesOn(s, ReapRemove(f, o), s', t)
  {
  }

  lemma LockingPasses(w: World, s: State, step: Step, t: TaskId, s': State)
    requires PhaseOf(step).Locking? && ConcernsEntries(step) && Next(w, s, step) == Some(s')
    ensures PassesOn(s, step, s', t)
  {
    hide PassesOn, VmNext, FinishNext, OutsideNext,
         DoAddToTracker, DoFailUnderLock, DoSelectNone;
    match step
    case AddToTracker(f) => AddToTrackerPasses(w, s, f, t, s');
    case FailUnderLock(f) => FailUnderLockPasses(w, s, f, t, s');
    case SelectNone(f, platforms) => SelectNonePasses(w, s, f, platforms, t, s');
  }

  lemma CreationPasses(w: World, s: State, step: Step, t: TaskId, s': State)
    requires PhaseOf(step).Creation? && ConcernsEntries(step) && Next(w, s, step) == Some(s')
    ensures PassesOn(s, step, s', t)
  {
    hide PassesOn, LockNext, FinishNext, OutsideNext,
         DoLink, DoInsertLost;
    match step
    case Link(f) => LinkPasses(w, s, f, t, s');
    case InsertLost(f, platforms, choice) => InsertLostPasses(w, s, f, platforms, choice, t, s');
  }

  lemma EndingPasses(w: World, s: State, step: Step, t: TaskId, s': State)
    requires PhaseOf(step).Ending? && ConcernsEntries(step) && Next(w, s, step) == Some(s')
    ensures PassesOn(s, step, s', t)
  {
    hide PassesOn, LockNext, VmNext, OutsideNext,
         DoDiscardEntry;
    match step
    case DiscardEntry(f) => DiscardEntryPasses(w, s, f, t, s');
  }

  lemma OutsidePasses(w: World, s: State, step: Step, t: TaskId, s': State)
    requires PhaseOf(step).Outside? && ConcernsEntries(step) && Next(w, s, step) == Some(s')
    ensures PassesOn(s, step, s', t)
  {
    hide PassesOn, LockNext, VmNext, FinishNext,
         DoOtherDiscard, DoReapAborts, DoReapDeleteRaises, DoReapRemove;
    match step
    case OtherDiscard(u) => OtherDiscardPasses(w, s, u, t, s');
    case ReapAborts(f) => ReapAbortsPasses(w, s, f, t, s');
    case ReapDeleteRaises(f, gone) => ReapDeleteRaisesPasses(w, s, f, gone, t, s');
    case ReapRemove(f, o) => ReapRemovePasses(w, s, f, o, t, s');
  }

  lemma StepPasses(w: World, s: State, step: Step, t: TaskId, s': State)
    requires Next(w, s, step) == Some(s')
    ensures PassesOn(s, step, s', t)
  {
    hide Next, PassesOn, ConcernsEntries, PhaseOf;
    if ConcernsEntries(step) {
      match PhaseOf(step)
      case Locking => LockingPasses(w, s, step, t, s');
      case Creation => CreationPasses(w, s, step, t, s');
      case Ending => EndingPasses(w, s, step, t, s');
      case Outside => OutsidePasses(w, s, step, t, s');
    } else {
      OthersSpareEntries(w, s, step, s');
      SameEntry(s, step, s', t);
    }
  }

  lemma {:induction false} RunPasses(w: World, s: State, steps: seq<Step>, t: TaskId, s': State)
    requires Run(w, s, steps) == Some(s')
    ensures EntryAt(s', t) == EntryOfRun(w, s, steps, t, EntryAt(s, t))
    decreases |steps|
  {
    hide Next, OnEntry, PassMaybe, EntryAt;
    if steps != [] {
      var m := Next(w, s, steps[0]).value;
      StepPasses(w, s, steps[0], t, m);
      RunPasses(w, m, steps[1..], t, s');
    }
  }

  /** In every run a task's entry is what its own events have made of it, whatever happens to all other tasks. */
  lemma EntryLedger(w: World, s: State, steps: seq<Step>, s': State, t: TaskId)
    requires Started(w, s) && Run(w, s, steps) == Some(s')
    ensures EntryAt(s', t) == EntryOfRun(w, s, steps, t, EntryAt(s, t))
  {
    RunPasses(w, s, steps, t, s');
  }

  // ---- abandonment ----

  /** The reaper f ends with this step, in whatever way. */
  ghost predicate Ends(s: State, s': State, f: FrameId) {
    f in s.reapers && f in s'.reapers && !s.reapers[f].pc.Reaped? && s'.reapers[f].pc.Reaped?
  }

  lemma CallSparesReapers(w: World, s: State, step: Step, s': State)
    requires Invariant(w, s) && Next(w, s, step) == Some(s') && PhaseOf(step) != Outside
    ensures s'.reapers == s.reapers
  {
    hide Next, Structure, Protocol, RowsOk, SlotsOk, CallMove, MoveReady, CallReady;
    Ready(w, s, step.f);
    CallStepMoves(w, s, step, s');
  }

  lemma OutsideEnds(w: World, s: State, step: Step, s': State, f: FrameId)
    requires Next(w, s, step) == Some(s') && PhaseOf(step) == Outside && Ends(s, s', f)
    ensures ReaperOf(step) == Some(f) && (step.ReapAborts? || step.ReapDeleteRaises? || step.ReapRemove?)
  {
    hide LockNext, VmNext, FinishNext, HasAdapter;
  }

  lemma EndsByItself(w: World, s: State, step: Step, s': State, f: FrameId)
    requires Invariant(w, s) && Next(w, s, step) == Some(s') && Ends(s, s', f)
    ensures ReaperOf(step) == Some(f) && (step.ReapAborts? || step.ReapDeleteRaises? || step.ReapRemove?)
  {
    hide Next, Invariant;
    if PhaseOf(step) != Outside {
      CallSparesReapers(w, s, step, s');
    } else {
      OutsideEnds(w, s, step, s', f);
    }
  }

  /** In every run, when the abandonment of a node ends, by success, abort or failed delete, no task is linked to the
      node any more and every other entry stays as it was; a deallocation leaves all entries alone. */
  lemma AbandonmentReleases(w: World, s: State, steps: seq<Step>, s': State, step: Step, s'': State, f: FrameId)
    requires Started(w, s) && Run(w, s, steps) == Some(s') && Next(w, s', step) == Some(s'') && Ends(s', s'', f)
    ensures var n, kind := s'.reapers[f].n, s'.reapers[f].kind;
            forall t :: t in s''.tracker
                        <==> t in s'.tracker && !(kind.Abandoner? && s'.tracker[t] == Some(n))
    ensures forall t :: t in s''.tracker ==> s''.tracker[t] == s'.tracker[t]
  {
    StartedInvariant(w, s);
    RunKeeps(w, s, steps, s');
    hide Invariant, Run, Started, Next;
    EndsByItself(w, s', step, s'', f);
    var n, kind := s'.reapers[f].n, s'.reapers[f].kind;
    forall t
      ensures t in s''.tracker <==> t in s'.tracker && !(kind.Abandoner? && s'.tracker[t] == Some(n))
      ensures t in s''.tracker ==> s''.tracker[t] == s'.tracker[t]
    {
      StepPasses(w, s', step, t, s'');
      EndsPass(s', step, s'', f, t);
    }
  }

  lemma EndsPass(s: State, step: Step, s': State, f: FrameId, t: TaskId)
    requires PassesOn(s, step, s', t) && Ends(s, s', f) && ReaperOf(step) == Some(f)
    requires step.ReapAborts? || step.ReapDeleteRaises? || step.ReapRemove?
    ensures t in s'.tracker
            <==> t in s.tracker && !(s.reapers[f].kind.Abandoner? && s.tracker[t] == Some(s.reapers[f].n))
    ensures t in s'.tracker ==> s'.tracker[t] == s.tracker[t]
  {
    assert OnEntry(s, step, t) == AbandonmentOf(s, f);
    assert t in s'.tracker <==> EntryAt(s', t).entry.Some?;
  }

  /** No entry is linked to a node whose abandonment is over. */
  ghost predicate Forgotten(s: State) {
    forall f, t :: f in s.reapers && s.reapers[f].kind.Abandoner? && s.reapers[f].pc.Reaped? && t in s.tracker ==>
      s.tracker[t] != Some(s.reapers[f].n)
  }

  lemma OutsideKeepsReaper(w: World, s: State, step: Step, s': State, f: FrameId)
    requires Next(w, s, step) == Some(s') && PhaseOf(step) == Outside && f in s'.reapers && s'.reapers[f].pc.Reaped?
    ensures f in s.reapers && s.reapers[f].n == s'.reapers[f].n && s.reapers[f].kind == s'.reapers[f].kind
  {
    hide LockNext, VmNext, FinishNext, HasAdapter;
  }

  lemma ReaperStands(w: World, s: State, step: Step, s': State, f: FrameId)
    requires Invariant(w, s) && Next(w, s, step) == Some(s') && f in s'.reapers && s'.reapers[f].pc.Reaped?
    ensures f in s.reapers && s.reapers[f].n == s'.reapers[f].n && s.reapers[f].kind == s'.reapers[f].kind
  {
    hide Next, Invariant;
    if PhaseOf(step) != Outside {
      CallSparesReapers(w, s, step, s');
    } else {
      OutsideKeepsReaper(w, s, step, s', f);
    }
  }

  /** Only its own call links a task to a node. */
  lemma OnlyLinkLinks(s: State, step: Step, s': State, t: TaskId)
    requires PassesOn(s, step, s', t) && t in s'.tracker && s'.tracker[t].Some?
    ensures (t in s.tracker && s.tracker[t] == s'.tracker[t])
            || (step.Link? && IsFor(s, step.f, t) && s.allocs[step.f].n == s'.tracker[t])
  {
    assert EntryAt(s', t).entry == Some(s'.tracker[t]);
  }

  lemma LinkIsEarly(w: World, s: State, g: FrameId, s': State)
    requires Next(w, s, Link(g)) == Some(s')
    ensures g in s.allocs && Unpersisted(s.allocs[g].pc)
  {
    assert DoLink(s, g) == Some(s');
  }

  /** It does so before anybody can abandon the node. */
  lemma LinksUnabandoned(w: World, s: State, step: Step, s': State, f: FrameId, t: TaskId)
    requires Structure(w, s) && Next(w, s, step) == Some(s') && PassesOn(s, step, s', t)
    requires f in s.reapers && t in s'.tracker && s'.tracker[t] == Some(s.reapers[f].n)
    ensures t in s.tracker && s.tracker[t] == s'.tracker[t]
  {
    hide Next, PassesOn, RowsOk, AllocOk, RowOk;
    OnlyLinkLinks(s, step, s', t);
    if step.Link? {
      LinkIsEarly(w, s, step.f, s');
    }
    assert ReaperOk(s, f);
  }

  lemma ForgottenStep(w: World, s: State, step: Step, s': State)
    requires Invariant(w, s) && Forgotten(s) && Next(w, s, step) == Some(s')
    ensures Forgotten(s')
  {
    hide Next, Structure, Protocol, SlotsOk, PassesOn;
    forall f, t | f in s'.reapers && s'.reapers[f].kind.Abandoner? && s'.reapers[f].pc.Reaped? && t in s'.tracker
      ensures s'.tracker[t] != Some(s'.reapers[f].n)
    {
      ReaperStands(w, s, step, s', f);
      StepPasses(w, s, step, t, s');
      if s.reapers[f].pc.Reaped? {
        if s'.tracker[t] == Some(s'.reapers[f].n) {
          assert Structure(w, s);
          LinksUnabandoned(w, s, step, s', f, t);
        }
      } else {
        EndsByItself(w, s, step, s', f);
        EndsPass(s, step, s', f, t);
      }
    }
  }

  lemma {:induction false} ForgottenRun(w: World, s: State, steps: seq<Step>, s': State)
    requires Invariant(w, s) && Forgotten(s) && Run(w, s, steps) == Some(s')
    ensures Forgotten(s')
    decreases |steps|
  {
    hide Next, Invariant, Forgotten;
    if steps != [] {
      var m := Next(w, s, steps[0]).value;
      ForgottenStep(w, s, steps[0], m);
      StepKeeps(w, s, steps[0], m);
      ForgottenRun(w, m, steps[1..], s');
    }
  }

  /** In every run, once a node has been abandoned no task is ever linked to it again: none is refused because of it. */
  lemma AbandonedNodesAreForgotten(w: World, s: State, steps: seq<Step>, s': State, f: FrameId, t: TaskId)
    requires Started(w, s) && Run(w, s, steps) == Some(s')
    requires f in s'.reapers && s'.reapers[f].kind.Abandoner? && s'.reapers[f].pc.Reaped? && t in s'.tracker
    ensures s'.tracker[t] != Some(s'.reapers[f].n)
  {
    StartedInvariant(w, s);
    ForgottenRun(w, s, steps, s');
  }
}
