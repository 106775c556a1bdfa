/** When a task can be spawned again, and when two of its spawns can be in progress at once. */
module TaskStoreSpawns {
  import opened Prelude
  import opened TaskStore
  import opened TaskStoreSafety

  lemma {:induction false} RunConcat(s: State, a: seq<Step>, m: State, b: seq<Step>)
    requires Run(s, a) == Some(m)
    ensures Run(s, a + b) == Run(m, b)
    decreases |a|
  {
    hide Next;
    if a == [] {
      assert a + b == b;
    } else {
      RunConcat(Next(s, a[0]).value, a[1..], m, b);
      assert (a + b)[1..] == a[1..] + b;
    }
  }

  lemma RunOne(s: State, step: Step)
    ensures Run(s, [step]) == Next(s, step)
  {
    assert [step][1..] == [];
  }

  // ---- getting a claim to its spawn ----

  /** No open transaction is in the way of a claim of t on n. */
  ghost predicate Clear(s: State, t: TaskId, n: NodeId) {
    n in s.nodes && forall g :: g in s.frames ==> t !in s.frames[g].writes && n !in s.frames[g].drops
  }

  predicate IsSpawning(s: State, f: FrameId, t: TaskId) {
    AtPc(s, f, Claim, Spawning) && s.frames[f].task == t
  }

  lemma ClaimStates(s: State, f: FrameId, t: TaskId, n: NodeId, folder: string) returns (s1: State, s2: State)
    requires f !in s.frames && t in s.tasks && s.tasks[t].status.ToDo? && Clear(s, t, n)
    ensures DoStartClaim(s, f, t, n, folder) == Some(s1) && DoClaimSave(s1, f) == Some(s2)
    ensures IsSpawning(s2, f, t) && s2 == To(s, f, s2.frames[f]) && s2.frames[f].live && !s2.frames[f].spawned
  {
    s1 := DoStartClaim(s, f, t, n, folder).value;
    s2 := DoClaimSave(s1, f).value;
    assert s2 == To(s, f, s2.frames[f]);
  }

  /** With no lock in the way, a claim of a TO_DO task on an existing node reaches its spawn. */
  lemma ClaimReachesSpawn(s: State, f: FrameId, t: TaskId, n: NodeId, folder: string)
    returns (steps: seq<Step>, s': State)
    requires f !in s.frames && t in s.tasks && s.tasks[t].status.ToDo? && Clear(s, t, n)
    ensures Run(s, steps) == Some(s')
    ensures IsSpawning(s', f, t) && s' == To(s, f, s'.frames[f]) && s'.frames[f].live && !s'.frames[f].spawned
  {
    hide DoStartClaim, DoClaimSave, Run;
    var s1;
    s1, s' := ClaimStates(s, f, t, n, folder);
    assert Next(s, StartClaim(f, t, n, folder)) == Some(s1) && Next(s1, ClaimSave(f)) == Some(s');
    RunOne(s, StartClaim(f, t, n, folder));
    RunOne(s1, ClaimSave(f));
    RunConcat(s, [StartClaim(f, t, n, folder)], s1, [ClaimSave(f)]);
    steps := [StartClaim(f, t, n, folder)] + [ClaimSave(f)];
  }

  lemma SpawnReturnsTrue(s: State, f: FrameId, t: TaskId) returns (s': State)
    requires IsSpawning(s, f, t)
    ensures Run(s, [Spawned(f)]) == Some(s')
    ensures s' == To(s, f, s.frames[f].(pc := Committing, spawned := true))
  {
    RunOne(s, Spawned(f));
    s' := DoSpawned(s, f).value;
  }

  /** Everything but the transactions that lock t is as it was, and those keep what history records. */
  ghost predicate OnlyLockersFailed(s: State, s': State, t: TaskId) {
    && s'.tasks == s.tasks && s'.frames.Keys == s.frames.Keys
    && forall g :: g in s.frames ==>
         && s'.frames[g].spawned == s.frames[g].spawned && s'.frames[g].task == s.frames[g].task
         && s'.frames[g].kind == s.frames[g].kind
         && (t !in s.frames[g].writes ==> s'.frames[g] == s.frames[g])
  }

  lemma LockIsExclusive(s: State, g: FrameId, t: TaskId)
    requires Invariant(s) && g in s.frames && t in s.frames[g].writes
    ensures !Over(s.frames[g].pc)
    ensures forall h :: h in s.frames && h != g ==> t !in s.frames[h].writes
  {
    hide RowsOk, WritesOk, DropsOk, ClaimOk, HardRemoveOk;
    assert FrameOk(s, s.frames[g]);
    forall h | h in s.frames && h != g ensures t !in s.frames[h].writes {
      assert Apart(s.frames[g], s.frames[h]);
    }
  }

  lemma FailLocker(s: State, g: FrameId, t: TaskId, n: NodeId) returns (s': State)
    requires g in s.frames && !Over(s.frames[g].pc) && t in s.frames[g].writes
    requires forall h :: h in s.frames && h != g ==> t !in s.frames[h].writes
    requires forall h :: h in s.frames ==> n !in s.frames[h].drops
    ensures Run(s, [Fail(g)]) == Some(s') && OnlyLockersFailed(s, s', t)
    ensures forall h :: h in s'.frames ==> t !in s'.frames[h].writes && n !in s'.frames[h].drops
    ensures s'.nodes == s.nodes && s'.nextNode == s.nextNode
  {
    RunOne(s, Fail(g));
    s' := DoFail(s, g).value;
  }

  /** The locks on a task can always be lost, and a node can always be added. */
  lemma ClearTheWay(s: State, t: TaskId) returns (steps: seq<Step>, s': State, n: NodeId)
    requires Invariant(s)
    ensures Run(s, steps) == Some(s') && Clear(s', t, n) && OnlyLockersFailed(s, s', t)
  {
    hide Run, Invariant, Next;
    n := s.nextNode;
    NewNodeIsFree(s);
    var s1 := s;
    if g :| g in s.frames && t in s.frames[g].writes {
      LockIsExclusive(s, g, t);
      s1 := FailLocker(s, g, t, n);
      steps := [Fail(g)];
    } else {
      RunNone(s);
      steps := [];
    }
    s' := AddNodeRuns(s1);
    RunConcat(s, steps, s1, [AddNode]);
    steps := steps + [AddNode];
  }

  lemma RunNone(s: State)
    ensures Run(s, []) == Some(s)
  {
  }

  lemma AddNodeRuns(s: State) returns (s': State)
    ensures Run(s, [AddNode]) == Some(s') && s'.frames == s.frames && s'.tasks == s.tasks && s.nextNode in s'.nodes
  {
    RunOne(s, AddNode);
    s' := DoAddNode(s).value;
  }

  lemma NewNodeIsFree(s: State)
    requires Invariant(s)
    ensures forall g :: g in s.frames ==> s.nextNode !in s.frames[g].drops
  {
    hide WritesOk, ClaimOk, HardRemoveOk, Apart;
    forall g | g in s.frames ensures s.nextNode !in s.frames[g].drops {
      assert FrameOk(s, s.frames[g]);
    }
  }

  // ---- when a further spawn can return True ----

  /** The task can be spawned no more: it is not TO_DO and nobody is spawning it. */
  ghost predicate Settled(s: State, t: TaskId) {
    t in s.tasks && !s.tasks[t].status.ToDo? && forall f :: !IsSpawning(s, f, t)
  }

  /** Only the save of a claim starts a spawn, and only a spawn in progress returns True. */
  lemma SpawnsFrom(s: State, step: Step, s': State, f: FrameId, t: TaskId)
    requires Next(s, step) == Some(s') && (f in s.frames && s.frames[f].spawned ==> s.frames[f].kind.Claim?)
    ensures IsSpawning(s', f, t) ==> IsSpawning(s, f, t) || step == ClaimSave(f)
    ensures f in SpawnedFor(s', t) ==> f in SpawnedFor(s, t) || IsSpawning(s, f, t)
  {
    hide RunOn, Finish, Abandon, Reject, SaveSucceeds, RemoveSucceeds, Cleared;
  }

  lemma OnlyClaimsSpawn(s: State, f: FrameId)
    requires Invariant(s)
    ensures f in s.frames && s.frames[f].spawned ==> s.frames[f].kind.Claim?
  {
    hide RowsOk, WritesOk, DropsOk, ClaimOk, HardRemoveOk, Apart;
    if f in s.frames {
      assert FrameOk(s, s.frames[f]);
    }
  }

  lemma ClaimSaveNeedsToDo(s: State, f: FrameId, s': State)
    requires Invariant(s) && DoClaimSave(s, f) == Some(s')
    ensures s.frames[f].task in s.tasks && s.tasks[s.frames[f].task].status.ToDo?
    ensures s'.frames[f].task == s.frames[f].task
  {
    assert FrameOk(s, s.frames[f]);
    hide Invariant;
  }

  lemma SettledStep(s: State, step: Step, s': State, t: TaskId)
    requires Invariant(s) && Settled(s, t) && Next(s, step) == Some(s') && Forward(s, s')
    ensures Settled(s', t)
    ensures forall f :: f in SpawnedFor(s', t) ==> f in SpawnedFor(s, t)
  {
    hide Invariant, SpawnedFor, DoClaimSave;
    if step.ClaimSave? {
      assert DoClaimSave(s, step.f) == Some(s');
      ClaimSaveNeedsToDo(s, step.f, s');
    }
    hide Next, IsSpawning;
    forall f ensures !IsSpawning(s', f, t) && (f in SpawnedFor(s', t) ==> f in SpawnedFor(s, t)) {
      OnlyClaimsSpawn(s, f);
      SpawnsFrom(s, step, s', f, t);
      if IsSpawning(s', f, t) {
        SpawningTask(s', f, t);
      }
    }
  }

  lemma SpawningTask(s: State, f: FrameId, t: TaskId)
    requires IsSpawning(s, f, t)
    ensures f in s.frames && s.frames[f].task == t
  {
  }

  lemma {:induction false} SettledRun(s: State, steps: seq<Step>, s': State, t: TaskId)
    requires Invariant(s) && Settled(s, t) && Run(s, steps) == Some(s')
    ensures forall f :: f in SpawnedFor(s', t) ==> f in SpawnedFor(s, t)
    decreases |steps|
  {
    hide Invariant, Settled, Next, SpawnedFor;
    if steps != [] {
      var middle := Next(s, steps[0]).value;
      StepKeeps(s, steps[0], middle);
      SettledStep(s, steps[0], middle, t);
      SettledRun(middle, steps[1..], s', t);
    }
  }

  ghost predicate SpawnsAnew(s: State, s': State, t: TaskId) {
    exists f :: f in SpawnedFor(s', t) && f !in SpawnedFor(s, t)
  }

  lemma SpawnAgain(s: State, t: TaskId) returns (steps: seq<Step>, s': State)
    requires Invariant(s) && t in s.tasks && (s.tasks[t].status.ToDo? || exists f :: IsSpawning(s, f, t))
    ensures Run(s, steps) == Some(s') && SpawnsAnew(s, s', t)
  {
    if f :| IsSpawning(s, f, t) {
      assert FrameOk(s, s.frames[f]);
      s' := SpawnReturnsTrue(s, f, t);
      steps := [Spawned(f)];
      assert f in SpawnedFor(s', t) && f !in SpawnedFor(s, t);
    } else {
      hide Run, Invariant;
      var first, s1, n := ClearTheWay(s, t);
      var f := FreshId(s1.frames.Keys);
      var second, s2 := ClaimReachesSpawn(s1, f, t, n, "");
      s' := SpawnReturnsTrue(s2, f, t);
      RunConcat(s, first, s1, second);
      RunConcat(s, first + second, s2, [Spawned(f)]);
      steps := first + second + [Spawned(f)];
      assert f !in s.frames && f in SpawnedFor(s', t);
    }
  }

  /** In every reachable state: some continuation has a further spawn of the task return True if and only if the task is
      still TO_DO in the table or a claim of it is still spawning, its connection dropped or not. */
  lemma FurtherSpawnIff(start: State, before: seq<Step>, s: State, t: TaskId)
    requires Initial(start) && Run(start, before) == Some(s) && t in s.tasks
    ensures (exists after, s' :: Run(s, after) == Some(s') && SpawnsAnew(s, s', t))
            <==> s.tasks[t].status.ToDo? || exists f :: IsSpawning(s, f, t)
  {
    assert Invariant(start);
    RunKeeps(start, before, s);
    if s.tasks[t].status.ToDo? || exists f :: IsSpawning(s, f, t) {
      var after, s' := SpawnAgain(s, t);
    } else {
      forall after, s' | Run(s, after) == Some(s') ensures !SpawnsAnew(s, s', t) {
        SettledRun(s, after, s', t);
      }
    }
  }

  /** Two True spawns of one task always come with a lost commit. */
  lemma SecondSpawnNeedsLoss(start: State, steps: seq<Step>, s: State, t: TaskId, f: FrameId, g: FrameId)
    requires Initial(start) && Run(start, steps) == Some(s)
    requires f in SpawnedFor(s, t) && g in SpawnedFor(s, t) && f != g
    ensures f in LostFor(s, t) || g in LostFor(s, t)
  {
    if f !in LostFor(s, t) && g !in LostFor(s, t) {
      OneWinnerPerTask(start, steps, s, f, g);
    }
  }

  /** A lost commit and a task that is still TO_DO are enough for a second True spawn. */
  lemma LostCommitSpawnsAgain(start: State, before: seq<Step>, s: State, t: TaskId, f: FrameId)
    returns (after: seq<Step>, s': State, g: FrameId)
    requires Initial(start) && Run(start, before) == Some(s)
    requires f in LostFor(s, t) && t in s.tasks && s.tasks[t].status.ToDo?
    ensures Run(s, after) == Some(s') && g in SpawnedFor(s', t) && g !in SpawnedFor(s, t)
  {
    assert Invariant(start);
    RunKeeps(start, before, s);
    after, s' := SpawnAgain(s, t);
    g :| g in SpawnedFor(s', t) && g !in SpawnedFor(s, t);
  }

  lemma ClaimAndSpawn(s: State, f: FrameId, t: TaskId, n: NodeId, folder: string) returns (steps: seq<Step>, s': State)
    requires f !in s.frames && t in s.tasks && s.tasks[t].status.ToDo? && Clear(s, t, n)
    ensures Run(s, steps) == Some(s')
    ensures AtPc(s', f, Claim, Committing)
    ensures s' == To(s, f, s'.frames[f]) && s'.frames[f].task == t && s'.frames[f].spawned && s'.frames[f].live
  {
    hide Run, Clear;
    var first, s1 := ClaimReachesSpawn(s, f, t, n, folder);
    s' := SpawnReturnsTrue(s1, f, t);
    RunConcat(s, first, s1, [Spawned(f)]);
    steps := first + [Spawned(f)];
    assert s' == To(s, f, s'.frames[f]);
  }

  /** From every TO_DO task on an existing node there is such a run: a lost commit, and two True spawns. */
  lemma LostCommitSpawnsTwice(s: State, t: TaskId, n: NodeId, folder: string) returns (steps: seq<Step>, s': State)
    requires Initial(s) && t in s.tasks && s.tasks[t].status.ToDo? && n in s.nodes
    ensures Run(s, steps) == Some(s') && SpawnedFor(s', t) == {0, 1} && LostFor(s', t) == {0}
  {
    hide Run, Next, RowsOk;
    var first, s1 := ClaimAndSpawn(s, 0, t, n, folder);
    var s2 := DoFail(s1, 0).value;
    FailRuns(s1, 0);
    RunConcat(s, first, s1, [Fail(0)]);
    var second;
    second, s' := ClaimAndSpawn(s2, 1, t, n, folder);
    RunConcat(s, first + [Fail(0)], s2, second);
    steps := first + [Fail(0)] + second;
  }

  lemma FailRuns(s: State, f: FrameId)
    requires DoFail(s, f).Some?
    ensures Run(s, [Fail(f)]) == DoFail(s, f)
  {
    RunOne(s, Fail(f));
  }

  // ---- spawns in progress ----

  ghost function SpawningFor(s: State, t: TaskId): set<FrameId> {
    set f | f in s.frames && IsSpawning(s, f, t)
  }

  /** Spawns whose connection, and with it the row lock, is gone without their knowing. */
  ghost function DroppedFor(s: State, t: TaskId): set<FrameId> {
    set f | f in SpawningFor(s, t) && !s.frames[f].live
  }

  /** At most one spawn of a task is in progress, plus one for every spawning claim whose connection was dropped. */
  lemma SpawnsInProgressBound(start: State, steps: seq<Step>, s: State, t: TaskId)
    requires Initial(start) && Run(start, steps) == Some(s)
    ensures |SpawningFor(s, t)| <= 1 + |DroppedFor(s, t)|
    ensures DroppedFor(s, t) == {} ==> forall f, g :: f in SpawningFor(s, t) && g in SpawningFor(s, t) ==> f == g
  {
    var live := SpawningFor(s, t) - DroppedFor(s, t);
    forall f, g | f in SpawningFor(s, t) && g in SpawningFor(s, t) && s.frames[f].live && s.frames[g].live
      ensures f == g
    {
      OneWinnerPerTask(start, steps, s, f, g);
    }
    AtMostOne(live);
    assert SpawningFor(s, t) == live + DroppedFor(s, t);
  }

  /** Once the connection of a spawning claim is dropped, a second claim of the task can be spawning beside it. */
  lemma DroppedSpawnOverlaps(start: State, before: seq<Step>, s: State, t: TaskId, f: FrameId)
    returns (after: seq<Step>, s': State, g: FrameId)
    requires Initial(start) && Run(start, before) == Some(s)
    requires f in DroppedFor(s, t) && t in s.tasks && s.tasks[t].status.ToDo?
    ensures Run(s, after) == Some(s') && f != g && f in SpawningFor(s', t) && g in SpawningFor(s', t)
  {
    assert Invariant(start);
    RunKeeps(start, before, s);
    assert FrameOk(s, s.frames[f]);
    hide Run, Invariant;
    var first, s1, n := ClearTheWay(s, t);
    g := FreshId(s1.frames.Keys);
    var second;
    second, s' := ClaimReachesSpawn(s1, g, t, n, "");
    RunConcat(s, first, s1, second);
    after := first + second;
    assert s'.frames[f] == s.frames[f];
  }

  /** Dropping the connection of a live spawning claim is itself such a case: the row lock goes, the task is TO_DO. */
  lemma DropMakesOverlapPossible(start: State, before: seq<Step>, s: State, t: TaskId, f: FrameId, s': State)
    requires Initial(start) && Run(start, before) == Some(s)
    requires f in SpawningFor(s, t) && s.frames[f].live && DoDropConnection(s, f) == Some(s')
    ensures f in DroppedFor(s', t) && t in s'.tasks && s'.tasks[t].status.ToDo?
  {
    OneWinnerPerTask(start, before, s, f, f);
  }
}
