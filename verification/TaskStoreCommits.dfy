/** What a committed transaction leaves in the tables, from the call that started it to its COMMIT. */
module TaskStoreCommits {
  import opened Prelude
  import opened TaskStore
  import opened TaskStoreSafety
  import opened TaskStoreSpawns

  // ---- one saved row ----

  /** From its start on the frame is to save this row of this task and nothing else. */
  ghost predicate Carries(s: State, f: FrameId, kind: Kind, t: TaskId, row: Row) {
    f in s.frames &&
    var fr := s.frames[f];
    && fr.kind == kind && fr.task == t && fr.next == row && fr.drops == {}
    && (fr.pc.Saving? || fr.pc.Spawning? || fr.pc.Committing? || Over(fr.pc))
    && (fr.pc.Saving? ==> fr.writes == map[])
    && (fr.live && (fr.pc.Spawning? || fr.pc.Committing?) ==> fr.writes == map[t := row])
  }

  /** The frame whose step it is. */
  function Mover(step: Step): Option<FrameId> {
    match step
    case Submit(_) => None
    case AddNode => None
    case _ => Some(step.f)
  }

  lemma OthersStand(s: State, step: Step, s': State, f: FrameId)
    requires Next(s, step) == Some(s') && Mover(step) != Some(f) && f in s.frames
    ensures f in s'.frames && s'.frames[f] == s.frames[f]
  {
    hide SaveSucceeds, RemoveSucceeds, Cleared, Visible;
  }

  lemma CarriesStep(s: State, step: Step, s': State, f: FrameId, kind: Kind, t: TaskId, row: Row)
    requires Carries(s, f, kind, t, row) && (kind.Claim? || kind.Finalise?) && Next(s, step) == Some(s')
    ensures Carries(s', f, kind, t, row)
  {
    hide SaveSucceeds, RemoveSucceeds, Cleared, Visible;
    if Mover(step) != Some(f) {
      OthersStand(s, step, s', f);
    } else {
      hide Unlocked;
    }
  }

  lemma {:induction false} CarriesRun(s: State, steps: seq<Step>, s': State, f: FrameId, kind: Kind, t: TaskId,
                                      row: Row)
    requires Carries(s, f, kind, t, row) && (kind.Claim? || kind.Finalise?) && Run(s, steps) == Some(s')
    ensures Carries(s', f, kind, t, row)
    decreases |steps|
  {
    hide Carries, Next;
    if steps != [] {
      var middle := Next(s, steps[0]).value;
      CarriesStep(s, steps[0], middle, f, kind, t, row);
      CarriesRun(middle, steps[1..], s', f, kind, t, row);
    }
  }

  /** The row is in the table, and the commit has touched nothing else. */
  ghost predicate StoresExactly(s: State, s': State, t: TaskId, row: Row) {
    s'.tasks == s.tasks[t := row] && s'.nodes == s.nodes
  }

  lemma CommitStores(s: State, f: FrameId, kind: Kind, t: TaskId, row: Row, s': State)
    requires Carries(s, f, kind, t, row) && Next(s, Commit(f)) == Some(s')
    ensures StoresExactly(s, s', t, row)
  {
  }

  /** Whatever happens between its start and its COMMIT, a finalising transaction stores the DONE row with the error and
      the folder it was given and the node that it read. */
  lemma FinaliseStores(s: State, f: FrameId, t: TaskId, error: Option<string>, folder: string, s1: State,
                       steps: seq<Step>, s2: State, s3: State)
    requires Next(s, StartFinalise(f, t, error, folder)) == Some(s1) && Run(s1, steps) == Some(s2)
    requires Next(s2, Commit(f)) == Some(s3)
    ensures s.tasks[t].status.Running?
    ensures StoresExactly(s2, s3, t, Row(Done, s.tasks[t].node, Some(folder), error))
  {
    var row := Row(Done, s.tasks[t].node, Some(folder), error);
    assert Carries(s1, f, Finalise, t, row);
    CarriesRun(s1, steps, s2, f, Finalise, t, row);
    CommitStores(s2, f, Finalise, t, row, s3);
  }

  lemma AbandonStores(s: State, f: FrameId, t: TaskId, s1: State, steps: seq<Step>, s2: State, s3: State)
    requires Next(s, StartAbandon(f, t)) == Some(s1) && Run(s1, steps) == Some(s2) && Next(s2, Commit(f)) == Some(s3)
    ensures s.tasks[t].status.Running?
    ensures StoresExactly(s2, s3, t, Row(Done, s.tasks[t].node, s.tasks[t].folder, Some("node is gone")))
  {
    var row := Row(Done, s.tasks[t].node, s.tasks[t].folder, Some("node is gone"));
    assert Carries(s1, f, Finalise, t, row);
    CarriesRun(s1, steps, s2, f, Finalise, t, row);
    CommitStores(s2, f, Finalise, t, row, s3);
  }

  lemma RejectStores(s: State, f: FrameId, t: TaskId, reason: string, s1: State, steps: seq<Step>, s2: State, s3: State)
    requires Next(s, StartReject(f, t, reason)) == Some(s1) && Run(s1, steps) == Some(s2)
    requires Next(s2, Commit(f)) == Some(s3)
    ensures s.tasks[t].status.ToDo?
    ensures StoresExactly(s2, s3, t, Row(Done, None, s.tasks[t].folder, Some(reason)))
  {
    var row := Row(Done, None, s.tasks[t].folder, Some(reason));
    assert Carries(s1, f, Finalise, t, row);
    CarriesRun(s1, steps, s2, f, Finalise, t, row);
    CommitStores(s2, f, Finalise, t, row, s3);
  }

  /** A claim that commits stores the RUNNING row with its node and folder, over a row that was TO_DO until then. */
  lemma ClaimStores(first: State, before: seq<Step>, s: State, f: FrameId, t: TaskId, n: NodeId, folder: string,
                    s1: State, steps: seq<Step>, s2: State, s3: State)
    requires Initial(first) && Run(first, before) == Some(s)
    requires Next(s, StartClaim(f, t, n, folder)) == Some(s1) && Run(s1, steps) == Some(s2)
    requires Next(s2, Commit(f)) == Some(s3)
    ensures t in s2.tasks && s2.tasks[t].status.ToDo?
    ensures StoresExactly(s2, s3, t, Row(Running, Some(n), Some(folder), None))
  {
    var row := Row(Running, Some(n), Some(folder), None);
    assert Carries(s1, f, Claim, t, row);
    CarriesRun(s1, steps, s2, f, Claim, t, row);
    CommitStores(s2, f, Claim, t, row, s3);
    hide Carries, StoresExactly, Next, Initial, Invariant;
    ClaimWasToDo(first, before, s, StartClaim(f, t, n, folder), s1, steps, s2, f, t, row);
  }

  lemma ClaimWasToDo(first: State, before: seq<Step>, s: State, step: Step, s1: State, steps: seq<Step>, s2: State,
                     f: FrameId, t: TaskId, row: Row)
    requires Initial(first) && Run(first, before) == Some(s) && Next(s, step) == Some(s1) && Run(s1, steps) == Some(s2)
    requires Carries(s2, f, Claim, t, row) && Next(s2, Commit(f)).Some?
    ensures t in s2.tasks && s2.tasks[t].status.ToDo?
  {
    assert Invariant(first);
    hide Next;
    RunKeeps(first, before, s);
    StepKeeps(s, step, s1);
    RunKeeps(s1, steps, s2);
    assert FrameOk(s2, s2.frames[f]);
    CommitNeedsLive(s2, f);
  }

  lemma CommitNeedsLive(s: State, f: FrameId)
    requires Next(s, Commit(f)).Some?
    ensures f in s.frames && s.frames[f].pc.Committing? && s.frames[f].live
  {
  }

  lemma FinaliseStates(s: State, f: FrameId, t: TaskId, error: Option<string>, folder: string)
    returns (s1: State, s2: State, s3: State)
    requires f !in s.frames && t in s.tasks && s.tasks[t].status.Running? && Check(s.tasks[t])
    requires Clear(s, t, s.tasks[t].node.value)
    ensures DoStartFinalise(s, f, t, error, folder) == Some(s1) && DoFinaliseSave(s1, f) == Some(s2)
    ensures DoCommit(s2, f) == Some(s3) && StoresExactly(s, s3, t, Row(Done, s.tasks[t].node, Some(folder), error))
  {
    s1 := DoStartFinalise(s, f, t, error, folder).value;
    s2 := DoFinaliseSave(s1, f).value;
    hide DoStartFinalise, DoFinaliseSave, Unlocked, Clear;
    s3 := DoCommit(s2, f).value;
  }

  /** With no lock in the way, finalising a RUNNING task goes through. */
  lemma FinaliseGoesThrough(s: State, f: FrameId, t: TaskId, error: Option<string>, folder: string)
    returns (steps: seq<Step>, s': State)
    requires f !in s.frames && t in s.tasks && s.tasks[t].status.Running? && Check(s.tasks[t])
    requires Clear(s, t, s.tasks[t].node.value)
    ensures Run(s, steps) == Some(s')
    ensures StoresExactly(s, s', t, Row(Done, s.tasks[t].node, Some(folder), error))
  {
    var s1, s2;
    s1, s2, s' := FinaliseStates(s, f, t, error, folder);
    hide DoStartFinalise, DoFinaliseSave, DoCommit, Clear, StoresExactly, Run;
    RunOne(s, StartFinalise(f, t, error, folder));
    RunOne(s1, FinaliseSave(f));
    RunOne(s2, Commit(f));
    RunConcat(s, [StartFinalise(f, t, error, folder)], s1, [FinaliseSave(f)]);
    RunConcat(s, [StartFinalise(f, t, error, folder)] + [FinaliseSave(f)], s2, [Commit(f)]);
    steps := [StartFinalise(f, t, error, folder)] + [FinaliseSave(f)] + [Commit(f)];
  }

  // ---- deleting a node ----

  ghost function WithoutNode(tasks: map<TaskId, Row>, n: NodeId): map<TaskId, Row> {
    map t | t in tasks :: if tasks[t].node == Some(n) then tasks[t].(node := None) else tasks[t]
  }

  ghost predicate ClearsAll(s: State, writes: map<TaskId, Row>, n: NodeId) {
    && (forall t :: t in writes <==> t in s.tasks && s.tasks[t].node == Some(n))
    && (forall t :: t in writes ==> writes[t] == s.tasks[t].(node := None))
  }

  /** Until its COMMIT the transaction clears exactly the references that the table holds. */
  ghost predicate Clears(s: State, f: FrameId, n: NodeId) {
    f in s.frames &&
    var fr := s.frames[f];
    && fr.kind.RemoveNode? && fr.node == n && (fr.pc.Removing? || fr.pc.Committing? || Over(fr.pc))
    && (fr.pc.Removing? ==> fr.writes == map[] && fr.drops == {})
    && (fr.live && fr.pc.Committing? ==> fr.drops == {n} && ClearsAll(s, fr.writes, n))
  }

  lemma ClearsOwnStep(s: State, step: Step, s': State, f: FrameId, n: NodeId)
    requires Clears(s, f, n) && Next(s, step) == Some(s') && Mover(step) == Some(f)
    ensures Clears(s', f, n)
  {
    hide SaveSucceeds;
  }

  /** The locks keep another commit away from the rows to clear, and from new references to the node. */
  lemma ClearsOtherCommit(s: State, g: FrameId, s': State, writes: map<TaskId, Row>, n: NodeId)
    requires DoCommit(s, g) == Some(s') && ClearsAll(s, writes, n)
    requires forall t :: t in writes ==> t !in s.frames[g].writes
    requires forall t :: t in s.frames[g].writes ==> s.frames[g].writes[t].node != Some(n)
    ensures ClearsAll(s', writes, n)
  {
    var others := s.frames[g].writes;
    assert s'.tasks == s.tasks + others;
    hide DoCommit;
  }

  lemma CommitMeetsNoLock(s: State, f: FrameId, g: FrameId, n: NodeId)
    requires Invariant(s) && f in s.frames && g in s.frames && f != g && s.frames[f].drops == {n}
    ensures forall t :: t in s.frames[f].writes ==> t !in s.frames[g].writes
    ensures forall t :: t in s.frames[g].writes ==> s.frames[g].writes[t].node != Some(n)
  {
    hide RowsOk, FrameOk;
    assert Apart(s.frames[f], s.frames[g]);
  }

  lemma NewRowClears(s: State, s': State, writes: map<TaskId, Row>, n: NodeId, row: Row)
    requires RowsOk(s) && s'.tasks == s.tasks[s.nextTask := row] && row.node.None? && ClearsAll(s, writes, n)
    ensures ClearsAll(s', writes, n)
  {
    assert s.nextTask !in s.tasks;
  }

  lemma ClearsOtherStep(s: State, step: Step, s': State, f: FrameId, n: NodeId)
    requires Invariant(s) && Clears(s, f, n) && Next(s, step) == Some(s') && Mover(step) != Some(f)
    ensures Clears(s', f, n)
  {
    OthersStand(s, step, s', f);
    var fr := s.frames[f];
    if fr.live && fr.pc.Committing? {
      hide Invariant, RowsOk, ClearsAll, Clears, SaveSucceeds, RemoveSucceeds, Cleared, Visible;
      if step.Commit? {
        CommitMeetsNoLock(s, f, step.f, n);
        ClearsOtherCommit(s, step.f, s', fr.writes, n);
      } else {
        TablesStand(s, step, s');
        ClearsOtherTables(s, step, s', fr.writes, n);
      }
    }
  }

  lemma ClearsOtherTables(s: State, step: Step, s': State, writes: map<TaskId, Row>, n: NodeId)
    requires Invariant(s) && ClearsAll(s, writes, n)
    requires if step.Submit? then s'.tasks == s.tasks[s.nextTask := Row(ToDo, None, step.folderOfTask, None)]
             else s'.tasks == s.tasks
    ensures ClearsAll(s', writes, n)
  {
    hide FrameOk;
    if step.Submit? {
      NewRowClears(s, s', writes, n, Row(ToDo, None, step.folderOfTask, None));
    }
  }

  /** Nothing but COMMIT changes an existing row; submitting adds a TO_DO row and nothing else. */
  lemma TablesStand(s: State, step: Step, s': State)
    requires Next(s, step) == Some(s') && !step.Commit?
    ensures if step.Submit? then s'.tasks == s.tasks[s.nextTask := Row(ToDo, None, step.folderOfTask, None)]
            else s'.tasks == s.tasks
    ensures if step.AddNode? then s'.nodes == s.nodes + {s.nextNode} else s'.nodes == s.nodes
  {
    hide SaveSucceeds, RemoveSucceeds, Cleared, Visible;
  }

  lemma {:induction false} ClearsRun(s: State, steps: seq<Step>, s': State, f: FrameId, n: NodeId)
    requires Invariant(s) && Clears(s, f, n) && Run(s, steps) == Some(s')
    ensures Invariant(s') && Clears(s', f, n)
    decreases |steps|
  {
    hide Invariant, Clears, Next;
    if steps != [] {
      var middle := Next(s, steps[0]).value;
      if Mover(steps[0]) == Some(f) {
        ClearsOwnStep(s, steps[0], middle, f, n);
      } else {
        ClearsOtherStep(s, steps[0], middle, f, n);
      }
      StepKeeps(s, steps[0], middle);
      ClearsRun(middle, steps[1..], s', f, n);
    }
  }

  lemma ClearsCommit(s: State, f: FrameId, n: NodeId, s': State)
    requires Clears(s, f, n) && Next(s, Commit(f)) == Some(s')
    ensures s'.tasks == WithoutNode(s.tasks, n) && s'.nodes == s.nodes - {n}
  {
  }

  /** A deletion that commits removes the node, clears the references to it and changes nothing else. */
  lemma NodeRemovalStores(first: State, before: seq<Step>, s: State, f: FrameId, n: NodeId, s1: State,
                          steps: seq<Step>, s2: State, s3: State)
    requires Initial(first) && Run(first, before) == Some(s)
    requires Next(s, StartRemove(f, n)) == Some(s1) && Run(s1, steps) == Some(s2) && Next(s2, Commit(f)) == Some(s3)
    ensures s3.tasks == WithoutNode(s2.tasks, n) && s3.nodes == s2.nodes - {n}
  {
    assert Invariant(first);
    assert Clears(s1, f, n);
    hide Invariant, Initial, Next, Clears, WithoutNode;
    RunKeeps(first, before, s);
    StepKeeps(s, StartRemove(f, n), s1);
    ClearsRun(s1, steps, s2, f, n);
    ClearsCommit(s2, f, n, s3);
  }

  // ---- hard removal leaves no task out ----

  /** Each listed task is still to be visited, being abandoned, abandoned by this transaction, or done already. */
  ghost predicate Visits(s: State, f: FrameId, ids: seq<TaskId>) {
    f in s.frames &&
    var fr := s.frames[f];
    && fr.kind.HardRemove? && !fr.pc.Listing?
    && (fr.live && !Over(fr.pc) ==>
          forall t :: t in ids ==>
            t in fr.todo || (fr.pc.Saving? && t == fr.task) || t in fr.writes
            || (t in s.tasks && s.tasks[t].status.Done?))
    && (fr.pc.Removing? || fr.pc.Committing? ==> fr.todo == [])
  }

  lemma ListVisits(s: State, f: FrameId, ids: seq<TaskId>, s': State)
    requires Next(s, List(f, ids)) == Some(s')
    ensures Visits(s', f, ids)
  {
    assert DoList(s, f, ids) == Some(s');
  }

  lemma VisitsOwnStep(s: State, step: Step, s': State, f: FrameId, ids: seq<TaskId>)
    requires Visits(s, f, ids) && HardRemoveOk(s, s.frames[f]) && Next(s, step) == Some(s') && Mover(step) == Some(f)
    ensures Visits(s', f, ids)
  {
    hide SaveSucceeds, RemoveSucceeds;
    var fr := s.frames[f];
    assert fr.todo != [] ==> forall t :: t in fr.todo <==> t == fr.todo[0] || t in fr.todo[1..];
  }

  lemma VisitsOtherStep(s: State, step: Step, s': State, f: FrameId, ids: seq<TaskId>)
    requires Visits(s, f, ids) && Next(s, step) == Some(s') && Mover(step) != Some(f) && Forward(s, s')
    ensures Visits(s', f, ids)
  {
    OthersStand(s, step, s', f);
    hide Next;
  }

  lemma {:induction false} VisitsRun(s: State, steps: seq<Step>, s': State, f: FrameId, ids: seq<TaskId>)
    requires Invariant(s) && Visits(s, f, ids) && Run(s, steps) == Some(s')
    ensures Invariant(s') && Visits(s', f, ids)
    decreases |steps|
  {
    hide RowsOk, Apart, Visits, Next, Forward, WritesOk, DropsOk, HardRemoveOk;
    if steps != [] {
      var middle := Next(s, steps[0]).value;
      StepKeeps(s, steps[0], middle);
      if Mover(steps[0]) == Some(f) {
        RemoverIsOk(s, f, ids);
        VisitsOwnStep(s, steps[0], middle, f, ids);
      } else {
        VisitsOtherStep(s, steps[0], middle, f, ids);
      }
      VisitsRun(middle, steps[1..], s', f, ids);
    }
  }

  lemma RemoverIsOk(s: State, f: FrameId, ids: seq<TaskId>)
    requires Invariant(s) && Visits(s, f, ids)
    ensures HardRemoveOk(s, s.frames[f])
  {
    assert FrameOk(s, s.frames[f]);
    hide RowsOk, Apart, WritesOk, DropsOk, HardRemoveOk;
  }

  /** Between the listing and the deletion every task that was RUNNING on the node is visited: when the deletion starts
      each of them is DONE in the table, or is DONE with the error in what the transaction is to commit. */
  lemma HardRemovalVisitsAll(first: State, before: seq<Step>, s: State, f: FrameId, ids: seq<TaskId>, s1: State,
                             steps: seq<Step>, s2: State, t: TaskId)
    requires Initial(first) && Run(first, before) == Some(s)
    requires Next(s, List(f, ids)) == Some(s1) && Run(s1, steps) == Some(s2)
    requires AtPc(s2, f, HardRemove, Removing) && s2.frames[f].live
    requires t in s.tasks && s.tasks[t].status.Running? && s.tasks[t].node == Some(s.frames[f].node)
    ensures t in s2.tasks
    ensures s2.tasks[t].status.Done?
            || (t in s2.frames[f].writes && s2.frames[f].writes[t].status.Done?
                && s2.frames[f].writes[t].error == Some("node is gone"))
  {
    assert Invariant(first);
    ListVisits(s, f, ids, s1);
    ListedHere(s, f, ids, s1, t);
    hide RowsOk, FrameOk, Apart, Next, Visits, HardRemoveOk, Listed, Initial;
    RunKeeps(first, before, s);
    StepKeeps(s, List(f, ids), s1);
    VisitsRun(s1, steps, s2, f, ids);
    RemoverIsOk(s2, f, ids);
    VisitedAtRemoval(s2, f, ids, t);
  }

  lemma ListedHere(s: State, f: FrameId, ids: seq<TaskId>, s': State, t: TaskId)
    requires Next(s, List(f, ids)) == Some(s') && f in s.frames
    requires t in s.tasks && s.tasks[t].status.Running? && s.tasks[t].node == Some(s.frames[f].node)
    ensures t in ids
  {
    assert DoList(s, f, ids) == Some(s');
  }

  lemma VisitedAtRemoval(s: State, f: FrameId, ids: seq<TaskId>, t: TaskId)
    requires Visits(s, f, ids) && HardRemoveOk(s, s.frames[f]) && t in ids
    requires AtPc(s, f, HardRemove, Removing) && s.frames[f].live
    ensures t in s.tasks
    ensures s.tasks[t].status.Done?
            || (t in s.frames[f].writes && s.frames[f].writes[t].status.Done?
                && s.frames[f].writes[t].error == Some("node is gone"))
  {
    assert t in s.frames[f].writes ==> Listed(s, t, s.frames[f].node);
  }

  // ---- progress ----

  lemma {:induction false} SeqOf(ids: set<TaskId>) returns (s: seq<TaskId>)
    ensures forall t :: t in s <==> t in ids
  {
    if ids == {} {
      s := [];
    } else {
      var t :| t in ids;
      var rest := SeqOf(ids - {t});
      s := [t] + rest;
    }
  }

  lemma ListingGoesOn(s: State, f: FrameId)
    requires AtPc(s, f, HardRemove, Listing)
    ensures exists ids :: Next(s, List(f, ids)).Some?
  {
    var running := set t | t in s.tasks && s.tasks[t].status.Running? && s.tasks[t].node == Some(s.frames[f].node);
    var ids := SeqOf(running);
    assert DoList(s, f, ids).Some?;
    hide DoList;
    assert Next(s, List(f, ids)).Some?;
  }

  /** A transaction that is not over can raise at any point; a spawn can return; a hard removal always finds a way
      through its list; and a COMMIT succeeds while the connection is up. Only saves and deletions wait for locks. */
  lemma TransactionsGoOn(s: State, f: FrameId)
    requires f in s.frames
    ensures !Over(s.frames[f].pc) ==> Next(s, Fail(f)).Some? && Next(s, DropConnection(f)).Some?
    ensures AtPc(s, f, Claim, Spawning) ==> Next(s, Spawned(f)).Some?
    ensures s.frames[f].pc.Committing? && s.frames[f].live ==> Next(s, Commit(f)).Some?
    ensures AtPc(s, f, HardRemove, Listing) ==> exists ids :: Next(s, List(f, ids)).Some?
    ensures AtPc(s, f, HardRemove, Reading) && s.frames[f].todo == [] ==> Next(s, AllAbandoned(f)).Some?
    ensures AtPc(s, f, HardRemove, Reading) && s.frames[f].todo != [] ==>
              Next(s, Skip(f)).Some? || Next(s, Read(f)).Some?
  {
    if AtPc(s, f, HardRemove, Listing) {
      ListingGoesOn(s, f);
    }
    hide SaveSucceeds, RemoveSucceeds, Cleared;
  }

  /** A task can be claimed or rejected exactly while it is TO_DO, finished or abandoned exactly while it is RUNNING. */
  lemma StartsAreLegal(s: State, f: FrameId, t: TaskId, n: NodeId, folder: string, error: Option<string>,
                       reason: string)
    requires f !in s.frames && t in s.tasks
    ensures Next(s, StartClaim(f, t, n, folder)).Some? <==> s.tasks[t].status.ToDo?
    ensures Next(s, StartReject(f, t, reason)).Some? <==> s.tasks[t].status.ToDo?
    ensures Next(s, StartFinalise(f, t, error, folder)).Some? <==> s.tasks[t].status.Running?
    ensures Next(s, StartAbandon(f, t)).Some? <==> s.tasks[t].status.Running?
  {
  }

  // ---- an undisturbed hard removal ----

  /** Only this removal is open; every task RUNNING on the node is still to be visited or abandoned in its writes. */
  ghost predicate RemovesAlone(first: State, s: State, f: FrameId, n: NodeId) {
    && s.tasks == first.tasks && s.nodes == first.nodes && s.frames.Keys == {f}
    && var fr := s.frames[f];
       && fr.kind.HardRemove? && fr.node == n && fr.live && fr.drops == {}
       && (forall t :: t in fr.writes ==> t in s.tasks && fr.writes[t].status.Done?)
       && (forall t :: t in s.tasks && s.tasks[t].status.Running? && s.tasks[t].node == Some(n) ==>
             t in fr.todo || t in fr.writes)
       && (forall t :: t in fr.todo ==> t in s.tasks && s.tasks[t].status.Running? && s.tasks[t].node == Some(n))
  }

  lemma SkipStates(first: State, s: State, f: FrameId, n: NodeId) returns (s': State)
    requires RemovesAlone(first, s, f, n) && s.frames[f].pc.Reading? && s.frames[f].todo != []
    requires s.frames[f].todo[0] in s.frames[f].writes
    ensures DoSkip(s, f) == Some(s') && RemovesAlone(first, s', f, n)
    ensures s'.frames[f].pc.Reading? && s'.frames[f].todo == s.frames[f].todo[1..]
  {
    var todo := s.frames[f].todo;
    assert forall u :: u in todo <==> u == todo[0] || u in todo[1..];
    s' := DoSkip(s, f).value;
  }

  lemma AbandonStates(first: State, s: State, f: FrameId, n: NodeId) returns (s1: State, s2: State)
    requires RowsOk(first) && n in first.nodes && RemovesAlone(first, s, f, n)
    requires s.frames[f].pc.Reading? && s.frames[f].todo != [] && s.frames[f].todo[0] !in s.frames[f].writes
    ensures DoRead(s, f) == Some(s1) && DoAbandonSave(s1, f) == Some(s2) && RemovesAlone(first, s2, f, n)
    ensures s2.frames[f].pc.Reading? && s2.frames[f].todo == s.frames[f].todo[1..]
  {
    var todo := s.frames[f].todo;
    assert forall u :: u in todo <==> u == todo[0] || u in todo[1..];
    s1 := DoRead(s, f).value;
    s2 := DoAbandonSave(s1, f).value;
  }

  lemma VisitNext(first: State, s: State, f: FrameId, n: NodeId) returns (steps: seq<Step>, s': State)
    requires RowsOk(first) && n in first.nodes && RemovesAlone(first, s, f, n)
    requires s.frames[f].pc.Reading? && s.frames[f].todo != []
    ensures Run(s, steps) == Some(s') && RemovesAlone(first, s', f, n)
    ensures s'.frames[f].pc.Reading? && s'.frames[f].todo == s.frames[f].todo[1..]
  {
    assert f in s.frames.Keys;
    hide RowsOk, RemovesAlone, DoSkip, DoRead, DoAbandonSave, Run;
    if s.frames[f].todo[0] in s.frames[f].writes {
      s' := SkipStates(first, s, f, n);
      steps := [Skip(f)];
      RunOne(s, Skip(f));
    } else {
      var s1;
      s1, s' := AbandonStates(first, s, f, n);
      RunOne(s, Read(f));
      RunOne(s1, AbandonSave(f));
      RunConcat(s, [Read(f)], s1, [AbandonSave(f)]);
      steps := [Read(f)] + [AbandonSave(f)];
    }
  }

  lemma {:induction false} VisitRest(first: State, s: State, f: FrameId, n: NodeId)
    returns (steps: seq<Step>, s': State)
    requires RowsOk(first) && n in first.nodes && RemovesAlone(first, s, f, n) && s.frames[f].pc.Reading?
    ensures Run(s, steps) == Some(s') && RemovesAlone(first, s', f, n)
    ensures s'.frames[f].pc.Reading? && s'.frames[f].todo == []
    decreases |s.frames[f].todo|
  {
    hide RowsOk, Next;
    if s.frames[f].todo == [] {
      steps, s' := [], s;
      RunNone(s);
    } else {
      var a, m := VisitNext(first, s, f, n);
      var b;
      b, s' := VisitRest(first, m, f, n);
      RunConcat(s, a, m, b);
      steps := a + b;
    }
  }

  lemma RemoveAlone(first: State, s: State, f: FrameId, n: NodeId) returns (s1: State, s2: State, s3: State)
    requires RowsOk(first) && n in first.nodes && RemovesAlone(first, s, f, n)
    requires s.frames[f].pc.Reading? && s.frames[f].todo == []
    ensures DoAllAbandoned(s, f) == Some(s1) && DoRemove(s1, f) == Some(s2) && DoCommit(s2, f) == Some(s3)
    ensures s3.nodes == first.nodes - {n}
  {
    s1 := DoAllAbandoned(s, f).value;
    forall t | t in Referring(s1, s1.frames[f], n) ensures Check(Visible(s1, s1.frames[f], t).(node := None)) {
      assert Check(s1.tasks[t]);
    }
    assert RemoveSucceeds(s1, f, n);
    s2 := DoRemove(s1, f).value;
    assert s2.frames[f].drops == {n};
    s3 := DoCommit(s2, f).value;
  }

  lemma BeginAlone(s: State, f: FrameId, n: NodeId) returns (ids: seq<TaskId>, s1: State, s2: State)
    requires s.frames == map[]
    ensures DoStartHardRemove(s, f, n) == Some(s1) && DoList(s1, f, ids) == Some(s2)
    ensures RemovesAlone(s, s2, f, n) && s2.frames[f].pc.Reading?
  {
    ids := SeqOf(set t | t in s.tasks && s.tasks[t].status.Running? && s.tasks[t].node == Some(n));
    s1 := DoStartHardRemove(s, f, n).value;
    s2 := DoList(s1, f, ids).value;
  }

  lemma BeginRuns(s: State, f: FrameId, n: NodeId) returns (steps: seq<Step>, s': State)
    requires s.frames == map[]
    ensures Run(s, steps) == Some(s') && RemovesAlone(s, s', f, n) && s'.frames[f].pc.Reading?
  {
    var ids, s1;
    ids, s1, s' := BeginAlone(s, f, n);
    hide DoStartHardRemove, DoList, RemovesAlone, Run;
    RunOne(s, StartHardRemove(f, n));
    RunOne(s1, List(f, ids));
    RunConcat(s, [StartHardRemove(f, n)], s1, [List(f, ids)]);
    steps := [StartHardRemove(f, n)] + [List(f, ids)];
  }

  lemma EndRuns(first: State, s: State, f: FrameId, n: NodeId) returns (steps: seq<Step>, s': State)
    requires RowsOk(first) && n in first.nodes && RemovesAlone(first, s, f, n)
    requires s.frames[f].pc.Reading? && s.frames[f].todo == []
    ensures Run(s, steps) == Some(s') && s'.nodes == first.nodes - {n}
  {
    var s1, s2;
    s1, s2, s' := RemoveAlone(first, s, f, n);
    hide RowsOk, RemovesAlone, DoAllAbandoned, DoRemove, DoCommit, Run;
    RunOne(s, AllAbandoned(f));
    RunOne(s1, Remove(f));
    RunOne(s2, Commit(f));
    RunConcat(s, [AllAbandoned(f)], s1, [Remove(f)]);
    RunConcat(s, [AllAbandoned(f)] + [Remove(f)], s2, [Commit(f)]);
    steps := [AllAbandoned(f)] + [Remove(f)] + [Commit(f)];
  }

  /** With no other transaction open the hard removal of an existing node goes through, however many tasks run there. */
  lemma HardRemovalGoesThrough(s: State, f: FrameId, n: NodeId) returns (steps: seq<Step>, s': State)
    requires Initial(s) && n in s.nodes
    ensures Run(s, steps) == Some(s') && s'.nodes == s.nodes - {n}
  {
    var a, s1 := BeginRuns(s, f, n);
    hide RemovesAlone, Run;
    var b, s2 := VisitRest(s, s1, f, n);
    var c;
    c, s' := EndRuns(s, s2, f, n);
    hide RowsOk;
    RunConcat(s, a, s1, b);
    RunConcat(s, a + b, s2, c);
    steps := a + b + c;
  }
}
