/** Invariants of the task store over every run of every daemon and CLI call, and what they give. */
module TaskStoreSafety {
  import opened Prelude
  import opened TaskStore

  // ---- the invariant ----

  ghost predicate RowsOk(s: State) {
    && (forall t :: t in s.tasks ==> t < s.nextTask && Check(s.tasks[t]))
    && (forall t :: t in s.tasks && s.tasks[t].node.Some? ==> s.tasks[t].node.value in s.nodes)
    && (forall n :: n in s.nodes ==> n < s.nextNode)
  }

  /** A pending write keeps the row legal, does not lower its rank and refers to a node that stays. */
  ghost predicate WritesOk(s: State, fr: Frame) {
    && (forall t :: t in fr.writes ==> t in s.tasks && Check(fr.writes[t])
                                       && Rank(s.tasks[t].status) <= Rank(fr.writes[t].status)
                                       && (s.tasks[t].status == fr.writes[t].status ==> fr.writes[t].status.Done?))
    && (forall t :: t in fr.writes && fr.writes[t].node.Some? ==>
          fr.writes[t].node.value in s.nodes && fr.writes[t].node.value !in fr.drops)
  }

  /** Whoever deletes a node has also cleared every reference to it. */
  ghost predicate DropsOk(s: State, fr: Frame) {
    && (forall n :: n in fr.drops ==> n in s.nodes)
    && (forall t :: t in s.tasks && s.tasks[t].node.Some? && s.tasks[t].node.value in fr.drops ==> t in fr.writes)
  }

  /** Between save and commit a live claim holds the row lock of a task that is still TO_DO for everybody else. */
  ghost predicate ClaimOk(s: State, fr: Frame) {
    && fr.next.status.Running?
    && (forall t :: t in fr.writes ==> t == fr.task)
    && (fr.pc.Saving? || fr.pc.Spawning? || fr.pc.Committing? || Over(fr.pc))
    && (fr.pc.Saving? ==> fr.writes == map[])
    && (fr.live && (fr.pc.Spawning? || fr.pc.Committing?) ==>
          fr.task in fr.writes && fr.task in s.tasks && s.tasks[fr.task].status.ToDo?)
    && (fr.pc.Saving? || fr.pc.Spawning? ==> !fr.spawned)
    && (fr.pc.Committing? || fr.pc.Committed? ==> fr.spawned)
    && (fr.pc.Committed? ==> fr.task in s.tasks && !s.tasks[fr.task].status.ToDo?)
  }

  /** Was RUNNING on the node when listed, and can only have ended since. */
  ghost predicate Listed(s: State, t: TaskId, n: NodeId) {
    t in s.tasks && !s.tasks[t].status.ToDo? && (s.tasks[t].status.Running? ==> s.tasks[t].node == Some(n))
  }

  ghost predicate HardRemoveOk(s: State, fr: Frame) {
    && (fr.pc.Saving? ==> fr.next.status.Done? && fr.next.error == Some(GONE) && Listed(s, fr.task, fr.node))
    && (forall t :: t in fr.todo || t in fr.writes ==> Listed(s, t, fr.node))
    && (forall t :: t in fr.writes && t in s.tasks && s.tasks[t].status.Running? ==>
          fr.writes[t].status.Done? && fr.writes[t].error == Some(GONE))
  }

  ghost predicate FrameOk(s: State, fr: Frame) {
    && (!fr.live || Over(fr.pc) ==> fr.writes == map[] && fr.drops == {})
    && WritesOk(s, fr) && DropsOk(s, fr)
    && (fr.drops != {} ==> fr.pc.Committing?)
    && (fr.live && fr.pc.Committing? && (fr.kind.HardRemove? || fr.kind.RemoveNode?) ==> fr.drops == {fr.node})
    && (fr.kind.Claim? ==> ClaimOk(s, fr))
    && (!fr.kind.Claim? ==> !fr.spawned)
    && (fr.kind.Finalise? ==> fr.next.status.Done?)
    && (fr.kind.HardRemove? ==> HardRemoveOk(s, fr))
    && (fr.kind.RemoveNode? ==> forall t :: t in fr.writes && t in s.tasks ==> !s.tasks[t].status.Running?)
  }

  /** The locks of two transactions do not meet. */
  ghost predicate Apart(a: Frame, b: Frame) {
    && (forall t :: t in a.writes ==> t !in b.writes)
    && (forall n :: n in a.drops ==> n !in b.drops)
    && (forall t :: t in b.writes && b.writes[t].node.Some? ==> b.writes[t].node.value !in a.drops)
    && (forall t :: t in a.writes && a.writes[t].node.Some? ==> a.writes[t].node.value !in b.drops)
    && (a.kind.Claim? && b.kind.Claim? && a.pc.Committed? && b.pc.Committed? ==> a.task != b.task)
  }

  ghost predicate Invariant(s: State) {
    && RowsOk(s)
    && (forall f :: f in s.frames ==> FrameOk(s, s.frames[f]))
    && (forall f, g :: f in s.frames && g in s.frames && f != g ==> Apart(s.frames[f], s.frames[g]))
  }

  // ---- steps that only move one frame ----

  ghost predicate LocalMove(s: State, s': State, f: FrameId) {
    && s'.tasks == s.tasks && s'.nodes == s.nodes && s'.nextTask == s.nextTask && s'.nextNode == s.nextNode
    && f in s'.frames
    && (forall g :: g in s'.frames <==> g in s.frames || g == f)
    && (forall g :: g in s.frames && g != f ==> s'.frames[g] == s.frames[g] && Apart(s'.frames[f], s.frames[g]))
    && FrameOk(s', s'.frames[f])
  }

  lemma FrameOkStays(s: State, s': State, fr: Frame)
    requires FrameOk(s, fr) && s'.tasks == s.tasks && s'.nodes == s.nodes
    ensures FrameOk(s', fr)
  {
  }

  lemma LocalMoveKeeps(s: State, s': State, f: FrameId)
    requires Invariant(s) && LocalMove(s, s', f)
    ensures Invariant(s')
  {
    hide FrameOk, RowsOk, Apart;
    RowsOkStays(s, s');
    forall g | g in s'.frames ensures FrameOk(s', s'.frames[g]) {
      if g != f {
        FrameOkStays(s, s', s.frames[g]);
      }
    }
    forall g, h | g in s'.frames && h in s'.frames && g != h ensures Apart(s'.frames[g], s'.frames[h]) {
      if h == f {
        ApartCommutes(s'.frames[f], s'.frames[g]);
      }
    }
  }

  lemma RowsOkStays(s: State, s': State)
    requires RowsOk(s) && s'.tasks == s.tasks && s'.nodes == s.nodes
    requires s'.nextTask == s.nextTask && s'.nextNode == s.nextNode
    ensures RowsOk(s')
  {
  }

  lemma ApartCommutes(a: Frame, b: Frame)
    requires Apart(a, b)
    ensures Apart(b, a)
  {
  }

  /** What the step of frame f may rely on. */
  ghost predicate Ready(s: State, f: FrameId) {
    && RowsOk(s)
    && (f in s.frames ==> FrameOk(s, s.frames[f])
                          && forall g :: g in s.frames && g != f ==> Apart(s.frames[f], s.frames[g]))
  }

  /** A step without effect on the transaction. */
  lemma SameTransaction(s: State, s': State, f: FrameId)
    requires Ready(s, f) && f in s.frames && f in s'.frames && s'.tasks == s.tasks && s'.nodes == s.nodes
    requires s'.frames[f].writes == s.frames[f].writes && s'.frames[f].drops == s.frames[f].drops
    requires !s'.frames[f].pc.Committed?
    ensures WritesOk(s', s'.frames[f]) && DropsOk(s', s'.frames[f])
    ensures forall g :: g in s.frames && g != f ==> Apart(s'.frames[f], s.frames[g])
  {
  }

  /** Saving a DONE row keeps the pending writes in order, whatever they were. */
  lemma SaveDoneOk(s: State, f: FrameId, t: TaskId, row: Row, fr': Frame)
    requires f in s.frames && SaveSucceeds(s, f, t, row, None) && row.status.Done?
    requires WritesOk(s, s.frames[f]) && DropsOk(s, s.frames[f])
    requires fr'.writes == s.frames[f].writes[t := row] && fr'.drops == s.frames[f].drops
    ensures WritesOk(s, fr') && DropsOk(s, fr')
  {
  }

  /** A claim turns a row that is TO_DO in the table into RUNNING. */
  lemma ClaimSaveOk(s: State, f: FrameId, fr': Frame)
    requires f in s.frames && SaveSucceeds(s, f, s.frames[f].task, s.frames[f].next, Some(ToDo))
    requires s.frames[f].writes == map[] && s.frames[f].drops == {} && s.frames[f].next.status.Running?
    requires fr'.writes == map[s.frames[f].task := s.frames[f].next] && fr'.drops == {}
    ensures WritesOk(s, fr') && DropsOk(s, fr')
  {
  }

  lemma SaveApart(s: State, f: FrameId, t: TaskId, row: Row, fr': Frame, g: FrameId)
    requires f in s.frames && g in s.frames && g != f && Unlocked(s, f, t, row) && Apart(s.frames[f], s.frames[g])
    requires fr'.writes == s.frames[f].writes[t := row] && fr'.drops == s.frames[f].drops
    requires !fr'.pc.Committed?
    requires s.frames[f].drops == {}
    ensures Apart(fr', s.frames[g])
  {
  }

  lemma FrameOkOf(s: State, s': State, fr: Frame)
    requires WritesOk(s, fr) && DropsOk(s, fr) && s'.tasks == s.tasks && s'.nodes == s.nodes
    ensures WritesOk(s', fr) && DropsOk(s', fr)
  {
  }

  /** Deleting a node clears every reference to it, so none is left dangling and no RUNNING task is touched. */
  lemma RemoveOk(s: State, f: FrameId, fr': Frame)
    requires RowsOk(s) && f in s.frames && RemoveSucceeds(s, f, s.frames[f].node)
    requires WritesOk(s, s.frames[f]) && s.frames[f].drops == {}
    requires fr'.writes == Cleared(s, s.frames[f], s.frames[f].node) && fr'.drops == {s.frames[f].node}
    ensures WritesOk(s, fr') && DropsOk(s, fr')
  {
    var fr := s.frames[f];
    forall t | t in fr'.writes
      ensures t in s.tasks && Check(fr'.writes[t]) && Rank(s.tasks[t].status) <= Rank(fr'.writes[t].status)
      ensures s.tasks[t].status == fr'.writes[t].status ==> fr'.writes[t].status.Done?
      ensures fr'.writes[t].node.Some? ==> fr'.writes[t].node.value in s.nodes && fr'.writes[t].node.value != fr.node
    {
      if t in Referring(s, fr, fr.node) {
        assert Check(Visible(s, fr, t).(node := None)) && Visible(s, fr, t).status.Done?;
      }
    }
  }

  lemma RemoveListed(s: State, f: FrameId, s': State, fr': Frame)
    requires RowsOk(s) && f in s.frames && RemoveSucceeds(s, f, s.frames[f].node) && s'.tasks == s.tasks
    requires HardRemoveOk(s, s.frames[f])
    requires fr' == s.frames[f].(pc := Committing, writes := Cleared(s, s.frames[f], s.frames[f].node),
                                 drops := fr'.drops)
    ensures HardRemoveOk(s', fr')
  {
    var fr := s.frames[f];
    forall t | t in fr'.writes
      ensures Listed(s', t, fr.node)
      ensures s.tasks[t].status.Running? ==> fr'.writes[t].status.Done? && fr'.writes[t].error == Some(GONE)
    {
      if t in Referring(s, fr, fr.node) {
        assert Check(Visible(s, fr, t).(node := None)) && Check(s.tasks[t]);
      }
    }
  }

  lemma RemoveKinds(s: State, f: FrameId, s': State, fr': Frame)
    requires Ready(s, f) && f in s.frames && s.frames[f].pc.Removing? && RemoveSucceeds(s, f, s.frames[f].node)
    requires s'.tasks == s.tasks
    requires fr' == s.frames[f].(pc := Committing, writes := Cleared(s, s.frames[f], s.frames[f].node),
                                 drops := fr'.drops)
    ensures s.frames[f].drops == {} && !fr'.kind.Claim?
    ensures fr'.kind.HardRemove? ==> HardRemoveOk(s', fr')
    ensures fr'.kind.RemoveNode? ==> forall t :: t in fr'.writes && t in s'.tasks ==> !s'.tasks[t].status.Running?
  {
    var fr := s.frames[f];
    if fr.kind.HardRemove? {
      RemoveListed(s, f, s', fr');
    }
    if fr.kind.RemoveNode? {
      forall t | t in fr'.writes && t in s.tasks ensures !s.tasks[t].status.Running? {
        if t in Referring(s, fr, fr.node) {
          assert Check(Visible(s, fr, t).(node := None)) && Check(s.tasks[t]);
        }
      }
    }
  }

  lemma RemoveApart(s: State, f: FrameId, fr': Frame, g: FrameId)
    requires f in s.frames && g in s.frames && g != f && Apart(s.frames[f], s.frames[g])
    requires RemoveSucceeds(s, f, s.frames[f].node)
    requires fr'.writes == Cleared(s, s.frames[f], s.frames[f].node) && fr'.drops == {s.frames[f].node}
    requires !fr'.pc.Committed?
    ensures Apart(fr', s.frames[g])
  {
    forall t | t in fr'.writes
      ensures t !in s.frames[g].writes
      ensures fr'.writes[t].node.Some? ==> fr'.writes[t].node.value !in s.frames[g].drops
    {
      assert t in s.frames[f].writes || t in Referring(s, s.frames[f], s.frames[f].node);
    }
  }

  lemma StartClaimMoves(s: State, f: FrameId, t: TaskId, n: NodeId, folder: string, s': State)
    requires Ready(s, f) && DoStartClaim(s, f, t, n, folder) == Some(s')
    ensures LocalMove(s, s', f)
  {
  }

  lemma ClaimSaveMoves(s: State, f: FrameId, s': State)
    requires Ready(s, f) && DoClaimSave(s, f) == Some(s')
    ensures LocalMove(s, s', f)
  {
    var fr, fr' := s.frames[f], s'.frames[f];
    assert fr.writes == map[] && fr.drops == {};
    ClaimSaveOk(s, f, fr');
    forall g | g in s.frames && g != f ensures Apart(fr', s.frames[g]) {
      SaveApart(s, f, fr.task, fr.next, fr', g);
    }
    FrameOkOf(s, s', fr');
    hide Ready, RowsOk, WritesOk, DropsOk, Apart, Unlocked;
  }

  lemma SpawnedMoves(s: State, f: FrameId, s': State)
    requires Ready(s, f) && DoSpawned(s, f) == Some(s')
    ensures LocalMove(s, s', f)
  {
    hide RowsOk, WritesOk, DropsOk, Apart;
    SameTransaction(s, s', f);
  }

  lemma StartFinaliseMoves(s: State, f: FrameId, t: TaskId, error: Option<string>, folder: string, s': State)
    requires Ready(s, f) && DoStartFinalise(s, f, t, error, folder) == Some(s')
    ensures LocalMove(s, s', f)
  {
  }

  lemma StartAbandonMoves(s: State, f: FrameId, t: TaskId, s': State)
    requires Ready(s, f) && DoStartAbandon(s, f, t) == Some(s')
    ensures LocalMove(s, s', f)
  {
  }

  lemma StartRejectMoves(s: State, f: FrameId, t: TaskId, reason: string, s': State)
    requires Ready(s, f) && DoStartReject(s, f, t, reason) == Some(s')
    ensures LocalMove(s, s', f)
  {
  }

  lemma FinaliseSaveMoves(s: State, f: FrameId, s': State)
    requires Ready(s, f) && DoFinaliseSave(s, f) == Some(s')
    ensures LocalMove(s, s', f)
  {
    hide RowsOk, WritesOk, DropsOk, Apart;
    var fr, fr' := s.frames[f], s'.frames[f];
    SaveDoneOk(s, f, fr.task, fr.next, fr');
    forall g | g in s.frames && g != f ensures Apart(fr', s.frames[g]) {
      SaveApart(s, f, fr.task, fr.next, fr', g);
    }
    FrameOkOf(s, s', fr');
    hide SaveSucceeds;
  }

  lemma StartHardRemoveMoves(s: State, f: FrameId, n: NodeId, s': State)
    requires Ready(s, f) && DoStartHardRemove(s, f, n) == Some(s')
    ensures LocalMove(s, s', f)
  {
  }

  lemma ListMoves(s: State, f: FrameId, ids: seq<TaskId>, s': State)
    requires Ready(s, f) && DoList(s, f, ids) == Some(s')
    ensures LocalMove(s, s', f)
  {
    SameTransaction(s, s', f);
    assert HardRemoveOk(s', s'.frames[f]);
    hide Ready, RowsOk, WritesOk, DropsOk, Apart, HardRemoveOk, Listed;
  }

  lemma SkipMoves(s: State, f: FrameId, s': State)
    requires Ready(s, f) && DoSkip(s, f) == Some(s')
    ensures LocalMove(s, s', f)
  {
    hide RowsOk, WritesOk, DropsOk, Apart;
    SameTransaction(s, s', f);
  }

  lemma ReadMoves(s: State, f: FrameId, s': State)
    requires Ready(s, f) && DoRead(s, f) == Some(s')
    ensures LocalMove(s, s', f)
  {
    hide RowsOk, WritesOk, DropsOk, Apart;
    SameTransaction(s, s', f);
  }

  lemma AbandonSaveMoves(s: State, f: FrameId, s': State)
    requires Ready(s, f) && DoAbandonSave(s, f) == Some(s')
    ensures LocalMove(s, s', f)
  {
    hide RowsOk, WritesOk, DropsOk, Apart;
    var fr, fr' := s.frames[f], s'.frames[f];
    SaveDoneOk(s, f, fr.task, fr.next, fr');
    forall g | g in s.frames && g != f ensures Apart(fr', s.frames[g]) {
      SaveApart(s, f, fr.task, fr.next, fr', g);
    }
    FrameOkOf(s, s', fr');
    hide SaveSucceeds;
  }

  lemma AllAbandonedMoves(s: State, f: FrameId, s': State)
    requires Ready(s, f) && DoAllAbandoned(s, f) == Some(s')
    ensures LocalMove(s, s', f)
  {
    hide RowsOk, WritesOk, DropsOk, Apart;
    SameTransaction(s, s', f);
  }

  lemma StartRemoveMoves(s: State, f: FrameId, n: NodeId, s': State)
    requires Ready(s, f) && DoStartRemove(s, f, n) == Some(s')
    ensures LocalMove(s, s', f)
  {
  }

  lemma RemoveMoves(s: State, f: FrameId, s': State)
    requires Ready(s, f) && DoRemove(s, f) == Some(s')
    ensures LocalMove(s, s', f)
  {
    var fr, fr' := s.frames[f], s'.frames[f];
    assert s.frames[f].drops == {};
    RemoveOk(s, f, fr');
    forall g | g in s.frames && g != f ensures Apart(fr', s.frames[g]) {
      RemoveApart(s, f, fr', g);
    }
    FrameOkOf(s, s', fr');
    RemoveKinds(s, f, s', fr');
    hide Ready, RowsOk, WritesOk, DropsOk, Apart, HardRemoveOk, ClaimOk, Cleared;
  }

  lemma FailMoves(s: State, f: FrameId, s': State)
    requires Ready(s, f) && DoFail(s, f) == Some(s')
    ensures LocalMove(s, s', f)
  {
  }

  lemma DropConnectionMoves(s: State, f: FrameId, s': State)
    requires Ready(s, f) && DoDropConnection(s, f) == Some(s')
    ensures LocalMove(s, s', f)
  {
  }

  // ---- commits and new rows ----

  lemma CommitRowsOk(s: State, f: FrameId, s': State)
    requires Ready(s, f) && DoCommit(s, f) == Some(s')
    ensures RowsOk(s')
  {
  }

  /** No row falls back to an earlier status, and a row that stays RUNNING stays as it is. */
  ghost predicate Forward(s: State, s': State) {
    forall t :: t in s.tasks ==>
      && t in s'.tasks && Rank(s.tasks[t].status) <= Rank(s'.tasks[t].status)
      && (s.tasks[t].status == s'.tasks[t].status && !s.tasks[t].status.Done? ==> s'.tasks[t] == s.tasks[t])
  }

  lemma CommitGoesForward(s: State, f: FrameId, s': State)
    requires Ready(s, f) && DoCommit(s, f) == Some(s')
    ensures Forward(s, s')
  {
  }

  /** The locks keep what another transaction relies on out of this one's reach. */
  lemma CommitSparesOther(s: State, f: FrameId, s': State, fr: Frame)
    requires Ready(s, f) && DoCommit(s, f) == Some(s') && Forward(s, s')
    requires FrameOk(s, fr) && Apart(s.frames[f], fr)
    ensures FrameOk(s', fr)
  {
    assert WritesOk(s', fr);
    assert DropsOk(s', fr);
    if fr.kind.HardRemove? {
      CommitSparesListed(s, f, s', fr);
    }
    hide WritesOk, DropsOk, RowsOk, HardRemoveOk;
  }

  lemma CommitSparesListed(s: State, f: FrameId, s': State, fr: Frame)
    requires f in s.frames && DoCommit(s, f) == Some(s') && Forward(s, s')
    requires HardRemoveOk(s, fr) && Apart(s.frames[f], fr)
    ensures HardRemoveOk(s', fr)
  {
    assert forall t, n :: Listed(s, t, n) ==> Listed(s', t, n);
  }

  lemma CommitOwnFrame(s: State, f: FrameId, s': State)
    requires Ready(s, f) && DoCommit(s, f) == Some(s')
    ensures FrameOk(s', s'.frames[f])
  {
  }

  lemma CommitApart(s: State, f: FrameId, s': State, g: FrameId)
    requires Ready(s, f) && DoCommit(s, f) == Some(s')
    requires g in s.frames && g != f && FrameOk(s, s.frames[g])
    ensures Apart(s'.frames[f], s.frames[g]) && Apart(s.frames[g], s'.frames[f])
  {
  }

  lemma CommitKeepsFrames(s: State, f: FrameId, s': State)
    requires Invariant(s) && DoCommit(s, f) == Some(s') && Ready(s, f) && Forward(s, s')
    ensures forall g :: g in s'.frames ==> FrameOk(s', s'.frames[g])
  {
    assert s'.frames == s.frames[f := s'.frames[f]];
    hide RowsOk, FrameOk, Apart, Ready, Forward, DoCommit;
    forall g | g in s'.frames ensures FrameOk(s', s'.frames[g]) {
      if g == f {
        CommitOwnFrame(s, f, s');
      } else {
        CommitSparesOther(s, f, s', s.frames[g]);
      }
    }
  }

  lemma CommitKeepsPairs(s: State, f: FrameId, s': State)
    requires Invariant(s) && DoCommit(s, f) == Some(s') && Ready(s, f)
    ensures forall g, h :: g in s'.frames && h in s'.frames && g != h ==> Apart(s'.frames[g], s'.frames[h])
  {
    assert s'.frames == s.frames[f := s'.frames[f]];
    hide RowsOk, FrameOk, Apart, Ready, DoCommit;
    forall g, h | g in s'.frames && h in s'.frames && g != h ensures Apart(s'.frames[g], s'.frames[h]) {
      if g == f {
        CommitApart(s, f, s', h);
      } else if h == f {
        CommitApart(s, f, s', g);
      }
    }
  }

  lemma CommitKeeps(s: State, f: FrameId, s': State)
    requires Invariant(s) && DoCommit(s, f) == Some(s')
    ensures Invariant(s') && Forward(s, s')
  {
    assert Ready(s, f);
    hide RowsOk, FrameOk, Apart, Ready, Forward, DoCommit;
    CommitRowsOk(s, f, s');
    CommitGoesForward(s, f, s');
    CommitKeepsFrames(s, f, s');
    CommitKeepsPairs(s, f, s');
  }

  lemma NewRowSparesFrame(s: State, s': State, fr: Frame)
    requires RowsOk(s) && FrameOk(s, fr) && s'.frames == s.frames
    requires DoAddNode(s) == Some(s') || exists folder :: DoSubmit(s, folder) == Some(s')
    ensures FrameOk(s', fr)
  {
    assert WritesOk(s', fr) && DropsOk(s', fr);
    hide WritesOk, DropsOk, RowsOk;
  }

  lemma NewRowKeeps(s: State, s': State)
    requires Invariant(s)
    requires DoAddNode(s) == Some(s') || exists folder :: DoSubmit(s, folder) == Some(s')
    ensures Invariant(s') && Forward(s, s')
  {
    forall g | g in s'.frames ensures FrameOk(s', s'.frames[g]) {
      NewRowSparesFrame(s, s', s.frames[g]);
    }
    assert RowsOk(s');
    hide FrameOk, RowsOk;
  }

  // ---- runs ----

  lemma FrameStepMoves(s: State, step: Step, s': State)
    requires Next(s, step) == Some(s') && !step.Commit? && !step.Submit? && !step.AddNode?
    requires Ready(s, step.f)
    ensures LocalMove(s, s', step.f)
  {
    hide Ready, LocalMove, DoStartClaim, DoClaimSave, DoSpawned, DoStartFinalise, DoStartAbandon,
         DoStartReject, DoFinaliseSave, DoStartHardRemove, DoList, DoSkip, DoRead, DoAbandonSave,
         DoAllAbandoned, DoStartRemove, DoRemove, DoFail, DoDropConnection;
    match step
    case StartClaim(f, t, n, folder) => StartClaimMoves(s, f, t, n, folder, s');
    case ClaimSave(f) => ClaimSaveMoves(s, f, s');
    case Spawned(f) => SpawnedMoves(s, f, s');
    case StartFinalise(f, t, error, folder) => StartFinaliseMoves(s, f, t, error, folder, s');
    case StartAbandon(f, t) => StartAbandonMoves(s, f, t, s');
    case StartReject(f, t, reason) => StartRejectMoves(s, f, t, reason, s');
    case FinaliseSave(f) => FinaliseSaveMoves(s, f, s');
    case StartHardRemove(f, n) => StartHardRemoveMoves(s, f, n, s');
    case List(f, ids) => ListMoves(s, f, ids, s');
    case Skip(f) => SkipMoves(s, f, s');
    case Read(f) => ReadMoves(s, f, s');
    case AbandonSave(f) => AbandonSaveMoves(s, f, s');
    case AllAbandoned(f) => AllAbandonedMoves(s, f, s');
    case StartRemove(f, n) => StartRemoveMoves(s, f, n, s');
    case Remove(f) => RemoveMoves(s, f, s');
    case Fail(f) => FailMoves(s, f, s');
    case DropConnection(f) => DropConnectionMoves(s, f, s');
  }

  lemma StepKeeps(s: State, step: Step, s': State)
    requires Invariant(s) && Next(s, step) == Some(s')
    ensures Invariant(s') && Forward(s, s')
  {
    match step
    case Commit(f) => CommitKeeps(s, f, s');
    case Submit(folder) =>
      assert DoSubmit(s, folder) == Some(s');
      NewRowKeeps(s, s');
    case AddNode => NewRowKeeps(s, s');
    case _ => OtherStepKeeps(s, step, s');
  }

  lemma OtherStepKeeps(s: State, step: Step, s': State)
    requires Invariant(s) && Next(s, step) == Some(s') && !step.Commit? && !step.Submit? && !step.AddNode?
    ensures Invariant(s') && Forward(s, s')
  {
    assert Ready(s, step.f);
    hide Next, Invariant, Ready, FrameOk, RowsOk, Apart;
    FrameStepMoves(s, step, s');
    LocalMoveKeeps(s, s', step.f);
  }

  lemma ForwardTransitive(a: State, b: State, c: State)
    requires Forward(a, b) && Forward(b, c)
    ensures Forward(a, c)
  {
    forall t | t in a.tasks ensures t in b.tasks && t in c.tasks {
    }
  }

  /** Any tables that satisfy the schema, and no program in flight. */
  ghost predicate Initial(s: State) {
    RowsOk(s) && s.frames == map[]
  }

  lemma {:induction false} RunKeeps(s: State, steps: seq<Step>, s': State)
    requires Invariant(s) && Run(s, steps) == Some(s')
    ensures Invariant(s') && Forward(s, s')
    decreases |steps|
  {
    hide Invariant, Next;
    if steps != [] {
      hide Forward;
      var middle := Next(s, steps[0]).value;
      StepKeeps(s, steps[0], middle);
      RunKeeps(middle, steps[1..], s');
      ForwardTransitive(s, middle, s');
    }
  }

  // ---- the theorems ----

  /** Over any run, the rank of a task's status never decreases, and while it is RUNNING its row does not change. */
  lemma StatusNeverFallsBack(s: State, steps: seq<Step>, s': State, t: TaskId)
    requires Initial(s) && Run(s, steps) == Some(s') && t in s.tasks
    ensures t in s'.tasks && Rank(s.tasks[t].status) <= Rank(s'.tasks[t].status)
    ensures s.tasks[t].status.Running? && s'.tasks[t].status.Running? ==> s'.tasks[t] == s.tasks[t]
  {
    assert Invariant(s);
    RunKeeps(s, steps, s');
  }

  /** Every RUNNING row has a node whose row exists, a folder and no error, whatever nodes were deleted meanwhile. */
  lemma RunningRowsAreComplete(s: State, steps: seq<Step>, s': State, t: TaskId)
    requires Initial(s) && Run(s, steps) == Some(s') && t in s'.tasks
    ensures s'.tasks[t].status.Running? ==>
              s'.tasks[t].node.Some? && s'.tasks[t].folder.Some? && s'.tasks[t].error.None?
    ensures s'.tasks[t].node.Some? ==> s'.tasks[t].node.value in s'.nodes
  {
    assert Invariant(s);
    RunKeeps(s, steps, s');
  }

  /** The claim is held or was won: the spawn runs or ran under the row lock and its commit is not lost. */
  predicate Wins(fr: Frame) {
    fr.kind.Claim? && (fr.pc.Committed? || (fr.live && (fr.pc.Spawning? || fr.pc.Committing?)))
  }

  /** Claim before spawn: per task at most one claim over all daemons is spawning under its lock or has committed, and
      as long as it is spawning the task is TO_DO for everybody else. */
  lemma OneWinnerPerTask(s: State, steps: seq<Step>, s': State, f: FrameId, g: FrameId)
    requires Initial(s) && Run(s, steps) == Some(s')
    requires f in s'.frames && g in s'.frames && Wins(s'.frames[f])
    ensures Wins(s'.frames[g]) && s'.frames[f].task == s'.frames[g].task ==> f == g
    ensures s'.frames[f].task in s'.tasks
    ensures s'.tasks[s'.frames[f].task].status.ToDo? <==> !s'.frames[f].pc.Committed?
  {
    assert Invariant(s);
    RunKeeps(s, steps, s');
    assert FrameOk(s', s'.frames[f]) && FrameOk(s', s'.frames[g]);
    if f != g {
      assert Apart(s'.frames[f], s'.frames[g]);
    }
  }

  ghost function SpawnedFor(s: State, t: TaskId): set<FrameId> {
    set f | f in s.frames && s.frames[f].spawned && s.frames[f].task == t
  }

  /** The spawn returned True, but its COMMIT failed or is bound to fail. */
  ghost function LostFor(s: State, t: TaskId): set<FrameId> {
    set f | f in SpawnedFor(s, t) && !Wins(s.frames[f])
  }

  lemma AtMostOne(a: set<FrameId>)
    requires forall f, g :: f in a && g in a ==> f == g
    ensures |a| <= 1
  {
    if f :| f in a {
      assert a == {f};
    }
  }

  /** At most one spawn of a task returns True, plus one for every commit that was lost after a True spawn. */
  lemma TrueSpawnsBound(s: State, steps: seq<Step>, s': State, t: TaskId)
    requires Initial(s) && Run(s, steps) == Some(s')
    ensures |SpawnedFor(s', t)| <= 1 + |LostFor(s', t)|
    ensures LostFor(s', t) == {} ==> forall f, g :: f in SpawnedFor(s', t) && g in SpawnedFor(s', t) ==> f == g
  {
    var kept := SpawnedFor(s', t) - LostFor(s', t);
    forall f, g | f in SpawnedFor(s', t) && g in SpawnedFor(s', t) && f !in LostFor(s', t) && g !in LostFor(s', t)
      ensures f == g
    {
      OneWinnerPerTask(s, steps, s', f, g);
    }
    AtMostOne(kept);
    assert SpawnedFor(s', t) == kept + LostFor(s', t);
  }

  /** A hard removal that commits turns every task RUNNING on the node into DONE with the error, removes the node and
      leaves the status of every other task alone. */
  lemma HardRemovalFinishesTasks(s: State, steps: seq<Step>, s': State, f: FrameId, s'': State)
    requires Initial(s) && Run(s, steps) == Some(s')
    requires f in s'.frames && s'.frames[f].kind.HardRemove? && DoCommit(s', f) == Some(s'')
    ensures var n := s'.frames[f].node;
            && n in s'.nodes && n !in s''.nodes
            && (forall t :: t in s'.tasks && s'.tasks[t].status.Running? && s'.tasks[t].node == Some(n) ==>
                  t in s''.tasks && s''.tasks[t].status.Done? && s''.tasks[t].error == Some(GONE))
            && (forall t :: t in s''.tasks ==> s''.tasks[t].node != Some(n))
            && (forall t :: t in s'.tasks && s'.tasks[t].node != Some(n) ==>
                  t in s''.tasks && s''.tasks[t].status == s'.tasks[t].status)
  {
    assert Invariant(s);
    RunKeeps(s, steps, s');
    var fr := s'.frames[f];
    assert FrameOk(s', fr) && HardRemoveOk(s', fr) && WritesOk(s', fr) && DropsOk(s', fr) && fr.drops == {fr.node};
    hide Run, Invariant, RowsOk, FrameOk, Initial;
  }
}
