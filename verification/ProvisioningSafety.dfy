/** The inductive invariant of the provisioning system: rows, calls in flight, reapers, and the accounting for VMs. */
module ProvisioningSafety {
  import opened Prelude
  import opened ProviderSelection
  import opened Provisioning

  // ---- the invariant, one predicate per concern ----

  /** The row names no VM that still bills unreported. */
  predicate Settled(s: State, row: NodeRow) {
    row.externalId.Some? ==> row.externalId.value !in s.vms || row.externalId.value in s.leaks
  }

  ghost predicate RowOk(s: State, row: NodeRow) {
    row.externalId.Some? ==> row.externalId.value < s.nextVm
  }

  /** Where clouds.deallocate would find no adapter or config there is nothing left to delete. */
  ghost predicate RowCovered(w: World, s: State, row: NodeRow) {
    row.cloud.None? || !HasAdapter(w, row.cloud.value) ==> Settled(s, row)
  }

  ghost predicate RowsOk(s: State) {
    && (forall n :: n in s.rows ==> n < s.nextNode && RowOk(s, s.rows[n]))
    && (forall n :: n in s.rowOwner ==>
          n < s.nextNode && s.rowOwner[n] in s.allocs && s.allocs[s.rowOwner[n]].n == Some(n))
    && (forall v :: v in s.vms ==> v < s.nextVm)
  }

  /** What a suspended allocation may rely on about its own row. */
  ghost predicate AllocOk(w: World, s: State, f: FrameId)
    requires f in s.allocs
  {
    var fr := s.allocs[f];
    && (fr.n.Some? <==>
          Unpersisted(fr.pc) || fr.pc.Returning? || fr.pc.Undoing? || Compensating(fr.pc) || fr.pc.Provisioned?
          || fr.pc.Failed?)
    && (fr.n.Some? ==> fr.p.Some? && HasAdapter(w, fr.p.value))
    && (fr.n.Some? ==> fr.n.value in s.rowOwner && s.rowOwner[fr.n.value] == f)
    && (fr.vm.Some? ==> fr.vm.value < s.nextVm)
    && (fr.vm.Some? ==>
          fr.pc.Creating? || fr.pc.SettingUp? || fr.pc.TearingDown? || fr.pc.Persisting? || fr.pc.Undoing?)
    && (fr.pc.SettingUp? || fr.pc.TearingDown? || fr.pc.Persisting? || fr.pc.Undoing? ==> fr.vm.Some?)
    && (fr.n.Some? && fr.n.value in s.rows ==> AllocRowOk(s, fr, s.rows[fr.n.value]))
    && (fr.pc.Returning? ==>
          fr.persisted.Some? && (fr.n.value !in s.retired <==> fr.n.value in s.rows && s.rows[fr.n.value].enabled))
  }

  /** The state of the call's row while it exists. */
  ghost predicate AllocRowOk(s: State, fr: Alloc, row: NodeRow) {
    && (Unpersisted(fr.pc) ==> fr.p.Some? && row == TmpRow(fr.p.value))
    && (fr.pc.Returning? ==> row == NodeRow(fr.p, true, row.enabled, fr.persisted))
    && (fr.pc.Undoing? ==> row.externalId in {None, fr.vm})
    && (Compensating(fr.pc) ==> Settled(s, row))
    && (fr.pc.Finishing? || fr.pc.LastCleaning? || fr.pc.Failed? ==> fr.dirty)
  }

  /** What a suspended reaper may rely on about the node it was given. */
  ghost predicate ReaperOk(s: State, f: FrameId)
    requires f in s.reapers
  {
    var r := s.reapers[f];
    && r.n < s.nextNode
    && RowOk(s, r.row)
    && (r.n in s.rows ==> s.rows[r.n].cloud == r.row.cloud && s.rows[r.n].externalId == r.row.externalId)
    && (r.pc.Deleting? ==> r.row.cloud.Some? && (r.n in s.rows ==> !s.rows[r.n].enabled))
    && (forall o :: o in s.allocs && s.allocs[o].n == Some(r.n) ==> !Unpersisted(s.allocs[o].pc))
  }

  ghost predicate Structure(w: World, s: State) {
    && RowsOk(s)
    && (forall f :: f in s.allocs ==> AllocOk(w, s, f))
    && (forall f :: f in s.reapers ==> ReaperOk(s, f))
  }

  // ---- accounting for VMs ----

  ghost predicate HeldInFlight(s: State, v: VmId) {
    exists f :: f in s.allocs && s.allocs[f].vm == Some(v)
  }

  ghost predicate NamedByRow(s: State, v: VmId) {
    exists n :: n in s.rows && s.rows[n].externalId == Some(v)
  }

  /** No silent orphan: every billing VM is held by a call in flight, named by a row, reported by its id, or, after an
      ambiguous create, by its label. */
  ghost predicate Accounted(s: State) {
    forall v :: v in s.vms ==> v in s.leaks || v in s.labels || HeldInFlight(s, v) || NamedByRow(s, v)
  }

  /** A row is dropped only when the VM it names is gone or reported. */
  ghost predicate NamesKept(s: State, s': State) {
    forall n :: n in s.rows && s.rows[n].externalId.Some? && !Settled(s', s.rows[n]) ==>
      n in s'.rows && s'.rows[n].externalId == s.rows[n].externalId
  }

  /** The call answers for a new VM, and lets go of its VM only by naming, deleting or reporting it. */
  ghost predicate HoldKept(s: State, s': State, f: FrameId)
    requires f in s'.allocs
  {
    && (forall v :: v in s'.vms ==> v in s.vms || s'.allocs[f].vm == Some(v))
    && (f in s.allocs && s.allocs[f].vm.Some? && s'.allocs[f].vm != s.allocs[f].vm ==>
          var v := s.allocs[f].vm.value;
          v !in s'.vms || v in s'.leaks || v in s'.labels
          || (s'.allocs[f].n.Some? && s'.allocs[f].n.value in s'.rows
              && s'.rows[s'.allocs[f].n.value].externalId == Some(v)))
  }

  // ---- how a step may change what other frames rely on ----

  predicate RowKept(before: NodeRow, after: NodeRow) {
    && after == before.(enabled := after.enabled)
    && (after.enabled ==> before.enabled || before.cloud.None?)
  }

  /** Every row but `own` is kept, removed or new; deleted VMs do not come back. */
  ghost predicate Evolves(s: State, s': State, own: Option<NodeId>) {
    && s.nextNode <= s'.nextNode && s.nextVm <= s'.nextVm
    && s.leaks <= s'.leaks && s.labels <= s'.labels
    && (forall v :: v in s'.vms ==> v in s.vms || s.nextVm <= v < s'.nextVm)
    && (forall n :: n in s'.rows ==>
          (n in s.rows && (RowKept(s.rows[n], s'.rows[n]) || own == Some(n))) || s.nextNode <= n < s'.nextNode)
    && (forall n: NodeId :: own != Some(n) ==> RetiredKept(s, s', n))
  }

  /** A node retires exactly when its row stops being enabled. */
  predicate RetiredKept(s: State, s': State, n: NodeId) {
    var before, after := n in s.rows && s.rows[n].enabled, n in s'.rows && s'.rows[n].enabled;
    && (n in s.retired ==> n in s'.retired)
    && (n in s'.retired && n !in s.retired ==> !after)
    && (before && !after ==> n in s'.retired)
  }

  lemma AllocOkStays(w: World, s: State, s': State, own: Option<NodeId>, f: FrameId)
    requires Evolves(s, s', own) && RowsOk(s)
    requires f in s.allocs && AllocOk(w, s, f)
    requires s.allocs[f].n.Some? ==> s.allocs[f].n != own && s.allocs[f].n.value in s'.rowOwner
                                     && s'.rowOwner[s.allocs[f].n.value] == f
    requires f in s'.allocs && s'.allocs[f] == s.allocs[f]
    ensures AllocOk(w, s', f)
  {
  }

  lemma ReaperOkStays(s: State, s': State, own: Option<NodeId>, f: FrameId)
    requires Evolves(s, s', own)
    requires f in s.reapers && ReaperOk(s, f) && own != Some(s.reapers[f].n)
    requires f in s'.reapers && s'.reapers[f] == s.reapers[f]
    requires forall o :: o in s'.allocs && s'.allocs[o].n == Some(s.reapers[f].n) ==> !Unpersisted(s'.allocs[o].pc)
    ensures ReaperOk(s', f)
  {
  }

  // ---- assembling the invariant after a step ----

  /** The row whose content only f may replace: the tmp row it is provisioning. */
  ghost function Own(s: State, f: FrameId): Option<NodeId> {
    if f in s.allocs && Unpersisted(s.allocs[f].pc) then s.allocs[f].n else None
  }

  ghost predicate NewRowsOk(w: World, s: State, s': State, own: Option<NodeId>) {
    forall n :: n in s'.rows && (n !in s.rows || own == Some(n)) ==>
      RowOk(s', s'.rows[n]) && RowCovered(w, s', s'.rows[n])
  }

  /** The frame f alone moves among the allocations; a row it gains is the new one. */
  ghost predicate AllocMove(w: World, s: State, s': State, f: FrameId) {
    && s'.reapers == s.reapers
    && (forall g :: g in s'.allocs <==> g in s.allocs || g == f)
    && (forall g :: g in s.allocs && g != f ==> s'.allocs[g] == s.allocs[g])
    && var before, after := if f in s.allocs then s.allocs[f].n else None, s'.allocs[f].n;
       && (before == after ==> s'.rowOwner == s.rowOwner)
       && (before != after ==> before.None? && after == Some(s.nextNode) && s.nextNode < s'.nextNode
                               && s'.rowOwner == s.rowOwner[s.nextNode := f])
       && (before.Some? && Unpersisted(s'.allocs[f].pc) ==> Unpersisted(s.allocs[f].pc))
       && Evolves(s, s', Own(s, f))
       && NewRowsOk(w, s, s', Own(s, f))
       && AllocOk(w, s', f)
       && NamesKept(s, s') && HoldKept(s, s', f)
  }

  lemma RowsOkKept(w: World, s: State, s': State, own: Option<NodeId>)
    requires RowsOk(s) && Evolves(s, s', own) && NewRowsOk(w, s, s', own)
    ensures forall n :: n in s'.rows ==> n < s'.nextNode && RowOk(s', s'.rows[n])
    ensures forall v :: v in s'.vms ==> v < s'.nextVm
  {
    forall n | n in s'.rows ensures n < s'.nextNode && RowOk(s', s'.rows[n]) {
      if n in s.rows && own != Some(n) {
        assert RowOk(s, s.rows[n]) && RowKept(s.rows[n], s'.rows[n]);
      }
    }
  }

  lemma OtherAllocKept(w: World, s: State, s': State, f: FrameId, g: FrameId)
    requires Structure(w, s) && AllocMove(w, s, s', f)
    requires g in s.allocs && g != f
    ensures AllocOk(w, s', g)
  {
    assert AllocOk(w, s, g);
    if f in s.allocs {
      assert AllocOk(w, s, f);
    }
    AllocOkStays(w, s, s', Own(s, f), g);
  }

  lemma ReaperKept(w: World, s: State, s': State, f: FrameId, g: FrameId)
    requires Structure(w, s) && AllocMove(w, s, s', f)
    requires g in s.reapers
    ensures ReaperOk(s', g)
  {
    assert ReaperOk(s, g);
    ReaperOkStays(s, s', Own(s, f), g);
  }

  lemma RowsOkAfterAllocMove(w: World, s: State, s': State, f: FrameId)
    requires RowsOk(s) && AllocMove(w, s, s', f)
    ensures RowsOk(s')
  {
    RowsOkKept(w, s, s', Own(s, f));
    hide AllocOk, NewRowsOk, NamesKept, HoldKept;
  }

  lemma FramesAfterAllocMove(w: World, s: State, s': State, f: FrameId)
    requires AllocMove(w, s, s', f)
    ensures f in s'.allocs && AllocOk(w, s', f) && s'.reapers == s.reapers
    ensures forall g :: g in s'.allocs && g != f ==> g in s.allocs
  {
    hide AllocOk, Evolves, NewRowsOk, NamesKept, HoldKept;
  }

  lemma AllocMoveKeeps(w: World, s: State, s': State, f: FrameId)
    requires Structure(w, s) && AllocMove(w, s, s', f)
    ensures Structure(w, s')
  {
    hide RowsOk, AllocOk, ReaperOk, AllocMove;
    RowsOkAfterAllocMove(w, s, s', f);
    FramesAfterAllocMove(w, s, s', f);
    forall g | g in s'.allocs ensures AllocOk(w, s', g) {
      if g != f {
        OtherAllocKept(w, s, s', f, g);
      }
    }
    forall g | g in s'.reapers ensures ReaperOk(s', g) {
      ReaperKept(w, s, s', f, g);
    }
  }

  /** A reaper keeps the node it was given, gets to the row removal only past the VM's deletion, and drops at most that
      node's row. */
  ghost predicate ReaperMove(w: World, s: State, s': State, f: FrameId) {
    && f in s'.reapers
    && (f !in s.reapers ==> s'.reapers[f].n in s.rows && s'.reapers[f].row == s.rows[s'.reapers[f].n])
    && (f in s.reapers ==> s'.reapers[f].n == s.reapers[f].n && s'.reapers[f].row == s.reapers[f].row)
    && (s'.reapers[f].pc.Removing? ==> Settled(s', s'.reapers[f].row) || !CanDelete(w, s'.reapers[f].row))
    && (NamesKept(s, s') || (f in s.reapers && s.reapers[f].pc.Removing? && s'.vms == s.vms && s'.leaks == s.leaks
                             && (forall n :: n in s.rows && n != s.reapers[f].n ==>
                                   n in s'.rows && s'.rows[n] == s.rows[n])))
  }

  /** No allocation moves; the reaper f may. */
  ghost predicate OtherMove(w: World, s: State, s': State, f: Option<FrameId>) {
    && s'.allocs == s.allocs && s'.rowOwner == s.rowOwner
    && Evolves(s, s', None) && NewRowsOk(w, s, s', None) && s'.vms <= s.vms
    && (f.None? ==> s'.reapers == s.reapers && NamesKept(s, s'))
    && (f.Some? ==> (forall g :: g in s'.reapers <==> g in s.reapers || g == f.value)
                    && (forall g :: g in s.reapers && g != f.value ==> s'.reapers[g] == s.reapers[g])
                    && ReaperOk(s', f.value) && ReaperMove(w, s, s', f.value))
  }

  lemma OtherMoveKeeps(w: World, s: State, s': State, f: Option<FrameId>)
    requires Structure(w, s) && OtherMove(w, s, s', f)
    ensures Structure(w, s')
  {
    RowsOkKept(w, s, s', None);
    forall g | g in s'.allocs ensures AllocOk(w, s', g) {
      AllocOkStays(w, s, s', None, g);
    }
    forall g | g in s'.reapers ensures ReaperOk(s', g) {
      if f != Some(g) {
        ReaperOkStays(s, s', None, g);
      }
    }
  }

  lemma AccountedAfterAllocMove(w: World, s: State, s': State, f: FrameId)
    requires Accounted(s) && AllocMove(w, s, s', f)
    ensures Accounted(s')
  {
    forall v | v in s'.vms && v !in s'.leaks && v !in s'.labels ensures HeldInFlight(s', v) || NamedByRow(s', v) {
      if v in s.vms {
        if g :| g in s.allocs && s.allocs[g].vm == Some(v) {
          if g != f {
            assert s'.allocs[g] == s.allocs[g];
          }
        } else {
          var n :| n in s.rows && s.rows[n].externalId == Some(v);
          assert n in s'.rows && s'.rows[n].externalId == Some(v);
        }
      }
    }
  }

  /** A reaper about to remove a row has seen to its VM. */
  ghost predicate ReaperCovered(w: World, s: State, r: Reaper) {
    RowCovered(w, s, r.row) && (r.pc.Removing? ==> Settled(s, r.row))
  }

  /** What the accounting needs beyond the structure: adapters and configs for all rows that name a billing VM. */
  ghost predicate Accounting(w: World, s: State) {
    && Accounted(s)
    && (forall n :: n in s.rows ==> RowCovered(w, s, s.rows[n]))
    && (forall f :: f in s.reapers ==> ReaperCovered(w, s, s.reapers[f]))
  }

  lemma CoveredStays(w: World, s: State, s': State, own: Option<NodeId>, row: NodeRow)
    requires Evolves(s, s', own) && RowOk(s, row)
    ensures RowCovered(w, s, row) ==> RowCovered(w, s', row)
    ensures Settled(s, row) ==> Settled(s', row)
  {
  }

  lemma RowsCoveredKept(w: World, s: State, s': State, own: Option<NodeId>)
    requires RowsOk(s) && Evolves(s, s', own) && NewRowsOk(w, s, s', own)
    requires forall n :: n in s.rows ==> RowCovered(w, s, s.rows[n])
    ensures forall n :: n in s'.rows ==> RowCovered(w, s', s'.rows[n])
  {
    forall n | n in s'.rows ensures RowCovered(w, s', s'.rows[n]) {
      if n in s.rows && own != Some(n) {
        CoveredStays(w, s, s', own, s.rows[n]);
        assert RowKept(s.rows[n], s'.rows[n]);
      }
    }
  }

  lemma AccountingAfterAllocMove(w: World, s: State, s': State, f: FrameId)
    requires Structure(w, s) && Accounting(w, s) && AllocMove(w, s, s', f)
    ensures Accounting(w, s')
  {
    AccountedAfterAllocMove(w, s, s', f);
    RowsCoveredKept(w, s, s', Own(s, f));
    forall g | g in s'.reapers ensures ReaperCovered(w, s', s'.reapers[g]) {
      assert ReaperOk(s, g);
      CoveredStays(w, s, s', Own(s, f), s.reapers[g].row);
    }
  }

  lemma AccountedAfterOtherMove(s: State, s': State)
    requires Accounted(s) && s'.allocs == s.allocs && s'.vms <= s.vms && s.leaks <= s'.leaks && s.labels <= s'.labels
    requires NamesKept(s, s')
    ensures Accounted(s')
  {
    forall v | v in s'.vms && v !in s'.leaks && v !in s'.labels ensures HeldInFlight(s', v) || NamedByRow(s', v) {
      if !HeldInFlight(s, v) {
        var n :| n in s.rows && s.rows[n].externalId == Some(v);
        assert n in s'.rows && s'.rows[n].externalId == Some(v);
      }
    }
  }

  /** The row a reaper removes names no VM that still needs it. */
  lemma ReaperKeepsNames(w: World, s: State, s': State, f: FrameId)
    requires Structure(w, s) && Accounting(w, s) && ReaperMove(w, s, s', f)
    ensures NamesKept(s, s')
  {
    if !NamesKept(s, s') {
      assert ReaperOk(s, f) && ReaperCovered(w, s, s.reapers[f]);
    }
  }

  lemma ReaperStaysCovered(w: World, s: State, s': State, f: Option<FrameId>, g: FrameId)
    requires Structure(w, s) && Accounting(w, s) && OtherMove(w, s, s', f) && g in s'.reapers
    ensures ReaperCovered(w, s', s'.reapers[g])
  {
    if g in s.reapers {
      assert ReaperOk(s, g) && ReaperCovered(w, s, s.reapers[g]);
      CoveredStays(w, s, s', None, s.reapers[g].row);
    } else {
      CoveredStays(w, s, s', None, s'.reapers[g].row);
    }
    assert ReaperOk(s', g);
  }

  lemma AccountingAfterOtherMove(w: World, s: State, s': State, f: Option<FrameId>)
    requires Structure(w, s) && Accounting(w, s) && OtherMove(w, s, s', f)
    ensures Accounting(w, s')
  {
    if f.Some? {
      ReaperKeepsNames(w, s, s', f.value);
    }
    AccountedAfterOtherMove(s, s');
    RowsCoveredKept(w, s, s', None);
    forall g | g in s'.reapers ensures ReaperCovered(w, s', s'.reapers[g]) {
      ReaperStaysCovered(w, s, s', f, g);
    }
  }

  /** Removing a row disturbs nobody. */
  lemma RemovedEvolves(w: World, s: State, s': State, n: NodeId, o: Outcome)
    requires s'.rows == Removed(s, n, o).rows && s'.retired == Removed(s, n, o).retired
    requires s'.vms == s.vms && s'.leaks == s.leaks && s'.labels == s.labels
    requires s'.nextNode == s.nextNode && s'.nextVm == s.nextVm
    ensures Evolves(s, s', None) && NewRowsOk(w, s, s', None)
    ensures (n in s.rows ==> Settled(s, s.rows[n])) ==> NamesKept(s, s')
  {
  }

  /** A new tmp row disturbs nobody. */
  lemma TmpRowEvolves(w: World, s: State, s': State, p: Provider)
    requires RowsOk(s) && s'.rows == s.rows[s.nextNode := TmpRow(p)] && s'.nextNode == s.nextNode + 1
    requires s'.vms == s.vms && s'.leaks == s.leaks && s'.labels == s.labels && s'.nextVm == s.nextVm
    requires s'.retired == s.retired
    ensures Evolves(s, s', None) && NewRowsOk(w, s, s', None) && NamesKept(s, s')
  {
  }

  lemma ChoiceHasAdapter(w: World, platforms: seq<string>, counts: Counts, choice: nat)
    requires IsChoice(w.adapters, w.configs, platforms, counts, choice)
    ensures HasAdapter(w, w.adapters[choice].name)
  {
  }

  // ---- the steps, one by one ----

  /** What the step of frame f may rely on. */
  ghost predicate MoveReady(w: World, s: State, f: FrameId) {
    && RowsOk(s)
    && (f in s.allocs ==> AllocOk(w, s, f))
    && (f in s.reapers ==> ReaperOk(s, f))
  }

  lemma StartMoves(w: World, s: State, f: FrameId, task: TaskId, s': State)
    requires MoveReady(w, s, f) && DoStart(s, f, task) == Some(s')
    ensures AllocMove(w, s, s', f)
  {
  }

  lemma DeduplicateMoves(w: World, s: State, f: FrameId, s': State)
    requires MoveReady(w, s, f) && DoDeduplicate(s, f) == Some(s')
    ensures AllocMove(w, s, s', f)
  {
    hide RowsOk;
  }

  lemma AddToTrackerMoves(w: World, s: State, f: FrameId, s': State)
    requires MoveReady(w, s, f) && DoAddToTracker(s, f) == Some(s')
    ensures AllocMove(w, s, s', f)
  {
    hide RowsOk;
  }

  lemma AcquireLockMoves(w: World, s: State, f: FrameId, s': State)
    requires MoveReady(w, s, f) && DoAcquireLock(s, f) == Some(s')
    ensures AllocMove(w, s, s', f)
  {
    hide RowsOk;
  }

  lemma FailUnderLockMoves(w: World, s: State, f: FrameId, s': State)
    requires MoveReady(w, s, f) && DoFailUnderLock(s, f) == Some(s')
    ensures AllocMove(w, s, s', f)
  {
    hide RowsOk;
  }

  lemma ReadCountsMoves(w: World, s: State, f: FrameId, s': State)
    requires MoveReady(w, s, f) && DoReadCounts(s, f) == Some(s')
    ensures AllocMove(w, s, s', f)
  {
    hide RowsOk;
  }

  lemma SelectNoneMoves(w: World, s: State, f: FrameId, platforms: seq<string>, s': State)
    requires MoveReady(w, s, f) && DoSelectNone(w, s, f, platforms) == Some(s')
    ensures AllocMove(w, s, s', f)
  {
    hide RowsOk, IsChoice, Throttled;
  }

  lemma InsertTmpMoves(w: World, s: State, f: FrameId, platforms: seq<string>, choice: nat, s': State)
    requires MoveReady(w, s, f) && DoInsertTmp(w, s, f, platforms, choice) == Some(s')
    ensures AllocMove(w, s, s', f)
  {
    hide HasAdapter, RowsOk, Evolves, NewRowsOk, NamesKept;
    TmpRowEvolves(w, s, s', w.adapters[choice].name);
    ChoiceHasAdapter(w, platforms, s.allocs[f].counts, choice);
    hide IsChoice, Suitable;
  }

  lemma InsertLostMoves(w: World, s: State, f: FrameId, platforms: seq<string>, choice: nat, s': State)
    requires MoveReady(w, s, f) && DoInsertLost(w, s, f, platforms, choice) == Some(s')
    ensures AllocMove(w, s, s', f)
  {
    hide HasAdapter, RowsOk, Evolves, NewRowsOk, NamesKept;
    TmpRowEvolves(w, s, s', w.adapters[choice].name);
    hide IsChoice, Suitable;
  }

  lemma LinkMoves(w: World, s: State, f: FrameId, s': State)
    requires MoveReady(w, s, f) && DoLink(s, f) == Some(s')
    ensures AllocMove(w, s, s', f)
  {
    hide RowsOk;
  }

  lemma AcquireSlotMoves(w: World, s: State, f: FrameId, s': State)
    requires MoveReady(w, s, f) && DoAcquireSlot(s, f) == Some(s')
    ensures AllocMove(w, s, s', f)
  {
    hide RowsOk;
  }

  lemma VmStartsMoves(w: World, s: State, f: FrameId, s': State)
    requires MoveReady(w, s, f) && DoVmStarts(s, f) == Some(s')
    ensures AllocMove(w, s, s', f)
  {
  }

  lemma CreateReturnsMoves(w: World, s: State, f: FrameId, s': State)
    requires MoveReady(w, s, f) && DoCreateReturns(s, f) == Some(s')
    ensures AllocMove(w, s, s', f)
  {
    hide RowsOk;
  }

  lemma CreateRaisesMoves(w: World, s: State, f: FrameId, s': State)
    requires MoveReady(w, s, f) && DoCreateRaises(s, f) == Some(s')
    ensures AllocMove(w, s, s', f)
  {
    hide RowsOk;
  }

  lemma CreateAbortedMoves(w: World, s: State, f: FrameId, d: Deletion, s': State)
    requires MoveReady(w, s, f) && DoCreateAborted(s, f, d) == Some(s')
    ensures AllocMove(w, s, s', f)
  {
    hide RowsOk;
  }

  lemma CreateAmbiguousMoves(w: World, s: State, f: FrameId, s': State)
    requires MoveReady(w, s, f) && DoCreateAmbiguous(s, f) == Some(s')
    ensures AllocMove(w, s, s', f)
  {
    hide RowsOk;
  }

  lemma SetupReturnsMoves(w: World, s: State, f: FrameId, s': State)
    requires MoveReady(w, s, f) && DoSetupReturns(s, f) == Some(s')
    ensures AllocMove(w, s, s', f)
  {
    hide RowsOk;
  }

  lemma SetupRaisesMoves(w: World, s: State, f: FrameId, s': State)
    requires MoveReady(w, s, f) && DoSetupRaises(s, f) == Some(s')
    ensures AllocMove(w, s, s', f)
  {
    hide RowsOk;
  }

  lemma TeardownMoves(w: World, s: State, f: FrameId, d: Deletion, s': State)
    requires MoveReady(w, s, f) && DoTeardown(s, f, d) == Some(s')
    ensures AllocMove(w, s, s', f)
  {
    hide RowsOk;
  }

  lemma PersistMoves(w: World, s: State, f: FrameId, s': State)
    requires MoveReady(w, s, f) && DoPersist(s, f) == Some(s')
    ensures AllocMove(w, s, s', f)
  {
    hide RowsOk;
  }

  lemma ReturnMoves(w: World, s: State, f: FrameId, s': State)
    requires MoveReady(w, s, f) && DoReturn(s, f) == Some(s')
    ensures AllocMove(w, s, s', f)
  {
    hide RowsOk;
  }

  lemma PersistRaisesMoves(w: World, s: State, f: FrameId, s': State)
    requires MoveReady(w, s, f) && DoPersistRaises(s, f) == Some(s')
    ensures AllocMove(w, s, s', f)
  {
    hide RowsOk;
  }

  lemma PersistLostMoves(w: World, s: State, f: FrameId, s': State)
    requires MoveReady(w, s, f) && DoPersistLost(s, f) == Some(s')
    ensures AllocMove(w, s, s', f)
  {
    hide RowsOk;
  }

  lemma UndoDeleteMoves(w: World, s: State, f: FrameId, d: Deletion, s': State)
    requires MoveReady(w, s, f) && DoUndoDelete(s, f, d) == Some(s')
    ensures AllocMove(w, s, s', f)
  {
    hide RowsOk;
  }

  lemma CleanUpMoves(w: World, s: State, f: FrameId, o: Outcome, s': State)
    requires MoveReady(w, s, f) && DoCleanUp(s, f, o) == Some(s')
    ensures AllocMove(w, s, s', f)
  {
    hide RowsOk, HasAdapter, Evolves, NewRowsOk, NamesKept;
    RemovedEvolves(w, s, s', s.allocs[f].n.value, o);
  }

  lemma DiscardEntryMoves(w: World, s: State, f: FrameId, s': State)
    requires MoveReady(w, s, f) && DoDiscardEntry(s, f) == Some(s')
    ensures AllocMove(w, s, s', f)
  {
    hide RowsOk;
  }

  lemma CleanUpAgainMoves(w: World, s: State, f: FrameId, o: Outcome, s': State)
    requires MoveReady(w, s, f) && DoCleanUpAgain(s, f, o) == Some(s')
    ensures AllocMove(w, s, s', f)
  {
    hide RowsOk, HasAdapter, Settled, Evolves, NewRowsOk, NamesKept;
    RemovedEvolves(w, s, s', s.allocs[f].n.value, o);
  }

  lemma ReapMoves(w: World, s: State, f: FrameId, kind: ReaperKind, n: NodeId, s': State)
    requires Structure(w, s) && DoReap(s, f, kind, n) == Some(s')
    ensures OtherMove(w, s, s', Some(f))
  {
  }

  lemma ReapAbortsMoves(w: World, s: State, f: FrameId, s': State)
    requires MoveReady(w, s, f) && DoReapAborts(s, f) == Some(s')
    ensures OtherMove(w, s, s', Some(f))
  {
    hide RowsOk;
  }

  lemma ReapStaticMoves(w: World, s: State, f: FrameId, s': State)
    requires MoveReady(w, s, f) && DoReapStatic(s, f) == Some(s')
    ensures OtherMove(w, s, s', Some(f))
  {
    hide RowsOk;
  }

  lemma ReapDisableMoves(w: World, s: State, f: FrameId, s': State)
    requires MoveReady(w, s, f) && DoReapDisable(s, f) == Some(s')
    ensures OtherMove(w, s, s', Some(f))
  {
  }

  lemma ReapNoDeleteMoves(w: World, s: State, f: FrameId, s': State)
    requires MoveReady(w, s, f) && DoReapNoDelete(w, s, f) == Some(s')
    ensures OtherMove(w, s, s', Some(f))
  {
    hide RowsOk;
  }

  lemma ReapDeleteMoves(w: World, s: State, f: FrameId, s': State)
    requires MoveReady(w, s, f) && DoReapDelete(w, s, f) == Some(s')
    ensures OtherMove(w, s, s', Some(f))
  {
    hide RowsOk;
  }

  lemma ReapDeleteRaisesMoves(w: World, s: State, f: FrameId, gone: bool, s': State)
    requires MoveReady(w, s, f) && DoReapDeleteRaises(w, s, f, gone) == Some(s')
    ensures OtherMove(w, s, s', Some(f))
  {
    hide RowsOk;
  }

  lemma ReapRemoveMoves(w: World, s: State, f: FrameId, o: Outcome, s': State)
    requires MoveReady(w, s, f) && DoReapRemove(s, f, o) == Some(s')
    ensures OtherMove(w, s, s', Some(f))
  {
    hide RowsOk, Evolves, NewRowsOk;
    RemovedEvolves(w, s, s', s.reapers[f].n, o);
  }

  lemma OtherDiscardMoves(w: World, s: State, task: TaskId, s': State)
    requires RowsOk(s) && DoOtherDiscard(s, task) == Some(s')
    ensures OtherMove(w, s, s', None)
  {
  }

  lemma DisableMoves(w: World, s: State, n: NodeId, s': State)
    requires RowsOk(s) && DoDisable(s, n) == Some(s')
    ensures OtherMove(w, s, s', None)
  {
  }

  lemma CliAddMoves(w: World, s: State, s': State)
    requires RowsOk(s) && DoCliAdd(s) == Some(s')
    ensures OtherMove(w, s, s', None)
  {
  }

  lemma CliEnableMoves(w: World, s: State, n: NodeId, s': State)
    requires RowsOk(s) && DoCliEnable(s, n) == Some(s')
    ensures OtherMove(w, s, s', None)
  {
  }

  lemma CliRemoveMoves(w: World, s: State, n: NodeId, s': State)
    requires RowsOk(s) && DoCliRemove(s, n) == Some(s')
    ensures OtherMove(w, s, s', None)
  {
  }

  lemma VmVanishMoves(w: World, s: State, v: VmId, s': State)
    requires RowsOk(s) && DoVmVanish(s, v) == Some(s')
    ensures OtherMove(w, s, s', None)
  {
  }
}
