/** Fetching a task's outputs and deciding how it ends
    (infra/ssh/operations/download.py, application/consume_task.py). */
module Download {
  import opened Prelude
  import TaskStore

  /** How one sftp.get ends after its own retries. */
  datatype Got = Fetched | Transient | Permanent | Escapes

  /** One file: whether its SFTP client opens, how the get ends, whether closing the client succeeds. */
  datatype Attempt = Attempt(opens: bool, got: Got, closes: bool)

  datatype TreeRemoval = TreeRemoved | TreeRaises

  /** A file's entry carries its path, the catch-all's entry the remote directory. */
  datatype ErrorEntry = ErrorEntry(path: string, wholeSession: bool)

  /** The catch-all takes over: no further file is tried. */
  predicate Breaks(a: Attempt) {
    !a.opens || a.got.Escapes? || !a.closes
  }

  /** Files processed before the first break, or all of them. */
  function Tried(attempts: seq<Attempt>): (k: nat)
    ensures k <= |attempts|
    ensures forall i :: 0 <= i < k ==> !Breaks(attempts[i])
    ensures k < |attempts| ==> Breaks(attempts[k])
  {
    if attempts == [] || Breaks(attempts[0]) then 0 else 1 + Tried(attempts[1..])
  }

  /** The get itself ran and was classified, whatever happened when its client closed. */
  predicate Classified(a: Attempt, got: Got) {
    a.opens && a.got == got
  }

  /** Which of the first k files had a get that ended in `got`, in file order. */
  function Positions(attempts: seq<Attempt>, got: Got, k: nat): (at: seq<nat>)
    requires k <= |attempts|
    ensures forall i :: i in at <==> 0 <= i < k && attempts[i].opens && attempts[i].got == got
    ensures forall x, y :: 0 <= x < y < |at| ==> at[x] < at[y]
  {
    if k == 0 then []
    else
      var front := Positions(attempts, got, k - 1);
      assert forall x :: 0 <= x < |front| ==> front[x] in front;
      if Classified(attempts[k - 1], got) then front + [k - 1] else front
  }

  /** The entries of these files, each under its own path. */
  function Named(files: seq<string>, at: seq<nat>): (entries: seq<ErrorEntry>)
    requires forall x :: 0 <= x < |at| ==> at[x] < |files|
    ensures |entries| == |at| && forall x :: 0 <= x < |at| ==> entries[x] == ErrorEntry(files[at[x]], false)
  {
    seq(|at|, x requires 0 <= x < |at| => ErrorEntry(files[at[x]], false))
  }

  /** What is recorded for the first k files. */
  function Entries(files: seq<string>, attempts: seq<Attempt>, got: Got, k: nat): (entries: seq<ErrorEntry>)
    requires k <= |files| == |attempts|
  {
    var at := Positions(attempts, got, k);
    assert forall x :: 0 <= x < |at| ==> at[x] in at;
    Named(files, at)
  }

  lemma EntriesNext(files: seq<string>, attempts: seq<Attempt>, got: Got, k: nat)
    requires k < |files| == |attempts|
    ensures Entries(files, attempts, got, k + 1)
            == Entries(files, attempts, got, k)
               + if attempts[k].opens && attempts[k].got == got then [ErrorEntry(files[k], false)] else []
  {
  }

  /** A recorded entry stands for a file whose get ended so, and every such file has one. */
  lemma EntryOf(files: seq<string>, attempts: seq<Attempt>, got: Got, k: nat, e: ErrorEntry)
    requires k <= |files| == |attempts|
    ensures e in Entries(files, attempts, got, k)
            <==> exists i :: 0 <= i < k && attempts[i].opens && attempts[i].got == got
                             && e == ErrorEntry(files[i], false)
  {
    var at, entries := Positions(attempts, got, k), Entries(files, attempts, got, k);
    if e in entries {
      var x :| 0 <= x < |entries| && entries[x] == e;
      assert at[x] in at;
    }
    if i :| 0 <= i < k && attempts[i].opens && attempts[i].got == got && e == ErrorEntry(files[i], false) {
      assert i in at;
      var x :| 0 <= x < |at| && at[x] == i;
      assert entries[x] == e;
    }
  }

  lemma NoEntries(files: seq<string>, attempts: seq<Attempt>, got: Got, k: nat)
    requires k <= |files| == |attempts|
    ensures Entries(files, attempts, got, k) == []
            <==> forall i :: 0 <= i < k ==> !(attempts[i].opens && attempts[i].got == got)
  {
    var at := Positions(attempts, got, k);
    assert at == [] || at[0] in at;
  }

  /** How far classification got: a break while closing the client comes after the get was classified. */
  function Seen(attempts: seq<Attempt>): nat {
    var k := Tried(attempts);
    if k < |attempts| then k + 1 else k
  }

  datatype Outcome = Outcome(transient: seq<ErrorEntry>, permanent: seq<ErrorEntry>, fetched: set<nat>,
                             treeTouched: bool)

  predicate AllFetched(attempts: seq<Attempt>) {
    forall i :: 0 <= i < |attempts| ==> attempts[i] == Attempt(true, Fetched, true)
  }

  /** What download_outputs returned for these attempts. */
  ghost predicate Downloaded(files: seq<string>, remoteDir: string, attempts: seq<Attempt>, tree: TreeRemoval,
                             r: Outcome)
  {
    && |files| == |attempts|
    && (forall i :: i in r.fetched <==> 0 <= i < Seen(attempts) && Classified(attempts[i], Fetched))
    && r.permanent == Entries(files, attempts, Permanent, Seen(attempts))
    && r.transient == Entries(files, attempts, Transient, Seen(attempts))
                      + (if Tried(attempts) < |attempts| || (AllFetched(attempts) && tree.TreeRaises?)
                         then [ErrorEntry(remoteDir, true)] else [])
    && (r.treeTouched <==> AllFetched(attempts))
  }

  method DownloadOutputs(files: seq<string>, remoteDir: string, attempts: seq<Attempt>, tree: TreeRemoval)
    returns (r: Outcome)
    requires |files| == |attempts|
    ensures Downloaded(files, remoteDir, attempts, tree, r)
  {
    hide Entries, Positions;
    var transient: seq<ErrorEntry>, permanent: seq<ErrorEntry> := [], [];
    var fetched: set<nat> := {};
    NoEntries(files, attempts, Transient, 0);
    NoEntries(files, attempts, Permanent, 0);
    var raised := false;
    var i := 0;
    while i < |files| && !raised
      invariant 0 <= i <= |files|
      invariant raised ==> i > 0 && Breaks(attempts[i - 1])
      invariant forall j :: 0 <= j < (if raised then i - 1 else i) ==> !Breaks(attempts[j])
      invariant transient == Entries(files, attempts, Transient, i)
      invariant permanent == Entries(files, attempts, Permanent, i)
      invariant forall j :: j in fetched <==> 0 <= j < i && Classified(attempts[j], Fetched)
      decreases |files| - i
    {
      var a := attempts[i];
      EntriesNext(files, attempts, Transient, i);
      EntriesNext(files, attempts, Permanent, i);
      if !a.opens {
        raised := true;
      } else {
        match a.got {
          case Fetched => fetched := fetched + {i};
          case Transient => transient := transient + [ErrorEntry(files[i], false)];
          case Permanent => permanent := permanent + [ErrorEntry(files[i], false)];
          case Escapes => raised := true;
        }
        if !a.closes {
          raised := true;
        }
      }
      i := i + 1;
    }
    TriedIs(attempts, if raised then i - 1 else i);
    AllFetchedIff(files, attempts);
    var touched := false;
    if !raised && transient == [] && permanent == [] {
      touched := true;
      raised := tree.TreeRaises?;
    }
    if raised {
      transient := transient + [ErrorEntry(remoteDir, true)];
    }
    r := Outcome(transient, permanent, fetched, touched);
  }

  lemma {:induction false} TriedIs(attempts: seq<Attempt>, k: nat)
    requires k <= |attempts| && forall i :: 0 <= i < k ==> !Breaks(attempts[i])
    requires k < |attempts| ==> Breaks(attempts[k])
    ensures Tried(attempts) == k
  {
    if k > 0 {
      TriedIs(attempts[1..], k - 1);
    }
  }

  /** The gate before removing the tree tests exactly that every file was fetched. */
  lemma AllFetchedIff(files: seq<string>, attempts: seq<Attempt>)
    requires |files| == |attempts|
    ensures AllFetched(attempts) <==>
              && Tried(attempts) == |attempts|
              && Entries(files, attempts, Transient, Seen(attempts)) == []
              && Entries(files, attempts, Permanent, Seen(attempts)) == []
  {
    hide Entries, Positions;
    NoEntries(files, attempts, Transient, Seen(attempts));
    NoEntries(files, attempts, Permanent, Seen(attempts));
    if AllFetched(attempts) {
      TriedIs(attempts, |attempts|);
    } else if Tried(attempts) == |attempts| {
      var i :| 0 <= i < |attempts| && attempts[i] != Attempt(true, Fetched, true);
      assert !Breaks(attempts[i]);
      assert Classified(attempts[i], Transient) || Classified(attempts[i], Permanent);
    }
  }

  // ---- the outcome in terms of the attempts alone ----

  lemma {:induction false} NotTriedPast(attempts: seq<Attempt>, i: nat)
    requires i < |attempts|
    requires forall j :: 0 <= j < i ==> attempts[j].opens && !attempts[j].got.Escapes? && attempts[j].closes
    ensures i < Seen(attempts)
  {
    if Tried(attempts) < i {
      assert Breaks(attempts[Tried(attempts)]);
    }
  }

  /** As long as no earlier file has failed to open, escaped or failed to close, a file's own get decides what becomes
      of it, whatever the gets of the others ended in. */
  lemma FilesAreIndependent(files: seq<string>, remoteDir: string, attempts: seq<Attempt>, tree: TreeRemoval,
                            r: Outcome, i: nat)
    requires Downloaded(files, remoteDir, attempts, tree, r) && i < |files| && attempts[i].opens
    requires forall j :: 0 <= j < i ==> attempts[j].opens && !attempts[j].got.Escapes? && attempts[j].closes
    ensures i in r.fetched <==> attempts[i].got.Fetched?
    ensures attempts[i].got.Transient? ==> ErrorEntry(files[i], false) in r.transient
    ensures attempts[i].got.Permanent? ==> ErrorEntry(files[i], false) in r.permanent
    ensures (forall j :: 0 <= j < |files| && j != i ==> files[j] != files[i]) ==>
              && (ErrorEntry(files[i], false) in r.transient ==> attempts[i].got.Transient?)
              && (ErrorEntry(files[i], false) in r.permanent ==> attempts[i].got.Permanent?)
  {
    hide Entries, Positions;
    NotTriedPast(attempts, i);
    EntryOf(files, attempts, Transient, Seen(attempts), ErrorEntry(files[i], false));
    EntryOf(files, attempts, Permanent, Seen(attempts), ErrorEntry(files[i], false));
    assert forall e :: e in r.transient ==> e in Entries(files, attempts, Transient, Seen(attempts)) || e.wholeSession;
  }

  /** After the first file that fails to open, escapes or fails to close nothing is tried any more; the session-level
      entry says so, or that the tree removal raised, and appears in no other case. */
  lemma SessionEntryIff(files: seq<string>, remoteDir: string, attempts: seq<Attempt>, tree: TreeRemoval, r: Outcome)
    requires Downloaded(files, remoteDir, attempts, tree, r)
    ensures ErrorEntry(remoteDir, true) in r.transient
            <==> (exists j :: 0 <= j < |attempts|
                              && (!attempts[j].opens || attempts[j].got.Escapes? || !attempts[j].closes))
                 || (AllFetched(attempts) && tree.TreeRaises?)
    ensures forall i, j :: i in r.fetched && 0 <= j < i ==>
              attempts[j].opens && !attempts[j].got.Escapes? && attempts[j].closes
    ensures ErrorEntry(remoteDir, true) !in r.permanent
  {
    hide Entries, Positions;
    EntryOf(files, attempts, Transient, Seen(attempts), ErrorEntry(remoteDir, true));
    EntryOf(files, attempts, Permanent, Seen(attempts), ErrorEntry(remoteDir, true));
    if Tried(attempts) == |attempts| {
      forall j | 0 <= j < |attempts| ensures !Breaks(attempts[j]) {
      }
    } else {
      assert Breaks(attempts[Tried(attempts)]);
      assert r.transient[|r.transient| - 1] == ErrorEntry(remoteDir, true);
    }
    forall i, j | i in r.fetched && 0 <= j < i ensures !Breaks(attempts[j]) {
      assert j < Tried(attempts);
    }
  }

  // ---- what happens to the task ----

  /** None defers: the task stays RUNNING and nothing is saved. */
  function DecideFinalisation(task: TaskStore.Row, remoteFolder: string, r: Outcome, message: string)
    : (decision: Option<TaskStore.Row>)
    requires task.status.Running? && task.folder.Some?
  {
    if r.transient != [] && r.permanent == [] then None
    else
      var folder := if remoteFolder == "" then task.folder.value else remoteFolder;
      var error := if r.permanent + r.transient != [] then Some(message) else None;
      Some(TaskStore.Finish(task, error, folder).value)
  }

  /** Every file is fetched, recorded under its own path, or covered by a session-level transient entry; the remote tree
      is touched only when every file has been fetched, so each output is local or still remote. */
  lemma EveryFileAccounted(files: seq<string>, remoteDir: string, attempts: seq<Attempt>, tree: TreeRemoval, r: Outcome,
                           i: nat)
    requires Downloaded(files, remoteDir, attempts, tree, r) && i < |files|
    ensures i in r.fetched || ErrorEntry(files[i], false) in r.transient || ErrorEntry(files[i], false) in r.permanent
            || ErrorEntry(remoteDir, true) in r.transient
    ensures i in r.fetched || !r.treeTouched
  {
    hide Entries, Positions;
    EntryOf(files, attempts, Transient, Seen(attempts), ErrorEntry(files[i], false));
    EntryOf(files, attempts, Permanent, Seen(attempts), ErrorEntry(files[i], false));
    if Tried(attempts) == |attempts| {
      assert !Breaks(attempts[i]);
    } else {
      assert r.transient[|r.transient| - 1] == ErrorEntry(remoteDir, true);
    }
  }

  /** Some file that is tried has a get that fails for good. */
  ghost predicate FailsForGood(attempts: seq<Attempt>) {
    exists i :: 0 <= i < |attempts| && attempts[i].opens && attempts[i].got.Permanent?
                && forall j :: 0 <= j < i ==> attempts[j].opens && !attempts[j].got.Escapes? && attempts[j].closes
  }

  lemma SeenIff(attempts: seq<Attempt>)
    ensures FailsForGood(attempts) <==> exists i :: 0 <= i < Seen(attempts) && Classified(attempts[i], Permanent)
  {
    if FailsForGood(attempts) {
      var i :| 0 <= i < |attempts| && attempts[i].opens && attempts[i].got.Permanent?
               && forall j :: 0 <= j < i ==> attempts[j].opens && !attempts[j].got.Escapes? && attempts[j].closes;
      NotTriedPast(attempts, i);
      assert Classified(attempts[i], Permanent);
    }
    if i :| 0 <= i < Seen(attempts) && Classified(attempts[i], Permanent) {
      assert forall j :: 0 <= j < i ==> !Breaks(attempts[j]);
    }
  }

  /** The task completes without error exactly when every file was fetched and the tree was removed without raising; it
      stays RUNNING and unsaved exactly when only transient errors occurred; and it fails, with the error set and the
      remote tree untouched, exactly when some file failed for good. */
  lemma DecisionFollowsDownload(files: seq<string>, remoteDir: string, attempts: seq<Attempt>, tree: TreeRemoval,
                                r: Outcome, task: TaskStore.Row, message: string)
    requires Downloaded(files, remoteDir, attempts, tree, r)
    requires task.status.Running? && task.folder.Some?
    ensures var decision := DecideFinalisation(task, remoteDir, r, message);
            var failed := FailsForGood(attempts);
            && (decision.Some? && decision.value.error.None? <==> AllFetched(attempts) && tree.TreeRemoved?)
            && (decision.Some? && decision.value.error.Some? <==> failed)
            && (decision.None? <==> !failed && !(AllFetched(attempts) && tree.TreeRemoved?))
            && (decision.Some? ==> decision.value.status.Done? && decision.value.node == task.node)
            && (decision.Some? && remoteDir != "" ==> decision.value.folder == Some(remoteDir))
            && (decision.Some? && remoteDir == "" ==> decision.value.folder == task.folder)
            && (decision.Some? ==> decision.value.error in {None, Some(message)})
            && (failed ==> !r.treeTouched)
  {
    hide Entries, Positions;
    NoEntries(files, attempts, Permanent, Seen(attempts));
    SeenIff(attempts);
    AllFetchedIff(files, attempts);
  }
}
