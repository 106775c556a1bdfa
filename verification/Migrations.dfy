/** The forward-only migration runner over any series of crashes and resumed runs
    (infra/persistence/postgres_migrations.py). */
module Migrations {
  import opened Prelude

  // ---- order of strings ----

  /** Python's < on str. */
  predicate Less(a: string, b: string) {
    b != "" && (a == "" || a[0] < b[0] || (a[0] == b[0] && Less(a[1..], b[1..])))
  }

  /** The strings differ first at position k, or the shorter one ends there. */
  predicate DiffersAt(a: string, b: string, k: nat) {
    k <= |a| && k < |b| && a[..k] == b[..k] && (k < |a| ==> a[k] < b[k])
  }

  lemma DiffersLater(a: string, b: string, k: nat)
    requires k > 0 && DiffersAt(a, b, k)
    ensures a != "" && b != "" && a[0] == b[0] && DiffersAt(a[1..], b[1..], k - 1)
  {
    assert a[..k][0] == b[..k][0];
    assert a[1..][..k - 1] == a[..k][1..] && b[1..][..k - 1] == b[..k][1..];
  }

  lemma DiffersBehind(a: string, b: string, k: nat)
    requires a != "" && b != "" && a[0] == b[0] && DiffersAt(a[1..], b[1..], k)
    ensures DiffersAt(a, b, k + 1)
  {
    assert a[..k + 1] == [a[0]] + a[1..][..k] && b[..k + 1] == [b[0]] + b[1..][..k];
  }

  /** Less is the order of Python's strings. */
  lemma {:induction false} LessMeans(a: string, b: string)
    ensures Less(a, b) <==> exists k: nat :: DiffersAt(a, b, k)
  {
    forall k: nat | k > 0 && DiffersAt(a, b, k)
      ensures a != "" && b != "" && a[0] == b[0] && DiffersAt(a[1..], b[1..], k - 1)
    {
      DiffersLater(a, b, k);
    }
    if a != "" && b != "" && a[0] == b[0] {
      LessMeans(a[1..], b[1..]);
      if k: nat :| DiffersAt(a[1..], b[1..], k) {
        DiffersBehind(a, b, k);
      }
    } else if Less(a, b) {
      assert DiffersAt(a, b, 0);
    }
  }

  lemma {:induction false} LessIsTotal(a: string, b: string)
    ensures !(Less(a, b) && Less(b, a))
    ensures Less(a, b) || Less(b, a) || a == b
    ensures !Less(a, a)
  {
    if a != "" && b != "" && a[0] == b[0] {
      LessIsTotal(a[1..], b[1..]);
    }
    if a != "" {
      LessIsTotal(a[1..], a[1..]);
    }
  }

  lemma {:induction false} LessIsTransitive(a: string, b: string, c: string)
    requires Less(a, b) && Less(b, c)
    ensures Less(a, c)
  {
    if a != "" && a[0] == b[0] && b[0] == c[0] {
      LessIsTransitive(a[1..], b[1..], c[1..]);
    }
  }

  // ---- files and their prefixes ----

  /** Everything before the first underscore. */
  function PrefixId(name: string): (prefix: string)
    ensures '_' !in prefix && |prefix| <= |name| && prefix == name[..|prefix|]
    ensures |prefix| < |name| ==> name[|prefix|] == '_'
  {
    if name == "" || name[0] == '_' then "" else [name[0]] + PrefixId(name[1..])
  }

  function PrefixIds(files: seq<string>): (ids: seq<string>)
    ensures |ids| == |files| && forall i :: 0 <= i < |files| ==> ids[i] == PrefixId(files[i])
  {
    seq(|files|, i requires 0 <= i < |files| => PrefixId(files[i]))
  }

  ghost predicate SortedByName(files: seq<string>) {
    forall i, j :: 0 <= i < j < |files| ==> Less(files[i], files[j])
  }

  ghost predicate Increasing(files: seq<string>) {
    forall i, j :: 0 <= i < j < |files| ==> Less(PrefixId(files[i]), PrefixId(files[j]))
  }

  /** Prefixes of one length decide the order of the names. */
  lemma {:induction false} NameOrderIsPrefixOrder(a: string, b: string)
    requires |PrefixId(a)| == |PrefixId(b)| && PrefixId(a) != PrefixId(b)
    ensures Less(a, b) <==> Less(PrefixId(a), PrefixId(b))
  {
    if a[0] == b[0] {
      assert PrefixId(a)[1..] == PrefixId(a[1..]) && PrefixId(b)[1..] == PrefixId(b[1..]);
      NameOrderIsPrefixOrder(a[1..], b[1..]);
    }
  }

  lemma SortedFilesAreIncreasing(files: seq<string>)
    requires SortedByName(files)
    requires forall i, j :: 0 <= i < j < |files| ==>
               |PrefixId(files[i])| == |PrefixId(files[j])| && PrefixId(files[i]) != PrefixId(files[j])
    ensures Increasing(files)
  {
    forall i, j | 0 <= i < j < |files| ensures Less(PrefixId(files[i]), PrefixId(files[j])) {
      NameOrderIsPrefixOrder(files[i], files[j]);
    }
  }

  // ---- the scan ----

  function Inserted(sorted: seq<string>, name: string): seq<string> {
    if sorted == [] || Less(name, sorted[0]) then [name] + sorted else [sorted[0]] + Inserted(sorted[1..], name)
  }

  function Sorted(names: seq<string>): seq<string> {
    if names == [] then [] else Inserted(Sorted(names[..|names| - 1]), names[|names| - 1])
  }

  lemma {:induction false} InsertedIsSorted(sorted: seq<string>, name: string)
    requires SortedByName(sorted) && name !in sorted
    ensures SortedByName(Inserted(sorted, name))
    ensures multiset(Inserted(sorted, name)) == multiset(sorted) + multiset{name}
    ensures forall x :: x in Inserted(sorted, name) <==> x in sorted || x == name
  {
    if sorted == [] {
    } else if Less(name, sorted[0]) {
      forall j | 0 <= j < |sorted| ensures Less(name, sorted[j]) {
        if j > 0 {
          LessIsTransitive(name, sorted[0], sorted[j]);
        }
      }
    } else {
      var rest := sorted[1..];
      LessIsTotal(sorted[0], name);
      InsertedIsSorted(rest, name);
      assert sorted == [sorted[0]] + rest;
      forall j | 0 <= j < |Inserted(rest, name)| ensures Less(sorted[0], Inserted(rest, name)[j]) {
        var x := Inserted(rest, name)[j];
        assert x in rest || x == name;
      }
    }
  }

  /** A directory lists every file name once; the scan returns them all in name order. */
  lemma {:induction false} ScanIsSorted(names: seq<string>)
    requires forall i, j :: 0 <= i < j < |names| ==> names[i] != names[j]
    ensures SortedByName(Sorted(names)) && multiset(Sorted(names)) == multiset(names)
  {
    if names != [] {
      var front, last := names[..|names| - 1], names[|names| - 1];
      ScanIsSorted(front);
      assert names == front + [last];
      assert last !in front;
      assert last !in multiset(front) && last !in Sorted(front);
      InsertedIsSorted(Sorted(front), last);
    }
  }

  // ---- tracker and pending files ----

  /** SELECT MAX(migration_id), over the tracker rows in the order they were committed. */
  function LastApplied(rows: seq<string>): Option<string> {
    if rows == [] then None else
      match LastApplied(rows[..|rows| - 1])
      case None => Some(rows[|rows| - 1])
      case Some(best) => Some(if Less(best, rows[|rows| - 1]) then rows[|rows| - 1] else best)
  }

  lemma {:induction false} LastAppliedIsGreatest(rows: seq<string>)
    ensures LastApplied(rows).None? <==> rows == []
    ensures rows != [] ==> LastApplied(rows).value in rows
                           && forall i :: 0 <= i < |rows| ==> !Less(LastApplied(rows).value, rows[i])
  {
    if rows != [] {
      var front, last := rows[..|rows| - 1], rows[|rows| - 1];
      LastAppliedIsGreatest(front);
      LessIsTotal(last, last);
      forall i | 0 <= i < |rows| ensures !Less(LastApplied(rows).value, rows[i]) {
        if i < |front| && front != [] {
          var best := LastApplied(front).value;
          if Less(best, last) {
            if Less(last, front[i]) {
              LessIsTransitive(best, last, front[i]);
            }
          }
        }
      }
    }
  }

  predicate After(last: Option<string>, name: string) {
    last.None? || Less(last.value, PrefixId(name))
  }

  function Pending(last: Option<string>, files: seq<string>): (pending: seq<string>)
    ensures forall f :: f in pending ==> f in files && After(last, f)
  {
    if files == [] then []
    else if After(last, files[0]) then [files[0]] + Pending(last, files[1..])
    else Pending(last, files[1..])
  }

  /** Once a file comes after the maximum, so do all later ones. */
  lemma AfterStays(last: Option<string>, files: seq<string>, i: nat, j: nat)
    requires Increasing(files) && i <= j < |files| && After(last, files[i])
    ensures After(last, files[j])
  {
    hide Less;
    if i < j && last.Some? {
      LessIsTransitive(last.value, PrefixId(files[i]), PrefixId(files[j]));
    }
  }

  lemma {:induction false} AllPending(last: Option<string>, files: seq<string>)
    requires forall i :: 0 <= i < |files| ==> After(last, files[i])
    ensures Pending(last, files) == files
  {
    hide After;
    if files != [] {
      AllPending(last, files[1..]);
    }
  }

  /** Along increasing prefixes the pending files are a suffix. */
  lemma {:induction false} PendingIsSuffix(last: Option<string>, files: seq<string>) returns (j: nat)
    requires Increasing(files)
    ensures j <= |files| && Pending(last, files) == files[j..]
    ensures forall i :: 0 <= i < |files| ==> (After(last, files[i]) <==> j <= i)
  {
    hide After, PrefixId;
    if files == [] {
      j := 0;
    } else if After(last, files[0]) {
      j := 0;
      forall i | 0 <= i < |files| ensures After(last, files[i]) {
        AfterStays(last, files, 0, i);
      }
      AllPending(last, files);
    } else {
      var k := PendingIsSuffix(last, files[1..]);
      j := k + 1;
      forall i | 0 <= i < |files| ensures After(last, files[i]) <==> j <= i {
        assert i > 0 ==> files[i] == files[1..][i - 1];
      }
    }
  }

  // ---- runs ----

  /** One migration's transaction commits, raises without effect, or commits although the client sees an exception. */
  datatype Outcome = Commits | Raises | CommitLost

  datatype RunResult = RunResult(rows: seq<string>, completed: bool)

  /** The loop over the pending files; a run that is out of outcomes was killed. A second row with the same id violates
      the tracker's primary key. */
  function ApplyPending(rows: seq<string>, pending: seq<string>, outcomes: seq<Outcome>): RunResult
    decreases |pending|
  {
    if pending == [] then RunResult(rows, true)
    else if outcomes == [] || outcomes[0].Raises? || PrefixId(pending[0]) in rows then RunResult(rows, false)
    else if outcomes[0].CommitLost? then RunResult(rows + [PrefixId(pending[0])], false)
    else ApplyPending(rows + [PrefixId(pending[0])], pending[1..], outcomes[1..])
  }

  function ApplyRun(rows: seq<string>, files: seq<string>, outcomes: seq<Outcome>): RunResult {
    ApplyPending(rows, Pending(LastApplied(rows), files), outcomes)
  }

  method ApplyMigrations(rows: seq<string>, files: seq<string>, outcomes: seq<Outcome>) returns (r: RunResult)
    ensures r == ApplyRun(rows, files, outcomes)
  {
    var pending := Pending(LastApplied(rows), files);
    var tracker := rows;
    var i := 0;
    while i < |pending|
      invariant 0 <= i <= |pending| && i <= |outcomes|
      invariant ApplyPending(tracker, pending[i..], outcomes[i..]) == ApplyRun(rows, files, outcomes)
    {
      var prefix := PrefixId(pending[i]);
      if i == |outcomes| || outcomes[i].Raises? || prefix in tracker {
        return RunResult(tracker, false);
      }
      tracker := tracker + [prefix];
      if outcomes[i].CommitLost? {
        return RunResult(tracker, false);
      }
      assert pending[i..][1..] == pending[i + 1..] && outcomes[i..][1..] == outcomes[i + 1..];
      i := i + 1;
    }
    r := RunResult(tracker, true);
  }

  function Runs(rows: seq<string>, files: seq<string>, runs: seq<seq<Outcome>>): seq<string>
    decreases |runs|
  {
    if runs == [] then rows else Runs(ApplyRun(rows, files, runs[0]).rows, files, runs[1..])
  }

  // ---- progress of one run ----

  lemma PrefixIdsHead(rows: seq<string>, pending: seq<string>, k: nat)
    requires 0 < k <= |pending|
    ensures rows + PrefixIds(pending[..k]) == (rows + [PrefixId(pending[0])]) + PrefixIds(pending[1..][..k - 1])
  {
  }

  lemma PrefixIdsChain(rows: seq<string>, pending: seq<string>, a: nat, b: nat)
    requires a + b <= |pending|
    ensures rows + PrefixIds(pending[..a + b]) == (rows + PrefixIds(pending[..a])) + PrefixIds(pending[a..][..b])
  {
  }

  lemma PrefixIdsNone(rows: seq<string>, pending: seq<string>)
    ensures rows + PrefixIds(pending[..0]) == rows
  {
  }

  /** A run commits the first k pending files, in order; a run that completes has committed them all. */
  lemma {:induction false} ApplyPendingProgress(rows: seq<string>, pending: seq<string>, outcomes: seq<Outcome>)
    returns (k: nat)
    ensures k <= |pending|
    ensures ApplyPending(rows, pending, outcomes).rows == rows + PrefixIds(pending[..k])
    ensures ApplyPending(rows, pending, outcomes).completed ==> k == |pending|
    decreases |pending|
  {
    hide PrefixIds, PrefixId;
    if pending == [] || outcomes == [] || outcomes[0].Raises? || PrefixId(pending[0]) in rows {
      k := 0;
      PrefixIdsNone(rows, pending);
    } else if outcomes[0].CommitLost? {
      k := 1;
      PrefixIdsHead(rows, pending, 1);
      PrefixIdsNone(rows + [PrefixId(pending[0])], pending[1..]);
    } else {
      var rest := ApplyPendingProgress(rows + [PrefixId(pending[0])], pending[1..], outcomes[1..]);
      k := rest + 1;
      PrefixIdsHead(rows, pending, k);
    }
  }

  /** After the first k pending files the tracker maximum is the last of them, and what is pending is the rest. */
  lemma {:induction false} PendingAfter(rows: seq<string>, files: seq<string>, k: nat)
    requires Increasing(files) && k <= |Pending(LastApplied(rows), files)|
    ensures var pending := Pending(LastApplied(rows), files);
            Pending(LastApplied(rows + PrefixIds(pending[..k])), files) == pending[k..]
  {
    var pending := Pending(LastApplied(rows), files);
    if k == 0 {
      assert rows + PrefixIds(pending[..0]) == rows;
    } else {
      var j := PendingIsSuffix(LastApplied(rows), files);
      MaxAfter(rows, files, k);
      var last := Some(PrefixId(pending[k - 1]));
      var m := PendingIsSuffix(last, files);
      assert pending[k - 1] == files[j + k - 1];
      LessIsTotal(PrefixId(files[j + k - 1]), PrefixId(files[j + k - 1]));
      assert m > j + k - 1;
      if j + k < |files| {
        assert After(last, files[j + k]);
      }
      assert m == j + k;
    }
  }

  lemma LastAppliedAppend(rows: seq<string>, id: string)
    ensures LastApplied(rows + [id]) ==
              match LastApplied(rows)
              case None => Some(id)
              case Some(best) => Some(if Less(best, id) then id else best)
  {
    assert (rows + [id])[..|rows|] == rows;
  }

  lemma PrefixIdsAppend(rows: seq<string>, pending: seq<string>, k: nat)
    requires 0 < k <= |pending|
    ensures rows + PrefixIds(pending[..k]) == (rows + PrefixIds(pending[..k - 1])) + [PrefixId(pending[k - 1])]
  {
  }

  lemma {:induction false} MaxAfter(rows: seq<string>, files: seq<string>, k: nat)
    requires Increasing(files) && 0 < k <= |Pending(LastApplied(rows), files)|
    ensures var pending := Pending(LastApplied(rows), files);
            LastApplied(rows + PrefixIds(pending[..k])) == Some(PrefixId(pending[k - 1]))
  {
    hide LastApplied, Less;
    var pending := Pending(LastApplied(rows), files);
    var j := PendingIsSuffix(LastApplied(rows), files);
    hide Pending;
    PrefixIdsAppend(rows, pending, k);
    LastAppliedAppend(rows + PrefixIds(pending[..k - 1]), PrefixId(pending[k - 1]));
    assert pending[k - 1] == files[j + k - 1];
    if k == 1 {
      assert rows + PrefixIds(pending[..0]) == rows;
    } else {
      MaxAfter(rows, files, k - 1);
      assert pending[k - 2] == files[j + k - 2];
    }
  }

  // ---- the theorems ----

  /** Over any series of interrupted runs the committed migrations are, in order and once each, a contiguous run of the
      files after the initial tracker maximum. */
  lemma {:induction false} CrashSafe(rows: seq<string>, files: seq<string>, runs: seq<seq<Outcome>>) returns (k: nat)
    requires Increasing(files)
    ensures k <= |Pending(LastApplied(rows), files)|
    ensures Runs(rows, files, runs) == rows + PrefixIds(Pending(LastApplied(rows), files)[..k])
    decreases |runs|
  {
    hide LastApplied, Less, ApplyPending, PrefixIds, Pending;
    var pending := Pending(LastApplied(rows), files);
    if runs == [] {
      k := 0;
      PrefixIdsNone(rows, pending);
    } else {
      var first := ApplyPendingProgress(rows, pending, runs[0]);
      var now := rows + PrefixIds(pending[..first]);
      PendingAfter(rows, files, first);
      var later := CrashSafe(now, files, runs[1..]);
      k := first + later;
      PrefixIdsChain(rows, pending, first, later);
    }
  }

  datatype MigrationState = EMPTY | CURRENT | BEHIND | AHEAD

  /** check_migration_status with a tracker present. */
  function Status(rows: seq<string>, files: seq<string>): MigrationState
    requires files != []
  {
    var required := PrefixId(files[|files| - 1]);
    match LastApplied(rows)
    case None => EMPTY
    case Some(applied) => if Less(applied, required) then BEHIND else if Less(required, applied) then AHEAD else CURRENT
  }

  /** What each answer says about the tracker rows and the last packaged file. */
  lemma StatusMeans(rows: seq<string>, files: seq<string>)
    requires files != []
    ensures var required, status := PrefixId(files[|files| - 1]), Status(rows, files);
            && (status.EMPTY? <==> rows == [])
            && (status.BEHIND? <==> rows != [] && forall r :: r in rows ==> Less(r, required))
            && (status.AHEAD? <==> exists r :: r in rows && Less(required, r))
            && (status.CURRENT? <==> required in rows && forall r :: r in rows ==> r == required || Less(r, required))
  {
    var required := PrefixId(files[|files| - 1]);
    LastAppliedIsGreatest(rows);
    hide LastApplied, Less;
    LessIsTotal(required, required);
    if rows != [] {
      var applied := LastApplied(rows).value;
      forall r | r in rows ensures r == applied || Less(r, applied) {
        LessIsTotal(r, applied);
      }
      LessIsTotal(applied, required);
      forall r | r in rows
        ensures Less(applied, required) ==> Less(r, required)
        ensures Less(required, r) ==> Less(required, applied)
        ensures !(Less(r, required) && Less(required, r))
      {
        LessIsTotal(r, required);
        if r != applied && Less(applied, required) {
          LessIsTransitive(r, applied, required);
        }
        if r != applied && Less(required, r) {
          LessIsTransitive(required, r, applied);
        }
      }
    }
  }

  /** Nothing is pending exactly when the status check lets the daemon start. */
  lemma NothingPendingIff(rows: seq<string>, files: seq<string>)
    requires Increasing(files) && files != []
    ensures Pending(LastApplied(rows), files) == [] <==> Status(rows, files) in {CURRENT, AHEAD}
  {
    var j := PendingIsSuffix(LastApplied(rows), files);
    if LastApplied(rows).Some? {
      LessIsTotal(LastApplied(rows).value, PrefixId(files[|files| - 1]));
    }
  }

  /** A run that completes has applied everything that was pending and leaves the status CURRENT, or AHEAD if it was. */
  lemma CompletedRunIsCurrent(rows: seq<string>, files: seq<string>, outcomes: seq<Outcome>)
    requires Increasing(files) && files != [] && ApplyRun(rows, files, outcomes).completed
    ensures var rows' := ApplyRun(rows, files, outcomes).rows;
            && rows' == rows + PrefixIds(Pending(LastApplied(rows), files))
            && Status(rows', files) == if Status(rows, files) == AHEAD then AHEAD else CURRENT
  {
    hide LastApplied, Less, ApplyPending, Pending, PrefixIds, PrefixId;
    var pending := Pending(LastApplied(rows), files);
    var k := ApplyPendingProgress(rows, pending, outcomes);
    assert pending[..k] == pending;
    NothingPendingIff(rows, files);
    if pending == [] {
      PrefixIdsNone(rows, pending);
    } else {
      var j := PendingIsSuffix(LastApplied(rows), files);
      MaxAfter(rows, files, |pending|);
      assert pending[..|pending|] == pending && pending[|pending| - 1] == files[|files| - 1];
      LessIsTotal(PrefixId(files[|files| - 1]), PrefixId(files[|files| - 1]));
    }
  }

  // ---- the exact condition ----

  function AllCommit(n: nat): (outcomes: seq<Outcome>)
    ensures |outcomes| == n && forall i :: 0 <= i < n ==> outcomes[i] == Commits
  {
    seq(n, _ => Commits)
  }

  /** No id recorded so far is that of one of the next k files. */
  ghost predicate FreshIds(rows: seq<string>, pending: seq<string>, k: nat)
    requires k <= |pending|
  {
    forall r, j :: r in rows && 0 <= j < k ==> r != PrefixId(pending[j])
  }

  lemma FreshAfterHead(rows: seq<string>, pending: seq<string>, k: nat)
    requires 0 < k <= |pending| && Increasing(pending[..k]) && FreshIds(rows, pending, k)
    ensures FreshIds(rows + [PrefixId(pending[0])], pending[1..], k - 1) && Increasing(pending[1..][..k - 1])
    ensures PrefixId(pending[0]) !in rows
  {
    hide Less, PrefixId;
    var front, rest := pending[..k], pending[1..];
    assert rest[..k - 1] == front[1..];
    forall r, j | r in rows + [PrefixId(pending[0])] && 0 <= j < k - 1 ensures r != PrefixId(rest[j]) {
      assert Less(PrefixId(front[0]), PrefixId(front[j + 1]));
      LessIsTotal(r, r);
    }
  }

  /** Without a duplicate id nothing stops the loop before its files or its outcomes run out. */
  lemma {:induction false} CommitsInOrder(rows: seq<string>, pending: seq<string>, k: nat, n: nat)
    requires k <= n && k <= |pending| && (k == n || k == |pending|)
    requires Increasing(pending[..k]) && FreshIds(rows, pending, k)
    ensures ApplyPending(rows, pending, AllCommit(n)).rows == rows + PrefixIds(pending[..k])
    decreases k
  {
    hide PrefixIds, PrefixId, Increasing, FreshIds;
    if k == 0 {
      PrefixIdsNone(rows, pending);
    } else {
      FreshAfterHead(rows, pending, k);
      CommitsInOrder(rows + [PrefixId(pending[0])], pending[1..], k - 1, n - 1);
      assert AllCommit(n)[1..] == AllCommit(n - 1);
      PrefixIdsHead(rows, pending, k);
    }
  }

  /** How many files a run commits, from the outcomes alone: it goes on while migrations commit, and a commit whose
      answer is lost still counts. */
  function Committed(outcomes: seq<Outcome>, n: nat): (k: nat)
    ensures k <= n && k <= |outcomes|
    ensures forall i :: 0 <= i < k - 1 ==> outcomes[i].Commits?
    ensures k > 0 ==> !outcomes[k - 1].Raises?
    ensures k < n ==> k == |outcomes| || outcomes[k].Raises? || (k > 0 && outcomes[k - 1].CommitLost?)
  {
    if n == 0 || outcomes == [] || outcomes[0].Raises? then 0
    else if outcomes[0].CommitLost? then 1
    else 1 + Committed(outcomes[1..], n - 1)
  }

  lemma {:induction false} ApplyPendingCommits(rows: seq<string>, pending: seq<string>, outcomes: seq<Outcome>)
    requires Increasing(pending[..|pending|]) && FreshIds(rows, pending, |pending|)
    ensures var k := Committed(outcomes, |pending|);
            && ApplyPending(rows, pending, outcomes).rows == rows + PrefixIds(pending[..k])
            && (ApplyPending(rows, pending, outcomes).completed
                <==> k == |pending| && (k > 0 ==> outcomes[k - 1].Commits?))
    decreases |pending|
  {
    hide PrefixIds, PrefixId, Increasing, FreshIds;
    if pending == [] {
      PrefixIdsNone(rows, pending);
    } else {
      FreshAfterHead(rows, pending, |pending|);
      assert pending[1..][..|pending| - 1] == pending[1..][..|pending[1..]|];
      if outcomes == [] || outcomes[0].Raises? {
        PrefixIdsNone(rows, pending);
      } else if outcomes[0].CommitLost? {
        PrefixIdsHead(rows, pending, 1);
        PrefixIdsNone(rows + [PrefixId(pending[0])], pending[1..]);
      } else {
        ApplyPendingCommits(rows + [PrefixId(pending[0])], pending[1..], outcomes[1..]);
        PrefixIdsHead(rows, pending, Committed(outcomes, |pending|));
      }
    }
  }

  /** What is pending is increasing and not recorded yet. */
  lemma PendingIsNew(rows: seq<string>, files: seq<string>)
    requires Increasing(files)
    ensures var pending := Pending(LastApplied(rows), files);
            Increasing(pending[..|pending|]) && FreshIds(rows, pending, |pending|)
  {
    var pending := Pending(LastApplied(rows), files);
    var j := PendingIsSuffix(LastApplied(rows), files);
    LastAppliedIsGreatest(rows);
    hide LastApplied, Less, Pending, PrefixId;
    assert pending[..|pending|] == pending;
    forall r, i | r in rows && 0 <= i < |pending| ensures r != PrefixId(pending[i]) {
      assert pending[i] == files[j + i] && After(LastApplied(rows), files[j + i]);
    }
  }

  /** Along increasing prefixes no duplicate id stops a run: the outcomes alone decide what it commits. */
  lemma RunCommitsExactly(rows: seq<string>, files: seq<string>, outcomes: seq<Outcome>)
    requires Increasing(files)
    ensures var pending, r := Pending(LastApplied(rows), files), ApplyRun(rows, files, outcomes);
            var k := Committed(outcomes, |pending|);
            && r.rows == rows + PrefixIds(pending[..k])
            && (r.completed <==> k == |pending| && (k > 0 ==> outcomes[k - 1].Commits?))
  {
    var pending := Pending(LastApplied(rows), files);
    PendingIsNew(rows, files);
    hide LastApplied, Less, ApplyPending, Pending, PrefixIds, PrefixId, Increasing, FreshIds, Committed;
    ApplyPendingCommits(rows, pending, outcomes);
  }

  /** From an empty tracker, a run killed after any number of migrations and one undisturbed run apply every file. */
  ghost predicate AlwaysResumes(files: seq<string>) {
    forall k: nat :: k <= |files| ==> Runs([], files, [AllCommit(k), AllCommit(|files|)]) == PrefixIds(files)
  }

  lemma {:induction false} PendingFromNothing(files: seq<string>)
    ensures Pending(None, files) == files
  {
    if files != [] {
      PendingFromNothing(files[1..]);
    }
  }

  lemma TwoRuns(files: seq<string>, a: seq<Outcome>, b: seq<Outcome>)
    ensures Runs([], files, [a, b]) == ApplyRun(ApplyRun([], files, a).rows, files, b).rows
  {
    var rows := ApplyRun([], files, a).rows;
    assert [a, b][1..] == [b] && [b][1..] == [];
    assert Runs(rows, files, [b]) == Runs(ApplyRun(rows, files, b).rows, files, []);
  }

  /** What a run killed after k increasing files has committed. */
  lemma KilledRun(files: seq<string>, k: nat)
    requires k <= |files| && Increasing(files[..k])
    ensures ApplyRun([], files, AllCommit(k)).rows == PrefixIds(files[..k])
  {
    PendingFromNothing(files);
    CommitsInOrder([], files, k, k);
    assert [] + PrefixIds(files[..k]) == PrefixIds(files[..k]);
  }

  lemma PendingAfterKilled(files: seq<string>, k: nat)
    requires Increasing(files) && k <= |files|
    ensures Pending(LastApplied(PrefixIds(files[..k])), files) == files[k..]
  {
    PendingFromNothing(files);
    PendingAfter([], files, k);
    assert [] + PrefixIds(files[..k]) == PrefixIds(files[..k]);
  }

  lemma NotYetApplied(files: seq<string>, k: nat, r: string, j: nat)
    requires Increasing(files) && k <= j < |files| && r in PrefixIds(files[..k])
    ensures r != PrefixId(files[j])
  {
    var i :| 0 <= i < k && PrefixId(files[i]) == r;
    assert Less(PrefixId(files[i]), PrefixId(files[j]));
    LessIsTotal(r, r);
  }

  lemma ResumedRun(files: seq<string>, k: nat)
    requires Increasing(files) && k <= |files|
    ensures var rows, rest := PrefixIds(files[..k]), files[k..];
            ApplyPending(rows, rest, AllCommit(|files|)).rows == rows + PrefixIds(rest)
  {
    hide Less, ApplyPending;
    var rows, rest := PrefixIds(files[..k]), files[k..];
    forall r, j | r in rows && 0 <= j < |rest| ensures r != PrefixId(rest[j]) {
      NotYetApplied(files, k, r, k + j);
    }
    assert rest[..|rest|] == rest;
    CommitsInOrder(rows, rest, |rest|, |files|);
  }

  lemma PrefixIdsSplit(files: seq<string>, k: nat)
    requires k <= |files|
    ensures PrefixIds(files) == PrefixIds(files[..k]) + PrefixIds(files[k..])
  {
  }

  lemma IncreasingResumes(files: seq<string>, k: nat)
    requires Increasing(files) && k <= |files|
    ensures Runs([], files, [AllCommit(k), AllCommit(|files|)]) == PrefixIds(files)
  {
    TwoRuns(files, AllCommit(k), AllCommit(|files|));
    hide Less, LastApplied, Pending, ApplyPending, Runs, PrefixIds, AllCommit;
    KilledRun(files, k);
    PendingAfterKilled(files, k);
    ResumedRun(files, k);
    PrefixIdsSplit(files, k);
  }

  lemma {:induction false} PendingSkips(last: string, files: seq<string>, m: nat)
    requires m <= |files| && forall i :: 0 <= i < m ==> !Less(last, PrefixId(files[i]))
    ensures |Pending(Some(last), files)| <= |files| - m
  {
    if m > 0 {
      PendingSkips(last, files[1..], m - 1);
    } else if files != [] {
      PendingSkips(last, files[1..], 0);
    }
  }

  /** No earlier prefix exceeds the one before the descent, and neither does the file at the descent. */
  lemma BelowLast(files: seq<string>, m: nat, i: nat, j: nat)
    requires i < m < |files| && Increasing(files[..m]) && !Less(PrefixId(files[i]), PrefixId(files[m])) && j <= m
    ensures !Less(PrefixId(files[m - 1]), PrefixId(files[j]))
  {
    hide Less;
    var front, last := files[..m], PrefixId(files[m - 1]);
    LessIsTotal(last, PrefixId(files[j]));
    if j == m {
      if i < m - 1 && Less(last, PrefixId(files[m])) {
        assert Less(PrefixId(front[i]), PrefixId(front[m - 1]));
        LessIsTransitive(PrefixId(files[i]), last, PrefixId(files[m]));
      }
    } else if j < m - 1 {
      assert Less(PrefixId(front[j]), PrefixId(front[m - 1]));
    }
  }

  /** The first file whose prefix does not exceed all earlier ones is skipped by a run after an interruption there. */
  lemma DescentIsSkipped(files: seq<string>, m: nat, i: nat)
    requires i < m < |files| && Increasing(files[..m]) && !Less(PrefixId(files[i]), PrefixId(files[m]))
    ensures Runs([], files, [AllCommit(m), AllCommit(|files|)]) != PrefixIds(files)
  {
    TwoRuns(files, AllCommit(m), AllCommit(|files|));
    hide Less, LastApplied, Pending, ApplyPending, Runs;
    KilledRun(files, m);
    var last, rows := PrefixId(files[m - 1]), PrefixIds(files[..m]);
    LastOfKilled(files, m);
    forall j | 0 <= j < m + 1 ensures !Less(last, PrefixId(files[j])) {
      BelowLast(files, m, i, j);
    }
    PendingSkips(last, files, m + 1);
    var k := ApplyPendingProgress(rows, Pending(Some(last), files), AllCommit(|files|));
  }

  lemma LastOfKilled(files: seq<string>, m: nat)
    requires 0 < m <= |files| && Increasing(files[..m])
    ensures LastApplied(PrefixIds(files[..m])) == Some(PrefixId(files[m - 1]))
  {
    var front := files[..m];
    PendingFromNothing(front);
    MaxAfter([], front, m);
    assert front[..m] == front && [] + PrefixIds(front) == PrefixIds(front);
  }

  lemma {:induction false} FirstDescent(files: seq<string>) returns (m: nat, i: nat)
    requires !Increasing(files)
    ensures i < m < |files| && Increasing(files[..m]) && !Less(PrefixId(files[i]), PrefixId(files[m]))
    decreases |files|
  {
    hide Less, PrefixId;
    var front := files[..|files| - 1];
    if Increasing(front) {
      var a, b :| 0 <= a < b < |files| && !Less(PrefixId(files[a]), PrefixId(files[b]));
      m, i := |files| - 1, a;
    } else {
      m, i := FirstDescent(front);
      assert front[..m] == files[..m];
    }
  }

  /** A killed run can always be resumed to the end exactly when the prefixes increase along the scan; the runner itself
      does not check it. */
  lemma AlwaysResumesIff(files: seq<string>)
    ensures AlwaysResumes(files) <==> Increasing(files)
  {
    if Increasing(files) {
      forall k: nat | k <= |files| ensures Runs([], files, [AllCommit(k), AllCommit(|files|)]) == PrefixIds(files) {
        IncreasingResumes(files, k);
      }
    } else {
      var m, i := FirstDescent(files);
      DescentIsSkipped(files, m, i);
    }
  }
}
