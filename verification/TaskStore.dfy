/** The shared task and node tables and the programs that write them, over any number of daemons and CLI calls
    (infra/persistence/postgres.py and its SQL, domain/model.py, application/allocate_task.py,
    application/consume_task.py, entrypoints/cli/manage_node.py).

    A frame is one `async with uow_factory()` block: a program counter, its locals and its open transaction. Statements
    are atomic steps under READ COMMITTED; a statement that must wait for a row lock is simply not enabled. */
module TaskStore {
  import opened Prelude

  type FrameId = nat

  datatype Status = ToDo | Running | Done

  /** A row of yascheduler_tasks: the columns that the status constrains. */
  datatype Row = Row(status: Status, node: Option<NodeId>, folder: Option<string>, error: Option<string>)

  const GONE: string := "node is gone"

  function Rank(status: Status): nat {
    match status
    case ToDo => 0
    case Running => 1
    case Done => 2
  }

  /** task_status_field_invariants of the schema. */
  predicate Check(row: Row) {
    match row.status
    case ToDo => row.node.None? && row.error.None?
    case Running => row.node.Some? && row.error.None? && row.folder.Some?
    case Done => true
  }

  // ---- the transitions of a task ----

  datatype WrongState = NotTodo | NotRunning

  function RunOn(row: Row, node: NodeId, folder: string): (r: Result<Row, WrongState>)
    ensures r.Ok? <==> row.status.ToDo?
    ensures r.Ok? ==> Check(r.value) && Rank(row.status) < Rank(r.value.status)
    ensures r.Ok? ==> r.value.status.Running? && r.value.node == Some(node) && r.value.folder == Some(folder)
  {
    if !row.status.ToDo? then Err(NotTodo) else Ok(Row(Running, Some(node), Some(folder), None))
  }

  function Reject(row: Row, reason: string): (r: Result<Row, WrongState>)
    ensures r.Ok? <==> row.status.ToDo?
    ensures r.Ok? ==> r.value.status.Done? && Rank(row.status) < Rank(r.value.status)
    ensures r.Ok? ==> r.value.error == Some(reason) && r.value.node.None? && r.value.folder == row.folder
  {
    if !row.status.ToDo? then Err(NotTodo) else Ok(Row(Done, None, row.folder, Some(reason)))
  }

  /** complete has no error, fail has one. */
  function Finish(row: Row, error: Option<string>, folder: string): (r: Result<Row, WrongState>)
    ensures r.Ok? <==> row.status.Running?
    ensures r.Ok? ==> r.value.status.Done? && Rank(row.status) < Rank(r.value.status)
    ensures r.Ok? ==> r.value.error == error && r.value.node == row.node && r.value.folder == Some(folder)
  {
    if !row.status.Running? then Err(NotRunning) else Ok(Row(Done, row.node, Some(folder), error))
  }

  function Abandon(row: Row): (r: Result<Row, WrongState>)
    ensures r.Ok? <==> row.status.Running?
    ensures r.Ok? ==> r.value.status.Done? && Rank(row.status) < Rank(r.value.status)
    ensures r.Ok? ==> r.value.error == Some(GONE) && r.value.node == row.node && r.value.folder == row.folder
  {
    if !row.status.Running? then Err(NotRunning) else Ok(Row(Done, row.node, row.folder, Some(GONE)))
  }

  // ---- programs in flight ----

  /** Claim: _try_start_on_machine. Finalise: any save of a DONE task, made from an earlier read. HardRemove: the CLI's
      _remove_node_hard. RemoveNode: every other DELETE of a node row. */
  datatype Kind = Claim | Finalise | HardRemove | RemoveNode

  datatype Pc = Saving | Spawning | Listing | Reading | Removing | Committing | Committed | RolledBack

  /** `next` is the row to save; `todo` the task ids still to abandon; `writes` and `drops` the uncommitted effects of
      the transaction, which holds the locks of those rows; `live` is false once the server has dropped the
      connection; `spawned` records that the spawn returned True. */
  datatype Frame = Frame(kind: Kind, pc: Pc, task: TaskId, node: NodeId, next: Row, todo: seq<TaskId>,
                         writes: map<TaskId, Row>, drops: set<NodeId>, live: bool, spawned: bool)

  datatype State = State(
    tasks: map<TaskId, Row>,
    nodes: set<NodeId>,
    frames: map<FrameId, Frame>,
    nextTask: TaskId,
    nextNode: NodeId)

  predicate Over(pc: Pc) {
    pc.Committed? || pc.RolledBack?
  }

  function To(s: State, f: FrameId, fr: Frame): State {
    s.(frames := s.frames[f := fr])
  }

  predicate AtPc(s: State, f: FrameId, kind: Kind, pc: Pc) {
    f in s.frames && s.frames[f].kind == kind && s.frames[f].pc == pc
  }

  function Begin(kind: Kind, pc: Pc, task: TaskId, node: NodeId, next: Row): Frame {
    Frame(kind, pc, task, node, next, [], map[], {}, true, false)
  }

  /** What the transaction itself reads. */
  function Visible(s: State, fr: Frame, t: TaskId): Row
    requires t in s.tasks
  {
    if t in fr.writes then fr.writes[t] else s.tasks[t]
  }

  /** The row lock of t and the referenced node row are free of other transactions. */
  ghost predicate Unlocked(s: State, f: FrameId, t: TaskId, row: Row) {
    forall g :: g in s.frames && g != f ==>
      t !in s.frames[g].writes && (row.node.Some? ==> row.node.value !in s.frames[g].drops)
  }

  /** update_by_id.sql hits one row and no constraint: with expected_status only while the status is still that one. */
  ghost predicate SaveSucceeds(s: State, f: FrameId, t: TaskId, row: Row, expected: Option<Status>)
    requires f in s.frames
  {
    && s.frames[f].live && t in s.tasks && Unlocked(s, f, t, row)
    && (expected.Some? ==> Visible(s, s.frames[f], t).status == expected.value)
    && Check(row)
    && (row.node.Some? ==> row.node.value in s.nodes && row.node.value !in s.frames[f].drops)
  }

  // ---- steps ----

  /** The allocator builds the RUNNING task from a TO_DO row it reads now (get_todo) and saves it later. */
  ghost function DoStartClaim(s: State, f: FrameId, t: TaskId, n: NodeId, folder: string): Option<State> {
    if f in s.frames || t !in s.tasks then None else
      match RunOn(s.tasks[t], n, folder)
      case Err(_) => None
      case Ok(row) => Some(To(s, f, Begin(Claim, Saving, t, n, row)))
  }

  ghost function DoClaimSave(s: State, f: FrameId): Option<State> {
    if !AtPc(s, f, Claim, Saving) || !SaveSucceeds(s, f, s.frames[f].task, s.frames[f].next, Some(ToDo)) then None else
      var fr := s.frames[f];
      Some(To(s, f, fr.(pc := Spawning, writes := fr.writes[fr.task := fr.next])))
  }

  /** start_task_on_machine returned True; on False or an exception the block rolls back, see DoFail. */
  ghost function DoSpawned(s: State, f: FrameId): Option<State> {
    if !AtPc(s, f, Claim, Spawning) then None else
      Some(To(s, f, s.frames[f].(pc := Committing, spawned := true)))
  }

  /** A consumer or allocator builds the DONE task from a row it reads now and saves later, perhaps much later. */
  ghost function DoStartFinalise(s: State, f: FrameId, t: TaskId, error: Option<string>, folder: string)
    : Option<State>
  {
    if f in s.frames || t !in s.tasks || !Finish(s.tasks[t], error, folder).Ok? then None else
      Some(To(s, f, Begin(Finalise, Saving, t, 0, Finish(s.tasks[t], error, folder).value)))
  }

  ghost function DoStartAbandon(s: State, f: FrameId, t: TaskId): Option<State> {
    if f in s.frames || t !in s.tasks || !Abandon(s.tasks[t]).Ok? then None else
      Some(To(s, f, Begin(Finalise, Saving, t, 0, Abandon(s.tasks[t]).value)))
  }

  ghost function DoStartReject(s: State, f: FrameId, t: TaskId, reason: string): Option<State> {
    if f in s.frames || t !in s.tasks || !Reject(s.tasks[t], reason).Ok? then None else
      Some(To(s, f, Begin(Finalise, Saving, t, 0, Reject(s.tasks[t], reason).value)))
  }

  /** Terminal saves carry no expected_status. */
  ghost function DoFinaliseSave(s: State, f: FrameId): Option<State> {
    if !AtPc(s, f, Finalise, Saving) || !SaveSucceeds(s, f, s.frames[f].task, s.frames[f].next, None) then None else
      var fr := s.frames[f];
      Some(To(s, f, fr.(pc := Committing, writes := fr.writes[fr.task := fr.next])))
  }

  ghost function DoStartHardRemove(s: State, f: FrameId, n: NodeId): Option<State> {
    if f in s.frames then None else
      Some(To(s, f, Begin(HardRemove, Listing, 0, n, Row(Done, None, None, None))))
  }

  /** list_ids_by_node_id_and_status. */
  ghost function DoList(s: State, f: FrameId, ids: seq<TaskId>): Option<State> {
    if !AtPc(s, f, HardRemove, Listing) then None
    else if !(forall t :: t in ids <==>
                t in s.tasks && s.tasks[t].status.Running? && s.tasks[t].node == Some(s.frames[f].node))
    then None else
      Some(To(s, f, s.frames[f].(pc := Reading, todo := ids)))
  }

  /** get_running finds the task no longer RUNNING, or gone. */
  ghost function DoSkip(s: State, f: FrameId): Option<State> {
    if !AtPc(s, f, HardRemove, Reading) || s.frames[f].todo == [] then None else
      var fr := s.frames[f];
      if fr.todo[0] in s.tasks && Visible(s, fr, fr.todo[0]).status.Running? then None else
        Some(To(s, f, fr.(todo := fr.todo[1..])))
  }

  ghost function DoRead(s: State, f: FrameId): Option<State> {
    if !AtPc(s, f, HardRemove, Reading) || s.frames[f].todo == [] || s.frames[f].todo[0] !in s.tasks then None else
      var fr := s.frames[f];
      match Abandon(Visible(s, fr, fr.todo[0]))
      case Err(_) => None
      case Ok(row) => Some(To(s, f, fr.(pc := Saving, task := fr.todo[0], next := row, todo := fr.todo[1..])))
  }

  ghost function DoAbandonSave(s: State, f: FrameId): Option<State> {
    if !AtPc(s, f, HardRemove, Saving) || !SaveSucceeds(s, f, s.frames[f].task, s.frames[f].next, None) then None else
      var fr := s.frames[f];
      Some(To(s, f, fr.(pc := Reading, writes := fr.writes[fr.task := fr.next])))
  }

  ghost function DoAllAbandoned(s: State, f: FrameId): Option<State> {
    if !AtPc(s, f, HardRemove, Reading) || s.frames[f].todo != [] then None else
      Some(To(s, f, s.frames[f].(pc := Removing)))
  }

  ghost function DoStartRemove(s: State, f: FrameId, n: NodeId): Option<State> {
    if f in s.frames then None else
      Some(To(s, f, Begin(RemoveNode, Removing, 0, n, Row(Done, None, None, None))))
  }

  /** The tasks whose foreign key ON DELETE SET NULL has to clear. */
  ghost function Referring(s: State, fr: Frame, n: NodeId): set<TaskId> {
    set t | t in s.tasks && Visible(s, fr, t).node == Some(n)
  }

  /** DELETE of a node row that exists: clearing the foreign key of a RUNNING task would violate the check. */
  ghost predicate RemoveSucceeds(s: State, f: FrameId, n: NodeId)
    requires f in s.frames
  {
    && s.frames[f].live && n in s.nodes
    && (forall t :: t in Referring(s, s.frames[f], n) ==>
          && Check(Visible(s, s.frames[f], t).(node := None))
          && forall g :: g in s.frames && g != f ==> t !in s.frames[g].writes)
    && (forall g :: g in s.frames && g != f ==>
          n !in s.frames[g].drops && forall t :: t in s.frames[g].writes ==> s.frames[g].writes[t].node != Some(n))
  }

  ghost function Cleared(s: State, fr: Frame, n: NodeId): map<TaskId, Row> {
    map t | t in fr.writes.Keys + Referring(s, fr, n) ::
      if t in Referring(s, fr, n) then Visible(s, fr, t).(node := None) else fr.writes[t]
  }

  ghost function DoRemove(s: State, f: FrameId): Option<State> {
    if f !in s.frames || !s.frames[f].pc.Removing? || !RemoveSucceeds(s, f, s.frames[f].node) then None else
      var fr := s.frames[f];
      Some(To(s, f, fr.(pc := Committing, writes := Cleared(s, fr, fr.node), drops := {fr.node})))
  }

  /** The server commits, whether or not the client gets to hear of it. */
  ghost function DoCommit(s: State, f: FrameId): Option<State> {
    if f !in s.frames || !s.frames[f].pc.Committing? || !s.frames[f].live then None else
      var fr := s.frames[f];
      Some(To(s, f, fr.(pc := Committed, writes := map[], drops := {}))
           .(tasks := s.tasks + fr.writes, nodes := s.nodes - fr.drops))
  }

  /** A statement, the spawn or COMMIT raises, or the spawn returns False: the transaction is rolled back. */
  ghost function DoFail(s: State, f: FrameId): Option<State> {
    if f !in s.frames || Over(s.frames[f].pc) then None else
      Some(To(s, f, s.frames[f].(pc := RolledBack, writes := map[], drops := {})))
  }

  /** The server drops the connection: locks and writes are gone, the client does not know yet. */
  ghost function DoDropConnection(s: State, f: FrameId): Option<State> {
    if f !in s.frames || Over(s.frames[f].pc) then None else
      Some(To(s, f, s.frames[f].(live := false, writes := map[], drops := {})))
  }

  /** submit_task inserts and saves in one transaction; nobody else can see or lock the new row before its commit. */
  ghost function DoSubmit(s: State, folder: Option<string>): Option<State> {
    Some(s.(tasks := s.tasks[s.nextTask := Row(ToDo, None, folder, None)], nextTask := s.nextTask + 1))
  }

  ghost function DoAddNode(s: State): Option<State> {
    Some(s.(nodes := s.nodes + {s.nextNode}, nextNode := s.nextNode + 1))
  }

  datatype Step =
    | StartClaim(f: FrameId, t: TaskId, n: NodeId, folder: string)
    | ClaimSave(f: FrameId)
    | Spawned(f: FrameId)
    | StartFinalise(f: FrameId, t: TaskId, error: Option<string>, folder: string)
    | StartAbandon(f: FrameId, t: TaskId)
    | StartReject(f: FrameId, t: TaskId, reason: string)
    | FinaliseSave(f: FrameId)
    | StartHardRemove(f: FrameId, n: NodeId)
    | List(f: FrameId, ids: seq<TaskId>)
    | Skip(f: FrameId)
    | Read(f: FrameId)
    | AbandonSave(f: FrameId)
    | AllAbandoned(f: FrameId)
    | StartRemove(f: FrameId, n: NodeId)
    | Remove(f: FrameId)
    | Commit(f: FrameId)
    | Fail(f: FrameId)
    | DropConnection(f: FrameId)
    | Submit(folderOfTask: Option<string>)
    | AddNode

  ghost function Next(s: State, step: Step): Option<State> {
    match step
    case StartClaim(f, t, n, folder) => DoStartClaim(s, f, t, n, folder)
    case ClaimSave(f) => DoClaimSave(s, f)
    case Spawned(f) => DoSpawned(s, f)
    case StartFinalise(f, t, error, folder) => DoStartFinalise(s, f, t, error, folder)
    case StartAbandon(f, t) => DoStartAbandon(s, f, t)
    case StartReject(f, t, reason) => DoStartReject(s, f, t, reason)
    case FinaliseSave(f) => DoFinaliseSave(s, f)
    case StartHardRemove(f, n) => DoStartHardRemove(s, f, n)
    case List(f, ids) => DoList(s, f, ids)
    case Skip(f) => DoSkip(s, f)
    case Read(f) => DoRead(s, f)
    case AbandonSave(f) => DoAbandonSave(s, f)
    case AllAbandoned(f) => DoAllAbandoned(s, f)
    case StartRemove(f, n) => DoStartRemove(s, f, n)
    case Remove(f) => DoRemove(s, f)
    case Commit(f) => DoCommit(s, f)
    case Fail(f) => DoFail(s, f)
    case DropConnection(f) => DoDropConnection(s, f)
    case Submit(folder) => DoSubmit(s, folder)
    case AddNode => DoAddNode(s)
  }

  ghost function Run(s: State, steps: seq<Step>): Option<State>
    decreases |steps|
  {
    if steps == [] then Some(s) else
      match Next(s, steps[0])
      case None => None
      case Some(s') => Run(s', steps[1..])
  }
}
