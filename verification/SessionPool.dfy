/** Allocators, the consumer's re-arm, monitors, connects and teardowns over the machine sessions of one daemon
    (infra/ssh/repository.py, infra/ssh/operations/deployment.py, application/deallocate_nodes.py,
    application/allocate_task.py, application/orchestrator.py).

    Every await-free block is one step; the steps of all coroutines interleave freely. */
module SessionPool {
  import opened Prelude
  import opened MachineSession

  type SessionId = nat
  type FrameId = nat

  /** An allocator with one candidate machine: picked from list_free; occupied and deploying; spawned and committing;
      committed, with the occupancy check started; spawned, but the commit raised; or gave up. */
  datatype Pc = Picked | Deploying | Spawned | Started | Stranded | Ended

  datatype Deploy = Deploy(pc: Pc, session: SessionId)

  datatype State = State(
    sessions: map<SessionId, Session>,
    registry: map<NodeId, SessionId>,
    deploys: map<FrameId, Deploy>)

  predicate Holding(pc: Pc) {
    pc.Deploying? || pc.Spawned?
  }

  predicate At(s: State, f: FrameId, pc: Pc) {
    f in s.deploys && s.deploys[f].pc == pc && s.deploys[f].session in s.sessions
  }

  function SessionOf(s: State, f: FrameId): Session
    requires f in s.deploys && s.deploys[f].session in s.sessions
  {
    s.sessions[s.deploys[f].session]
  }

  function Moved(s: State, f: FrameId, pc: Pc): State
    requires f in s.deploys
  {
    s.(deploys := s.deploys[f := s.deploys[f].(pc := pc)])
  }

  function Put(s: State, id: SessionId, session: Session): State {
    s.(sessions := s.sessions[id := session])
  }

  ghost predicate Deployed(s: State, id: SessionId) {
    exists f :: f in s.deploys && s.deploys[f].session == id && Holding(s.deploys[f].pc)
  }

  // ---- steps ----

  /** connect registers a FREE session, replacing whatever was registered for the node. */
  ghost function DoConnect(s: State, id: SessionId, node: NodeId): Option<State> {
    if id in s.sessions then None else
      Some(Put(s, id, Fresh(node)).(registry := s.registry[node := id]))
  }

  /** The allocator's list of candidates holds registered FREE sessions; it reaches this one later. */
  ghost function DoPick(s: State, f: FrameId, node: NodeId): Option<State> {
    if f in s.deploys || node !in s.registry || s.registry[node] !in s.sessions then None
    else if s.sessions[s.registry[node]].busy then None
    else Some(s.(deploys := s.deploys[f := Deploy(Picked, s.registry[node])]))
  }

  /** The claim is lost or raises before the machine is touched. */
  ghost function DoDrop(s: State, f: FrameId): Option<State> {
    if !At(s, f, Picked) then None else Some(Moved(s, f, Ended))
  }

  /** session.occupy(), which does not look at is_closed. */
  ghost function DoOccupy(s: State, f: FrameId): Option<State> {
    if !At(s, f, Picked) || SessionOf(s, f).busy then None else
      Some(Put(Moved(s, f, Deploying), s.deploys[f].session, SessionOf(s, f).(busy := true)))
  }

  /** MachineBusyError is raised outside the rollback's try block. */
  ghost function DoFindBusy(s: State, f: FrameId): Option<State> {
    if !At(s, f, Picked) || !SessionOf(s, f).busy then None else Some(Moved(s, f, Ended))
  }

  /** Upload and spawn need an open connection. */
  ghost function DoDeployed(s: State, f: FrameId): Option<State> {
    if !At(s, f, Deploying) || !SessionOf(s, f).connected then None else Some(Moved(s, f, Spawned))
  }

  /** Roll back BUSY unless the session was closed meanwhile. */
  ghost function DoDeployFails(s: State, f: FrameId): Option<State> {
    if !At(s, f, Deploying) then None
    else if SessionOf(s, f).closed then Some(Moved(s, f, Ended))
    else Some(Put(Moved(s, f, Ended), s.deploys[f].session, SessionOf(s, f).(busy := false)))
  }

  /** The RUNNING row is committed and the occupancy check starts. */
  ghost function DoCommitted(s: State, f: FrameId, m: MonitorId): Option<State> {
    if !At(s, f, Spawned) || m in SessionOf(s, f).tasks then None else
      Some(Put(Moved(s, f, Started), s.deploys[f].session, Watched(SessionOf(s, f), m)))
  }

  /** The commit raises: the machine stays BUSY until a consumer re-arms it. */
  ghost function DoCommitFails(s: State, f: FrameId): Option<State> {
    if !At(s, f, Spawned) then None else Some(Moved(s, f, Stranded))
  }

  /** The consumer starts an occupancy check on the registered session of a RUNNING task's node. */
  ghost function DoRearm(s: State, node: NodeId, m: MonitorId): Option<State> {
    if node !in s.registry || s.registry[node] !in s.sessions then None
    else if m in s.sessions[s.registry[node]].tasks then None
    else Some(Put(s, s.registry[node], Watched(s.sessions[s.registry[node]], m)))
  }

  predicate InPhase(s: State, id: SessionId, m: MonitorId, phase: Phase) {
    id in s.sessions && m in s.sessions[id].tasks && s.sessions[id].tasks[m] == phase
  }

  ghost function DoFoundFree(s: State, id: SessionId, m: MonitorId): Option<State> {
    if !InPhase(s, id, m, Armed) then None else Some(Put(s, id, FoundFree(s.sessions[id], m)))
  }

  ghost function DoDeliverCancel(s: State, id: SessionId, m: MonitorId): Option<State> {
    if !InPhase(s, id, m, Cancelling) then None else Some(Put(s, id, CancelDelivered(s.sessions[id], m)))
  }

  ghost function DoCallback(s: State, id: SessionId, m: MonitorId): Option<State> {
    if !InPhase(s, id, m, Finished) then None else Some(Put(s, id, CallbackRun(s.sessions[id], m)))
  }

  /** deallocate_node: BUSY check, pop and the synchronous part of _close. */
  ghost function DoTeardown(s: State, node: NodeId): Option<State> {
    if node !in s.registry || s.registry[node] !in s.sessions || s.sessions[s.registry[node]].busy then None else
      var id := s.registry[node];
      Some(Put(s, id, CloseBegun(s.sessions[id])).(registry := s.registry - {node}))
  }

  /** _close goes on once the monitor it cancelled has ended. */
  ghost function DoCloseConnection(s: State, id: SessionId): Option<State> {
    if id !in s.sessions || !s.sessions[id].closed then None else
      Some(Put(s, id, s.sessions[id].(connected := false)))
  }

  datatype Step =
    | Connect(id: SessionId, node: NodeId)
    | Pick(f: FrameId, node: NodeId)
    | Drop(f: FrameId)
    | Occupy(f: FrameId)
    | FindBusy(f: FrameId)
    | DeployDone(f: FrameId)
    | DeployFails(f: FrameId)
    | Commit(f: FrameId, m: MonitorId)
    | CommitFails(f: FrameId)
    | Rearm(node: NodeId, m: MonitorId)
    | Free(id: SessionId, m: MonitorId)
    | DeliverCancel(id: SessionId, m: MonitorId)
    | Callback(id: SessionId, m: MonitorId)
    | Teardown(node: NodeId)
    | CloseConnection(id: SessionId)

  ghost function Next(s: State, step: Step): Option<State> {
    match step
    case Connect(id, node) => DoConnect(s, id, node)
    case Pick(f, node) => DoPick(s, f, node)
    case Drop(f) => DoDrop(s, f)
    case Occupy(f) => DoOccupy(s, f)
    case FindBusy(f) => DoFindBusy(s, f)
    case DeployDone(f) => DoDeployed(s, f)
    case DeployFails(f) => DoDeployFails(s, f)
    case Commit(f, m) => DoCommitted(s, f, m)
    case CommitFails(f) => DoCommitFails(s, f)
    case Rearm(node, m) => DoRearm(s, node, m)
    case Free(id, m) => DoFoundFree(s, id, m)
    case DeliverCancel(id, m) => DoDeliverCancel(s, id, m)
    case Callback(id, m) => DoCallback(s, id, m)
    case Teardown(node) => DoTeardown(s, node)
    case CloseConnection(id) => DoCloseConnection(s, id)
  }

  ghost function Run(s: State, steps: seq<Step>): Option<State>
    decreases |steps|
  {
    if steps == [] then Some(s) else
      match Next(s, steps[0])
      case None => None
      case Some(s') => Run(s', steps[1..])
  }

  const EMPTY: State := State(map[], map[], map[])

  /** The consumer re-arms a monitor under a running deployment. */
  ghost predicate Disturbs(s: State, step: Step) {
    step.Rearm? && step.node in s.registry && Deployed(s, s.registry[step.node])
  }

  /** No step of the run re-arms a monitor under a running deployment. */
  ghost predicate Quiet(s: State, steps: seq<Step>)
    decreases |steps|
  {
    steps == [] ||
    (!Disturbs(s, steps[0]) && (Next(s, steps[0]).Some? ==> Quiet(Next(s, steps[0]).value, steps[1..])))
  }

  // ---- the invariant ----

  /** One session: the slot discipline, and in quiet runs a FREE machine is unwatched and a closed one disconnected. */
  ghost predicate SessionOk(quiet: bool, session: Session) {
    && SlotOk(session)
    && (!session.closed ==> session.connected)
    && (quiet && !session.busy ==> Unwatched(session))
    && (quiet && session.closed ==> !session.connected)
  }

  /** In quiet runs: while an allocator holds the machine it is BUSY, unwatched and, once spawned, not closed. */
  ghost predicate HoldOk(quiet: bool, s: State, f: FrameId)
    requires f in s.deploys
  {
    && s.deploys[f].session in s.sessions
    && (quiet && Holding(s.deploys[f].pc) ==> SessionOf(s, f).busy && Unwatched(SessionOf(s, f)))
    && (quiet && s.deploys[f].pc.Spawned? ==> !SessionOf(s, f).closed)
  }

  ghost predicate SoleHolder(s: State) {
    forall f, g ::
      f in s.deploys && g in s.deploys && f != g && Holding(s.deploys[f].pc) && Holding(s.deploys[g].pc) ==>
        s.deploys[f].session != s.deploys[g].session
  }

  ghost predicate Invariant(quiet: bool, s: State) {
    && (forall id :: id in s.sessions ==> SessionOk(quiet, s.sessions[id]))
    && (forall f :: f in s.deploys ==> HoldOk(quiet, s, f))
    && (forall n :: n in s.registry ==> s.registry[n] in s.sessions && !s.sessions[s.registry[n]].closed)
    && (forall m, n :: m in s.registry && n in s.registry && m != n ==> s.registry[m] != s.registry[n])
    && (quiet ==> SoleHolder(s))
  }

  // ---- preservation ----

  /** Changing one session is harmless when the session stays in order and its holders are not disturbed. */
  lemma PutKeeps(quiet: bool, s: State, id: SessionId, session: Session)
    requires Invariant(quiet, s) && id in s.sessions && SessionOk(quiet, session)
    requires session.closed ==> s.sessions[id].closed
    requires quiet && Deployed(s, id) ==> session.busy && Unwatched(session)
    ensures Invariant(quiet, Put(s, id, session))
  {
    forall f | f in s.deploys ensures HoldOk(quiet, Put(s, id, session), f) {
      assert HoldOk(quiet, s, f);
    }
  }

  /** Moving one frame without touching its session. */
  lemma MoveKeeps(quiet: bool, s: State, f: FrameId, pc: Pc)
    requires Invariant(quiet, s) && f in s.deploys
    requires Holding(pc) ==> Holding(s.deploys[f].pc)
    requires quiet && pc.Spawned? ==> !SessionOf(s, f).closed
    ensures Invariant(quiet, Moved(s, f, pc))
  {
    forall g | g in s.deploys ensures HoldOk(quiet, Moved(s, f, pc), g) {
      assert HoldOk(quiet, s, g) && HoldOk(quiet, s, f);
    }
  }

  lemma NotDeployedOnceMoved(s: State, f: FrameId, pc: Pc)
    requires f in s.deploys && Holding(s.deploys[f].pc) && SoleHolder(s) && !Holding(pc)
    ensures !Deployed(Moved(s, f, pc), s.deploys[f].session)
  {
  }

  /** What holders rely on is untouched: BUSY stays BUSY and nothing is armed. */
  lemma UndisturbedKeeps(quiet: bool, s: State, id: SessionId, session: Session)
    requires Invariant(quiet, s) && id in s.sessions && SessionOk(quiet, session)
    requires session.closed == s.sessions[id].closed && session.busy == s.sessions[id].busy
    requires Unwatched(s.sessions[id]) ==> Unwatched(session)
    ensures Invariant(quiet, Put(s, id, session))
  {
    forall f | f in s.deploys ensures HoldOk(quiet, Put(s, id, session), f) {
      assert HoldOk(quiet, s, f);
    }
  }

  lemma ConnectKeeps(quiet: bool, s: State, id: SessionId, node: NodeId, s': State)
    requires Invariant(quiet, s) && DoConnect(s, id, node) == Some(s')
    ensures Invariant(quiet, s')
  {
  }

  lemma PickKeeps(quiet: bool, s: State, f: FrameId, node: NodeId, s': State)
    requires Invariant(quiet, s) && DoPick(s, f, node) == Some(s')
    ensures Invariant(quiet, s')
  {
  }

  lemma DropKeeps(quiet: bool, s: State, f: FrameId, s': State)
    requires Invariant(quiet, s) && DoDrop(s, f) == Some(s')
    ensures Invariant(quiet, s')
  {
    MoveKeeps(quiet, s, f, Ended);
  }

  lemma OccupyKeeps(quiet: bool, s: State, f: FrameId, s': State)
    requires Invariant(quiet, s) && DoOccupy(s, f) == Some(s')
    ensures Invariant(quiet, s')
  {
  }

  lemma FindBusyKeeps(quiet: bool, s: State, f: FrameId, s': State)
    requires Invariant(quiet, s) && DoFindBusy(s, f) == Some(s')
    ensures Invariant(quiet, s')
  {
    MoveKeeps(quiet, s, f, Ended);
  }

  lemma DeployDoneKeeps(quiet: bool, s: State, f: FrameId, s': State)
    requires Invariant(quiet, s) && DoDeployed(s, f) == Some(s')
    ensures Invariant(quiet, s')
  {
    assert HoldOk(quiet, s, f) && SessionOk(quiet, SessionOf(s, f));
    MoveKeeps(quiet, s, f, Spawned);
  }

  lemma DeployFailsKeeps(quiet: bool, s: State, f: FrameId, s': State)
    requires Invariant(quiet, s) && DoDeployFails(s, f) == Some(s')
    ensures Invariant(quiet, s')
  {
    assert HoldOk(quiet, s, f) && SessionOk(quiet, SessionOf(s, f));
    MoveKeeps(quiet, s, f, Ended);
    if !SessionOf(s, f).closed {
      if quiet {
        NotDeployedOnceMoved(s, f, Ended);
      }
      PutKeeps(quiet, Moved(s, f, Ended), s.deploys[f].session, SessionOf(s, f).(busy := false));
    }
  }

  lemma CommitKeeps(quiet: bool, s: State, f: FrameId, m: MonitorId, s': State)
    requires Invariant(quiet, s) && DoCommitted(s, f, m) == Some(s')
    ensures Invariant(quiet, s')
  {
    assert HoldOk(quiet, s, f) && SessionOk(quiet, SessionOf(s, f));
    MoveKeeps(quiet, s, f, Started);
    if quiet {
      NotDeployedOnceMoved(s, f, Started);
    }
    SlotOkKept(SessionOf(s, f), m);
    PutKeeps(quiet, Moved(s, f, Started), s.deploys[f].session, Watched(SessionOf(s, f), m));
  }

  lemma CommitFailsKeeps(quiet: bool, s: State, f: FrameId, s': State)
    requires Invariant(quiet, s) && DoCommitFails(s, f) == Some(s')
    ensures Invariant(quiet, s')
  {
    MoveKeeps(quiet, s, f, Stranded);
  }

  lemma RearmKeeps(quiet: bool, s: State, node: NodeId, m: MonitorId, s': State)
    requires Invariant(quiet, s) && DoRearm(s, node, m) == Some(s')
    requires quiet ==> !Deployed(s, s.registry[node])
    ensures Invariant(quiet, s')
  {
    var session := s.sessions[s.registry[node]];
    assert SessionOk(quiet, session);
    SlotOkKept(session, m);
    PutKeeps(quiet, s, s.registry[node], Watched(session, m));
  }

  lemma FreeKeeps(quiet: bool, s: State, id: SessionId, m: MonitorId, s': State)
    requires Invariant(quiet, s) && DoFoundFree(s, id, m) == Some(s')
    ensures Invariant(quiet, s')
  {
    assert SessionOk(quiet, s.sessions[id]);
    SlotOkKept(s.sessions[id], m);
    assert quiet ==> !Deployed(s, id) by {
      forall f | f in s.deploys ensures HoldOk(quiet, s, f) {
      }
    }
    PutKeeps(quiet, s, id, FoundFree(s.sessions[id], m));
  }

  lemma DeliverCancelKeeps(quiet: bool, s: State, id: SessionId, m: MonitorId, s': State)
    requires Invariant(quiet, s) && DoDeliverCancel(s, id, m) == Some(s')
    ensures Invariant(quiet, s')
  {
    assert SessionOk(quiet, s.sessions[id]);
    SlotOkKept(s.sessions[id], m);
    UndisturbedKeeps(quiet, s, id, CancelDelivered(s.sessions[id], m));
  }

  lemma CallbackKeeps(quiet: bool, s: State, id: SessionId, m: MonitorId, s': State)
    requires Invariant(quiet, s) && DoCallback(s, id, m) == Some(s')
    ensures Invariant(quiet, s')
  {
    assert SessionOk(quiet, s.sessions[id]);
    SlotOkKept(s.sessions[id], m);
    UndisturbedKeeps(quiet, s, id, CallbackRun(s.sessions[id], m));
  }

  lemma TeardownKeeps(quiet: bool, s: State, node: NodeId, s': State)
    requires Invariant(quiet, s) && DoTeardown(s, node) == Some(s')
    ensures Invariant(quiet, s')
  {
  }

  lemma CloseConnectionKeeps(quiet: bool, s: State, id: SessionId, s': State)
    requires Invariant(quiet, s) && DoCloseConnection(s, id) == Some(s')
    ensures Invariant(quiet, s')
  {
    assert SessionOk(quiet, s.sessions[id]);
    UndisturbedKeeps(quiet, s, id, s.sessions[id].(connected := false));
  }

  // ---- runs ----

  lemma StepKeeps(quiet: bool, s: State, step: Step, s': State)
    requires Invariant(quiet, s) && Next(s, step) == Some(s') && (quiet ==> !Disturbs(s, step))
    ensures Invariant(quiet, s')
  {
    hide Invariant;
    match step
    case Connect(id, node) => ConnectKeeps(quiet, s, id, node, s');
    case Pick(f, node) => PickKeeps(quiet, s, f, node, s');
    case Drop(f) => DropKeeps(quiet, s, f, s');
    case Occupy(f) => OccupyKeeps(quiet, s, f, s');
    case FindBusy(f) => FindBusyKeeps(quiet, s, f, s');
    case DeployDone(f) => DeployDoneKeeps(quiet, s, f, s');
    case DeployFails(f) => DeployFailsKeeps(quiet, s, f, s');
    case Commit(f, m) => CommitKeeps(quiet, s, f, m, s');
    case CommitFails(f) => CommitFailsKeeps(quiet, s, f, s');
    case Rearm(node, m) => RearmKeeps(quiet, s, node, m, s');
    case Free(id, m) => FreeKeeps(quiet, s, id, m, s');
    case DeliverCancel(id, m) => DeliverCancelKeeps(quiet, s, id, m, s');
    case Callback(id, m) => CallbackKeeps(quiet, s, id, m, s');
    case Teardown(node) => TeardownKeeps(quiet, s, node, s');
    case CloseConnection(id) => CloseConnectionKeeps(quiet, s, id, s');
  }

  lemma {:induction false} RunKeeps(quiet: bool, s: State, steps: seq<Step>, s': State)
    requires Invariant(quiet, s) && Run(s, steps) == Some(s') && (quiet ==> Quiet(s, steps))
    ensures Invariant(quiet, s')
    decreases |steps|
  {
    hide Invariant, Next, Disturbs;
    if steps != [] {
      var middle := Next(s, steps[0]).value;
      StepKeeps(quiet, s, steps[0], middle);
      RunKeeps(quiet, middle, steps[1..], s');
    }
  }

  lemma Reachable(quiet: bool, steps: seq<Step>, s: State)
    requires Run(EMPTY, steps) == Some(s) && (quiet ==> Quiet(EMPTY, steps))
    ensures Invariant(quiet, s)
  {
    assert Invariant(quiet, EMPTY);
    RunKeeps(quiet, EMPTY, steps, s);
  }

  lemma RunCons(s: State, step: Step, middle: State, rest: seq<Step>, s': State)
    requires Next(s, step) == Some(middle) && Run(middle, rest) == Some(s')
    ensures Run(s, [step] + rest) == Some(s')
    ensures !step.Rearm? && Quiet(middle, rest) ==> Quiet(s, [step] + rest)
  {
    assert ([step] + rest)[1..] == rest;
  }

  // ---- monitors ----

  /** Monitor protocol, in every run: at most one monitor per session can still release it, it is the one in the slot,
      and the session is not closed. */
  lemma OnlyTheSlotMonitorIsArmed(steps: seq<Step>, s: State, id: SessionId, m: MonitorId, n: MonitorId)
    requires Run(EMPTY, steps) == Some(s)
    requires InPhase(s, id, m, Armed) && InPhase(s, id, n, Armed)
    ensures m == n && s.sessions[id].monitor == Some(m) && !s.sessions[id].closed
  {
    Reachable(false, steps, s);
    assert SessionOk(false, s.sessions[id]);
  }

  // ---- exclusivity ----

  lemma InvariantMeansIdle(s: State)
    requires Invariant(true, s)
    ensures FreeIsIdle(s)
  {
    forall id | id in s.sessions && !s.sessions[id].busy ensures Unwatched(s.sessions[id]) && !Deployed(s, id) {
      assert SessionOk(true, s.sessions[id]);
      forall f | f in s.deploys ensures HoldOk(true, s, f) {
      }
    }
  }

  /** Re-armed under a deployment, the monitor finds no process yet and frees the machine; the next one gets in. */
  lemma RearmLetsSecondIn(s: State, node: NodeId, m: MonitorId, s1: State) returns (after: seq<Step>, s': State)
    requires Invariant(false, s) && DoRearm(s, node, m) == Some(s1) && Deployed(s, s.registry[node])
    ensures Quiet(s1, after) && Run(s1, after) == Some(s') && !SoleHolder(s')
  {
    var id := s.registry[node];
    var f :| f in s.deploys && s.deploys[f].session == id && Holding(s.deploys[f].pc);
    var g := FreshId(s.deploys.Keys);
    assert !s.sessions[id].closed && g !in s.deploys;
    var s2 := DoFoundFree(s1, id, m).value;
    var s3 := DoPick(s2, g, node).value;
    s' := DoOccupy(s3, g).value;
    assert f in s'.deploys && g in s'.deploys && Holding(s'.deploys[f].pc) && Holding(s'.deploys[g].pc);
    assert s'.deploys[f].session == s'.deploys[g].session;
    assert Run(s', []) == Some(s') && Quiet(s', []);
    hide Run, Quiet;
    RunCons(s3, Occupy(g), s', [], s');
    RunCons(s2, Pick(g, node), s3, [Occupy(g)] + [], s');
    RunCons(s1, Free(id, m), s2, [Pick(g, node)] + ([Occupy(g)] + []), s');
    after := [Free(id, m)] + ([Pick(g, node)] + ([Occupy(g)] + []));
  }

  /** Deployment exclusivity: as long as no re-arm has hit a running deployment at most one allocator holds a session,
      and a re-arm can lead to two of them exactly when it hits one. */
  lemma RearmBreaksIff(steps: seq<Step>, s: State, node: NodeId, m: MonitorId, s1: State)
    requires Run(EMPTY, steps) == Some(s) && Quiet(EMPTY, steps) && DoRearm(s, node, m) == Some(s1)
    ensures SoleHolder(s)
    ensures (exists after, s' :: Quiet(s1, after) && Run(s1, after) == Some(s') && !SoleHolder(s'))
            <==> Deployed(s, s.registry[node])
  {
    Reachable(true, steps, s);
    Reachable(false, steps, s);
    if Deployed(s, s.registry[node]) {
      var after, s' := RearmLetsSecondIn(s, node, m, s1);
    } else {
      RearmKeeps(true, s, node, m, s1);
      forall after, s' | Quiet(s1, after) && Run(s1, after) == Some(s') ensures SoleHolder(s') {
        RunKeeps(true, s1, after, s');
      }
    }
  }

  ghost predicate FreeIsIdle(s: State) {
    forall id :: id in s.sessions && !s.sessions[id].busy ==> Unwatched(s.sessions[id]) && !Deployed(s, id)
  }

  lemma RearmFreesHeld(s: State, node: NodeId, m: MonitorId, s1: State) returns (s': State)
    requires Invariant(false, s) && DoRearm(s, node, m) == Some(s1) && Deployed(s, s.registry[node])
    ensures Quiet(s1, [Free(s.registry[node], m)]) && Run(s1, [Free(s.registry[node], m)]) == Some(s')
    ensures !FreeIsIdle(s')
  {
    var id := s.registry[node];
    var f :| f in s.deploys && s.deploys[f].session == id && Holding(s.deploys[f].pc);
    s' := DoFoundFree(s1, id, m).value;
    assert f in s'.deploys && Deployed(s', id) && !s'.sessions[id].busy;
    assert Run(s', []) == Some(s') && Quiet(s', []);
    RunCons(s1, Free(id, m), s', [], s');
    assert [Free(id, m)] + [] == [Free(id, m)];
  }

  /** The same condition for "FREE means idle". */
  lemma RearmBreaksIdleIff(steps: seq<Step>, s: State, node: NodeId, m: MonitorId, s1: State)
    requires Run(EMPTY, steps) == Some(s) && Quiet(EMPTY, steps) && DoRearm(s, node, m) == Some(s1)
    ensures FreeIsIdle(s)
    ensures (exists after, s' :: Quiet(s1, after) && Run(s1, after) == Some(s') && !FreeIsIdle(s'))
            <==> Deployed(s, s.registry[node])
  {
    Reachable(true, steps, s);
    Reachable(false, steps, s);
    InvariantMeansIdle(s);
    if Deployed(s, s.registry[node]) {
      var s' := RearmFreesHeld(s, node, m, s1);
    } else {
      RearmKeeps(true, s, node, m, s1);
      forall after, s' | Quiet(s1, after) && Run(s1, after) == Some(s') ensures FreeIsIdle(s') {
        RunKeeps(true, s1, after, s');
        InvariantMeansIdle(s');
      }
    }
  }

  /** In every run: a failed deployment leaves a closed session alone and frees any other, so that another allocator is
      freed with it exactly when there were two; one that found the machine BUSY changes no session. */
  lemma RollbackIsOwn(s: State, f: FrameId, s': State)
    requires DoDeployFails(s, f) == Some(s') || DoFindBusy(s, f) == Some(s')
    ensures DoDeployFails(s, f) == Some(s') ==>
              var id := s.deploys[f].session;
              && s'.sessions == (if s.sessions[id].closed then s.sessions
                                 else s.sessions[id := s.sessions[id].(busy := false)])
              && (Deployed(s', id) <==>
                  exists g :: g in s.deploys && g != f && s.deploys[g].session == id && Holding(s.deploys[g].pc))
    ensures DoFindBusy(s, f) == Some(s') ==> s'.sessions == s.sessions
    ensures SoleHolder(s) && DoDeployFails(s, f) == Some(s') ==> !Deployed(s', s.deploys[f].session)
  {
    if DoDeployFails(s, f) == Some(s') {
      var id := s.deploys[f].session;
      if g :| g in s.deploys && g != f && s.deploys[g].session == id && Holding(s.deploys[g].pc) {
        assert s'.deploys[g] == s.deploys[g];
      }
    }
  }

  /** The allocator whose step it is. */
  function Actor(step: Step): Option<FrameId> {
    match step
    case Pick(f, _) => Some(f)
    case Drop(f) => Some(f)
    case Occupy(f) => Some(f)
    case FindBusy(f) => Some(f)
    case DeployDone(f) => Some(f)
    case DeployFails(f) => Some(f)
    case Commit(f, _) => Some(f)
    case CommitFails(f) => Some(f)
    case _ => None
  }

  /** The allocator holds a BUSY session that is open or closed, connected or not, just as it was in `before`. */
  ghost predicate StillHolds(before: State, s: State, g: FrameId) {
    && g in before.deploys && before.deploys[g].session in before.sessions
    && g in s.deploys && s.deploys[g] == before.deploys[g] && s.deploys[g].session in s.sessions
    && SessionOf(s, g).busy && SessionOf(s, g).closed == SessionOf(before, g).closed
    && SessionOf(s, g).connected == SessionOf(before, g).connected
  }

  lemma FrameStands(s: State, step: Step, s': State, g: FrameId)
    requires Next(s, step) == Some(s') && Actor(step) != Some(g) && g in s.deploys
    ensures g in s'.deploys && s'.deploys[g] == s.deploys[g]
  {
  }

  /** Only a teardown closes, and it spares a BUSY session. */
  lemma BusyStaysOpen(s: State, step: Step, s': State, id: SessionId)
    requires Next(s, step) == Some(s') && id in s.sessions && s.sessions[id].busy
    requires s.sessions[id].closed ==> !s.sessions[id].connected
    ensures id in s'.sessions && s'.sessions[id].closed == s.sessions[id].closed
    ensures s'.sessions[id].connected == s.sessions[id].connected
  {
  }

  lemma HeldStep(s: State, step: Step, s': State, g: FrameId)
    requires Invariant(true, s) && Next(s, step) == Some(s') && !Disturbs(s, step) && Actor(step) != Some(g)
    requires g in s.deploys && Holding(s.deploys[g].pc)
    ensures StillHolds(s, s', g)
  {
    hide Next, Disturbs;
    StepKeeps(true, s, step, s');
    assert HoldOk(true, s, g) && SessionOk(true, SessionOf(s, g));
    FrameStands(s, step, s', g);
    BusyStaysOpen(s, step, s', s.deploys[g].session);
    assert HoldOk(true, s', g);
  }

  lemma {:induction false} HeldRun(s: State, g: FrameId, steps: seq<Step>, s': State)
    requires Invariant(true, s) && Run(s, steps) == Some(s') && Quiet(s, steps)
    requires forall i :: 0 <= i < |steps| ==> Actor(steps[i]) != Some(g)
    requires g in s.deploys && Holding(s.deploys[g].pc)
    ensures StillHolds(s, s', g)
    decreases |steps|
  {
    hide Next, Disturbs;
    assert HoldOk(true, s, g);
    hide Invariant;
    if steps != [] {
      var middle := Next(s, steps[0]).value;
      HeldStep(s, steps[0], middle, g);
      StepKeeps(true, s, steps[0], middle);
      HeldRun(middle, g, steps[1..], s');
    }
  }

  /** In quiet runs, whatever other allocators, monitors, consumers and teardowns do: a session stays BUSY and is not
      closed until the allocator that holds it moves. */
  lemma HeldUntilOwnerMoves(before: seq<Step>, s: State, g: FrameId, after: seq<Step>, s': State)
    requires Run(EMPTY, before) == Some(s) && Quiet(EMPTY, before)
    requires Run(s, after) == Some(s') && Quiet(s, after) && forall i :: 0 <= i < |after| ==> Actor(after[i]) != Some(g)
    requires g in s.deploys && Holding(s.deploys[g].pc)
    ensures StillHolds(s, s', g)
  {
    Reachable(true, before, s);
    HeldRun(s, g, after, s');
  }

  // ---- no machine stays BUSY for nothing ----

  ghost predicate WatchedSlot(session: Session) {
    session.monitor.Some? && session.monitor.value in session.tasks && session.tasks[session.monitor.value].Armed?
  }

  ghost predicate CommitLostOn(s: State, id: SessionId) {
    exists f :: f in s.deploys && s.deploys[f].session == id && s.deploys[f].pc.Stranded?
  }

  /** An allocator holds the machine, or the monitor in its slot will release it, or a commit raised after the spawn. */
  ghost predicate BusyForReason(s: State) {
    forall id :: id in s.sessions && s.sessions[id].busy && !s.sessions[id].closed ==>
      Deployed(s, id) || WatchedSlot(s.sessions[id]) || CommitLostOn(s, id)
  }

  /** Frames that hold or have stranded a session go on doing so unless they move. */
  lemma OtherReasonsStay(s: State, s': State, f: FrameId, id: SessionId)
    requires forall g :: g in s.deploys && g != f ==> g in s'.deploys && s'.deploys[g] == s.deploys[g]
    requires f in s.deploys ==> s.deploys[f].session != id
    ensures Deployed(s, id) ==> Deployed(s', id)
    ensures CommitLostOn(s, id) ==> CommitLostOn(s', id)
  {
  }

  lemma AllocatorKeepsReason(s: State, step: Step, s': State, f: FrameId)
    requires BusyForReason(s) && Next(s, step) == Some(s') && Actor(step) == Some(f)
    ensures BusyForReason(s')
  {
    forall id | id in s'.sessions && s'.sessions[id].busy && !s'.sessions[id].closed
      ensures Deployed(s', id) || WatchedSlot(s'.sessions[id]) || CommitLostOn(s', id)
    {
      if f in s.deploys && s.deploys[f].session == id {
        assert s'.deploys[f].session == id;
        if g :| g in s.deploys && g != f && s.deploys[g].session == id
                && (Holding(s.deploys[g].pc) || s.deploys[g].pc.Stranded?) {
          assert s'.deploys[g] == s.deploys[g];
        }
      } else {
        OtherReasonsStay(s, s', f, id);
      }
    }
  }

  lemma OthersKeepReason(s: State, step: Step, s': State)
    requires BusyForReason(s) && Next(s, step) == Some(s') && Actor(step).None?
    ensures BusyForReason(s')
  {
    assert s'.deploys == s.deploys;
    forall id ensures Deployed(s', id) == Deployed(s, id) && CommitLostOn(s', id) == CommitLostOn(s, id) {
    }
    hide Deployed, CommitLostOn;
  }

  lemma {:induction false} ReasonRun(s: State, steps: seq<Step>, s': State)
    requires BusyForReason(s) && Run(s, steps) == Some(s')
    ensures BusyForReason(s')
    decreases |steps|
  {
    hide BusyForReason, Next;
    if steps != [] {
      var middle := Next(s, steps[0]).value;
      if Actor(steps[0]).Some? {
        AllocatorKeepsReason(s, steps[0], middle, Actor(steps[0]).value);
      } else {
        OthersKeepReason(s, steps[0], middle);
      }
      ReasonRun(middle, steps[1..], s');
    }
  }

  /** In every run an open BUSY session is held by an allocator or watched by the monitor in its slot, unless a commit
      raised on it after the spawn. */
  lemma NoForgottenMachine(steps: seq<Step>, s: State, id: SessionId)
    requires Run(EMPTY, steps) == Some(s)
    requires id in s.sessions && s.sessions[id].busy && !s.sessions[id].closed
    ensures Deployed(s, id) || WatchedSlot(s.sessions[id]) || CommitLostOn(s, id)
  {
    ReasonRun(EMPTY, steps, s);
  }

  /** The exception is real: in quiet runs a commit that raises leaves the machine BUSY with nobody to release it. */
  lemma RaisingCommitForgetsMachine(steps: seq<Step>, s: State, f: FrameId, s': State)
    requires Run(EMPTY, steps) == Some(s) && Quiet(EMPTY, steps) && DoCommitFails(s, f) == Some(s')
    ensures var id := s.deploys[f].session;
            && s'.sessions == s.sessions && s.sessions[id].busy && !s.sessions[id].closed
            && !Deployed(s', id) && Unwatched(s.sessions[id])
  {
    Reachable(true, steps, s);
    assert HoldOk(true, s, f);
    NotDeployedOnceMoved(s, f, Stranded);
  }

  /** The allocator has committed its RUNNING row. */
  predicate HasStarted(s: State, f: FrameId) {
    f in s.deploys && s.deploys[f].pc.Started?
  }

  /** In every run an allocator is offered only a session that is registered for its node, FREE, open and connected. */
  lemma PicksUsableSession(steps: seq<Step>, s: State, f: FrameId, node: NodeId, s': State)
    requires Run(EMPTY, steps) == Some(s) && DoPick(s, f, node) == Some(s')
    ensures node in s.registry && s'.deploys[f].session == s.registry[node] && s'.sessions == s.sessions
    ensures var session := SessionOf(s', f); !session.busy && !session.closed && session.connected
  {
    Reachable(false, steps, s);
    assert SessionOk(false, s.sessions[s.registry[node]]);
  }

  /** In every run: committing leaves the machine BUSY and, unless the session was closed, with the new monitor armed in
      its slot and every other one disarmed. */
  lemma CommitArmsMonitor(steps: seq<Step>, s: State, f: FrameId, m: MonitorId, s': State)
    requires Run(EMPTY, steps) == Some(s) && DoCommitted(s, f, m) == Some(s')
    ensures var id := s.deploys[f].session;
            && s'.sessions[id].busy && s'.sessions[id].closed == s.sessions[id].closed
            && (forall n :: InPhase(s', id, n, Armed) <==> n == m && !s.sessions[id].closed)
            && (!s.sessions[id].closed ==> s'.sessions[id].monitor == Some(m))
            && HasStarted(s', f)
  {
    Reachable(false, steps, s);
    assert SessionOk(false, s.sessions[s.deploys[f].session]);
  }

  // ---- teardown ----

  /** In every run: teardown closes only a FREE session, and the connection is closed in the same step exactly when the
      slot holds no monitor that is still pending. */
  lemma TeardownClosesAtOnceIff(steps: seq<Step>, s: State, node: NodeId, s': State)
    requires Run(EMPTY, steps) == Some(s) && DoTeardown(s, node) == Some(s')
    ensures var id := s.registry[node];
            && !s.sessions[id].busy && !s.sessions[id].closed && node !in s'.registry && s'.sessions[id].closed
            && (!s'.sessions[id].connected <==> !Pending(s.sessions[id]))
            && forall other :: other in s.sessions && other != id ==> s'.sessions[other] == s.sessions[other]
  {
    Reachable(false, steps, s);
    assert SessionOk(false, s.sessions[s.registry[node]]);
  }

  /** The allocator's session is closed and disconnected and it has not spawned anything. */
  ghost predicate TooLate(s: State, f: FrameId) {
    && f in s.deploys && s.deploys[f].session in s.sessions
    && SessionOf(s, f).closed && !SessionOf(s, f).connected
    && (s.deploys[f].pc.Picked? || s.deploys[f].pc.Deploying? || s.deploys[f].pc.Ended?)
  }

  lemma {:induction false} TooLateForEver(s: State, f: FrameId, steps: seq<Step>, s': State)
    requires TooLate(s, f) && Run(s, steps) == Some(s')
    ensures TooLate(s', f)
    decreases |steps|
  {
    hide TooLate, Next;
    if steps != [] {
      var middle := Next(s, steps[0]).value;
      TooLateStep(s, f, steps[0], middle);
      TooLateForEver(middle, f, steps[1..], s');
    }
  }

  lemma TooLateStep(s: State, f: FrameId, step: Step, s': State)
    requires TooLate(s, f) && Next(s, step) == Some(s')
    ensures TooLate(s', f)
  {
  }

  /** Nothing but the connection keeps an allocator from going on. */
  lemma RunsToTheEnd(s: State, f: FrameId) returns (after: seq<Step>, s': State)
    requires f in s.deploys && s.deploys[f].session in s.sessions
    requires s.deploys[f].pc.Spawned? || (SessionOf(s, f).connected
               && (s.deploys[f].pc.Deploying? || (s.deploys[f].pc.Picked? && !SessionOf(s, f).busy)))
    ensures Run(s, after) == Some(s') && HasStarted(s', f)
    decreases if s.deploys[f].pc.Picked? then 2 else if s.deploys[f].pc.Deploying? then 1 else 0
  {
    if s.deploys[f].pc.Picked? {
      var middle := DoOccupy(s, f).value;
      after, s' := RunsToTheEnd(middle, f);
      RunCons(s, Occupy(f), middle, after, s');
      after := [Occupy(f)] + after;
    } else if s.deploys[f].pc.Deploying? {
      var middle := DoDeployed(s, f).value;
      after, s' := RunsToTheEnd(middle, f);
      RunCons(s, DeployDone(f), middle, after, s');
      after := [DeployDone(f)] + after;
    } else {
      var m := FreshId(SessionOf(s, f).tasks.Keys);
      assert m !in SessionOf(s, f).tasks;
      s' := DoCommitted(s, f, m).value;
      assert Run(s', []) == Some(s');
      RunCons(s, Commit(f, m), s', [], s');
      after := [Commit(f, m)] + [];
    }
  }

  /** In every run: an allocator that has picked the session before its teardown can still commit RUNNING on the closed
      session exactly when the slot's monitor was pending, so that the connection stayed open, or the job was already
      spawned. */
  lemma LateCommitIff(steps: seq<Step>, s: State, node: NodeId, s': State, f: FrameId)
    requires Run(EMPTY, steps) == Some(s) && DoTeardown(s, node) == Some(s')
    requires f in s.deploys && s.deploys[f].session == s.registry[node]
    requires s.deploys[f].pc.Picked? || Holding(s.deploys[f].pc)
    ensures (exists after, s'' :: Run(s', after) == Some(s'') && HasStarted(s'', f))
            <==> Pending(s.sessions[s.registry[node]]) || s.deploys[f].pc.Spawned?
  {
    TeardownClosesAtOnceIff(steps, s, node, s');
    if Pending(s.sessions[s.registry[node]]) || s.deploys[f].pc.Spawned? {
      var after, s'' := RunsToTheEnd(s', f);
    } else {
      forall after, s'' | Run(s', after) == Some(s'') ensures !HasStarted(s'', f) {
        TooLateForEver(s', f, after, s'');
      }
    }
  }

  /** In quiet runs teardown never races a deployment: nobody holds the session it closes, and pop, closed flag and
      connection close happen in this one step. */
  lemma TeardownIsAtomic(steps: seq<Step>, s: State, node: NodeId, s': State)
    requires Run(EMPTY, steps) == Some(s) && Quiet(EMPTY, steps) && DoTeardown(s, node) == Some(s')
    ensures var id := s.registry[node];
            && !Deployed(s, id) && Unwatched(s.sessions[id]) && s'.sessions[id].closed && !s'.sessions[id].connected
  {
    Reachable(false, steps, s);
    TeardownClosesAtOnceIff(steps, s, node, s');
    Reachable(true, steps, s);
    InvariantMeansIdle(s);
    assert SessionOk(false, s.sessions[s.registry[node]]);
  }

  /** After a quiet run, whatever follows: a deployment on a session closed before its spawn never commits RUNNING. */
  lemma ClosedSessionNeverRuns(before: seq<Step>, s: State, f: FrameId, after: seq<Step>, s': State)
    requires Run(EMPTY, before) == Some(s) && Quiet(EMPTY, before) && Run(s, after) == Some(s')
    requires f in s.deploys && s.deploys[f].session in s.sessions && SessionOf(s, f).closed
    requires s.deploys[f].pc.Picked? || s.deploys[f].pc.Deploying?
    ensures !HasStarted(s', f)
  {
    Reachable(true, before, s);
    assert SessionOk(true, SessionOf(s, f));
    TooLateForEver(s, f, after, s');
  }

  /** One allocator deploys on a session that a second one has also picked. */
  const CONTENDED: State := State(map[0 := Fresh(0).(busy := true)], map[0 := 0],
                                  map[0 := Deploy(Deploying, 0), 1 := Deploy(Picked, 0)])

  lemma ReachContended(rest: seq<Step>, s': State)
    requires Run(CONTENDED, rest) == Some(s')
    ensures Run(EMPTY, [Connect(0, 0)] + ([Pick(0, 0)] + ([Pick(1, 0)] + ([Occupy(0)] + rest)))) == Some(s')
  {
    var s1 := DoConnect(EMPTY, 0, 0).value;
    var s2 := DoPick(s1, 0, 0).value;
    var s3 := DoPick(s2, 1, 0).value;
    var s4 := DoOccupy(s3, 0).value;
    assert s4.sessions == CONTENDED.sessions && s4.registry == CONTENDED.registry && s4.deploys == CONTENDED.deploys;
    hide Run;
    RunCons(s3, Occupy(0), CONTENDED, rest, s');
    RunCons(s2, Pick(1, 0), s3, [Occupy(0)] + rest, s');
    RunCons(s1, Pick(0, 0), s2, [Pick(1, 0)] + ([Occupy(0)] + rest), s');
    RunCons(EMPTY, Connect(0, 0), s1, [Pick(0, 0)] + ([Pick(1, 0)] + ([Occupy(0)] + rest)), s');
  }

  /** The state after a deployment has failed under a re-armed monitor: FREE, still watched, and picked by another. */
  lemma ReachPending() returns (steps: seq<Step>, s: State)
    ensures Run(CONTENDED, steps) == Some(s)
    ensures DoTeardown(s, 0).Some? && 0 in s.registry && s.registry[0] == 0 && Pending(s.sessions[0])
    ensures 1 in s.deploys && s.deploys[1] == Deploy(Picked, 0)
  {
    var s1 := DoRearm(CONTENDED, 0, 0).value;
    s := DoDeployFails(s1, 0).value;
    assert Run(s, []) == Some(s);
    RunCons(s1, DeployFails(0), s, [], s);
    RunCons(CONTENDED, Rearm(0, 0), s1, [DeployFails(0)] + [], s);
    steps := [Rearm(0, 0)] + ([DeployFails(0)] + []);
  }

  /** The other half is real: a run of the code tears down a session whose monitor is pending, and the allocator that
      had picked it goes on to commit RUNNING there. */
  lemma PendingTeardownStrandsTask() returns (steps: seq<Step>, s: State, s': State, after: seq<Step>, s'': State)
    ensures Run(EMPTY, steps) == Some(s) && DoTeardown(s, 0) == Some(s')
    ensures 0 in s'.sessions && s'.sessions[0].closed && 1 in s.deploys && s.deploys[1] == Deploy(Picked, 0)
    ensures Run(s', after) == Some(s'') && HasStarted(s'', 1)
  {
    steps, s := ReachPending();
    ReachContended(steps, s);
    steps := [Connect(0, 0)] + ([Pick(0, 0)] + ([Pick(1, 0)] + ([Occupy(0)] + steps)));
    hide Run;
    s' := DoTeardown(s, 0).value;
    TeardownClosesAtOnceIff(steps, s, 0, s');
    after, s'' := RunsToTheEnd(s', 1);
  }

  // ---- progress ----

  /** An allocator can always go on, and whatever it awaits may return or raise. */
  ghost predicate AllocatorGoesOn(s: State, f: FrameId)
    requires f in s.deploys && s.deploys[f].session in s.sessions
  {
    match s.deploys[f].pc
    case Picked =>
      && Next(s, Drop(f)).Some?
      && (if SessionOf(s, f).busy then Next(s, FindBusy(f)).Some? else Next(s, Occupy(f)).Some?)
    case Deploying => Next(s, DeployFails(f)).Some? && (Next(s, DeployDone(f)).Some? <==> SessionOf(s, f).connected)
    case Spawned =>
      Next(s, CommitFails(f)).Some? && forall m :: m !in SessionOf(s, f).tasks ==> Next(s, Commit(f, m)).Some?
    case _ => true
  }

  /** Every monitor task runs on to its end, and a FREE machine can be torn down. */
  ghost predicate SessionGoesOn(s: State, id: SessionId)
    requires id in s.sessions
  {
    && (forall m :: InPhase(s, id, m, Armed) ==> Next(s, Free(id, m)).Some?)
    && (forall m :: InPhase(s, id, m, Cancelling) ==> Next(s, DeliverCancel(id, m)).Some?)
    && (forall m :: InPhase(s, id, m, Finished) ==> Next(s, Callback(id, m)).Some?)
    && (s.sessions[id].closed ==> Next(s, CloseConnection(id)).Some?)
    && (forall n :: n in s.registry && s.registry[n] == id ==>
          (Next(s, Teardown(n)).Some? <==> !s.sessions[id].busy)
          && forall f :: f !in s.deploys ==> (Next(s, Pick(f, n)).Some? <==> !s.sessions[id].busy))
  }

  function StepsLeft(s: State, f: FrameId): nat {
    if f !in s.deploys then 4
    else
      match s.deploys[f].pc
      case Picked => 3
      case Deploying => 2
      case Spawned => 1
      case Started | Stranded | Ended => 0
  }

  lemma AllocatorCan(s: State, f: FrameId)
    requires f in s.deploys && s.deploys[f].session in s.sessions
    ensures AllocatorGoesOn(s, f)
  {
  }

  lemma SessionCan(s: State, id: SessionId)
    requires id in s.sessions
    ensures SessionGoesOn(s, id)
  {
  }

  /** In every run no allocator and no session is stuck. */
  lemma PoolGoesOn(steps: seq<Step>, s: State)
    requires Run(EMPTY, steps) == Some(s)
    ensures forall f :: f in s.deploys ==> s.deploys[f].session in s.sessions && AllocatorGoesOn(s, f)
    ensures forall id :: id in s.sessions ==> SessionGoesOn(s, id)
  {
    Reachable(false, steps, s);
    hide AllocatorGoesOn, SessionGoesOn, Run, SessionOk;
    forall f | f in s.deploys ensures s.deploys[f].session in s.sessions && AllocatorGoesOn(s, f) {
      assert HoldOk(false, s, f);
      AllocatorCan(s, f);
    }
    forall id | id in s.sessions ensures SessionGoesOn(s, id) {
      SessionCan(s, id);
    }
  }

  /** Every step of an allocator brings it nearer to its end. */
  lemma AllocatorAdvances(s: State, step: Step, s': State, f: FrameId)
    requires Next(s, step) == Some(s')
    ensures if Actor(step) == Some(f) then StepsLeft(s', f) < StepsLeft(s, f) else StepsLeft(s', f) == StepsLeft(s, f)
  {
  }
}
