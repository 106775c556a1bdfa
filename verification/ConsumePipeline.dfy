/** RUNNING tasks from the producer through the queue to consume_task (application/orchestrator.py,
    application/consume_task.py): at-most-once finalisation from queue exclusivity and the RUNNING re-read. */
module ConsumePipeline {
  import opened Prelude
  import opened Q = UniqueQueues

  datatype Writer = Consumer | MachineGone | Allocator

  datatype Status = ToDo | Running | Done(writer: Writer)

  /** Where a worker is between get and item_done. */
  datatype Pc = Dispatching | Consuming | Downloading | Saving | Abandoning | Over

  /** `listed`: tasks a producer pass has read as RUNNING and not put yet; `finalised`, `abandoned`: the committed DONE
      saves of consume_task and of the machine-gone path, in order. */
  datatype State = State(
    pool: Pool<TaskId, ()>,
    at: map<WorkerId, Pc>,
    status: map<TaskId, Status>,
    listed: set<TaskId>,
    finalised: seq<TaskId>,
    abandoned: seq<TaskId>)

  predicate IsAt(s: State, w: WorkerId, pc: Pc) {
    w in s.at && s.at[w] == pc && w in s.pool.held
  }

  function TaskOf(s: State, w: WorkerId): TaskId
    requires w in s.pool.held
  {
    s.pool.held[w].id
  }

  predicate IsRunning(s: State, t: TaskId) {
    t in s.status && s.status[t].Running?
  }

  /** consume_task runs under the _consuming guard. */
  predicate InConsume(pc: Pc) {
    pc.Consuming? || pc.Downloading? || pc.Saving?
  }

  /** The task is in _consuming, at which the producer looks when it comes to yield the task, not when it lists. */
  ghost predicate BeingConsumed(s: State, t: TaskId) {
    exists w :: w in s.at && w in s.pool.held && InConsume(s.at[w]) && TaskOf(s, w) == t
  }

  function Moved(s: State, w: WorkerId, pc: Pc): State {
    s.(at := s.at[w := pc])
  }

  datatype Step =
    | List(ids: set<TaskId>)
    | PassOver(task: TaskId)
    | Offer(task: TaskId)
    | ResumeOffer
    | Take(w: WorkerId)
    | SkipMessage(w: WorkerId)
    | FindMachineGone(w: WorkerId)
    | AbandonCommits(w: WorkerId)
    | StartConsume(w: WorkerId)
    | ReadTask(w: WorkerId)
    | Decide(w: WorkerId, defer: bool)
    | SaveCommits(w: WorkerId)
    | Raise(w: WorkerId)
    | Complete(w: WorkerId)
    | Claim(claimed: TaskId)
    | Reject(rejected: TaskId)
    | Submit(submitted: TaskId)

  ghost function Next(s: State, step: Step): Option<State> {
    match step
    case List(ids) =>
      if exists t :: t in ids && !IsRunning(s, t) then None else Some(s.(listed := s.listed + ids))
    case PassOver(t) =>
      if t !in s.listed || !BeingConsumed(s, t) then None else Some(s.(listed := s.listed - {t}))
    case Offer(t) =>
      if t !in s.listed || BeingConsumed(s, t) || s.pool.q.waiting.Some? then None
      else Some(s.(listed := s.listed - {t}, pool := s.pool.(q := Offered(s.pool.q, Message(t, ())))))
    case ResumeOffer => Some(s.(pool := s.pool.(q := Resumed(s.pool.q))))
    case Take(w) =>
      if w in s.pool.held || s.pool.q.queue == [] then None
      else Some(Moved(s, w, Dispatching).(pool := Pool(Taken(s.pool.q), s.pool.held[w := s.pool.q.queue[0]])))
    case SkipMessage(w) => if !IsAt(s, w, Dispatching) then None else Some(Moved(s, w, Over))
    case FindMachineGone(w) => if !IsAt(s, w, Dispatching) then None else Some(Moved(s, w, Abandoning))
    case AbandonCommits(w) =>
      if !IsAt(s, w, Abandoning) || TaskOf(s, w) !in s.status then None
      else Some(Moved(s, w, Over).(status := s.status[TaskOf(s, w) := Done(MachineGone)],
                                   abandoned := s.abandoned + [TaskOf(s, w)]))
    case StartConsume(w) => if !IsAt(s, w, Dispatching) then None else Some(Moved(s, w, Consuming))
    case ReadTask(w) =>
      if !IsAt(s, w, Consuming) then None
      else Some(Moved(s, w, if IsRunning(s, TaskOf(s, w)) then Downloading else Over))
    case Decide(w, defer) =>
      if !IsAt(s, w, Downloading) then None else Some(Moved(s, w, if defer then Over else Saving))
    case SaveCommits(w) =>
      if !IsAt(s, w, Saving) then None
      else Some(Moved(s, w, Over).(status := s.status[TaskOf(s, w) := Done(Consumer)],
                                   finalised := s.finalised + [TaskOf(s, w)]))
    case Raise(w) => if w !in s.at || w !in s.pool.held then None else Some(Moved(s, w, Over))
    case Complete(w) =>
      if !IsAt(s, w, Over) then None
      else Some(s.(at := s.at - {w}, pool := Pool(Finished(s.pool.q, TaskOf(s, w)), s.pool.held - {w})))
    case Claim(t) =>
      if t !in s.status || !s.status[t].ToDo? then None else Some(s.(status := s.status[t := Running]))
    case Reject(t) =>
      if t !in s.status || !s.status[t].ToDo? then None else Some(s.(status := s.status[t := Done(Allocator)]))
    case Submit(t) => if t in s.status then None else Some(s.(status := s.status[t := ToDo]))
  }

  ghost function Run(s: State, steps: seq<Step>): Option<State>
    decreases |steps|
  {
    if steps == [] then Some(s) else
      match Next(s, steps[0])
      case None => None
      case Some(s') => Run(s', steps[1..])
  }

  // ---- the invariant ----

  /** A worker past the re-read works on a task that is still RUNNING: nobody else holds it. */
  ghost predicate ReadStays(s: State) {
    forall w :: w in s.at && (s.at[w].Downloading? || s.at[w].Saving?) ==>
      w in s.pool.held && IsRunning(s, TaskOf(s, w))
  }

  ghost predicate OnceEach(finalised: seq<TaskId>, status: map<TaskId, Status>) {
    && (forall i, j :: 0 <= i < j < |finalised| ==> finalised[i] != finalised[j])
    && (forall i :: 0 <= i < |finalised| ==> finalised[i] in status && status[finalised[i]].Done?)
  }

  ghost predicate Invariant(s: State) {
    PoolOk(s.pool) && s.at.Keys == s.pool.held.Keys && ReadStays(s) && OnceEach(s.finalised, s.status)
  }

  lemma OfferKeeps(s: State, t: TaskId, s': State)
    requires Invariant(s) && Next(s, Offer(t)) == Some(s')
    ensures Invariant(s')
  {
    OfferedKeeps(s.pool.q, Message(t, ()));
  }

  lemma NewWorkerReadStays(s: State, w: WorkerId, m: Message<TaskId, ()>, s': State)
    requires s.at.Keys == s.pool.held.Keys && ReadStays(s) && w !in s.pool.held
    requires s'.at == s.at[w := Dispatching] && s'.pool.held == s.pool.held[w := m] && s'.status == s.status
    ensures s'.at.Keys == s'.pool.held.Keys && ReadStays(s')
  {
    assert w !in s.at.Keys;
    forall v | v in s'.at && (s'.at[v].Downloading? || s'.at[v].Saving?)
      ensures v in s'.pool.held && IsRunning(s', TaskOf(s', v))
    {
      assert v in s.at && v in s.pool.held;
    }
  }

  lemma TakeKeeps(s: State, w: WorkerId, s': State)
    requires Invariant(s) && Next(s, Take(w)) == Some(s')
    ensures Invariant(s')
  {
    GetKeeps(s.pool, w);
    NewWorkerReadStays(s, w, s.pool.q.queue[0], s');
    hide PoolOk, OnceEach, ReadStays;
  }

  lemma CompleteKeeps(s: State, w: WorkerId, s': State)
    requires Invariant(s) && Next(s, Complete(w)) == Some(s')
    ensures Invariant(s')
  {
    ItemDoneKeeps(s.pool, w);
    hide PoolOk;
  }

  lemma MovedKeeps(s: State, w: WorkerId, pc: Pc)
    requires Invariant(s) && w in s.at
    requires pc.Downloading? || pc.Saving? ==> IsRunning(s, TaskOf(s, w))
    ensures Invariant(Moved(s, w, pc))
  {
    hide PoolOk;
  }

  /** A DONE save by one worker leaves the tasks of all others as they are. */
  lemma SaveKeeps(s: State, w: WorkerId, writer: Writer, s': State)
    requires Invariant(s) && w in s.at
    requires s'.pool == s.pool && s'.at == s.at[w := Over] && s'.status == s.status[TaskOf(s, w) := Done(writer)]
    ensures ReadStays(s')
  {
    forall v | v in s'.at && (s'.at[v].Downloading? || s'.at[v].Saving?)
      ensures v in s'.pool.held && IsRunning(s', TaskOf(s', v))
    {
      assert v != w && s.pool.held[v].id != s.pool.held[w].id;
    }
  }

  lemma AbandonKeeps(s: State, w: WorkerId, s': State)
    requires Invariant(s) && Next(s, AbandonCommits(w)) == Some(s')
    ensures Invariant(s')
  {
    SaveKeeps(s, w, MachineGone, s');
    hide PoolOk, ReadStays;
  }

  lemma SaveCommitKeeps(s: State, w: WorkerId, s': State)
    requires Invariant(s) && Next(s, SaveCommits(w)) == Some(s')
    ensures Invariant(s')
  {
    SaveKeeps(s, w, Consumer, s');
    assert IsRunning(s, TaskOf(s, w));
    hide PoolOk, ReadStays;
  }

  /** Allocators and submitters only touch tasks that are TO_DO or new. */
  lemma OutsideKeeps(s: State, t: TaskId, status: Status, s': State)
    requires Invariant(s) && s' == s.(status := s.status[t := status])
    requires t !in s.status || s.status[t].ToDo?
    ensures Invariant(s')
  {
    hide PoolOk;
  }

  lemma StepKeeps(s: State, step: Step, s': State)
    requires Invariant(s) && Next(s, step) == Some(s')
    ensures Invariant(s')
  {
    hide PoolOk, OnceEach;
    match step
    case List(_) =>
    case PassOver(_) =>
    case Offer(t) => OfferKeeps(s, t, s');
    case ResumeOffer => ResumedKeepsPool(s, s');
    case Take(w) => TakeKeeps(s, w, s');
    case SkipMessage(w) => MovedKeeps(s, w, Over);
    case FindMachineGone(w) => MovedKeeps(s, w, Abandoning);
    case AbandonCommits(w) => AbandonKeeps(s, w, s');
    case StartConsume(w) => MovedKeeps(s, w, Consuming);
    case ReadTask(w) => MovedKeeps(s, w, if IsRunning(s, TaskOf(s, w)) then Downloading else Over);
    case Decide(w, defer) => MovedKeeps(s, w, if defer then Over else Saving);
    case SaveCommits(w) => SaveCommitKeeps(s, w, s');
    case Raise(w) => MovedKeeps(s, w, Over);
    case Complete(w) => CompleteKeeps(s, w, s');
    case Claim(t) => OutsideKeeps(s, t, Running, s');
    case Reject(t) => OutsideKeeps(s, t, Done(Allocator), s');
    case Submit(t) => OutsideKeeps(s, t, ToDo, s');
  }

  lemma ResumedKeepsPool(s: State, s': State)
    requires Invariant(s) && s' == s.(pool := s.pool.(q := Resumed(s.pool.q)))
    ensures Invariant(s')
  {
    ResumedKeeps(s.pool.q);
  }

  lemma {:induction false} RunKeeps(s: State, steps: seq<Step>, s': State)
    requires Invariant(s) && Run(s, steps) == Some(s')
    ensures Invariant(s')
    decreases |steps|
  {
    hide Invariant, Next;
    if steps != [] {
      var middle := Next(s, steps[0]).value;
      StepKeeps(s, steps[0], middle);
      RunKeeps(middle, steps[1..], s');
    }
  }

  /** A started daemon with an empty queue over any task table. */
  function Started(status: map<TaskId, Status>, maxsize: int): State {
    State(Q.Empty(maxsize), map[], status, {}, [], [])
  }

  lemma Reached(status: map<TaskId, Status>, maxsize: int, steps: seq<Step>, s: State)
    requires Run(Started(status, maxsize), steps) == Some(s)
    ensures Invariant(s)
  {
    assert Invariant(Started(status, maxsize));
    RunKeeps(Started(status, maxsize), steps, s);
  }

  /** In any run with any number of workers and stale messages, consume_task saves each task as DONE at most once. */
  lemma FinalisedAtMostOnce(status: map<TaskId, Status>, maxsize: int, steps: seq<Step>, s: State)
    requires Run(Started(status, maxsize), steps) == Some(s)
    ensures forall i, j :: 0 <= i < j < |s.finalised| ==> s.finalised[i] != s.finalised[j]
    ensures forall t :: t in s.finalised ==> t in s.status && s.status[t].Done?
  {
    Reached(status, maxsize, steps, s);
  }

  lemma YieldsUnconsumed(s: State, t: TaskId)
    requires Next(s, Offer(t)).Some?
    ensures forall w :: w in s.at && w in s.pool.held && TaskOf(s, w) == t ==> !InConsume(s.at[w])
  {
  }

  lemma ConsumedIsPending(s: State, t: TaskId)
    requires Invariant(s) && BeingConsumed(s, t)
    ensures Offered(s.pool.q, Message(t, ())) == s.pool.q
  {
    hide ReadStays, OnceEach, QueueOk;
  }

  /** What the producer yields is not being consumed; and were it to yield a task that is, the queue would drop it. */
  lemma ConsumingTasksAreKnown(status: map<TaskId, Status>, maxsize: int, steps: seq<Step>, s: State, t: TaskId)
    requires Run(Started(status, maxsize), steps) == Some(s)
    ensures Next(s, Offer(t)).Some? ==>
              forall w :: w in s.at && w in s.pool.held && TaskOf(s, w) == t ==> !InConsume(s.at[w])
    ensures BeingConsumed(s, t) ==> Offered(s.pool.q, Message(t, ())) == s.pool.q
  {
    Reached(status, maxsize, steps, s);
    hide Run, Next;
    if Next(s, Offer(t)).Some? {
      YieldsUnconsumed(s, t);
    }
    if BeingConsumed(s, t) {
      ConsumedIsPending(s, t);
    }
  }

  // ---- terminal saves by both paths ----

  /** No task is saved as DONE twice, by whichever path. */
  ghost predicate TerminalOnce(finalised: seq<TaskId>, abandoned: seq<TaskId>) {
    && (forall i, j :: 0 <= i < j < |finalised| ==> finalised[i] != finalised[j])
    && (forall i, j :: 0 <= i < j < |abandoned| ==> abandoned[i] != abandoned[j])
    && (forall t :: t in abandoned ==> t !in finalised)
  }

  /** The machine-gone path is taken although the task is no longer RUNNING. */
  ghost predicate TakesStale(s: State, step: Step) {
    step.FindMachineGone? && IsAt(s, step.w, Dispatching) && !IsRunning(s, TaskOf(s, step.w))
  }

  /** The run never takes the machine-gone path for a task that is no longer RUNNING: what a re-read would ensure. */
  ghost predicate Fresh(s: State, steps: seq<Step>)
    decreases |steps|
  {
    steps == [] ||
    (!TakesStale(s, steps[0]) && (Next(s, steps[0]).Some? ==> Fresh(Next(s, steps[0]).value, steps[1..])))
  }

  ghost predicate AbandonedDone(s: State) {
    forall t :: t in s.abandoned ==> t in s.status && s.status[t].Done?
  }

  /** In fresh runs the worker about to abandon works on a task that is still RUNNING. */
  ghost predicate AbandonsRunning(s: State) {
    forall w :: w in s.at && s.at[w].Abandoning? ==> w in s.pool.held && IsRunning(s, TaskOf(s, w))
  }

  ghost predicate FreshInvariant(s: State) {
    AbandonsRunning(s) && AbandonedDone(s) && TerminalOnce(s.finalised, s.abandoned)
  }

  /** A task anywhere in the pipeline is RUNNING or has been saved as DONE through it. */
  ghost predicate Known(s: State, t: TaskId) {
    t in s.status && (s.status[t].Running? || t in s.finalised || t in s.abandoned)
  }

  /** Listed, waiting to be put, queued or held by a worker. */
  ghost predicate InPipeline(s: State, t: TaskId) {
    || t in s.listed
    || (s.pool.q.waiting.Some? && s.pool.q.waiting.value.id == t)
    || Queued(s.pool.q, t)
    || (exists w :: w in s.pool.held && TaskOf(s, w) == t)
  }

  ghost predicate AllKnown(s: State) {
    AbandonedDone(s) && forall t :: InPipeline(s, t) ==> Known(s, t)
  }

  lemma NotToDo(s: State, t: TaskId)
    requires OnceEach(s.finalised, s.status) && AbandonedDone(s) && Known(s, t)
    ensures !s.status[t].ToDo?
  {
    if t in s.finalised {
      var i :| 0 <= i < |s.finalised| && s.finalised[i] == t;
    }
  }

  /** Tasks stay known: they leave RUNNING only through the pipeline. */
  lemma StatusKeepsKnown(s: State, step: Step, s': State, t: TaskId)
    requires OnceEach(s.finalised, s.status) && AbandonedDone(s) && Next(s, step) == Some(s') && Known(s, t)
    ensures Known(s', t)
  {
    hide Offered, Resumed, Taken, Finished, OnceEach;
    NotToDo(s, t);
    match step
    case AbandonCommits(w) => assert t == TaskOf(s, w) ==> s'.abandoned[|s.abandoned|] == t;
    case SaveCommits(w) => assert t == TaskOf(s, w) ==> s'.finalised[|s.finalised|] == t;
    case _ =>
  }

  lemma AbandonedStayDone(s: State, step: Step, s': State)
    requires AbandonedDone(s) && Next(s, step) == Some(s')
    ensures AbandonedDone(s')
  {
    hide Offered, Resumed, Taken, Finished;
    match step
    case _ =>
  }

  lemma QueueStep(s: State, step: Step, s': State, t: TaskId)
    requires Next(s, step) == Some(s') && InPipeline(s', t)
    requires step.Offer? || step.ResumeOffer? || step.Take? || step.Complete?
    ensures InPipeline(s, t)
  {
    match step
    case Offer(u) =>
      if Queued(s'.pool.q, t) {
        var k :| 0 <= k < |s'.pool.q.queue| && s'.pool.q.queue[k].id == t;
        assert k < |s.pool.q.queue| ==> s.pool.q.queue[k].id == t;
      }
    case ResumeOffer =>
      if Queued(s'.pool.q, t) {
        var k :| 0 <= k < |s'.pool.q.queue| && s'.pool.q.queue[k].id == t;
        assert k < |s.pool.q.queue| ==> s.pool.q.queue[k].id == t;
      }
    case Take(w) =>
      if Queued(s'.pool.q, t) {
        var k :| 0 <= k < |s'.pool.q.queue| && s'.pool.q.queue[k].id == t;
        assert s.pool.q.queue[k + 1].id == t;
      } else {
        assert s.pool.q.queue[0].id == s'.pool.held[w].id;
      }
    case Complete(w) =>
      assert forall id :: Queued(s'.pool.q, id) ==> Queued(s.pool.q, id);
  }

  /** Only a listing brings a task into the pipeline, and it lists RUNNING tasks. */
  lemma PipelineStep(s: State, step: Step, s': State, t: TaskId)
    requires Next(s, step) == Some(s') && InPipeline(s', t)
    ensures InPipeline(s, t) || (step.List? && IsRunning(s, t))
  {
    if step.Offer? || step.ResumeOffer? || step.Take? || step.Complete? {
      QueueStep(s, step, s', t);
    } else {
      hide Queued, Offered, Resumed, Taken, Finished;
      assert s'.pool.q == s.pool.q && s'.pool.held == s.pool.held;
    }
  }

  lemma KnownStep(s: State, step: Step, s': State)
    requires OnceEach(s.finalised, s.status) && AllKnown(s) && Next(s, step) == Some(s')
    ensures AllKnown(s')
  {
    AbandonedStayDone(s, step, s');
    forall t | InPipeline(s', t) ensures Known(s', t) {
      PipelineStep(s, step, s', t);
      StatusKeepsKnown(s, step, s', t);
    }
  }

  lemma {:induction false} KnownRun(s: State, steps: seq<Step>, s': State)
    requires Invariant(s) && AllKnown(s) && Run(s, steps) == Some(s')
    ensures AllKnown(s')
    decreases |steps|
  {
    hide Next, AllKnown;
    if steps != [] {
      var middle := Next(s, steps[0]).value;
      KnownStep(s, steps[0], middle);
      StepKeeps(s, steps[0], middle);
      KnownRun(middle, steps[1..], s');
    }
  }

  // ---- fresh runs ----

  lemma SaveAbandonsRunning(s: State, w: WorkerId, writer: Writer, s': State)
    requires Invariant(s) && AbandonsRunning(s) && w in s.at
    requires s'.pool == s.pool && s'.at == s.at[w := Over] && s'.status == s.status[TaskOf(s, w) := Done(writer)]
    ensures AbandonsRunning(s')
  {
    forall v | v in s'.at && s'.at[v].Abandoning? ensures v in s'.pool.held && IsRunning(s', TaskOf(s', v)) {
      assert v != w && s.pool.held[v].id != s.pool.held[w].id;
    }
  }

  lemma FreshAbandon(s: State, w: WorkerId, s': State)
    requires Invariant(s) && FreshInvariant(s) && Next(s, AbandonCommits(w)) == Some(s')
    ensures FreshInvariant(s')
  {
    SaveAbandonsRunning(s, w, MachineGone, s');
    hide PoolOk, ReadStays;
    var t := TaskOf(s, w);
    assert IsRunning(s, t) && t !in s.abandoned;
    assert t !in s.finalised by {
      if i :| 0 <= i < |s.finalised| && s.finalised[i] == t {
      }
    }
  }

  lemma FreshSave(s: State, w: WorkerId, s': State)
    requires Invariant(s) && FreshInvariant(s) && Next(s, SaveCommits(w)) == Some(s')
    ensures FreshInvariant(s')
  {
    SaveAbandonsRunning(s, w, Consumer, s');
    SaveCommitKeeps(s, w, s');
    assert IsRunning(s, TaskOf(s, w));
    hide PoolOk, ReadStays;
    assert forall t :: t in s.abandoned ==> t != TaskOf(s, w);
  }

  /** Steps that leave the saves alone: a worker starts to abandon only a RUNNING task. */
  lemma FreshOther(s: State, step: Step, s': State)
    requires Invariant(s) && FreshInvariant(s) && Next(s, step) == Some(s') && !TakesStale(s, step)
    requires !step.AbandonCommits? && !step.SaveCommits?
    ensures FreshInvariant(s')
  {
    AbandonedStayDone(s, step, s');
    AbandonsStep(s, step, s');
    hide PoolOk, ReadStays, OnceEach, Offered, Resumed, Taken, Finished;
  }

  lemma AbandonsStep(s: State, step: Step, s': State)
    requires Invariant(s) && AbandonsRunning(s) && Next(s, step) == Some(s') && !TakesStale(s, step)
    requires !step.AbandonCommits? && !step.SaveCommits?
    ensures AbandonsRunning(s')
  {
    hide PoolOk, ReadStays, OnceEach, Offered, Resumed, Finished;
    forall v | v in s'.at && s'.at[v].Abandoning? ensures v in s'.pool.held && IsRunning(s', TaskOf(s', v)) {
      if !step.FindMachineGone? || step.w != v {
        assert v in s.at && s.at[v].Abandoning? && s'.pool.held[v] == s.pool.held[v];
      }
    }
  }

  lemma FreshStep(s: State, step: Step, s': State)
    requires Invariant(s) && FreshInvariant(s) && Next(s, step) == Some(s') && !TakesStale(s, step)
    ensures FreshInvariant(s')
  {
    hide Invariant, FreshInvariant, Next, TakesStale;
    match step
    case AbandonCommits(w) => FreshAbandon(s, w, s');
    case SaveCommits(w) => FreshSave(s, w, s');
    case _ => FreshOther(s, step, s');
  }

  lemma {:induction false} FreshRun(s: State, steps: seq<Step>, s': State)
    requires Invariant(s) && FreshInvariant(s) && Run(s, steps) == Some(s') && Fresh(s, steps)
    ensures FreshInvariant(s')
    decreases |steps|
  {
    hide Invariant, FreshInvariant, Next, TakesStale;
    if steps != [] {
      var middle := Next(s, steps[0]).value;
      FreshStep(s, steps[0], middle);
      StepKeeps(s, steps[0], middle);
      FreshRun(middle, steps[1..], s');
    }
  }

  lemma RunCons(s: State, step: Step, middle: State, rest: seq<Step>, s': State)
    requires Next(s, step) == Some(middle) && Run(middle, rest) == Some(s')
    ensures Run(s, [step] + rest) == Some(s')
    ensures !TakesStale(s, step) && Fresh(middle, rest) ==> Fresh(s, [step] + rest)
  {
    assert ([step] + rest)[1..] == rest;
  }

  /** Abandoning a task that was saved through the pipeline saves it a second time. */
  lemma StaleAbandonDuplicates(s: State, w: WorkerId) returns (s': State)
    requires IsAt(s, w, Abandoning) && Known(s, TaskOf(s, w)) && !IsRunning(s, TaskOf(s, w))
    ensures Fresh(s, [AbandonCommits(w)]) && Run(s, [AbandonCommits(w)]) == Some(s')
    ensures !TerminalOnce(s'.finalised, s'.abandoned)
    ensures TaskOf(s, w) in s'.status && s'.status[TaskOf(s, w)] == Done(MachineGone)
  {
    var t := TaskOf(s, w);
    s' := Next(s, AbandonCommits(w)).value;
    assert s'.abandoned[|s.abandoned|] == t;
    if t in s.abandoned {
      var i :| 0 <= i < |s.abandoned| && s.abandoned[i] == t;
      assert s'.abandoned[i] == t;
    }
    assert Run(s', []) == Some(s') && Fresh(s', []);
    RunCons(s, AbandonCommits(w), s', [], s');
    assert [AbandonCommits(w)] + [] == [AbandonCommits(w)];
  }

  lemma TerminalOnceOf(s: State)
    requires FreshInvariant(s)
    ensures TerminalOnce(s.finalised, s.abandoned)
  {
  }

  lemma HeldIsKnown(s: State, w: WorkerId, s1: State)
    requires AllKnown(s) && Next(s, FindMachineGone(w)) == Some(s1)
    ensures IsAt(s1, w, Abandoning) && TaskOf(s1, w) == TaskOf(s, w) && Known(s1, TaskOf(s1, w))
    ensures IsRunning(s1, TaskOf(s1, w)) == IsRunning(s, TaskOf(s, w))
  {
    assert InPipeline(s, TaskOf(s, w));
  }

  /** At most one terminal save per task by either path, as long as the machine-gone path has never been taken for a
      task that was no longer RUNNING; and taking it can lead to a second save exactly when the task is not RUNNING. */
  lemma StaleAbandonIff(status: map<TaskId, Status>, maxsize: int, steps: seq<Step>, s: State, w: WorkerId, s1: State)
    requires Run(Started(status, maxsize), steps) == Some(s) && Fresh(Started(status, maxsize), steps)
    requires Next(s, FindMachineGone(w)) == Some(s1)
    ensures TerminalOnce(s.finalised, s.abandoned)
    ensures (exists rest, s' ::
               Fresh(s1, rest) && Run(s1, rest) == Some(s') && !TerminalOnce(s'.finalised, s'.abandoned))
            <==> !IsRunning(s, TaskOf(s, w))
  {
    var s0 := Started(status, maxsize);
    StartedInvariants(status, maxsize);
    RunKeeps(s0, steps, s);
    FreshRun(s0, steps, s);
    KnownRun(s0, steps, s);
    hide Run, Fresh, Invariant, FreshInvariant, AllKnown, Known, InPipeline, TerminalOnce;
    TerminalOnceOf(s);
    if IsRunning(s, TaskOf(s, w)) {
      FreshStep(s, FindMachineGone(w), s1);
      StepKeeps(s, FindMachineGone(w), s1);
      forall rest, s' | Fresh(s1, rest) && Run(s1, rest) == Some(s') ensures TerminalOnce(s'.finalised, s'.abandoned) {
        FreshRun(s1, rest, s');
        TerminalOnceOf(s');
      }
    } else {
      HeldIsKnown(s, w, s1);
      var s' := StaleAbandonDuplicates(s1, w);
    }
  }

  lemma StartedInvariants(status: map<TaskId, Status>, maxsize: int)
    ensures Invariant(Started(status, maxsize)) && FreshInvariant(Started(status, maxsize))
    ensures AllKnown(Started(status, maxsize))
  {
  }

  // ---- the stale case is reachable ----

  /** Task 0 is being consumed, and the next producer pass has just listed it as RUNNING. */
  const LISTED_TWICE: State := State(
    Pool(Contents([], {0}, 1, 0, None, [Message(0, ())], [Message(0, ())]), map[0 := Message(0, ())]),
    map[0 := Downloading], map[0 := Running], {0}, [], [])

  /** The task has just been handed to consume_task. */
  const CONSUMING: State := LISTED_TWICE.(at := map[0 := Consuming], listed := {})

  /** The task has been consumed before the producer comes to yield it. */
  const STALE: State := State(
    Pool(Contents([], {}, 0, 0, None, [Message(0, ())], [Message(0, ())]), map[]),
    map[], map[0 := Done(Consumer)], {0}, [0], [])

  lemma ReachConsuming(rest: seq<Step>, s': State) returns (steps: seq<Step>)
    requires Run(CONSUMING, rest) == Some(s')
    ensures Run(Started(map[0 := Running], 0), steps) == Some(s')
  {
    var s0 := Started(map[0 := Running], 0);
    var s1 := Next(s0, List({0})).value;
    var s2 := Next(s1, Offer(0)).value;
    var s3 := Next(s2, Take(0)).value;
    var s4 := Next(s3, StartConsume(0)).value;
    assert s4.pool.q.queue == [] && s4.pool.q.donePending == {0} && s4.at == CONSUMING.at && s4 == CONSUMING;
    hide Run, Next;
    RunCons(s3, StartConsume(0), s4, rest, s');
    RunCons(s2, Take(0), s3, [StartConsume(0)] + rest, s');
    steps := [Take(0)] + ([StartConsume(0)] + rest);
    RunCons(s1, Offer(0), s2, steps, s');
    RunCons(s0, List({0}), s1, [Offer(0)] + steps, s');
    steps := [List({0})] + ([Offer(0)] + steps);
  }

  lemma ReachListedTwice(rest: seq<Step>, s': State) returns (steps: seq<Step>)
    requires Run(LISTED_TWICE, rest) == Some(s')
    ensures Run(CONSUMING, steps) == Some(s')
  {
    var s1 := Next(CONSUMING, ReadTask(0)).value;
    var s2 := Next(s1, List({0})).value;
    assert s2.at == LISTED_TWICE.at && s2 == LISTED_TWICE;
    hide Run, Next;
    RunCons(s1, List({0}), s2, rest, s');
    RunCons(CONSUMING, ReadTask(0), s1, [List({0})] + rest, s');
    steps := [ReadTask(0)] + ([List({0})] + rest);
  }

  lemma ReachStale(rest: seq<Step>, s': State) returns (steps: seq<Step>)
    requires Run(STALE, rest) == Some(s')
    ensures Run(LISTED_TWICE, steps) == Some(s')
  {
    var s1 := Next(LISTED_TWICE, Decide(0, false)).value;
    var s2 := Next(s1, SaveCommits(0)).value;
    var s3 := Next(s2, Complete(0)).value;
    assert s3.pool.q.donePending == {} && s3.pool.held == map[] && s3.at == map[] && s3.status == STALE.status;
    assert s3 == STALE;
    hide Run, Next;
    RunCons(s2, Complete(0), s3, rest, s');
    RunCons(s1, SaveCommits(0), s2, [Complete(0)] + rest, s');
    steps := [SaveCommits(0)] + ([Complete(0)] + rest);
    RunCons(LISTED_TWICE, Decide(0, false), s1, steps, s');
    steps := [Decide(0, false)] + steps;
  }

  lemma AbandonStale() returns (steps: seq<Step>, s: State)
    ensures Run(STALE, steps) == Some(s)
    ensures s.finalised == [0] && s.abandoned == [0] && s.status == map[0 := Done(MachineGone)]
  {
    var s1 := Next(STALE, Offer(0)).value;
    var s2 := Next(s1, Take(0)).value;
    var s3 := Next(s2, FindMachineGone(0)).value;
    s := Next(s3, AbandonCommits(0)).value;
    assert Run(s, []) == Some(s);
    hide Run, Next;
    RunCons(s3, AbandonCommits(0), s, [], s);
    RunCons(s2, FindMachineGone(0), s3, [AbandonCommits(0)] + [], s);
    steps := [FindMachineGone(0)] + ([AbandonCommits(0)] + []);
    RunCons(s1, Take(0), s2, steps, s);
    RunCons(STALE, Offer(0), s1, [Take(0)] + steps, s);
    steps := [Offer(0)] + ([Take(0)] + steps);
  }

  /** The machine-gone path saves the listed task without re-reading it: a stale message can turn a task that
      consume_task has completed into an abandoned one. */
  lemma StaleMessageOverwritesResult()
    ensures exists steps, s :: Run(Started(map[0 := Running], 0), steps) == Some(s)
                               && s.finalised == [0] && s.abandoned == [0] && s.status == map[0 := Done(MachineGone)]
  {
    hide Next;
    var last, s := AbandonStale();
    var middle := ReachStale(last, s);
    var first := ReachListedTwice(middle, s);
    var steps := ReachConsuming(first, s);
  }

  // ---- progress ----

  /** A worker can always go on, and may take every path. */
  ghost predicate WorkerGoesOn(s: State, w: WorkerId)
    requires w in s.at && w in s.pool.held
  {
    && Next(s, Raise(w)).Some?
    && match s.at[w]
       case Dispatching =>
         Next(s, SkipMessage(w)).Some? && Next(s, FindMachineGone(w)).Some? && Next(s, StartConsume(w)).Some?
       case Consuming => Next(s, ReadTask(w)).Some?
       case Downloading => forall defer :: Next(s, Decide(w, defer)).Some?
       case Saving => Next(s, SaveCommits(w)).Some?
       case Abandoning => TaskOf(s, w) in s.status ==> Next(s, AbandonCommits(w)).Some?
       case Over => Next(s, Complete(w)).Some?
  }

  function StepsLeft(s: State, w: WorkerId): nat {
    if w !in s.at then 0
    else
      match s.at[w]
      case Dispatching => 5
      case Consuming => 4
      case Downloading => 3
      case Saving | Abandoning => 2
      case Over => 1
  }

  predicate WorksOn(step: Step, w: WorkerId) {
    (step.SkipMessage? || step.FindMachineGone? || step.AbandonCommits? || step.StartConsume? || step.ReadTask?
     || step.Decide? || step.SaveCommits? || step.Complete?) && step.w == w
  }

  lemma WorkerCan(s: State, w: WorkerId)
    requires w in s.at && w in s.pool.held
    ensures WorkerGoesOn(s, w)
  {
  }

  /** The worker can take a message whenever there is one, and gets the oldest. */
  ghost predicate TakesOldest(s: State, w: WorkerId) {
    s.pool.q.queue != [] ==>
      Next(s, Take(w)).Some? && w in Next(s, Take(w)).value.pool.held
      && Next(s, Take(w)).value.pool.held[w] == s.pool.q.queue[0]
  }

  lemma TakingCan(s: State, w: WorkerId)
    requires w !in s.pool.held
    ensures TakesOldest(s, w)
  {
  }

  /** In every run no worker that holds a message is stuck, and a free worker can take the oldest message. */
  lemma PipelineGoesOn(status: map<TaskId, Status>, maxsize: int, steps: seq<Step>, s: State, w: WorkerId)
    requires Run(Started(status, maxsize), steps) == Some(s)
    ensures w in s.at ==> w in s.pool.held && WorkerGoesOn(s, w)
    ensures w !in s.at ==> TakesOldest(s, w)
  {
    hide Run, Next, WorkerGoesOn, TakesOldest;
    Reached(status, maxsize, steps, s);
    HeldIffAt(s, w);
    if w in s.at {
      WorkerCan(s, w);
    } else {
      TakingCan(s, w);
    }
  }

  lemma HeldIffAt(s: State, w: WorkerId)
    requires Invariant(s)
    ensures w in s.at <==> w in s.pool.held
  {
    hide PoolOk, ReadStays, OnceEach;
    assert w in s.at.Keys <==> w in s.pool.held.Keys;
  }

  /** Every step of a worker brings it nearer to the end of its message. */
  lemma WorkerAdvances(s: State, step: Step, s': State, w: WorkerId)
    requires Next(s, step) == Some(s') && WorksOn(step, w)
    ensures StepsLeft(s', w) < StepsLeft(s, w)
  {
  }
}
