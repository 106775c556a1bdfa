/** The deduplicating bounded queue and the workers that drain it
    (application/queue.py, application/orchestrator.py). */
module UniqueQueues {
  import opened Prelude

  /** Equality and hash of a message consult its id only, so sets and membership tests below are over ids. */
  datatype Message<I, P> = Message(id: I, payload: P)

  /** `waiting` is the message whose put holds the put lock and waits for room; `accepted` and `delivered` record
      history. */
  datatype Contents<I, P> = Contents(
    queue: seq<Message<I, P>>,
    donePending: set<I>,
    unfinished: int,
    maxsize: int,
    waiting: Option<Message<I, P>>,
    accepted: seq<Message<I, P>>,
    delivered: seq<Message<I, P>>)

  ghost predicate Queued<I, P>(q: Contents<I, P>, id: I) {
    exists k :: 0 <= k < |q.queue| && q.queue[k].id == id
  }

  predicate Full<I, P>(q: Contents<I, P>) {
    0 < q.maxsize <= |q.queue|
  }

  function Appended<I, P>(q: Contents<I, P>, m: Message<I, P>): Contents<I, P> {
    q.(queue := q.queue + [m], unfinished := q.unfinished + 1, accepted := q.accepted + [m])
  }

  /** put from taking the lock to its first suspension. */
  ghost function Offered<I, P>(q: Contents<I, P>, m: Message<I, P>): Contents<I, P> {
    if Queued(q, m.id) || m.id in q.donePending then q
    else if Full(q) then q.(waiting := Some(m))
    else Appended(q, m)
  }

  /** A waiting put wakes up and looks again, or is cancelled. */
  function Resumed<I, P>(q: Contents<I, P>): Contents<I, P> {
    if q.waiting.None? || Full(q) then q else Appended(q, q.waiting.value).(waiting := None)
  }

  function Taken<I, P>(q: Contents<I, P>): Contents<I, P>
    requires q.queue != []
  {
    q.(queue := q.queue[1..], donePending := q.donePending + {q.queue[0].id}, delivered := q.delivered + [q.queue[0]])
  }

  function Finished<I, P>(q: Contents<I, P>, id: I): Contents<I, P> {
    q.(donePending := q.donePending - {id}, unfinished := q.unfinished - 1)
  }

  ghost predicate QueueOk<I, P>(q: Contents<I, P>) {
    && (forall j, k :: 0 <= j < k < |q.queue| ==> q.queue[j].id != q.queue[k].id)
    && (forall k :: 0 <= k < |q.queue| ==> q.queue[k].id !in q.donePending)
    && q.unfinished == |q.queue| + |q.donePending|
    && (q.maxsize > 0 ==> |q.queue| <= q.maxsize)
    && (q.waiting.Some? ==> !Queued(q, q.waiting.value.id) && q.waiting.value.id !in q.donePending)
    && q.accepted == q.delivered + q.queue
  }

  /** A waiting put keeps its verdict: whatever gets and completions happen meanwhile, its id stays neither queued nor
      in progress, because nobody else can put while it holds the lock. */
  lemma OfferedKeeps<I, P>(q: Contents<I, P>, m: Message<I, P>)
    requires QueueOk(q) && q.waiting.None?
    ensures QueueOk(Offered(q, m))
  {
  }

  lemma ResumedKeeps<I, P>(q: Contents<I, P>)
    requires QueueOk(q)
    ensures QueueOk(Resumed(q))
  {
    if q.waiting.Some? && !Full(q) {
      assert forall k :: 0 <= k < |q.queue| ==> Queued(q, q.queue[k].id);
    }
  }

  lemma TakenKeeps<I, P>(q: Contents<I, P>)
    requires QueueOk(q) && q.queue != []
    ensures QueueOk(Taken(q))
    ensures q.queue[0].id !in q.donePending
  {
    var t := Taken(q);
    assert q.accepted == t.delivered + t.queue;
    forall id | Queued(t, id) ensures Queued(q, id) {
      var k :| 0 <= k < |t.queue| && t.queue[k].id == id;
      assert q.queue[k + 1].id == id;
    }
    assert Queued(q, q.queue[0].id);
  }

  lemma FinishedKeeps<I, P>(q: Contents<I, P>, id: I)
    requires QueueOk(q) && id in q.donePending
    ensures QueueOk(Finished(q, id))
  {
    assert forall other :: Queued(Finished(q, id), other) <==> Queued(q, other);
  }

  class UniqueQueue<I(==), P> {
    var queue: seq<Message<I, P>>
    var donePending: set<I>
    var unfinished: int
    const maxsize: int
    var waiting: Option<Message<I, P>>
    ghost var accepted: seq<Message<I, P>>
    ghost var delivered: seq<Message<I, P>>

    ghost function Value(): Contents<I, P>
      reads this
    {
      Contents(queue, donePending, unfinished, maxsize, waiting, accepted, delivered)
    }

    constructor (maxsize: int)
      ensures Value() == Contents([], {}, 0, maxsize, None, [], []) && QueueOk(Value())
    {
      queue, donePending, unfinished, this.maxsize, waiting := [], {}, 0, maxsize, None;
      accepted, delivered := [], [];
    }

    method Contains(id: I) returns (found: bool)
      ensures found <==> Queued(Value(), id)
    {
      for k := 0 to |queue|
        invariant forall j :: 0 <= j < k ==> queue[j].id != id
      {
        if queue[k].id == id {
          assert Value().queue[k].id == id;
          return true;
        }
      }
      found := false;
    }

    /** The put lock is free: no other put is waiting. */
    method Put(m: Message<I, P>)
      requires QueueOk(Value()) && waiting.None?
      modifies this
      ensures Value() == Offered(old(Value()), m) && QueueOk(Value())
    {
      OfferedKeeps(Value(), m);
      var queued := Contains(m.id);
      if queued || m.id in donePending {
        return;
      }
      if 0 < maxsize <= |queue| {
        waiting := Some(m);
        return;
      }
      queue := queue + [m];
      unfinished := unfinished + 1;
      accepted := accepted + [m];
    }

    method ResumePut()
      requires QueueOk(Value())
      modifies this
      ensures Value() == Resumed(old(Value())) && QueueOk(Value())
    {
      ResumedKeeps(Value());
      if waiting.Some? && !(0 < maxsize <= |queue|) {
        queue := queue + [waiting.value];
        unfinished := unfinished + 1;
        accepted := accepted + [waiting.value];
        waiting := None;
      }
    }

    /** None when the caller has to wait for a message. */
    method Get() returns (r: Option<Message<I, P>>)
      requires QueueOk(Value())
      modifies this
      ensures QueueOk(Value())
      ensures old(queue) == [] ==> r == None && Value() == old(Value())
      ensures old(queue) != [] ==> r == Some(old(queue)[0]) && Value() == Taken(old(Value()))
    {
      if queue == [] {
        return None;
      }
      TakenKeeps(Value());
      r := Some(queue[0]);
      donePending := donePending + {queue[0].id};
      delivered := delivered + [queue[0]];
      queue := queue[1..];
    }

    /** False stands for the KeyError of removing an absent message. */
    method ItemDone(id: I) returns (ok: bool)
      requires QueueOk(Value())
      modifies this
      ensures ok <==> id in old(donePending)
      ensures Value() == if ok then Finished(old(Value()), id) else old(Value())
      ensures QueueOk(Value())
    {
      ok := id in donePending;
      if ok {
        FinishedKeeps(Value(), id);
        donePending := donePending - {id};
        unfinished := unfinished - 1;
      }
    }
  }

  // ---- workers ----

  type WorkerId = nat

  datatype Pool<I, P> = Pool(q: Contents<I, P>, held: map<WorkerId, Message<I, P>>)

  datatype Step<I, P> =
    | Put(m: Message<I, P>)
    | ResumePut
    | CancelPut
    | Get(worker: WorkerId)
    | ItemDone(done: WorkerId)

  ghost function Next<I, P>(s: Pool<I, P>, step: Step<I, P>): Option<Pool<I, P>> {
    match step
    case Put(m) => if s.q.waiting.Some? then None else Some(s.(q := Offered(s.q, m)))
    case ResumePut => Some(s.(q := Resumed(s.q)))
    case CancelPut => Some(s.(q := s.q.(waiting := None)))
    case Get(worker) =>
      if worker in s.held || s.q.queue == [] then None
      else Some(Pool(Taken(s.q), s.held[worker := s.q.queue[0]]))
    case ItemDone(worker) =>
      if worker !in s.held then None
      else Some(Pool(Finished(s.q, s.held[worker].id), s.held - {worker}))
  }

  ghost function Run<I, P>(s: Pool<I, P>, steps: seq<Step<I, P>>): Option<Pool<I, P>>
    decreases |steps|
  {
    if steps == [] then Some(s) else
      match Next(s, steps[0])
      case None => None
      case Some(s') => Run(s', steps[1..])
  }

  /** The ids in progress are those the workers hold, each by one worker. */
  ghost predicate PoolOk<I, P>(s: Pool<I, P>) {
    && QueueOk(s.q)
    && (forall v, w :: v in s.held && w in s.held && v != w ==> s.held[v].id != s.held[w].id)
    && (forall w :: w in s.held ==> s.held[w].id in s.q.donePending)
    && (forall id :: id in s.q.donePending ==> exists w :: w in s.held && s.held[w].id == id)
  }

  lemma GetKeeps<I, P>(s: Pool<I, P>, worker: WorkerId)
    requires PoolOk(s) && worker !in s.held && s.q.queue != []
    ensures PoolOk(Pool(Taken(s.q), s.held[worker := s.q.queue[0]]))
  {
    var s' := Pool(Taken(s.q), s.held[worker := s.q.queue[0]]);
    TakenKeeps(s.q);
    hide QueueOk;
    forall id | id in s'.q.donePending ensures exists w :: w in s'.held && s'.held[w].id == id {
      if id == s.q.queue[0].id {
        assert s'.held[worker].id == id;
      } else {
        var w :| w in s.held && s.held[w].id == id;
        assert s'.held[w].id == id;
      }
    }
  }

  lemma ItemDoneKeeps<I, P>(s: Pool<I, P>, worker: WorkerId)
    requires PoolOk(s) && worker in s.held
    ensures PoolOk(Pool(Finished(s.q, s.held[worker].id), s.held - {worker}))
  {
    var s' := Pool(Finished(s.q, s.held[worker].id), s.held - {worker});
    FinishedKeeps(s.q, s.held[worker].id);
    hide QueueOk;
    forall id | id in s'.q.donePending ensures exists w :: w in s'.held && s'.held[w].id == id {
      var w :| w in s.held && s.held[w].id == id;
      assert w != worker && s'.held[w].id == id;
    }
  }

  lemma StepKeeps<I, P>(s: Pool<I, P>, step: Step<I, P>, s': Pool<I, P>)
    requires PoolOk(s) && Next(s, step) == Some(s')
    ensures PoolOk(s')
  {
    match step
    case Put(m) => OfferedKeeps(s.q, m);
    case ResumePut => ResumedKeeps(s.q);
    case CancelPut =>
    case Get(worker) => GetKeeps(s, worker);
    case ItemDone(worker) => ItemDoneKeeps(s, worker);
  }

  lemma {:induction false} RunKeeps<I, P>(s: Pool<I, P>, steps: seq<Step<I, P>>, s': Pool<I, P>)
    requires PoolOk(s) && Run(s, steps) == Some(s')
    ensures PoolOk(s')
    decreases |steps|
  {
    if steps != [] {
      var middle := Next(s, steps[0]).value;
      StepKeeps(s, steps[0], middle);
      RunKeeps(middle, steps[1..], s');
    }
  }

  function Empty<I, P>(maxsize: int): Pool<I, P> {
    Pool(Contents([], {}, 0, maxsize, None, [], []), map[])
  }

  /** In every run: queued ids are distinct and none is in progress, the counter and the bound hold, delivery is FIFO in
      order of acceptance, no two workers hold the same id, and item_done finds what it removes. */
  lemma QueueTheorem<I, P>(maxsize: int, steps: seq<Step<I, P>>, s: Pool<I, P>, v: WorkerId, w: WorkerId)
    requires Run(Empty(maxsize), steps) == Some(s)
    ensures forall j, k :: 0 <= j < k < |s.q.queue| ==> s.q.queue[j].id != s.q.queue[k].id
    ensures forall k :: 0 <= k < |s.q.queue| ==> s.q.queue[k].id !in s.q.donePending
    ensures s.q.unfinished == |s.q.queue| + |s.q.donePending|
    ensures maxsize > 0 ==> |s.q.queue| <= maxsize
    ensures s.q.accepted == s.q.delivered + s.q.queue
    ensures v in s.held && w in s.held && v != w ==> s.held[v].id != s.held[w].id
    ensures v in s.held ==> s.held[v].id in s.q.donePending && Next(s, ItemDone(v)).Some?
  {
    assert PoolOk(Empty<I, P>(maxsize));
    RunKeeps(Empty(maxsize), steps, s);
    RunKeepsSize(Empty(maxsize), steps, s);
  }

  /** The message waits for room, or has been accepted since acceptance number n. */
  ghost predicate OnItsWay<I, P>(q: Contents<I, P>, m: Message<I, P>, n: nat) {
    q.waiting == Some(m) || exists k :: n <= k < |q.accepted| && q.accepted[k] == m
  }

  lemma OnItsWayStep<I, P>(s: Pool<I, P>, step: Step<I, P>, s': Pool<I, P>, m: Message<I, P>, n: nat)
    requires Next(s, step) == Some(s') && !step.CancelPut? && OnItsWay(s.q, m, n) && n <= |s.q.accepted|
    ensures OnItsWay(s'.q, m, n) && n <= |s'.q.accepted|
  {
    if k :| n <= k < |s.q.accepted| && s.q.accepted[k] == m {
      assert s'.q.accepted[k] == m;
    } else if s'.q.waiting != Some(m) {
      assert s'.q.accepted[|s.q.accepted|] == m;
    }
  }

  lemma {:induction false} OnItsWayRun<I, P>(s: Pool<I, P>, steps: seq<Step<I, P>>, s': Pool<I, P>, m: Message<I, P>,
                                             n: nat)
    requires Run(s, steps) == Some(s') && forall i :: 0 <= i < |steps| ==> !steps[i].CancelPut?
    requires OnItsWay(s.q, m, n) && n <= |s.q.accepted|
    ensures OnItsWay(s'.q, m, n)
    decreases |steps|
  {
    if steps != [] {
      var middle := Next(s, steps[0]).value;
      OnItsWayStep(s, steps[0], middle, m, n);
      OnItsWayRun(middle, steps[1..], s', m, n);
    }
  }

  /** In every run: a put of a known id changes nothing; a new id is accepted at once or, exactly when the queue is
      full, waits; and as long as the put is not cancelled the message is never dropped. */
  lemma OfferedIsNeverLost<I, P>(maxsize: int, steps: seq<Step<I, P>>, s: Pool<I, P>, m: Message<I, P>, s1: Pool<I, P>,
                                 after: seq<Step<I, P>>, s': Pool<I, P>)
    requires Run(Empty(maxsize), steps) == Some(s) && Next(s, Put(m)) == Some(s1)
    requires Run(s1, after) == Some(s') && forall i :: 0 <= i < |after| ==> !after[i].CancelPut?
    ensures var known := m.id in s.q.donePending || exists k :: 0 <= k < |s.q.queue| && s.q.queue[k].id == m.id;
            if known then s1 == s
            else
              && (s1.q.waiting == Some(m) <==> maxsize > 0 && |s.q.queue| == maxsize)
              && (s1.q.waiting.None? ==> s1.q.queue == s.q.queue + [m])
              && OnItsWay(s'.q, m, |s.q.accepted|)
  {
    assert PoolOk(Empty<I, P>(maxsize));
    RunKeeps(Empty(maxsize), steps, s);
    RunKeepsSize(Empty(maxsize), steps, s);
    if Queued(s.q, m.id) || m.id in s.q.donePending {
    } else {
      assert s1.q.waiting.None? ==> s1.q.accepted[|s.q.accepted|] == m;
      OnItsWayRun(s1, after, s', m, |s.q.accepted|);
    }
  }

  /** In every run: the first get makes room, and the put that waited then appends its message behind all others. */
  lemma GetLetsWaitingPutIn<I, P>(maxsize: int, steps: seq<Step<I, P>>, s: Pool<I, P>, w: WorkerId, s1: Pool<I, P>)
    requires Run(Empty(maxsize), steps) == Some(s) && s.q.waiting.Some? && Next(s, Get(w)) == Some(s1)
    ensures var s2 := Next(s1, ResumePut).value;
            s2.q.waiting.None? && s2.q.queue == s.q.queue[1..] + [s.q.waiting.value]
  {
    assert PoolOk(Empty<I, P>(maxsize));
    RunKeeps(Empty(maxsize), steps, s);
  }

  lemma {:induction false} RunKeepsSize<I, P>(s: Pool<I, P>, steps: seq<Step<I, P>>, s': Pool<I, P>)
    requires Run(s, steps) == Some(s')
    ensures s'.q.maxsize == s.q.maxsize
    decreases |steps|
  {
    if steps != [] {
      RunKeepsSize(Next(s, steps[0]).value, steps[1..], s');
    }
  }
}
