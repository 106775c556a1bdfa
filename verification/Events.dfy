/** Domain events: collected by the unit of work, dispatched by the message bus after COMMIT
    (infra/persistence/postgres_uow.py, infra/persistence/postgres.py, application/message_bus.py). */
module Events {
  import opened Prelude

  type EventType = nat
  type HandlerId = nat

  datatype Event = Event(kind: EventType, task: TaskId)

  datatype Invocation = Invocation(handler: HandlerId, event: Event)

  type Registry = map<EventType, seq<HandlerId>>

  function HandlersOf(handlers: Registry, kind: EventType): seq<HandlerId> {
    if kind in handlers then handlers[kind] else []
  }

  function ForEvent(hs: seq<HandlerId>, event: Event): (calls: seq<Invocation>)
    ensures |calls| == |hs| && forall i :: 0 <= i < |hs| ==> calls[i] == Invocation(hs[i], event)
  {
    seq(|hs|, i requires 0 <= i < |hs| => Invocation(hs[i], event))
  }

  /** Every handler of every event, in event order and, per event, in registration order. */
  function Invocations(handlers: Registry, events: seq<Event>): seq<Invocation> {
    if events == [] then []
    else Invocations(handlers, events[..|events| - 1])
         + ForEvent(HandlersOf(handlers, events[|events| - 1].kind), events[|events| - 1])
  }

  lemma {:induction false} ForEventCounts(hs: seq<HandlerId>, event: Event, h: HandlerId, e: Event)
    ensures multiset(ForEvent(hs, event))[Invocation(h, e)] == if e == event then multiset(hs)[h] else 0
  {
    if hs == [] {
      assert ForEvent(hs, event) == [];
    } else {
      var front, last := hs[..|hs| - 1], hs[|hs| - 1];
      ForEventCounts(front, event, h, e);
      assert hs == front + [last];
      assert ForEvent(hs, event) == ForEvent(front, event) + [Invocation(last, event)];
    }
  }

  lemma InvocationsStep(handlers: Registry, front: seq<Event>, last: Event)
    ensures Invocations(handlers, front + [last])
            == Invocations(handlers, front) + ForEvent(HandlersOf(handlers, last.kind), last)
  {
    assert (front + [last])[..|front|] == front;
  }

  lemma CountConcat<T>(a: seq<T>, b: seq<T>, x: T)
    ensures multiset(a + b)[x] == multiset(a)[x] + multiset(b)[x]
  {
  }

  /** A handler is called for an event as often as the event occurs times as often as it is registered for its type. */
  lemma {:induction false} InvocationsCount(handlers: Registry, events: seq<Event>, h: HandlerId, e: Event)
    ensures multiset(Invocations(handlers, events))[Invocation(h, e)]
            == multiset(events)[e] * multiset(HandlersOf(handlers, e.kind))[h]
  {
    if events != [] {
      hide Invocations, ForEvent;
      var front, last := events[..|events| - 1], events[|events| - 1];
      assert events == front + [last];
      InvocationsCount(handlers, front, h, e);
      ForEventCounts(HandlersOf(handlers, last.kind), last, h, e);
      InvocationsStep(handlers, front, last);
      CountConcat(Invocations(handlers, front), ForEvent(HandlersOf(handlers, last.kind), last), Invocation(h, e));
      CountConcat(front, [last], e);
      TimesNext(multiset(front)[e], multiset(HandlersOf(handlers, e.kind))[h]);
    }
  }

  lemma TimesNext(a: nat, n: nat)
    ensures (a + 1) * n == a * n + n
  {
  }

  /** The calls for an event start behind those for all earlier events and follow the order of registration. */
  lemma {:induction false} OrderOfCalls(handlers: Registry, events: seq<Event>, i: nat, h: nat)
    requires i < |events| && h < |HandlersOf(handlers, events[i].kind)|
    ensures var before, calls := |Invocations(handlers, events[..i])|, Invocations(handlers, events);
            && before + |HandlersOf(handlers, events[i].kind)| <= |calls|
            && calls[before + h] == Invocation(HandlersOf(handlers, events[i].kind)[h], events[i])
    decreases |events|
  {
    var front, last := events[..|events| - 1], events[|events| - 1];
    assert events == front + [last];
    InvocationsStep(handlers, front, last);
    hide Invocations;
    if i == |events| - 1 {
      assert events[..i] == front;
    } else {
      OrderOfCalls(handlers, front, i, h);
      assert front[..i] == events[..i];
    }
  }

  class MessageBus {
    var handlers: Registry
    ghost var invoked: seq<Invocation>

    constructor ()
      ensures handlers == map[] && invoked == []
    {
      handlers, invoked := map[], [];
    }

    method Register(kind: EventType, handler: HandlerId)
      modifies this`handlers
      ensures handlers == old(handlers)[kind := HandlersOf(old(handlers), kind) + [handler]]
    {
      handlers := handlers[kind := HandlersOf(handlers, kind) + [handler]];
    }

    /** `raises` says which invocations raise: each is logged and the next handler is called all the same. */
    method CallHandlers(hs: seq<HandlerId>, event: Event, raises: Invocation -> bool) returns (failures: nat)
      modifies this`invoked
      ensures invoked == old(invoked) + ForEvent(hs, event)
      ensures failures > 0 <==> exists i :: 0 <= i < |hs| && raises(Invocation(hs[i], event))
    {
      failures := 0;
      for j := 0 to |hs|
        invariant invoked == old(invoked) + ForEvent(hs, event)[..j]
        invariant failures > 0 <==> exists i :: 0 <= i < j && raises(Invocation(hs[i], event))
      {
        invoked := invoked + [Invocation(hs[j], event)];
        assert ForEvent(hs, event)[..j + 1] == ForEvent(hs, event)[..j] + [Invocation(hs[j], event)];
        if raises(Invocation(hs[j], event)) {
          failures := failures + 1;
        }
      }
      assert ForEvent(hs, event)[..|hs|] == ForEvent(hs, event);
    }

    method Dispatch(events: seq<Event>, raises: Invocation -> bool)
      modifies this`invoked
      ensures invoked == old(invoked) + Invocations(handlers, events)
    {
      for i := 0 to |events|
        invariant invoked == old(invoked) + Invocations(handlers, events[..i])
      {
        var failures := CallHandlers(HandlersOf(handlers, events[i].kind), events[i], raises);
        assert events[..i + 1][..i] == events[..i];
      }
      assert events[..|events|] == events;
    }
  }

  // ---- one unit of work ----

  /** A task as passed to save, with the events it carries. */
  datatype Saved = Saved(task: TaskId, events: seq<Event>)

  datatype CommitOutcome = Commits | CommitRaises | CommitLost

  /** What the body of one `async with uow` block does; Fail is any exception of its own. */
  datatype Op = Save(item: Saved, hits: bool) | Rollback(succeeds: bool) | Commit(outcome: CommitOutcome) | Fail

  /** `saved` is _saved_tasks. `pending` are the uncommitted saves and `durable` the committed ones; outside a
      transaction the driver commits every statement at once. `raised`: an exception has left the block. */
  datatype Uow = Uow(inTransaction: bool, saved: seq<Saved>, pending: seq<Saved>, durable: seq<Saved>,
                     dispatched: seq<Event>, raised: bool)

  const ENTERED: Uow := Uow(true, [], [], [], [], false)

  function EventsOf(items: seq<Saved>): seq<Event> {
    if items == [] then [] else EventsOf(items[..|items| - 1]) + items[|items| - 1].events
  }

  lemma {:induction false} EventsOfConcat(a: seq<Saved>, b: seq<Saved>)
    ensures EventsOf(a + b) == EventsOf(a) + EventsOf(b)
  {
    if b == [] {
      assert a + b == a;
    } else {
      assert (a + b)[..|a + b| - 1] == a + b[..|b| - 1];
      EventsOfConcat(a, b[..|b| - 1]);
    }
  }

  lemma EventsOfAppend(items: seq<Saved>, item: Saved)
    ensures EventsOf(items + [item]) == EventsOf(items) + item.events
  {
    assert (items + [item])[..|items|] == items;
  }

  lemma EventsOfNone()
    ensures EventsOf([]) == []
  {
  }

  function Step(u: Uow, op: Op): Uow {
    if u.raised then u
    else
      match op
      case Save(item, hits) =>
        if !hits then u.(raised := true)
        else if u.inTransaction then u.(saved := u.saved + [item], pending := u.pending + [item])
        else u.(saved := u.saved + [item], durable := u.durable + [item])
      case Rollback(succeeds) =>
        if !succeeds then u.(raised := true) else u.(inTransaction := false, saved := [], pending := [])
      case Commit(Commits) =>
        Uow(false, [], [], u.durable + u.pending, u.dispatched + EventsOf(u.saved), false)
      case Commit(CommitRaises) => u.(raised := true)
      case Commit(CommitLost) => u.(raised := true, pending := [], durable := u.durable + u.pending)
      case Fail => u.(raised := true)
  }

  function Run(u: Uow, ops: seq<Op>): Uow
    decreases |ops|
  {
    if ops == [] then u else Run(Step(u, ops[0]), ops[1..])
  }

  /** The database connection of one unit of work, as far as saves are concerned: BEGIN has been run. */
  class Connection {
    var inTransaction: bool
    var pending: seq<Saved>
    var durable: seq<Saved>

    constructor ()
      ensures inTransaction && pending == [] && durable == []
    {
      inTransaction, pending, durable := true, [], [];
    }

    /** The UPDATE hits one row or none; outside a transaction it is committed at once. */
    method Update(item: Saved, hits: bool)
      modifies this
      ensures inTransaction == old(inTransaction)
      ensures pending == old(pending) + if hits && inTransaction then [item] else []
      ensures durable == old(durable) + if hits && !inTransaction then [item] else []
    {
      if hits && inTransaction {
        pending := pending + [item];
      } else if hits {
        durable := durable + [item];
      }
    }

    method Commit(outcome: CommitOutcome) returns (raised: bool)
      modifies this
      ensures raised <==> !outcome.Commits?
      ensures inTransaction <==> old(inTransaction) && raised
      ensures if outcome.CommitRaises? then pending == old(pending) && durable == old(durable)
              else pending == [] && durable == old(durable) + old(pending)
    {
      raised := !outcome.Commits?;
      if !outcome.CommitRaises? {
        pending, durable := [], durable + pending;
      }
      inTransaction := inTransaction && raised;
    }

    method Rollback(succeeds: bool) returns (raised: bool)
      modifies this
      ensures raised <==> !succeeds
      ensures inTransaction <==> old(inTransaction) && raised
      ensures pending == (if raised then old(pending) else []) && durable == old(durable)
    {
      raised := !succeeds;
      if succeeds {
        pending := [];
      }
      inTransaction := inTransaction && raised;
    }
  }

  /** `raised`: an exception is leaving the block; `dispatched`: the events handed to the bus so far. */
  class UnitOfWork {
    const bus: MessageBus
    const conn: Connection
    var savedTasks: seq<Saved>
    var raised: bool
    ghost var dispatched: seq<Event>

    ghost function Value(): Uow
      reads this, conn
    {
      Uow(conn.inTransaction, savedTasks, conn.pending, conn.durable, dispatched, raised)
    }

    constructor (bus: MessageBus, conn: Connection)
      requires conn.inTransaction && conn.pending == [] && conn.durable == []
      ensures this.bus == bus && this.conn == conn && Value() == ENTERED
    {
      this.bus, this.conn := bus, conn;
      savedTasks, raised, dispatched := [], false, [];
    }

    /** Zero rows raise before the task is remembered. */
    method Save(item: Saved, hits: bool)
      requires !raised
      modifies this, conn
      ensures raised <==> !hits
      ensures savedTasks == old(savedTasks) + if hits then [item] else []
      ensures Value() == Step(old(Value()), Op.Save(item, hits))
    {
      conn.Update(item, hits);
      if !hits {
        raised := true;
        return;
      }
      savedTasks := savedTasks + [item];
    }

    /** The saved tasks are forgotten only if ROLLBACK succeeded. */
    method Rollback(succeeds: bool)
      requires !raised
      modifies this, conn
      ensures raised <==> !succeeds
      ensures savedTasks == if succeeds then [] else old(savedTasks)
      ensures Value() == Step(old(Value()), Op.Rollback(succeeds))
    {
      raised := conn.Rollback(succeeds);
      if raised {
        return;
      }
      savedTasks := [];
    }

    method CollectEvents() returns (events: seq<Event>)
      modifies this`savedTasks
      ensures events == EventsOf(old(savedTasks)) && savedTasks == []
    {
      events := [];
      for i := 0 to |savedTasks|
        invariant events == EventsOf(savedTasks[..i])
      {
        assert savedTasks[..i + 1][..i] == savedTasks[..i];
        events := events + savedTasks[i].events;
      }
      assert savedTasks[..|savedTasks|] == savedTasks;
      savedTasks := [];
    }

    method PublishEvents(raises: Invocation -> bool)
      modifies this`savedTasks, this`dispatched, bus`invoked
      ensures savedTasks == [] && dispatched == old(dispatched) + EventsOf(old(savedTasks))
      ensures bus.invoked == old(bus.invoked) + Invocations(bus.handlers, EventsOf(old(savedTasks)))
    {
      var events := CollectEvents();
      bus.Dispatch(events, raises);
      dispatched := dispatched + events;
      savedTasks := [];
    }

    /** COMMIT, then dispatch; what the handlers do, raising included, changes neither the outcome nor the events. */
    method Commit(outcome: CommitOutcome, raises: Invocation -> bool)
      requires !raised
      modifies this, conn, bus`invoked
      ensures raised <==> !outcome.Commits?
      ensures savedTasks == if raised then old(savedTasks) else []
      ensures bus.invoked == old(bus.invoked)
                             + if raised then [] else Invocations(bus.handlers, EventsOf(old(savedTasks)))
      ensures Value() == Step(old(Value()), Op.Commit(outcome))
    {
      raised := conn.Commit(outcome);
      if !raised {
        PublishEvents(raises);
      }
    }
  }

  // ---- the theorem ----

  ghost predicate Matching(u: Uow) {
    && (u.inTransaction && !u.raised ==> u.pending == u.saved)
    && (!u.inTransaction ==> u.pending == [])
  }

  /** Events of saves that are durable already and wait for another commit: those made outside the transaction. */
  function Owed(u: Uow): seq<Event> {
    if u.inTransaction then [] else EventsOf(u.saved)
  }

  /** The operation makes saves durable, or finds them durable, and forgets their events. */
  predicate Strands(u: Uow, op: Op) {
    EventsOf(u.saved) != [] && (if u.inTransaction then op == Commit(CommitLost) else op == Rollback(true))
  }

  /** Somewhere along the block events get lost for good: COMMIT took effect but raised, or saves made after the end of
      the transaction were rolled back too late or never committed. */
  predicate Stranded(u: Uow, ops: seq<Op>)
    decreases |ops|
  {
    if ops == [] || u.raised then Owed(u) != []
    else Strands(u, ops[0]) || Stranded(Step(u, ops[0]), ops[1..])
  }

  ghost predicate Balanced(u: Uow) {
    Matching(u) && u.dispatched + Owed(u) == EventsOf(u.durable)
  }

  ghost predicate Short(u: Uow) {
    Matching(u) && |u.dispatched| + |Owed(u)| < |EventsOf(u.durable)|
  }

  lemma StepBalances(u: Uow, op: Op)
    requires Balanced(u) && !u.raised
    ensures if Strands(u, op) then Short(Step(u, op)) else Balanced(Step(u, op))
  {
    EventsOfNone();
    hide EventsOf;
    match op
    case Save(item, hits) =>
      EventsOfAppend(u.durable, item);
      EventsOfAppend(u.saved, item);
    case Rollback(_) =>
    case Commit(_) =>
      EventsOfConcat(u.durable, u.pending);
      assert u.durable + [] == u.durable;
    case Fail =>
  }

  lemma StepStaysShort(u: Uow, op: Op)
    requires Short(u)
    ensures Short(Step(u, op))
  {
    EventsOfNone();
    hide EventsOf;
    match op
    case Save(item, hits) =>
      EventsOfAppend(u.durable, item);
      EventsOfAppend(u.saved, item);
    case Rollback(_) =>
    case Commit(_) =>
      EventsOfConcat(u.durable, u.pending);
      assert u.durable + [] == u.durable;
    case Fail =>
  }

  lemma {:induction false} RunStaysShort(u: Uow, ops: seq<Op>)
    requires Short(u)
    ensures Short(Run(u, ops))
    decreases |ops|
  {
    if ops != [] {
      StepStaysShort(u, ops[0]);
      RunStaysShort(Step(u, ops[0]), ops[1..]);
    }
  }

  lemma {:induction false} RaisedStays(u: Uow, ops: seq<Op>)
    requires u.raised
    ensures Run(u, ops) == u
    decreases |ops|
  {
    if ops != [] {
      RaisedStays(u, ops[1..]);
    }
  }

  lemma {:induction false} RunBalances(u: Uow, ops: seq<Op>)
    requires Balanced(u)
    ensures var after := Run(u, ops); after.dispatched == EventsOf(after.durable) <==> !Stranded(u, ops)
    decreases |ops|
  {
    if ops == [] {
    } else if u.raised {
      RaisedStays(u, ops);
    } else {
      StepBalances(u, ops[0]);
      if Strands(u, ops[0]) {
        RunStaysShort(Step(u, ops[0]), ops[1..]);
      } else {
        RunBalances(Step(u, ops[0]), ops[1..]);
      }
    }
  }

  /** Over any sequence of saves, rollbacks, commits and exceptions, the dispatched events are exactly those of the
      durable saves, in save order, if and only if no events were stranded. */
  lemma EventsMatchIff(ops: seq<Op>)
    ensures Run(ENTERED, ops).dispatched == EventsOf(Run(ENTERED, ops).durable) <==> !Stranded(ENTERED, ops)
  {
    RunBalances(ENTERED, ops);
  }

  function Saves(items: seq<Saved>): (ops: seq<Op>)
    ensures |ops| == |items| && forall i :: 0 <= i < |items| ==> ops[i] == Save(items[i], true)
  {
    seq(|items|, i requires 0 <= i < |items| => Save(items[i], true))
  }

  lemma {:induction false} SavesThen(u: Uow, items: seq<Saved>, last: Op)
    requires u.inTransaction && !u.raised
    ensures Run(u, Saves(items) + [last]) == Step(u.(saved := u.saved + items, pending := u.pending + items), last)
    decreases |items|
  {
    if items == [] {
      assert Saves(items) + [last] == [last] && [last][1..] == [];
      assert u.saved + items == u.saved && u.pending + items == u.pending;
    } else {
      var next := Step(u, Save(items[0], true));
      assert (Saves(items) + [last])[1..] == Saves(items[1..]) + [last];
      SavesThen(next, items[1..], last);
      assert u.saved + items == next.saved + items[1..] && u.pending + items == next.pending + items[1..];
    }
  }

  /** The shape of every block of the daemon: some saves and one end. All or nothing, for writes and events alike. */
  lemma OneTransaction(items: seq<Saved>, last: Op)
    requires last.Rollback? || last.Commit? || last.Fail?
    ensures var after := Run(ENTERED, Saves(items) + [last]);
            && after.dispatched == (if last == Commit(Commits) then EventsOf(items) else [])
            && after.durable == (if last in {Commit(Commits), Commit(CommitLost)} then items else [])
  {
    hide Run, Saves, EventsOf;
    SavesThen(ENTERED, items, last);
    assert [] + items == items && [] + EventsOf(items) == EventsOf(items);
    match last
    case Rollback(_) =>
    case Commit(_) =>
    case Fail =>
  }
}
