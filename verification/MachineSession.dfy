/** One SSH machine session: its FREE/BUSY slot and its replaceable background monitor
    (infra/ssh/session.py, infra/ssh/operations/occupancy.py, domain/model.py). */
module MachineSession {
  import opened Prelude

  type MonitorId = nat

  /** A monitor task: still polling, told to stop but not yet run, finished with its done-callback outstanding, over. */
  datatype Phase = Armed | Cancelling | Finished | Gone

  /** `monitor` is the slot _monitor_task; `tasks` holds every monitor task ever created for the session. */
  datatype Session = Session(node: NodeId, busy: bool, closed: bool, connected: bool,
                             monitor: Option<MonitorId>, tasks: map<MonitorId, Phase>)

  function Fresh(node: NodeId): Session {
    Session(node, false, false, true, None, map[])
  }

  /** task.cancel(): no effect on a task that is done. */
  function Cancelled(tasks: map<MonitorId, Phase>, slot: Option<MonitorId>): map<MonitorId, Phase> {
    if slot.Some? && slot.value in tasks && tasks[slot.value].Armed? then tasks[slot.value := Cancelling] else tasks
  }

  /** The slot holds a task that is not done. */
  predicate Pending(s: Session) {
    && s.monitor.Some? && s.monitor.value in s.tasks
    && (s.tasks[s.monitor.value].Armed? || s.tasks[s.monitor.value].Cancelling?)
  }

  function Installed(s: Session, m: MonitorId): Session {
    if s.closed then s else s.(tasks := Cancelled(s.tasks, s.monitor)[m := Armed], monitor := Some(m))
  }

  /** start_occupancy_check: occupy only if FREE, then install. */
  function Watched(s: Session, m: MonitorId): Session {
    Installed(s.(busy := true), m)
  }

  function MonitorCancelled(s: Session): Session {
    s.(monitor := None, tasks := Cancelled(s.tasks, s.monitor))
  }

  /** The part of _close before its first suspension: with no pending monitor that includes closing the connection. */
  function CloseBegun(s: Session): Session {
    if s.closed then s
    else s.(closed := true, connected := s.connected && Pending(s), monitor := None,
            tasks := Cancelled(s.tasks, s.monitor))
  }

  /** The check returned False: on_free releases the machine and the task ends, without an await in between. */
  function FoundFree(s: Session, m: MonitorId): Session {
    s.(busy := false, tasks := s.tasks[m := Finished])
  }

  function CancelDelivered(s: Session, m: MonitorId): Session {
    s.(tasks := s.tasks[m := Finished])
  }

  /** The done-callback clears the slot only if it still holds its own task. */
  function CallbackRun(s: Session, m: MonitorId): Session {
    s.(tasks := s.tasks[m := Gone], monitor := if s.monitor == Some(m) then None else s.monitor)
  }

  // ---- what holds between any two await-free blocks ----

  /** The only task that may still release the machine is the one in the slot of an open session. */
  ghost predicate SlotOk(s: Session) {
    && (forall m :: m in s.tasks && s.tasks[m].Armed? ==> s.monitor == Some(m) && !s.closed)
    && (s.monitor.Some? ==>
          s.monitor.value in s.tasks && (s.tasks[s.monitor.value].Armed? || s.tasks[s.monitor.value].Finished?))
    && (s.closed ==> s.monitor.None?)
  }

  ghost predicate Unwatched(s: Session) {
    forall m :: m in s.tasks ==> !s.tasks[m].Armed?
  }

  /** Every operation and every event keeps the slot discipline; a session once closed never gets a monitor again. */
  lemma SlotOkKept(s: Session, m: MonitorId)
    requires SlotOk(s)
    ensures m !in s.tasks ==> SlotOk(Installed(s, m)) && SlotOk(Watched(s, m))
    ensures SlotOk(MonitorCancelled(s)) && Unwatched(MonitorCancelled(s))
    ensures SlotOk(CloseBegun(s)) && Unwatched(CloseBegun(s)) && CloseBegun(s).closed
    ensures m in s.tasks && s.tasks[m].Armed? ==> SlotOk(FoundFree(s, m)) && Unwatched(FoundFree(s, m))
    ensures m in s.tasks && s.tasks[m].Cancelling? ==> SlotOk(CancelDelivered(s, m))
    ensures m in s.tasks && s.tasks[m].Finished? ==> SlotOk(CallbackRun(s, m))
    ensures s.closed && m !in s.tasks ==> Unwatched(Installed(s, m)) && Unwatched(Watched(s, m))
  {
  }

  /** A finished monitor's callback never evicts its successor, and a replaced monitor can only wind down. */
  lemma ReplacementSurvives(s: Session, prior: MonitorId, m: MonitorId)
    requires SlotOk(s) && !s.closed && s.monitor == Some(prior) && m !in s.tasks
    ensures var t := Installed(s, m);
            && t.monitor == Some(m) && t.tasks[m].Armed?
            && (s.tasks[prior].Armed? ==>
                  t.tasks[prior].Cancelling? && CallbackRun(CancelDelivered(t, prior), prior).monitor == Some(m))
            && (s.tasks[prior].Finished? ==> CallbackRun(t, prior).monitor == Some(m))
  {
  }

  class SSHMachineSession {
    const node: NodeId
    var busy: bool
    var closed: bool
    var connected: bool
    var monitor: Option<MonitorId>
    var tasks: map<MonitorId, Phase>

    ghost function Value(): Session
      reads this
    {
      Session(node, busy, closed, connected, monitor, tasks)
    }

    ghost predicate Valid()
      reads this
    {
      SlotOk(Value())
    }

    constructor (node: NodeId)
      ensures Value() == Fresh(node) && Valid()
    {
      this.node := node;
      busy, closed, connected, monitor, tasks := false, false, true, None, map[];
    }

    /** Raises MachineBusyError (ok is false) without touching a BUSY slot. */
    method Occupy() returns (ok: bool)
      requires Valid()
      modifies this
      ensures Valid()
      ensures ok <==> !old(busy)
      ensures Value() == old(Value()).(busy := true)
    {
      ok := !busy;
      busy := true;
    }

    method Release()
      requires Valid()
      modifies this
      ensures Valid()
      ensures Value() == old(Value()).(busy := false)
    {
      busy := false;
    }

    method InstallMonitor(m: MonitorId)
      requires Valid() && m !in tasks
      modifies this
      ensures Valid()
      ensures old(closed) ==> Value() == old(Value())
      ensures !old(closed) ==> monitor == Some(m) && forall n :: n in tasks && tasks[n].Armed? <==> n == m
      ensures Value() == Installed(old(Value()), m)
    {
      SlotOkKept(Value(), m);
      if closed {
        return;
      }
      if monitor.Some? && monitor.value in tasks && tasks[monitor.value].Armed? {
        tasks := tasks[monitor.value := Cancelling];
      }
      tasks := tasks[m := Armed];
      monitor := Some(m);
    }

    method CancelMonitor()
      requires Valid()
      modifies this
      ensures Value() == MonitorCancelled(old(Value()))
      ensures Valid() && Unwatched(Value()) && monitor.None? && busy == old(busy) && closed == old(closed)
    {
      SlotOkKept(Value(), 0);
      if monitor.Some? {
        var task := monitor.value;
        monitor := None;
        if task in tasks && tasks[task].Armed? {
          tasks := tasks[task := Cancelling];
        }
      }
    }

    /** _close up to its first suspension; `suspended` says that it waits for the monitor with the connection open. */
    method Close() returns (suspended: bool)
      requires Valid()
      modifies this
      ensures Value() == CloseBegun(old(Value()))
      ensures suspended ==> old(Pending(Value()))
      ensures !suspended && !old(closed) ==> !connected
      ensures Valid() && Unwatched(Value())
    {
      SlotOkKept(Value(), 0);
      suspended := false;
      if closed {
        return;
      }
      closed := true;
      if monitor.Some? {
        var task := monitor.value;
        monitor := None;
        if task in tasks {
          suspended := tasks[task].Armed? || tasks[task].Cancelling?;
          if tasks[task].Armed? {
            tasks := tasks[task := Cancelling];
          }
        }
      }
      if !suspended {
        connected := false;
      }
    }

    /** start_occupancy_check. */
    method StartOccupancyCheck(m: MonitorId)
      requires Valid() && m !in tasks
      modifies this
      ensures Valid()
      ensures busy && (!closed ==> monitor == Some(m) && m in tasks && tasks[m].Armed?)
      ensures Value() == Watched(old(Value()), m)
    {
      SlotOkKept(Value(), m);
      if !busy {
        var ok := Occupy();
      }
      InstallMonitor(m);
    }
  }
}
