/** In-memory dedup of in-flight cloud allocations (application/allocation_tracker.py). */
module Tracking {
  import opened Prelude

  /** An entry maps a task to the node its allocation created, None before the node exists. */
  type Entries = map<TaskId, Option<NodeId>>

  function Added(entries: Entries, task: TaskId, node: Option<NodeId>): Entries {
    if task in entries then entries else entries[task := node]
  }

  function Linked(entries: Entries, task: TaskId, node: NodeId): Entries {
    if task in entries then entries[task := Some(node)] else entries
  }

  function Discarded(entries: Entries, task: TaskId): Entries {
    entries - {task}
  }

  function TasksOf(entries: Entries, node: NodeId): set<TaskId> {
    set task | task in entries && entries[task] == Some(node)
  }

  function DiscardedByNode(entries: Entries, node: NodeId): Entries {
    entries - TasksOf(entries, node)
  }

  class AllocationTracker {
    var entries: Entries

    constructor ()
      ensures entries == map[]
    {
      entries := map[];
    }

    method Add(task: TaskId, node: Option<NodeId>) returns (added: bool)
      modifies this
      ensures added <==> task !in old(entries)
      ensures entries == if added then old(entries)[task := node] else old(entries)
      ensures entries == Added(old(entries), task, node)
    {
      if task in entries {
        return false;
      }
      entries := entries[task := node];
      added := true;
    }

    method SetNode(task: TaskId, node: NodeId)
      modifies this
      ensures entries.Keys == old(entries).Keys
      ensures forall t :: t in entries ==> entries[t] == if t == task then Some(node) else old(entries)[t]
      ensures entries == Linked(old(entries), task, node)
    {
      if task in entries {
        entries := entries[task := Some(node)];
      }
    }

    method Discard(task: TaskId)
      modifies this
      ensures task !in entries && entries == old(entries) - {task}
      ensures entries == Discarded(old(entries), task)
    {
      entries := entries - {task};
    }

    /** Two passes as in the source: collect the matching tasks, then pop them one by one. */
    method DiscardByNode(node: NodeId) returns (count: nat)
      modifies this
      ensures forall t :: t in entries <==> t in old(entries) && old(entries)[t] != Some(node)
      ensures forall t :: t in entries ==> entries[t] == old(entries)[t]
      ensures entries == DiscardedByNode(old(entries), node)
      ensures count == |TasksOf(old(entries), node)|
    {
      var matching := set task | task in entries && entries[task] == Some(node);
      count := |matching|;
      var left := matching;
      while left != {}
        invariant left <= matching
        invariant entries == old(entries) - (matching - left)
        decreases left
      {
        var task :| task in left;
        entries := entries - {task};
        left := left - {task};
        assert matching - left == (matching - (left + {task})) + {task};
      }
      assert matching - left == matching;
    }
  }

  /** One allocation's life in the tracker: whatever the tracker held for other tasks is untouched,
      both releases undo an accepted add, and until one of them runs a second add is refused. */
  lemma {:induction false} AddLinkDiscardRoundTrip(entries: Entries, task: TaskId, node: NodeId)
    requires task !in entries
    requires TasksOf(entries, node) == {}
    ensures Discarded(Linked(Added(entries, task, None), task, node), task) == entries
    ensures DiscardedByNode(Linked(Added(entries, task, None), task, node), node) == entries
    ensures forall other: Option<NodeId> ::
              var held := Linked(Added(entries, task, None), task, node);
              Added(held, task, other) == held
  {
    var held := Linked(Added(entries, task, None), task, node);
    assert TasksOf(held, node) == {task} + TasksOf(entries, node);
  }
}
