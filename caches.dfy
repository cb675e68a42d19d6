/**
 * The dispatcher's bookkeeping caches: the count of unresolved tasks per
 * dispatch, the count of pending parents per task group, and the sorted
 * node list per task group. Each cache derives a key from its arguments
 * and delegates to its key-value store.
 *
 * The store's implementation is not part of this model. A store is an
 * object holding a map, which several caches may share; `insert`, `get`
 * and `remove` act on that map, and its `increment` is an input.
 */
module Caches {
  import opened Wrappers
  import opened DataManager
  import Decimal

  const Separator: char := ':'

  /** `_pending_parents_key`: the dispatch id, a colon, and the decimal node or group id. */
  function PendingParentsKey(dispatchId: string, nodeId: int): (key: string)
    ensures |key| > |dispatchId| + 1
    ensures key[..|dispatchId|] == dispatchId && key[|dispatchId|] == Separator
    ensures key[|dispatchId| + 1..] == Decimal.IntToString(nodeId)
    ensures Separator !in key[|dispatchId| + 1..]
  {
    dispatchId + [Separator] + Decimal.IntToString(nodeId)
  }

  /** `_unresolved_tasks_key`: the dispatch id itself. */
  function UnresolvedTasksKey(dispatchId: string): (key: string)
    ensures key == dispatchId
  {
    dispatchId
  }

  /** `_task_groups_key`: the same key as the pending-parents one. */
  function TaskGroupsKey(dispatchId: string, taskGroupId: int): (key: string)
    ensures key == PendingParentsKey(dispatchId, taskGroupId)
  {
    PendingParentsKey(dispatchId, taskGroupId)
  }

  /** The index of the last separator in `w`, or -1 when there is none. */
  function LastSeparator(w: string): (i: int)
    ensures -1 <= i < |w|
    ensures i >= 0 ==> w[i] == Separator
    ensures forall j :: i < j < |w| ==> w[j] != Separator
  {
    if w == [] then -1
    else if w[|w| - 1] == Separator then |w| - 1
    else LastSeparator(w[..|w| - 1])
  }

  /** A separator followed by separator-free text is the last separator. */
  lemma {:induction false} LastSeparatorOfJoin(x: string, s: string)
    requires Separator !in s
    ensures LastSeparator(x + [Separator] + s) == |x|
    decreases |s|
  {
    var w := x + [Separator] + s;
    if s != [] {
      assert s[|s| - 1] in s;
      assert w[..|w| - 1] == x + [Separator] + s[..|s| - 1];
      LastSeparatorOfJoin(x, s[..|s| - 1]);
    }
  }

  /**
   * Splitting at the last separator is unambiguous: two texts joined by a
   * separator, with no separator in the second part, determine both parts.
   */
  lemma SplitAtLastSeparator(x: string, s: string, y: string, t: string)
    requires Separator !in s && Separator !in t
    requires x + [Separator] + s == y + [Separator] + t
    ensures x == y && s == t
  {
    var w := x + [Separator] + s;
    LastSeparatorOfJoin(x, s);
    LastSeparatorOfJoin(y, t);
    assert x == w[..|x|] == y;
    assert s == w[|x| + 1..] == t;
  }

  /**
   * Different (dispatch, node) pairs get different keys, even when the
   * dispatch id itself contains the separator.
   */
  lemma PendingParentsKeyInjective(d1: string, n1: int, d2: string, n2: int)
    requires PendingParentsKey(d1, n1) == PendingParentsKey(d2, n2)
    ensures d1 == d2 && n1 == n2
  {
    SplitAtLastSeparator(d1, Decimal.IntToString(n1), d2, Decimal.IntToString(n2));
    Decimal.IntToStringInjective(n1, n2);
  }

  /**
   * The store's `increment(key, interval)`: the entries afterwards and the
   * value it yields. Its implementation is not part of this model.
   */
  type IncrementOp = (map<string, int>, string, int) -> (map<string, int>, Option<int>)

  /** A key-value store: its entries, updated in place and seen by every cache built on it. */
  class KeyValueStore<T> {
    var entries: map<string, T>

    constructor (entries: map<string, T>)
      ensures this.entries == entries
    {
      this.entries := entries;
    }
  }

  /** `_UnresolvedTasksCache`: the number of tasks of each dispatch not yet resolved. */
  class UnresolvedTasksCache {
    const store: KeyValueStore<int>
    const increment: IncrementOp

    /** `increment` is the store's own increment operation. */
    constructor (store: KeyValueStore<int>, increment: IncrementOp)
      ensures this.store == store && this.increment == increment
    {
      this.store := store;
      this.increment := increment;
    }

    /** `get_unresolved`. */
    function GetUnresolved(dispatchId: string): (r: Option<int>)
      reads store
      ensures r.Some? <==> UnresolvedTasksKey(dispatchId) in store.entries
      ensures r.Some? ==> r.value == store.entries[UnresolvedTasksKey(dispatchId)]
    {
      var key := UnresolvedTasksKey(dispatchId);
      if key in store.entries then Some(store.entries[key]) else None
    }

    /** `set_unresolved`. */
    method SetUnresolved(dispatchId: string, val: int)
      modifies store
      ensures store.entries == old(store.entries)[UnresolvedTasksKey(dispatchId) := val]
      ensures GetUnresolved(dispatchId) == Some(val)
    {
      var key := UnresolvedTasksKey(dispatchId);
      store.entries := store.entries[key := val];
    }

    /** `increment`: the store's increment on the dispatch's key, by one unless another interval is given. */
    method Increment(dispatchId: string, interval: int := 1) returns (r: Option<int>)
      modifies store
      ensures (store.entries, r) == increment(old(store.entries), UnresolvedTasksKey(dispatchId), interval)
    {
      var key := UnresolvedTasksKey(dispatchId);
      var next := increment(store.entries, key, interval);
      store.entries := next.0;
      r := next.1;
    }

    /** `decrement`: the store's increment by -1 on the same key. */
    method Decrement(dispatchId: string) returns (r: Option<int>)
      modifies store
      ensures (store.entries, r) == increment(old(store.entries), UnresolvedTasksKey(dispatchId), -1)
    {
      var key := UnresolvedTasksKey(dispatchId);
      var next := increment(store.entries, key, -1);
      store.entries := next.0;
      r := next.1;
    }

    /** `remove`. */
    method Remove(dispatchId: string)
      modifies store
      ensures store.entries == old(store.entries) - {UnresolvedTasksKey(dispatchId)}
      ensures GetUnresolved(dispatchId).None?
    {
      var key := UnresolvedTasksKey(dispatchId);
      store.entries := store.entries - {key};
    }
  }

  /** `_PendingParentsCache`: the number of parents each task group still waits for. */
  class PendingParentsCache {
    const store: KeyValueStore<int>
    const increment: IncrementOp

    /** `increment` is the store's own increment operation. */
    constructor (store: KeyValueStore<int>, increment: IncrementOp)
      ensures this.store == store && this.increment == increment
    {
      this.store := store;
      this.increment := increment;
    }

    /** `get_pending`. */
    function GetPending(dispatchId: string, taskGroupId: int): (r: Option<int>)
      reads store
      ensures r.Some? <==> PendingParentsKey(dispatchId, taskGroupId) in store.entries
      ensures r.Some? ==> r.value == store.entries[PendingParentsKey(dispatchId, taskGroupId)]
    {
      var key := PendingParentsKey(dispatchId, taskGroupId);
      if key in store.entries then Some(store.entries[key]) else None
    }

    /** `set_pending`: no other group's count changes. */
    method SetPending(dispatchId: string, taskGroupId: int, val: int)
      modifies store
      ensures store.entries == old(store.entries)[PendingParentsKey(dispatchId, taskGroupId) := val]
      ensures GetPending(dispatchId, taskGroupId) == Some(val)
      ensures forall d, g :: (d, g) != (dispatchId, taskGroupId) ==> GetPending(d, g) == old(GetPending(d, g))
    {
      var key := PendingParentsKey(dispatchId, taskGroupId);
      store.entries := store.entries[key := val];
      forall d, g | (d, g) != (dispatchId, taskGroupId)
        ensures GetPending(d, g) == old(GetPending(d, g))
      {
        if PendingParentsKey(d, g) == key {
          PendingParentsKeyInjective(d, g, dispatchId, taskGroupId);
        }
      }
    }

    /** `decrement`: the store's increment by -1 on the group's key. */
    method Decrement(dispatchId: string, taskGroupId: int) returns (r: Option<int>)
      modifies store
      ensures (store.entries, r) == increment(old(store.entries), PendingParentsKey(dispatchId, taskGroupId), -1)
    {
      var key := PendingParentsKey(dispatchId, taskGroupId);
      var next := increment(store.entries, key, -1);
      store.entries := next.0;
      r := next.1;
    }

    /** `remove`: no other group's count changes. */
    method Remove(dispatchId: string, taskGroupId: int)
      modifies store
      ensures store.entries == old(store.entries) - {PendingParentsKey(dispatchId, taskGroupId)}
      ensures GetPending(dispatchId, taskGroupId).None?
      ensures forall d, g :: (d, g) != (dispatchId, taskGroupId) ==> GetPending(d, g) == old(GetPending(d, g))
    {
      var key := PendingParentsKey(dispatchId, taskGroupId);
      store.entries := store.entries - {key};
      forall d, g | (d, g) != (dispatchId, taskGroupId)
        ensures GetPending(d, g) == old(GetPending(d, g))
      {
        if PendingParentsKey(d, g) == key {
          PendingParentsKeyInjective(d, g, dispatchId, taskGroupId);
        }
      }
    }
  }

  /** `_SortedTaskGroups`: the topologically sorted nodes of each task group. */
  class SortedTaskGroups {
    const store: KeyValueStore<seq<NodeId>>

    constructor (store: KeyValueStore<seq<NodeId>>)
      ensures this.store == store
    {
      this.store := store;
    }

    /** `get_task_group`. */
    function GetTaskGroup(dispatchId: string, taskGroupId: int): (r: Option<seq<NodeId>>)
      reads store
      ensures r.Some? <==> TaskGroupsKey(dispatchId, taskGroupId) in store.entries
      ensures r.Some? ==> r.value == store.entries[TaskGroupsKey(dispatchId, taskGroupId)]
    {
      var key := TaskGroupsKey(dispatchId, taskGroupId);
      if key in store.entries then Some(store.entries[key]) else None
    }

    /** `set_task_group`: no other group's list changes. */
    method SetTaskGroup(dispatchId: string, taskGroupId: int, sortedNodes: seq<NodeId>)
      modifies store
      ensures store.entries == old(store.entries)[TaskGroupsKey(dispatchId, taskGroupId) := sortedNodes]
      ensures GetTaskGroup(dispatchId, taskGroupId) == Some(sortedNodes)
      ensures forall d, g :: (d, g) != (dispatchId, taskGroupId) ==> GetTaskGroup(d, g) == old(GetTaskGroup(d, g))
    {
      var key := TaskGroupsKey(dispatchId, taskGroupId);
      store.entries := store.entries[key := sortedNodes];
      forall d, g | (d, g) != (dispatchId, taskGroupId)
        ensures GetTaskGroup(d, g) == old(GetTaskGroup(d, g))
      {
        if TaskGroupsKey(d, g) == key {
          PendingParentsKeyInjective(d, g, dispatchId, taskGroupId);
        }
      }
    }

    /** `remove`: no other group's list changes. */
    method Remove(dispatchId: string, taskGroupId: int)
      modifies store
      ensures store.entries == old(store.entries) - {TaskGroupsKey(dispatchId, taskGroupId)}
      ensures GetTaskGroup(dispatchId, taskGroupId).None?
      ensures forall d, g :: (d, g) != (dispatchId, taskGroupId) ==> GetTaskGroup(d, g) == old(GetTaskGroup(d, g))
    {
      var key := TaskGroupsKey(dispatchId, taskGroupId);
      store.entries := store.entries - {key};
      forall d, g | (d, g) != (dispatchId, taskGroupId)
        ensures GetTaskGroup(d, g) == old(GetTaskGroup(d, g))
      {
        if TaskGroupsKey(d, g) == key {
          PendingParentsKeyInjective(d, g, dispatchId, taskGroupId);
        }
      }
    }
  }
}
