/** The in-memory store of delegations (delegator/store.go). */
module TaskStore {
  import opened Wrappers
  import opened Finite
  import opened Tasks

  const DEFAULT_MAX_TASKS := 1000

  /** A delegation record; the store and the caller of Delegate share the object. */
  class Task {
    const id: TaskId
    const agent: string
    const provider: string
    const createdAt: int
    var status: TaskStatus
    var exitCode: int
    var output: string
    var error: TaskError

    constructor (id: TaskId, agent: string, provider: string, createdAt: int)
      ensures View() == TaskView(id, provider, createdAt, TaskFields(Pending, 0, "", NoError)) && this.agent == agent
    {
      this.id, this.agent, this.provider, this.createdAt := id, agent, provider, createdAt;
      status, exitCode, output, error := Pending, 0, "", NoError;
    }

    function Fields(): TaskFields
      reads this
    {
      TaskFields(status, exitCode, output, error)
    }

    function View(): TaskView
      reads this
    {
      TaskView(id, provider, createdAt, Fields())
    }

    method Apply(fn: TaskFields -> TaskFields)
      modifies this
      ensures Fields() == fn(old(Fields()))
    {
      var fields := fn(Fields());
      status, exitCode, output, error := fields.status, fields.exitCode, fields.output, fields.error;
    }
  }

  class TaskStore {
    var tasks: map<TaskId, Task>
    var order: seq<TaskId>
    const maxTasks: nat

    function View(): StoreView
      reads this, tasks.Values
    {
      StoreView(order, map id | id in tasks :: tasks[id].View())
    }

    ghost predicate Valid()
      reads this, tasks.Values
    {
      View().Valid()
    }

    constructor (maxTasks: int)
      ensures Valid() && View() == EMPTY_STORE
      ensures this.maxTasks == if maxTasks <= 0 then 1000 else maxTasks
    {
      this.tasks, this.order := map[], [];
      this.maxTasks := if maxTasks <= 0 then DEFAULT_MAX_TASKS else maxTasks;
    }

    // The index of the first entry that may go: one whose task is terminal, or already gone.
    method FirstEvictable() returns (at: Option<nat>)
      ensures at.Some? ==> at.value < |order| && order[at.value] !in View().LiveIds()
      ensures forall k :: 0 <= k < (if at.Some? then at.value else |order|) ==> order[k] in View().LiveIds()
    {
      for i := 0 to |order|
        invariant forall k :: 0 <= k < i ==> order[k] in View().LiveIds()
      {
        var id := order[i];
        if id !in tasks {
          return Some(i);
        }
        if Live(tasks[id].status) {
          continue;
        }
        return Some(i);
      }
      return None;
    }

    method DropEntry(at: nat)
      requires at < |order|
      modifies this
      ensures View() == WithoutEntry(old(View()), at)
      ensures tasks == old(tasks) - {old(order)[at]}
    {
      ghost var before := View();
      var id := order[at];
      order := order[..at] + order[at + 1..];
      tasks := tasks - {id};
      assert View().tasks == before.tasks - {id};
    }

    /** Drops the oldest evictable entry again and again while the store is over its cap. */
    method EvictIfFull()
      requires Backed(View())
      modifies this
      ensures View() == Evicted(old(View()), maxTasks)
      ensures forall id :: id in tasks ==> id in old(tasks) && tasks[id] == old(tasks)[id]
    {
      ghost var settled := Evicted(View(), maxTasks);
      while |order| > maxTasks
        invariant Backed(View())
        invariant forall id :: id in tasks ==> id in old(tasks) && tasks[id] == old(tasks)[id]
        invariant Evicted(View(), maxTasks) == settled
      {
        var at := FirstEvictable();
        if at.None? {
          // Everything is in flight: the store grows until tasks settle.
          NothingEvictable(View(), maxTasks);
          return;
        }
        DropOldestEntry(at.value);
      }
      NothingInExcess(View(), maxTasks);
    }

    // One turn of the eviction loop.
    method DropOldestEntry(at: nat)
      requires Backed(View()) && |order| > maxTasks && at < |order|
      requires order[at] !in View().LiveIds() && forall k :: 0 <= k < at ==> order[k] in View().LiveIds()
      modifies this
      ensures Backed(View()) && |order| < |old(order)|
      ensures Evicted(View(), maxTasks) == Evicted(old(View()), maxTasks)
      ensures forall id :: id in tasks ==> id in old(tasks) && tasks[id] == old(tasks)[id]
    {
      EvictStep(View(), at, maxTasks);
      DropEntry(at);
    }

    method Append(t: Task)
      requires t.id !in tasks
      modifies this
      ensures tasks == old(tasks)[t.id := t]
      ensures View() == Appended(old(View()), t.View())
    {
      tasks := tasks[t.id := t];
      order := order + [t.id];
      assert View().tasks == old(View()).tasks[t.id := t.View()];
    }

    method Replace(t: Task)
      requires t.id in tasks
      modifies this
      ensures order == old(order) && tasks == old(tasks)[t.id := t]
      ensures View().tasks == old(View()).tasks[t.id := t.View()]
    {
      tasks := tasks[t.id := t];
    }

    /** Inserts or replaces a task; only a new id can push the store over its cap. */
    method Put(t: Task)
      requires Valid()
      modifies this
      ensures Valid()
      ensures View() == Inserted(old(View()), t.View(), maxTasks)
      ensures t.id in tasks ==> tasks[t.id] == t
      ensures Live(t.status) ==> t.id in tasks
      ensures forall id :: id in tasks && id != t.id ==> id in old(tasks) && tasks[id] == old(tasks)[id]
    {
      InsertionIsSafe(View(), t.View(), maxTasks);
      if t.id in tasks {
        Replace(t);
      } else {
        AppendAndEvict(t);
      }
    }

    method AppendAndEvict(t: Task)
      requires Valid() && t.id !in tasks
      modifies this
      ensures View() == Evicted(Appended(old(View()), t.View()), maxTasks)
      ensures t.id in tasks ==> tasks[t.id] == t
      ensures forall id :: id in tasks && id != t.id ==> id in old(tasks) && tasks[id] == old(tasks)[id]
    {
      AppendedIsValid(View(), t.View());
      Append(t);
      EvictIfFull();
    }

    /** A copy of the record. */
    method Get(id: TaskId) returns (copy: Option<TaskView>)
      ensures copy == if id in View().tasks then Some(View().tasks[id]) else None
    {
      if id !in tasks {
        return None;
      }
      return Some(tasks[id].View());
    }

    /** Applies fn to the record under the lock; false when the record is gone. */
    method Update(id: TaskId, fn: TaskFields -> TaskFields) returns (found: bool)
      requires Valid()
      modifies if id in tasks then {tasks[id]} else {}
      ensures Valid() && tasks == old(tasks) && order == old(order)
      ensures found == (id in tasks)
      ensures View() == Updated(old(View()), id, fn)
    {
      if id !in tasks {
        return false;
      }
      ghost var before := View();
      assert forall k :: k in tasks ==> before.tasks[k].id == tasks[k].id == k;
      tasks[id].Apply(fn);
      assert View().tasks == Updated(before, id, fn).tasks;
      return true;
    }
  }

  // Every record has its place in the order; an order entry without a record is tolerated.
  ghost predicate Backed(v: StoreView) {
    Distinct(v.order) && v.tasks.Keys <= Elements(v.order)
  }

  lemma {:induction false} RestrictAll(v: StoreView)
    requires v.tasks.Keys <= Elements(v.order)
    ensures Restrict(v.tasks, v.order) == v.tasks
  {
    forall id | id in v.tasks
      ensures id in v.order
    {
      assert id in Elements(v.order);
    }
  }

  function WithoutEntry(v: StoreView, at: nat): StoreView
    requires at < |v.order|
  {
    StoreView(v.order[..at] + v.order[at+1..], v.tasks - {v.order[at]})
  }

  lemma {:induction false} EntryRemoved(order: seq<TaskId>, at: nat)
    requires Distinct(order) && at < |order|
    ensures var shorter := order[..at] + order[at+1..];
            Distinct(shorter) && Elements(shorter) == Elements(order) - {order[at]}
  {
    assert order == order[..at] + [order[at]] + order[at+1..];
  }

  // Taking out the first evictable entry by itself does not change what eviction leaves in the end.
  lemma {:induction false} EvictStep(v: StoreView, at: nat, maxTasks: nat)
    requires Backed(v)
    requires at < |v.order| && |v.order| > maxTasks && v.order[at] !in v.LiveIds()
    requires forall k :: 0 <= k < at ==> v.order[k] in v.LiveIds()
    ensures Backed(WithoutEntry(v, at))
    ensures Evicted(WithoutEntry(v, at), maxTasks) == Evicted(v, maxTasks)
  {
    var w := WithoutEntry(v, at);
    var n := Excess(v.order, maxTasks);
    EntryRemoved(v.order, at);
    assert w.LiveIds() == v.LiveIds();
    DropOneMore(v.order, v.LiveIds(), n, at);
    DroppedAreEntries(w.order, v.LiveIds(), n - 1);
    RestrictSkips(v.tasks, v.order[at], w.order, DropOldest(w.order, w.LiveIds(), n - 1));
  }

  lemma {:induction false} RestrictSkips(tasks: map<TaskId, TaskView>, id: TaskId,
          order: seq<TaskId>, kept: seq<TaskId>)
    requires id !in Elements(order) && forall k :: k in kept ==> k in order
    ensures Restrict(tasks - {id}, kept) == Restrict(tasks, kept)
  {
    assert id !in kept;
  }

  lemma {:induction false} NothingInExcess(v: StoreView, maxTasks: nat)
    requires Backed(v) && |v.order| <= maxTasks
    ensures Evicted(v, maxTasks) == v
  {
    RestrictAll(v);
  }

  lemma {:induction false} NothingEvictable(v: StoreView, maxTasks: nat)
    requires Backed(v)
    requires forall k :: 0 <= k < |v.order| ==> v.order[k] in v.LiveIds()
    ensures Evicted(v, maxTasks) == v
  {
    NothingToDrop(v.order, v.LiveIds(), Excess(v.order, maxTasks));
    RestrictAll(v);
  }

  lemma {:induction false} NothingToDrop(order: seq<TaskId>, live: set<TaskId>, n: nat)
    requires forall k :: 0 <= k < |order| ==> order[k] in live
    ensures DropOldest(order, live, n) == order
  {
    if order == [] {
    } else {
      NothingToDrop(order[1..], live, n);
    }
  }

  // Taking out the first evictable entry leaves one entry fewer to drop.
  lemma {:induction false} DropOneMore(order: seq<TaskId>, live: set<TaskId>, n: nat, at: nat)
    requires n > 0 && at < |order| && order[at] !in live
    requires forall k :: 0 <= k < at ==> order[k] in live
    ensures DropOldest(order, live, n) == DropOldest(order[..at] + order[at+1..], live, n - 1)
  {
    if at > 0 {
      var shorter := order[..at] + order[at+1..];
      DropOneMore(order[1..], live, n, at - 1);
      assert shorter[1..] == order[1..][..at-1] + order[1..][at..];
      assert shorter == [order[0]] + shorter[1..];
    } else {
      assert order[..at] + order[at+1..] == order[1..];
    }
  }
}
