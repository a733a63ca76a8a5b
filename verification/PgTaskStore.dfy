/** The table-backed store, which evicts with one DELETE ... LIMIT (delegator/postgres_store.go). */
module PgTaskStore {
  import opened Wrappers
  import opened Finite
  import opened Tasks

  function TerminalIds(rows: map<TaskId, TaskView>): set<TaskId> {
    set id | id in rows && !Live(rows[id].fields.status)
  }

  /** The rows one DELETE may pick: terminal, oldest first, up to the limit. Ties in created_at are the database's
      choice. */
  ghost predicate IsOldestTerminal(rows: map<TaskId, TaskView>, victims: set<TaskId>, limit: nat)
  {
    && victims <= TerminalIds(rows)
    && |victims| == (if limit <= |TerminalIds(rows)| then limit else |TerminalIds(rows)|)
    && forall v, u :: v in victims && u in TerminalIds(rows) && u !in victims ==> rows[v].createdAt <= rows[u].createdAt
  }

  // On a conflicting id the identity of the row stays and the mutable columns are taken over.
  function Upserted(rows: map<TaskId, TaskView>, t: TaskView): map<TaskId, TaskView> {
    if t.id in rows then rows[t.id := rows[t.id].(fields := t.fields)] else rows[t.id := t]
  }

  // The table after a put: the row is upserted, then the oldest terminal rows beyond the cap are deleted.
  ghost predicate IsPut(rows: map<TaskId, TaskView>, t: TaskView, maxTasks: nat,
                        victims: set<TaskId>, rows': map<TaskId, TaskView>)
  {
    var upserted := Upserted(rows, t);
    && IsOldestTerminal(upserted, victims, if |upserted| > maxTasks then |upserted| - maxTasks else 0)
    && rows' == upserted - victims
  }

  function Amended(rows: map<TaskId, TaskView>, id: TaskId, fn: TaskFields -> TaskFields): map<TaskId, TaskView> {
    if id in rows then rows[id := rows[id].(fields := fn(rows[id].fields))] else rows
  }

  method OldestOf(rows: map<TaskId, TaskView>, candidates: set<TaskId>) returns (oldest: TaskId)
    requires candidates != {} && candidates <= rows.Keys
    ensures oldest in candidates
    ensures forall id :: id in candidates ==> rows[oldest].createdAt <= rows[id].createdAt
  {
    oldest :| oldest in candidates;
    var rest := candidates - {oldest};
    while rest != {}
      invariant oldest in candidates && rest <= candidates
      invariant forall id :: id in candidates && id !in rest ==> rows[oldest].createdAt <= rows[id].createdAt
    {
      var id :| id in rest;
      if rows[id].createdAt < rows[oldest].createdAt {
        oldest := id;
      }
      rest := rest - {id};
    }
  }

  // Part way through the sorted rows: the victims so far are the oldest.
  ghost predicate Selecting(rows: map<TaskId, TaskView>, victims: set<TaskId>, candidates: set<TaskId>) {
    && victims <= TerminalIds(rows) && candidates == TerminalIds(rows) - victims
    && forall v, u :: v in victims && u in candidates ==> rows[v].createdAt <= rows[u].createdAt
  }

  // The subquery: ids of terminal rows by created_at ascending, cut off at the limit.
  method SelectOldest(rows: map<TaskId, TaskView>, limit: nat) returns (victims: set<TaskId>)
    ensures IsOldestTerminal(rows, victims, limit)
  {
    victims := {};
    var candidates := TerminalIds(rows);
    while |victims| < limit && candidates != {}
      invariant Selecting(rows, victims, candidates) && |victims| <= limit
      decreases |candidates|
    {
      var next := OldestOf(rows, candidates);
      SelectingGoesOn(rows, victims, candidates, next);
      victims, candidates := victims + {next}, candidates - {next};
    }
    Partition(TerminalIds(rows), victims, candidates);
  }

  lemma {:induction false} SelectingGoesOn(rows: map<TaskId, TaskView>, victims: set<TaskId>,
          candidates: set<TaskId>, next: TaskId)
    requires Selecting(rows, victims, candidates) && next in candidates
    requires forall u :: u in candidates ==> rows[next].createdAt <= rows[u].createdAt
    ensures Selecting(rows, victims + {next}, candidates - {next})
    ensures |victims + {next}| == |victims| + 1
  {
    assert next !in victims;
  }

  class PgTaskStore {
    var rows: map<TaskId, TaskView>
    const maxTasks: nat

    constructor (maxTasks: nat)
      ensures rows == map[] && this.maxTasks == maxTasks
    {
      rows := map[];
      this.maxTasks := maxTasks;
    }

    /** Deletes the oldest terminal rows beyond the cap in one statement. */
    method EvictIfFull() returns (victims: set<TaskId>)
      modifies this
      ensures IsOldestTerminal(old(rows), victims, if |old(rows)| > maxTasks then |old(rows)| - maxTasks else 0)
      ensures rows == old(rows) - victims
    {
      if |rows| <= maxTasks {
        victims := {};
      } else {
        victims := SelectOldest(rows, |rows| - maxTasks);
        rows := rows - victims;
      }
    }

    method Put(t: TaskView) returns (victims: set<TaskId>)
      modifies this
      ensures IsPut(old(rows), t, maxTasks, victims, rows)
    {
      rows := Upserted(rows, t);
      victims := EvictIfFull();
    }

    /** Reads the locked row, applies fn to it and writes the mutable columns back; false when there is no row. */
    method Update(id: TaskId, fn: TaskFields -> TaskFields) returns (found: bool)
      modifies this
      ensures found == (id in old(rows))
      ensures rows == Amended(old(rows), id, fn)
    {
      if id !in rows {
        return false;
      }
      var t := rows[id];
      var fields := fn(t.fields);
      rows := rows[id := rows[id].(fields := fields)];
      return true;
    }
  }

  // ---- the two stores agree ----

  ghost predicate InOrderOfCreation(order: seq<TaskId>, rows: map<TaskId, TaskView>) {
    && (forall id :: id in order ==> id in rows)
    && (forall i, j :: 0 <= i < j < |order| ==> rows[order[i]].createdAt < rows[order[j]].createdAt)
  }

  // The entries an n-fold eviction drops.
  ghost function Dropped(v: StoreView, n: nat): set<TaskId> {
    v.tasks.Keys - Elements(DropOldest(v.order, v.LiveIds(), n))
  }

  // Both stores delete an initial stretch of the terminal entries; equal sizes make the stretches equal.
  lemma {:induction false} OldestAreDropped(v: StoreView, victims: set<TaskId>, n: nat)
    requires v.Valid() && InOrderOfCreation(v.order, v.tasks)
    requires IsOldestTerminal(v.tasks, victims, n)
    ensures Dropped(v, n) == victims
  {
    DroppedSetSize(v, n);
    TerminalCount(v);
    if victims <= Dropped(v, n) {
      SubsetOfSameSize(victims, Dropped(v, n));
    } else {
      var x :| x in victims && x !in Dropped(v, n);
      forall y | y in Dropped(v, n)
        ensures y in victims - {x}
      {
        DroppedBeforeKept(v, n, y, x);
      }
      SmallerSubset(Dropped(v, n), victims - {x});
    }
  }

  lemma {:induction false} TerminalCount(v: StoreView)
    requires v.Valid()
    ensures |TerminalIds(v.tasks)| == Evictable(v.order, v.LiveIds())
  {
    LiveCount(v.order, v.LiveIds());
    DistinctCardinality(v.order);
    assert v.tasks.Keys == TerminalIds(v.tasks) + v.LiveIds();
  }

  lemma {:induction false} Partition<T>(whole: set<T>, a: set<T>, b: set<T>)
    requires a <= whole && b == whole - a
    ensures |whole| == |a| + |b|
  {
    assert whole == a + b;
  }

  lemma {:induction false} SmallerSubset<T>(a: set<T>, b: set<T>)
    requires a <= b
    ensures |a| <= |b|
  {
    assert b == a + (b - a);
  }

  lemma {:induction false} DroppedSetSize(v: StoreView, n: nat)
    requires v.Valid()
    ensures Dropped(v, n) <= TerminalIds(v.tasks)
    ensures |Dropped(v, n)| == if n <= Evictable(v.order, v.LiveIds()) then n else Evictable(v.order, v.LiveIds())
  {
    var live := v.LiveIds();
    var kept := DropOldest(v.order, live, n);
    DroppedAreEntries(v.order, live, n);
    SurvivorsKeepOrder(v.order, live, n);
    DistinctCardinality(v.order);
    DistinctCardinality(kept);
    assert Elements(kept) <= Elements(v.order);
    forall id | id in live
      ensures id in kept
    {
      assert id in Elements(v.order);
      var i :| 0 <= i < |v.order| && v.order[i] == id;
      SurvivesIff(v.order, live, n, i);
    }
    assert v.tasks.Keys == Elements(kept) + Dropped(v, n);
  }

  // A terminal entry that is dropped was created before any terminal entry that is kept.
  lemma {:induction false} DroppedBeforeKept(v: StoreView, n: nat, y: TaskId, x: TaskId)
    requires v.Valid() && InOrderOfCreation(v.order, v.tasks)
    requires y in Dropped(v, n) && x in TerminalIds(v.tasks) && x !in Dropped(v, n)
    ensures y in TerminalIds(v.tasks) && v.tasks[y].createdAt < v.tasks[x].createdAt
  {
    var live := v.LiveIds();
    assert x in Elements(v.order) && y in Elements(v.order);
    var i :| 0 <= i < |v.order| && v.order[i] == x;
    var j :| 0 <= j < |v.order| && v.order[j] == y;
    SurvivesIff(v.order, live, n, i);
    SurvivesIff(v.order, live, n, j);
    if i < j {
      EvictablePrefix(v.order, live, i, j);
    }
  }

  lemma {:induction false} EvictablePrefix(order: seq<TaskId>, live: set<TaskId>, i: nat, j: nat)
    requires i <= j <= |order|
    ensures Evictable(order[..i], live) <= Evictable(order[..j], live)
  {
    if i == 0 {
    } else {
      assert order[..i][1..] == order[1..][..i-1] && order[..j][1..] == order[1..][..j-1];
      EvictablePrefix(order[1..], live, i - 1, j - 1);
    }
  }

  // Putting a new task, younger than all others, leaves the same tasks in the memory store as in the table.
  lemma {:induction false} PutAgrees(v: StoreView, t: TaskView, maxTasks: nat,
          victims: set<TaskId>, rows': map<TaskId, TaskView>)
    requires v.Valid() && t.id !in v.tasks
    requires InOrderOfCreation(v.order + [t.id], v.tasks[t.id := t])
    requires IsPut(v.tasks, t, maxTasks, victims, rows')
    ensures Inserted(v, t, maxTasks).tasks == rows'
  {
    var w := Appended(v, t);
    AppendedIsValid(v, t);
    OldestAreDropped(w, victims, Excess(w.order, maxTasks));
    RestrictIsRemoval(w, Excess(w.order, maxTasks));
  }

  lemma {:induction false} RestrictIsRemoval(w: StoreView, n: nat)
    ensures Restrict(w.tasks, DropOldest(w.order, w.LiveIds(), n)) == w.tasks - Dropped(w, n)
  {
    var kept := DropOldest(w.order, w.LiveIds(), n);
    assert forall id :: id in kept <==> id in Elements(kept);
  }

  // ---- over whole runs ----

  datatype Change = PutNew(t: TaskView) | Amend(id: TaskId, fn: TaskFields -> TaskFields)

  function MemoryAfter(changes: seq<Change>, maxTasks: nat): StoreView
  {
    if changes == [] then EMPTY_STORE
    else
      var earlier := MemoryAfter(changes[..|changes| - 1], maxTasks);
      match changes[|changes| - 1]
      case PutNew(t) => Inserted(earlier, t, maxTasks)
      case Amend(id, fn) => Updated(earlier, id, fn)
  }

  ghost predicate TableStep(rows: map<TaskId, TaskView>, change: Change, maxTasks: nat, rows': map<TaskId, TaskView>) {
    match change
    case PutNew(t) => exists victims :: IsPut(rows, t, maxTasks, victims, rows')
    case Amend(id, fn) => rows' == Amended(rows, id, fn)
  }

  // The tables the database goes through, whatever ties it breaks.
  ghost predicate TableRun(changes: seq<Change>, maxTasks: nat, tables: seq<map<TaskId, TaskView>>) {
    && |tables| == |changes| + 1 && tables[0] == map[]
    && forall k :: 0 <= k < |changes| ==> TableStep(tables[k], changes[k], maxTasks, tables[k+1])
  }

  // Every put has an id of its own and a later creation instant than the puts before.
  ghost predicate Chronological(changes: seq<Change>) {
    forall i, j :: 0 <= i < j < |changes| && changes[i].PutNew? && changes[j].PutNew? ==>
                     changes[i].t.id != changes[j].t.id && changes[i].t.createdAt < changes[j].t.createdAt
  }

  // The records of a store were put by these changes.
  ghost predicate CameFrom(v: StoreView, changes: seq<Change>) {
    forall id :: id in v.tasks ==>
                   exists k :: 0 <= k < |changes| && changes[k].PutNew? && changes[k].t.id == id
                                  && changes[k].t.createdAt == v.tasks[id].createdAt
  }

  lemma {:induction false} HeadIsOldest(order: seq<TaskId>, rows: map<TaskId, TaskView>)
    requires order != [] && InOrderOfCreation(order, rows)
    ensures InOrderOfCreation(order[1..], rows)
    ensures order[0] in rows && forall id :: id in order[1..] ==> rows[order[0]].createdAt < rows[id].createdAt
  {
  }

  lemma {:induction false} OldestGoesFirst(id: TaskId, order: seq<TaskId>, rows: map<TaskId, TaskView>)
    requires InOrderOfCreation(order, rows) && id in rows
    requires forall k :: k in order ==> rows[id].createdAt < rows[k].createdAt
    ensures InOrderOfCreation([id] + order, rows)
  {
  }

  lemma {:induction false} KeptInOrderOfCreation(order: seq<TaskId>, live: set<TaskId>,
          n: nat, rows: map<TaskId, TaskView>)
    requires InOrderOfCreation(order, rows)
    ensures InOrderOfCreation(DropOldest(order, live, n), rows)
  {
    if n == 0 || order == [] {
    } else {
      var m := if order[0] in live then n else n - 1;
      HeadIsOldest(order, rows);
      KeptInOrderOfCreation(order[1..], live, m, rows);
      DroppedAreEntries(order[1..], live, m);
      if order[0] in live {
        OldestGoesFirst(order[0], DropOldest(order[1..], live, m), rows);
      }
    }
  }

  lemma {:induction false} EvictionKeepsCreation(v: StoreView, maxTasks: nat)
    requires InOrderOfCreation(v.order, v.tasks)
    ensures InOrderOfCreation(Evicted(v, maxTasks).order, Evicted(v, maxTasks).tasks)
  {
    KeptInOrderOfCreation(v.order, v.LiveIds(), Excess(v.order, maxTasks), v.tasks);
  }

  lemma {:induction false} YoungestGoesLast(v: StoreView, t: TaskView)
    requires v.Valid() && InOrderOfCreation(v.order, v.tasks) && t.id !in v.tasks
    requires forall id :: id in v.tasks ==> v.tasks[id].createdAt < t.createdAt
    ensures InOrderOfCreation(v.order + [t.id], v.tasks[t.id := t])
  {
  }

  // The new task is unknown to the store and younger than everything in it.
  lemma {:induction false} PutIsNew(v: StoreView, changes: seq<Change>, t: TaskView)
    requires CameFrom(v, changes) && Chronological(changes + [PutNew(t)])
    ensures t.id !in v.tasks && forall id :: id in v.tasks ==> v.tasks[id].createdAt < t.createdAt
  {
    var all := changes + [PutNew(t)];
    forall id | id in v.tasks
      ensures id != t.id && v.tasks[id].createdAt < t.createdAt
    {
      var k :| 0 <= k < |changes| && changes[k].PutNew? && changes[k].t.id == id
               && changes[k].t.createdAt == v.tasks[id].createdAt;
      assert all[k].t.id != all[|changes|].t.id && all[k].t.createdAt < all[|changes|].t.createdAt;
    }
  }

  lemma {:induction false} OriginsAfterPut(v: StoreView, changes: seq<Change>, t: TaskView, maxTasks: nat)
    requires v.Valid() && CameFrom(v, changes)
    ensures CameFrom(Inserted(v, t, maxTasks), changes + [PutNew(t)])
  {
    InsertionIsSafe(v, t, maxTasks);
    var all := changes + [PutNew(t)];
    forall id | id in Inserted(v, t, maxTasks).tasks
      ensures exists k :: 0 <= k < |all| && all[k].PutNew? && all[k].t.id == id
                            && all[k].t.createdAt == Inserted(v, t, maxTasks).tasks[id].createdAt
    {
      if id == t.id {
        assert all[|changes|] == PutNew(t);
      } else {
        var k :| 0 <= k < |changes| && changes[k].PutNew? && changes[k].t.id == id
                 && changes[k].t.createdAt == v.tasks[id].createdAt;
        assert all[k] == changes[k];
      }
    }
  }

  lemma {:induction false} OriginsAfterAmend(v: StoreView, changes: seq<Change>,
          id: TaskId, fn: TaskFields -> TaskFields)
    requires CameFrom(v, changes)
    ensures CameFrom(Updated(v, id, fn), changes + [Amend(id, fn)])
  {
    var all := changes + [Amend(id, fn)];
    forall i | i in Updated(v, id, fn).tasks
      ensures exists k :: 0 <= k < |all| && all[k].PutNew? && all[k].t.id == i
                            && all[k].t.createdAt == Updated(v, id, fn).tasks[i].createdAt
    {
      var k :| 0 <= k < |changes| && changes[k].PutNew? && changes[k].t.id == i
               && changes[k].t.createdAt == v.tasks[i].createdAt;
      assert all[k] == changes[k];
    }
  }

  // What the run keeps in the memory store.
  ghost predicate Chronicle(v: StoreView, changes: seq<Change>) {
    v.Valid() && InOrderOfCreation(v.order, v.tasks) && CameFrom(v, changes)
  }

  lemma {:induction false} ChronicleAfterPut(v: StoreView, changes: seq<Change>, t: TaskView, maxTasks: nat,
          victims: set<TaskId>, rows': map<TaskId, TaskView>)
    requires Chronicle(v, changes) && Chronological(changes + [PutNew(t)])
    requires IsPut(v.tasks, t, maxTasks, victims, rows')
    ensures Chronicle(Inserted(v, t, maxTasks), changes + [PutNew(t)]) && Inserted(v, t, maxTasks).tasks == rows'
  {
    PutIsNew(v, changes, t);
    YoungestGoesLast(v, t);
    PutAgrees(v, t, maxTasks, victims, rows');
    InsertionIsSafe(v, t, maxTasks);
    EvictionKeepsCreation(Appended(v, t), maxTasks);
    OriginsAfterPut(v, changes, t, maxTasks);
  }

  lemma {:induction false} ChronicleAfterAmend(v: StoreView, changes: seq<Change>,
          id: TaskId, fn: TaskFields -> TaskFields)
    requires Chronicle(v, changes)
    ensures Chronicle(Updated(v, id, fn), changes + [Amend(id, fn)])
    ensures Updated(v, id, fn).tasks == Amended(v.tasks, id, fn)
  {
    OriginsAfterAmend(v, changes, id, fn);
    assert Updated(v, id, fn).tasks.Keys == v.tasks.Keys;
  }

  // Through any run of puts of new tasks and updates, both stores hold the same records after every change.
  lemma {:induction false} StoresAgree(changes: seq<Change>, maxTasks: nat, tables: seq<map<TaskId, TaskView>>)
    requires Chronological(changes) && TableRun(changes, maxTasks, tables)
    ensures Chronicle(MemoryAfter(changes, maxTasks), changes)
    ensures MemoryAfter(changes, maxTasks).tasks == tables[|changes|]
  {
    if changes == [] {
    } else {
      var earlier, last := changes[..|changes| - 1], changes[|changes| - 1];
      assert changes == earlier + [last];
      StoresAgree(earlier, maxTasks, tables[..|changes|]);
      assert TableStep(tables[|earlier|], last, maxTasks, tables[|changes|]);
      var v := MemoryAfter(earlier, maxTasks);
      match last
      case PutNew(t) =>
        var victims :| IsPut(v.tasks, t, maxTasks, victims, tables[|changes|]);
        ChronicleAfterPut(v, earlier, t, maxTasks, victims, tables[|changes|]);
      case Amend(id, fn) =>
        ChronicleAfterAmend(v, earlier, id, fn);
    }
  }

  // Putting a known id again evicts in the table but not in memory, and replaces the identity in memory but not in the
  // table: the stores stay equal exactly when neither shows.
  lemma {:induction false} PutAgainAgreesIff(v: StoreView, t: TaskView, maxTasks: nat,
          victims: set<TaskId>, rows': map<TaskId, TaskView>)
    requires v.Valid() && t.id in v.tasks && IsPut(v.tasks, t, maxTasks, victims, rows')
    ensures Inserted(v, t, maxTasks).tasks == rows' <==>
              && (|v.tasks| <= maxTasks || TerminalIds(v.tasks[t.id := t]) == {})
              && t.provider == v.tasks[t.id].provider && t.createdAt == v.tasks[t.id].createdAt
  {
    var upserted := Upserted(v.tasks, t);
    assert upserted.Keys == v.tasks.Keys && |upserted| == |v.tasks|;
    assert TerminalIds(upserted) == TerminalIds(v.tasks[t.id := t]);
    if victims == {} {
      assert rows' == upserted;
      assert Inserted(v, t, maxTasks).tasks == v.tasks[t.id := t];
      assert v.tasks[t.id := t][t.id] == t;
    } else {
      var gone :| gone in victims;
      assert gone in Inserted(v, t, maxTasks).tasks && gone !in rows';
    }
  }
}
