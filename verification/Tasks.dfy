/** Delegation records and the abstract contents of a task store. */
module Tasks {
  import opened Finite

  type TaskId = string

  datatype TaskStatus = Pending | Running | Completed | Failed | Cancelled | TimedOut

  predicate Live(s: TaskStatus) {
    s == Pending || s == Running
  }

  predicate IsTerminalStatus(s: TaskStatus) {
    match s
    case Completed | Failed | Cancelled | TimedOut => true
    case _ => false
  }

  // The part of a record that Store.Update may change.
  datatype TaskFields = TaskFields(status: TaskStatus, exitCode: int, output: string, error: TaskError)

  datatype TaskError = NoError | CliFailure(message: string) | TimeoutReached | NonZeroExit(code: int)

  // What the CLI executor hands back: an error, or the result of the subprocess.
  datatype CliOutcome = CliError(message: string) | Ran(timedOut: bool, exitCode: int, output: string)

  // What a record says about the run it was finished by; before is the record the final update found.
  ghost predicate Tells(r: TaskFields, before: TaskFields, outcome: CliOutcome, cancelled: bool) {
    match outcome
    case CliError(message) =>
      r.status == Failed && r.error == CliFailure(message) && r.output == before.output && r.exitCode == before.exitCode
    case Ran(timedOut, exitCode, output) =>
      && r.output == output && r.exitCode == exitCode
      && (r.status == TimedOut <==> timedOut)
      && (r.status == Cancelled <==> cancelled && !timedOut)
      && (r.status == Failed <==> exitCode != 0 && !timedOut && !cancelled)
      && (r.status == Completed <==> exitCode == 0 && !timedOut && !cancelled)
      && (r.status == TimedOut ==> r.error == TimeoutReached)
      && (r.status == Failed ==> r.error == NonZeroExit(exitCode))
      && (r.status == Cancelled || r.status == Completed ==> r.error == before.error)
  }

  // The final update of run(); ctxDone is whether the task's context has been cancelled.
  function Finalize(outcome: CliOutcome, ctxDone: bool, f: TaskFields): (r: TaskFields)
    ensures IsTerminalStatus(r.status)
    ensures r.status == Completed <==> outcome.Ran? && !outcome.timedOut && !ctxDone && outcome.exitCode == 0
  {
    match outcome
    case CliError(message) => f.(status := Failed, error := CliFailure(message))
    case Ran(timedOut, exitCode, output) =>
      if timedOut then TaskFields(TimedOut, exitCode, output, TimeoutReached)
      else if ctxDone then f.(status := Cancelled, output := output, exitCode := exitCode)
      else if exitCode != 0 then TaskFields(Failed, exitCode, output, NonZeroExit(exitCode))
      else f.(status := Completed, output := output, exitCode := exitCode)
  }

  lemma {:induction false} FinalizeTells(outcome: CliOutcome, ctxDone: bool, f: TaskFields)
    ensures Tells(Finalize(outcome, ctxDone, f), f, outcome, ctxDone)
  {
  }

  function MarkRunning(f: TaskFields): TaskFields {
    f.(status := Running)
  }

  // Cancel records its intent only while the task looks live.
  function MarkCancelled(f: TaskFields): TaskFields {
    if Live(f.status) then f.(status := Cancelled) else f
  }

  datatype TaskView = TaskView(id: TaskId, provider: string, createdAt: int, fields: TaskFields)

  /** The contents of a store: insertion order and records. */
  datatype StoreView = StoreView(order: seq<TaskId>, tasks: map<TaskId, TaskView>)
  {
    ghost predicate Valid() {
      && Distinct(order)
      && Elements(order) == tasks.Keys
      && forall id :: id in tasks ==> tasks[id].id == id
    }

    function LiveIds(): set<TaskId> {
      set id | id in tasks && Live(tasks[id].fields.status)
    }
  }

  const EMPTY_STORE := StoreView([], map[])

  // ---- eviction as one deletion ----

  // Leaves out the first n entries that are not live.
  function DropOldest(order: seq<TaskId>, live: set<TaskId>, n: nat): seq<TaskId>
  {
    if n == 0 || order == [] then order
    else if order[0] in live then [order[0]] + DropOldest(order[1..], live, n)
    else DropOldest(order[1..], live, n - 1)
  }

  function Restrict(tasks: map<TaskId, TaskView>, order: seq<TaskId>): map<TaskId, TaskView> {
    map id | id in tasks && id in order :: tasks[id]
  }

  function Excess(order: seq<TaskId>, maxTasks: nat): nat {
    if |order| > maxTasks then |order| - maxTasks else 0
  }

  function Evicted(v: StoreView, maxTasks: nat): StoreView {
    var order := DropOldest(v.order, v.LiveIds(), Excess(v.order, maxTasks));
    StoreView(order, Restrict(v.tasks, order))
  }

  function Appended(v: StoreView, t: TaskView): StoreView {
    StoreView(v.order + [t.id], v.tasks[t.id := t])
  }

  function Inserted(v: StoreView, t: TaskView, maxTasks: nat): StoreView {
    if t.id in v.tasks then v.(tasks := v.tasks[t.id := t])
    else Evicted(Appended(v, t), maxTasks)
  }

  function Updated(v: StoreView, id: TaskId, fn: TaskFields -> TaskFields): StoreView {
    if id in v.tasks then v.(tasks := v.tasks[id := v.tasks[id].(fields := fn(v.tasks[id].fields))]) else v
  }

  // ---- what the deletion keeps ----

  // How many of the entries may be evicted.
  function Evictable(order: seq<TaskId>, live: set<TaskId>): nat
  {
    if order == [] then 0 else (if order[0] in live then 0 else 1) + Evictable(order[1..], live)
  }

  // The subsequence of the order whose entries are in a set.
  function Filter(order: seq<TaskId>, keep: set<TaskId>): seq<TaskId>
  {
    if order == [] then [] else (if order[0] in keep then [order[0]] else []) + Filter(order[1..], keep)
  }

  lemma {:induction false} DroppedAreEntries(order: seq<TaskId>, live: set<TaskId>, n: nat)
    ensures forall id :: id in DropOldest(order, live, n) ==> id in order
  {
    if n == 0 || order == [] {
    } else {
      DroppedAreEntries(order[1..], live, n);
      DroppedAreEntries(order[1..], live, n - 1);
    }
  }

  // An entry survives exactly when it is live or at least n evictable entries come before it.
  lemma {:induction false} SurvivesIff(order: seq<TaskId>, live: set<TaskId>, n: nat, i: nat)
    requires Distinct(order) && i < |order|
    ensures order[i] in DropOldest(order, live, n) <==> order[i] in live || Evictable(order[..i], live) >= n
  {
    if n == 0 {
    } else {
      var rest := order[1..];
      DroppedAreEntries(rest, live, n);
      DroppedAreEntries(rest, live, n - 1);
      if i > 0 {
        assert order[..i][1..] == rest[..i-1] && rest[i-1] == order[i];
        SurvivesIff(rest, live, if order[0] in live then n else n - 1, i - 1);
      }
    }
  }

  // The survivors keep their order, and as many entries go as are in excess or evictable, whichever is less.
  lemma {:induction false} SurvivorsKeepOrder(order: seq<TaskId>, live: set<TaskId>, n: nat)
    requires Distinct(order)
    ensures Distinct(DropOldest(order, live, n))
    ensures DropOldest(order, live, n) == Filter(order, Elements(DropOldest(order, live, n)))
    ensures |DropOldest(order, live, n)|
            == |order| - (if n <= Evictable(order, live) then n else Evictable(order, live))
  {
    if n == 0 || order == [] {
      FilterAll(order, Elements(order));
    } else {
      var rest := order[1..];
      var m := if order[0] in live then n else n - 1;
      var kept := DropOldest(rest, live, m);
      SurvivorsKeepOrder(rest, live, m);
      DroppedAreEntries(rest, live, m);
      assert order[0] !in rest;
      FilterIgnores(rest, Elements(kept), order[0]);
      if order[0] in live {
        assert Elements([order[0]] + kept) == Elements(kept) + {order[0]};
      }
    }
  }

  lemma {:induction false} FilterAll(order: seq<TaskId>, keep: set<TaskId>)
    requires forall id :: id in order ==> id in keep
    ensures Filter(order, keep) == order
  {
    if order == [] {
    } else {
      FilterAll(order[1..], keep);
    }
  }

  lemma {:induction false} FilterIgnores(order: seq<TaskId>, keep: set<TaskId>, id: TaskId)
    requires id !in order
    ensures Filter(order, keep + {id}) == Filter(order, keep)
  {
    if order == [] {
    } else {
      FilterIgnores(order[1..], keep, id);
    }
  }

  lemma {:induction false} EvictableAtMostLength(order: seq<TaskId>, live: set<TaskId>)
    ensures Evictable(order, live) <= |order|
    ensures Evictable(order, live) == 0 <==> forall id :: id in order ==> id in live
  {
    if order == [] {
    } else {
      EvictableAtMostLength(order[1..], live);
    }
  }

  // Eviction keeps the store consistent, keeps every live task, and leaves it within its cap unless only live tasks
  // remain.
  lemma {:induction false} EvictionIsSafe(v: StoreView, maxTasks: nat)
    requires v.Valid()
    ensures Evicted(v, maxTasks).Valid()
    ensures v.LiveIds() <= Evicted(v, maxTasks).tasks.Keys <= v.tasks.Keys
    ensures forall id :: id in Evicted(v, maxTasks).tasks ==> Evicted(v, maxTasks).tasks[id] == v.tasks[id]
    ensures |Evicted(v, maxTasks).order| <= maxTasks || Evicted(v, maxTasks).tasks.Keys == v.LiveIds()
  {
    var live, n := v.LiveIds(), Excess(v.order, maxTasks);
    var kept := DropOldest(v.order, live, n);
    SurvivorsKeepOrder(v.order, live, n);
    DroppedAreEntries(v.order, live, n);
    EvictableAtMostLength(v.order, live);
    forall id | id in live
      ensures id in kept
    {
      assert id in Elements(v.order);
      var i :| 0 <= i < |v.order| && v.order[i] == id;
      SurvivesIff(v.order, live, n, i);
    }
    if |kept| > maxTasks {
      assert |kept| == |v.order| - Evictable(v.order, live);
      LiveCount(v.order, live);
      DistinctCardinality(kept);
      assert live <= Elements(kept) && |Elements(kept)| == |live|;
      SubsetOfSameSize(live, Elements(kept));
    }
  }

  lemma {:induction false} LiveCount(order: seq<TaskId>, live: set<TaskId>)
    requires Distinct(order) && live <= Elements(order)
    ensures |live| == |order| - Evictable(order, live)
  {
    if order == [] {
    } else {
      var rest := order[1..];
      assert order[0] !in rest;
      var others := live - {order[0]};
      EvictableIgnores(rest, others, order[0]);
      LiveCount(rest, others);
      if order[0] in live {
        assert live == others + {order[0]};
      } else {
        assert live == others;
      }
    }
  }

  lemma {:induction false} EvictableIgnores(order: seq<TaskId>, live: set<TaskId>, id: TaskId)
    requires id !in order
    ensures Evictable(order, live + {id}) == Evictable(order, live)
  {
    if order == [] {
    } else {
      EvictableIgnores(order[1..], live, id);
    }
  }

  lemma {:induction false} SubsetOfSameSize<T>(a: set<T>, b: set<T>)
    requires a <= b && |a| == |b|
    ensures a == b
  {
    assert b == a + (b - a) && |b| == |a| + |b - a|;
  }

  lemma {:induction false} AppendedIsValid(v: StoreView, t: TaskView)
    requires v.Valid() && t.id !in v.tasks
    ensures Appended(v, t).Valid()
    ensures |Appended(v, t).tasks| == |Appended(v, t).order|
  {
    var w := Appended(v, t);
    assert t.id !in Elements(v.order);
    assert Elements(w.order) == Elements(v.order) + {t.id};
    DistinctCardinality(w.order);
    assert |w.tasks| == |w.tasks.Keys|;
  }

  // Inserting never loses a live task and never changes a record other than the inserted one.
  lemma {:induction false} InsertionIsSafe(v: StoreView, t: TaskView, maxTasks: nat)
    requires v.Valid()
    ensures Inserted(v, t, maxTasks).Valid()
    ensures Live(t.fields.status) ==> t.id in Inserted(v, t, maxTasks).tasks
    ensures forall id :: id in v.LiveIds() && id != t.id ==> id in Inserted(v, t, maxTasks).tasks
    ensures forall id :: id in Inserted(v, t, maxTasks).tasks ==>
              Inserted(v, t, maxTasks).tasks[id] == if id == t.id then t else v.tasks[id]
    ensures Inserted(v, t, maxTasks).tasks.Keys <= v.tasks.Keys + {t.id}
  {
    if t.id !in v.tasks {
      AppendedIsValid(v, t);
      EvictionIsSafe(Appended(v, t), maxTasks);
      assert forall id :: id in v.LiveIds() && id != t.id ==> id in Appended(v, t).LiveIds();
    }
  }
}
