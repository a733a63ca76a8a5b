/** The bound on a concurrency cap is exact: runs that reach it, for every cap and every number of callers. */
module OvershootWitness {
  import opened Wrappers
  import opened BudgetTypes
  import opened Router
  import opened Ledger
  import opened Tasks
  import opened Inflight
  import opened DelegationSteps
  import opened Protocol
  import opened Overshoot
  import opened Sequences

  // One free provider that the router always has to take.
  function Solo(cap: int): Config {
    var pc := ProviderConfig(PROVIDER_LOCAL, Local, 1.0, 0, 0, "", map[], 0.0, true, cap);
    Config(map[PROVIDER_LOCAL := pc], {PROVIDER_LOCAL}, 1)
  }

  const SETUP := Housekeep(InitProvider(PROVIDER_LOCAL, 0, 0, 0, 0))

  const ONE_ROW := Tables(map[PROVIDER_LOCAL := Row(0, 0, 0, 0, 0, 0, true, 0)], [])

  lemma {:induction false} LocalIsPicked(cap: int, s: State, d: Delegation)
    returns (out: Result<RouteResponse, RouteError>)
    requires s.budget == ONE_ROW && LoadSeen(d, PROVIDER_LOCAL) < cap
    ensures out.Success? && out.value.provider == PROVIDER_LOCAL && RouterMayAnswer(Solo(cap), s, d, out)
  {
    var scene := Scene(Solo(cap).configs, StatusOf(s.budget), d.Request());
    assert NormalisesCost(scene.configs, 1.0) && scene.Admissible(PROVIDER_LOCAL);
    out := Success(RouteResponse(PROVIDER_LOCAL, scene.configs[PROVIDER_LOCAL].ModelForComplexity(d.complexity), None,
                                 scene.WinnerWarning(PROVIDER_LOCAL), Min(scene.ScoreAt(PROVIDER_LOCAL, 1.0), 1.0)));
    assert scene.DecidesAt(out, 1.0);
  }

  // ---- the states of the run ----

  ghost predicate IsWaiting(d: Delegation, cap: int) {
    d.phase == Snapshotted && !d.hinted && LoadSeen(d, PROVIDER_LOCAL) < cap
  }

  // Some callers wait with their snapshot, at most one is past routing, and the rest have been counted.
  ghost predicate ShapeOf(ds: map<TaskId, Delegation>, inflight: map<Provider, int>, cap: int, waiting: set<TaskId>,
          moving: set<TaskId>, phase: Phase, held: nat) {
    && LoadIn(inflight, PROVIDER_LOCAL) == held
    && waiting + moving <= ds.Keys && waiting !! moving
    && Those(ds, Window()) == waiting + moving
    && (forall id :: id in waiting ==> IsWaiting(ds[id], cap))
    && (forall id :: id in moving ==> ds[id].phase == phase && ds[id].provider == PROVIDER_LOCAL && !ds[id].hinted)
  }

  ghost predicate Shape(s: State, cap: int, waiting: set<TaskId>, moving: set<TaskId>, phase: Phase, held: nat) {
    s.budget == ONE_ROW && ShapeOf(s.delegations, s.inflight, cap, waiting, moving, phase, held)
  }

  // A run within the assumptions of the bound.
  ghost predicate Allowed(cap: int, steps: seq<Step>, n: nat) {
    && Legal(Solo(cap), steps) && NoHintsFor(steps, PROVIDER_LOCAL)
    && WindowAtMost(Solo(cap), steps, n)
  }

  // After a step that leaves the window small enough the run is still allowed.
  lemma {:induction false} AllowOne(cap: int, steps: seq<Step>, step: Step, n: nat)
    requires Allowed(cap, steps, n) && !step.BeginHinted?
    requires Enabled(Solo(cap), StateAfter(Solo(cap), steps), step)
    requires |Those(DelegationsAfter(Solo(cap), StateAfter(Solo(cap), steps), step), Window())| <= n
    ensures Allowed(cap, steps + [step], n)
    ensures StateAfter(Solo(cap), steps + [step])
            == Next(Solo(cap), StateAfter(Solo(cap), steps), step)
  {
    ExtendRun(Solo(cap), steps, step);
    PrefixesExtend(WindowFits(Solo(cap), n), steps, step);
  }

  ghost predicate NamesShorter(s: State, length: nat) {
    forall id :: id in s.delegations ==> |id| < length
  }

  // ---- one caller at a time ----

  lemma {:induction false} NewcomerWaits(cap: int, s: State, id: TaskId)
    requires Load(s, PROVIDER_LOCAL) < cap && id !in s.delegations
    ensures IsWaiting(DelegationAfter(Solo(cap), s, Begin(id, Medium, Normal, 0)), cap)
  {
    SnapshotSeesLoad(s, PROVIDER_LOCAL);
  }

  lemma {:induction false} ShapeWithNewcomer(ds: map<TaskId, Delegation>, inflight: map<Provider, int>, cap: int,
          waiting: set<TaskId>, held: nat, id: TaskId, d: Delegation)
    requires ShapeOf(ds, inflight, cap, waiting, {}, Routed, held) && id !in ds && IsWaiting(d, cap)
    ensures ShapeOf(ds[id := d], inflight, cap, waiting + {id}, {}, Routed, held)
  {
    ThoseAfterSet(ds, id, d, Window());
    assert d.InWindow() && waiting + {id} + {} == waiting + {} + {id};
  }

  lemma {:induction false} ShapeWithPick(ds: map<TaskId, Delegation>, inflight: map<Provider, int>, cap: int,
          waiting: set<TaskId>, held: nat, id: TaskId, d: Delegation)
    requires ShapeOf(ds, inflight, cap, waiting, {}, Routed, held) && id in waiting
    requires d.phase == Routed && d.provider == PROVIDER_LOCAL && !d.hinted
    ensures ShapeOf(ds[id := d], inflight, cap, waiting - {id}, {id}, Routed, held)
  {
    ThoseAfterSet(ds, id, d, Window());
    assert d.InWindow() && waiting - {id} + {id} == waiting;
  }

  lemma {:induction false} BeginShape(cap: int, s: State, id: TaskId, waiting: set<TaskId>, held: nat)
    requires Shape(s, cap, waiting, {}, Routed, held) && id !in s.delegations && held < cap
    ensures var ds := DelegationsAfter(Solo(cap), s, Begin(id, Medium, Normal, 0));
            ShapeOf(ds, s.inflight, cap, waiting + {id}, {}, Routed, held)
  {
    var d := DelegationAfter(Solo(cap), s, Begin(id, Medium, Normal, 0));
    NewcomerWaits(cap, s, id);
    ShapeWithNewcomer(s.delegations, s.inflight, cap, waiting, held, id, d);
  }

  lemma {:induction false} DecideShape(cap: int, s: State, id: TaskId, out: Result<RouteResponse, RouteError>,
          waiting: set<TaskId>, held: nat)
    requires Shape(s, cap, waiting, {}, Routed, held) && id in waiting
    requires out.Success? && out.value.provider == PROVIDER_LOCAL
    ensures var ds := DelegationsAfter(Solo(cap), s, Decide(id, out));
            ShapeOf(ds, s.inflight, cap, waiting - {id}, {id}, Routed, held)
  {
    ShapeWithPick(s.delegations, s.inflight, cap, waiting, held, id, DelegationAfter(Solo(cap), s, Decide(id, out)));
  }

  lemma {:induction false} RecordShape(cap: int, s: State, id: TaskId, waiting: set<TaskId>, held: nat)
    requires Shape(s, cap, waiting, {id}, Routed, held)
    ensures Ready(s, Record(id, 0))
    ensures var ds := DelegationsAfter(Solo(cap), s, Record(id, 0));
            ShapeOf(ds, s.inflight, cap, waiting, {id}, Recorded, held)
  {
    ThoseAfterSet(s.delegations, id, DelegationAfter(Solo(cap), s, Record(id, 0)), Window());
  }

  lemma {:induction false} RegisterShape(cap: int, s: State, id: TaskId, waiting: set<TaskId>, held: nat)
    requires Shape(s, cap, waiting, {id}, Recorded, held)
    ensures Ready(s, Register(id))
    ensures var ds := DelegationsAfter(Solo(cap), s, Register(id));
            ShapeOf(ds, s.inflight, cap, waiting, {id}, Cancellable, held)
  {
    ThoseAfterSet(s.delegations, id, DelegationAfter(Solo(cap), s, Register(id)), Window());
  }

  lemma {:induction false} CountShape(cap: int, s: State, id: TaskId, waiting: set<TaskId>, held: nat)
    requires Shape(s, cap, waiting, {id}, Cancellable, held)
    ensures Ready(s, Count(id))
    ensures var ds := DelegationsAfter(Solo(cap), s, Count(id));
            ShapeOf(ds, InflightAfter(s, Count(id)), cap, waiting, {}, Routed, held + 1)
  {
    ThoseAfterSet(s.delegations, id, DelegationAfter(Solo(cap), s, Count(id)), Window());
  }

  // ---- runs ----

  lemma {:induction false} WaitOne(cap: int, steps: seq<Step>, n: nat, waiting: set<TaskId>, held: nat, length: nat)
    returns (more: seq<Step>, id: TaskId)
    requires Allowed(cap, steps, n) && Shape(StateAfter(Solo(cap), steps), cap, waiting, {}, Routed, held)
    requires NamesShorter(StateAfter(Solo(cap), steps), length) && held < cap && |waiting| < n
    ensures id !in waiting && Allowed(cap, more, n)
    ensures Shape(StateAfter(Solo(cap), more), cap, waiting + {id}, {}, Routed, held)
    ensures NamesShorter(StateAfter(Solo(cap), more), length + 1)
  {
    var s := StateAfter(Solo(cap), steps);
    id := seq(length, _ => 'x');
    BeginShape(cap, s, id, waiting, held);
    assert waiting + {id} + {} == waiting + {id};
    AllowOne(cap, steps, Begin(id, Medium, Normal, 0), n);
    more := steps + [Begin(id, Medium, Normal, 0)];
  }

  // From its snapshot to the increment without interference.
  lemma {:induction false} AdmitOne(cap: int, steps: seq<Step>, n: nat, id: TaskId, waiting: set<TaskId>,
          held: nat, length: nat)
    returns (more: seq<Step>)
    requires Allowed(cap, steps, n) && Shape(StateAfter(Solo(cap), steps), cap, waiting, {}, Routed, held)
    requires NamesShorter(StateAfter(Solo(cap), steps), length) && id in waiting && |waiting| <= n
    ensures Allowed(cap, more, n) && Shape(StateAfter(Solo(cap), more), cap, waiting - {id}, {}, Routed, held + 1)
    ensures NamesShorter(StateAfter(Solo(cap), more), length)
  {
    var cfg := Solo(cap);
    var s := StateAfter(cfg, steps);
    var out := LocalIsPicked(cap, s, s.delegations[id]);
    DecideShape(cap, s, id, out, waiting, held);
    assert waiting - {id} + {id} == waiting;
    AllowOne(cap, steps, Decide(id, out), n);
    more := AdmitRouted(cap, steps + [Decide(id, out)], n, id, waiting - {id}, held, length);
    more := AdmitRecorded(cap, more, n, id, waiting - {id}, held, length);
    more := AdmitRegistered(cap, more, n, id, waiting - {id}, held, length);
  }

  lemma {:induction false} AdmitRouted(cap: int, steps: seq<Step>, n: nat, id: TaskId, waiting: set<TaskId>,
          held: nat, length: nat)
    returns (more: seq<Step>)
    requires Allowed(cap, steps, n) && Shape(StateAfter(Solo(cap), steps), cap, waiting, {id}, Routed, held)
    requires NamesShorter(StateAfter(Solo(cap), steps), length) && |waiting + {id}| <= n
    ensures Allowed(cap, more, n) && Shape(StateAfter(Solo(cap), more), cap, waiting, {id}, Recorded, held)
    ensures NamesShorter(StateAfter(Solo(cap), more), length)
  {
    RecordShape(cap, StateAfter(Solo(cap), steps), id, waiting, held);
    AllowOne(cap, steps, Record(id, 0), n);
    more := steps + [Record(id, 0)];
  }

  lemma {:induction false} AdmitRecorded(cap: int, steps: seq<Step>, n: nat, id: TaskId, waiting: set<TaskId>,
          held: nat, length: nat)
    returns (more: seq<Step>)
    requires Allowed(cap, steps, n) && Shape(StateAfter(Solo(cap), steps), cap, waiting, {id}, Recorded, held)
    requires NamesShorter(StateAfter(Solo(cap), steps), length) && |waiting + {id}| <= n
    ensures Allowed(cap, more, n) && Shape(StateAfter(Solo(cap), more), cap, waiting, {id}, Cancellable, held)
    ensures NamesShorter(StateAfter(Solo(cap), more), length)
  {
    RegisterShape(cap, StateAfter(Solo(cap), steps), id, waiting, held);
    AllowOne(cap, steps, Register(id), n);
    more := steps + [Register(id)];
  }

  lemma {:induction false} AdmitRegistered(cap: int, steps: seq<Step>, n: nat, id: TaskId, waiting: set<TaskId>,
          held: nat, length: nat)
    returns (more: seq<Step>)
    requires Allowed(cap, steps, n) && Shape(StateAfter(Solo(cap), steps), cap, waiting, {id}, Cancellable, held)
    requires NamesShorter(StateAfter(Solo(cap), steps), length) && |waiting| <= n
    ensures Allowed(cap, more, n) && Shape(StateAfter(Solo(cap), more), cap, waiting, {}, Routed, held + 1)
    ensures NamesShorter(StateAfter(Solo(cap), more), length)
  {
    CountShape(cap, StateAfter(Solo(cap), steps), id, waiting, held);
    assert waiting + {} == waiting;
    AllowOne(cap, steps, Count(id), n);
    more := steps + [Count(id)];
  }

  // ---- reaching the bound ----

  lemma {:induction false} SetUp(cap: int, n: nat) returns (steps: seq<Step>)
    ensures Allowed(cap, steps, n) && Shape(StateAfter(Solo(cap), steps), cap, {}, {}, Routed, 0)
    ensures NamesShorter(StateAfter(Solo(cap), steps), 0)
  {
    var none: seq<Step> := [];
    assert Those(INITIAL.delegations, Window()) == {};
    assert none[..0] == none;
    AllowOne(cap, none, SETUP, n);
    steps := none + [SETUP];
  }

  // Callers that come one after the other fill the provider to its cap.
  lemma {:induction false} FillUp(cap: int, n: nat, held: nat) returns (steps: seq<Step>)
    requires held <= cap && n > 0
    ensures Allowed(cap, steps, n) && Shape(StateAfter(Solo(cap), steps), cap, {}, {}, Routed, held)
    ensures NamesShorter(StateAfter(Solo(cap), steps), held)
  {
    if held == 0 {
      steps := SetUp(cap, n);
    } else {
      steps := FillUp(cap, n, held - 1);
      var id;
      steps, id := WaitOne(cap, steps, n, {}, held - 1, held - 1);
      steps := AdmitOne(cap, steps, n, id, {} + {id}, held - 1, held);
    }
  }

  // Callers that come together all see the room that is left for one of them.
  lemma {:induction false} CrowdWaits(cap: int, n: nat, crowd: nat) returns (steps: seq<Step>, waiting: set<TaskId>)
    requires cap > 0 && crowd <= n && n > 0
    ensures |waiting| == crowd && Allowed(cap, steps, n)
    ensures Shape(StateAfter(Solo(cap), steps), cap, waiting, {}, Routed, cap - 1)
    ensures NamesShorter(StateAfter(Solo(cap), steps), cap - 1 + crowd)
  {
    if crowd == 0 {
      steps := FillUp(cap, n, cap - 1);
      waiting := {};
    } else {
      steps, waiting := CrowdWaits(cap, n, crowd - 1);
      var id;
      steps, id := WaitOne(cap, steps, n, waiting, cap - 1, cap - 1 + crowd - 1);
      waiting := waiting + {id};
    }
  }

  lemma {:induction false} CrowdIsAdmitted(cap: int, steps: seq<Step>, n: nat, waiting: set<TaskId>,
          held: nat, length: nat)
    returns (more: seq<Step>)
    requires Allowed(cap, steps, n) && Shape(StateAfter(Solo(cap), steps), cap, waiting, {}, Routed, held)
    requires NamesShorter(StateAfter(Solo(cap), steps), length) && |waiting| <= n
    ensures Allowed(cap, more, n) && Load(StateAfter(Solo(cap), more), PROVIDER_LOCAL) == held + |waiting|
    decreases |waiting|
  {
    if waiting == {} {
      more := steps;
    } else {
      var id :| id in waiting;
      more := AdmitOne(cap, steps, n, id, waiting, held, length);
      more := CrowdIsAdmitted(cap, more, n, waiting - {id}, held + 1, length);
    }
  }

  // For every cap and every number of callers in the window, some run takes the count to cap - 1 + n.
  lemma {:induction false} CapOvershootIsReached(cap: int, n: nat) returns (cfg: Config, steps: seq<Step>)
    requires cap > 0 && n > 0
    ensures PROVIDER_LOCAL in cfg.configs && cfg.configs[PROVIDER_LOCAL].maxConcurrency == cap
    ensures Legal(cfg, steps) && NoHintsFor(steps, PROVIDER_LOCAL) && WindowAtMost(cfg, steps, n)
    ensures HeldBy(StateAfter(cfg, steps), PROVIDER_LOCAL) == cap - 1 + n
  {
    cfg := Solo(cap);
    var waiting;
    steps, waiting := CrowdWaits(cap, n, n);
    steps := CrowdIsAdmitted(cap, steps, n, waiting, cap - 1, cap - 1 + n);
    InflightCountsOutstanding(cfg, steps);
  }

  // ---- the cap is kept exactly by single callers ----

  // Routed callers respect the cap.
  ghost predicate CapKept(n: nat, cfg: Config, steps: seq<Step>, p: Provider) {
    Legal(cfg, steps) && WindowAtMost(cfg, steps, n)
    && p in cfg.configs && cfg.configs[p].maxConcurrency > 0 && p != NO_PROVIDER ==>
      RoutedTo(StateAfter(cfg, steps), p) <= cfg.configs[p].maxConcurrency
  }

  lemma {:induction false} CapIsKept(n: nat, cfg: Config, steps: seq<Step>, p: Provider)
    requires n <= 1
    ensures CapKept(n, cfg, steps, p)
  {
    if Legal(cfg, steps) && WindowAtMost(cfg, steps, n) {
      if p in cfg.configs && cfg.configs[p].maxConcurrency > 0 && p != NO_PROVIDER {
        CapOvershootBound(cfg, steps, p, n);
      }
    }
  }

  lemma {:induction false} CapIsBroken(n: nat) returns (cfg: Config, steps: seq<Step>)
    requires n > 1
    ensures !CapKept(n, cfg, steps, PROVIDER_LOCAL)
  {
    cfg, steps := CapOvershootIsReached(1, n);
    NoHintsAllRouted(cfg, steps, PROVIDER_LOCAL);
  }

  // Routed callers respect every cap in every run with at most n callers between snapshot and increment exactly when
  // n is at most one.
  lemma {:induction false} CapIsKeptIff(n: nat)
    ensures (forall cfg, steps, p :: CapKept(n, cfg, steps, p)) <==> n <= 1
  {
    if n <= 1 {
      forall cfg, steps, p
        ensures CapKept(n, cfg, steps, p)
      {
        CapIsKept(n, cfg, steps, p);
      }
    } else {
      var cfg, steps := CapIsBroken(n);
    }
  }
}
