/** The bound on a budget overrun is exact: runs that reach it, for every number of callers, estimate and excess. */
module OverrunWitness {
  import opened Wrappers
  import opened Sequences
  import opened BudgetTypes
  import opened Router
  import opened Ledger
  import opened Tasks
  import opened Inflight
  import opened DelegationSteps
  import opened Protocol
  import opened Overrun

  // One cloud provider whose daily and weekly limits are one estimate.
  function Tight(e: nat): Config {
    var pc := ProviderConfig(PROVIDER_CLAUDE, Cloud, 1.0, e, e, "", map[], 0.0, false, 0);
    Config(map[PROVIDER_CLAUDE := pc], {PROVIDER_CLAUDE}, 1)
  }

  function RowWith(e: nat, used: int, available: bool, errors: int): Row {
    Row(used, e, used, e, 0, 0, available, errors)
  }

  function SetUpStep(e: nat): Step {
    Housekeep(InitProvider(PROVIDER_CLAUDE, e, e, 0, 0))
  }

  // Nothing is used yet.
  ghost predicate Fresh(s: State, e: nat) {
    PROVIDER_CLAUDE in s.budget.rows && s.budget.rows[PROVIDER_CLAUDE] == RowWith(e, 0, true, 0)
  }

  lemma {:induction false} ClaudeIsPicked(e: nat, s: State, d: Delegation)
    returns (out: Result<RouteResponse, RouteError>)
    requires e > 0 && Fresh(s, e) && d.estimate == e
    ensures out.Success? && out.value.provider == PROVIDER_CLAUDE && RouterMayAnswer(Tight(e), s, d, out)
  {
    var scene := Scene(Tight(e).configs, StatusOf(s.budget), d.Request());
    assert NormalisesCost(scene.configs, 1.0) && scene.Admissible(PROVIDER_CLAUDE);
    out := Success(RouteResponse(PROVIDER_CLAUDE, scene.configs[PROVIDER_CLAUDE].ModelForComplexity(d.complexity), None,
                                 scene.WinnerWarning(PROVIDER_CLAUDE), Min(scene.ScoreAt(PROVIDER_CLAUDE, 1.0), 1.0)));
    assert scene.DecidesAt(out, 1.0);
  }

  // ---- the states of the run ----

  ghost predicate Chosen(d: Delegation, e: nat, phase: Phase) {
    d.phase == phase && d.provider == PROVIDER_CLAUDE && d.estimate == e && !d.hinted
  }

  // The requests that are routed but not reported: a crowd just routed, and one under way.
  ghost predicate CrowdOf(ds: map<TaskId, Delegation>, e: nat, crowd: set<TaskId>, moving: set<TaskId>, phase: Phase) {
    && crowd + moving <= ds.Keys && crowd !! moving
    && Those(ds, Outstanding(PROVIDER_CLAUDE)) == crowd + moving
    && (forall id :: id in crowd ==> Chosen(ds[id], e, Routed))
    && (forall id :: id in moving ==> Chosen(ds[id], e, phase))
  }

  ghost predicate Used(s: State, used: int) {
    && PROVIDER_CLAUDE in s.budget.rows
    && s.budget.rows[PROVIDER_CLAUDE].dailyUsed == used && s.budget.rows[PROVIDER_CLAUDE].weeklyUsed == used
  }

  ghost predicate Shape(s: State, e: nat, crowd: set<TaskId>, moving: set<TaskId>, phase: Phase,
          used: int, length: nat) {
    && CrowdOf(s.delegations, e, crowd, moving, phase) && Used(s, used) && s.fired == {}
    && forall id :: id in s.delegations ==> |id| < length
  }

  // A run within the assumptions of the bound.
  ghost predicate Allowed(e: nat, x: nat, steps: seq<Step>, n: nat) {
    && Legal(Tight(e), steps) && OutstandingAtMost(Tight(e), steps, PROVIDER_CLAUDE, n)
    && Modest(Tight(e), steps, PROVIDER_CLAUDE, e, x) && HintedTokens(Tight(e), steps, PROVIDER_CLAUDE) == 0
  }

  lemma {:induction false} AllowOne(e: nat, x: nat, steps: seq<Step>, step: Step, n: nat)
    requires Allowed(e, x, steps, n) && Enabled(Tight(e), StateAfter(Tight(e), steps), step)
    requires ModestStep(Tight(e), StateAfter(Tight(e), steps), step, PROVIDER_CLAUDE, e, x)
    requires |Those(DelegationsAfter(Tight(e), StateAfter(Tight(e), steps), step), Outstanding(PROVIDER_CLAUDE))| <= n
    requires HintedCharge(Tight(e), StateAfter(Tight(e), steps), step, PROVIDER_CLAUDE) == 0
    ensures Allowed(e, x, steps + [step], n)
    ensures StateAfter(Tight(e), steps + [step]) == Next(Tight(e), StateAfter(Tight(e), steps), step)
  {
    ExtendRun(Tight(e), steps, step);
    assert (steps + [step])[..|steps|] == steps;
    PrefixesExtend(OutstandingFits(Tight(e), PROVIDER_CLAUDE, n), steps, step);
    PrefixesExtend(EndsModestly(Tight(e), PROVIDER_CLAUDE, e, x), steps, step);
  }

  // ---- how the crowd changes ----

  lemma {:induction false} CrowdWithStranger(ds: map<TaskId, Delegation>, e: nat, crowd: set<TaskId>,
          id: TaskId, d: Delegation)
    requires CrowdOf(ds, e, crowd, {}, Routed) && id !in ds && !IsOutstanding(d, PROVIDER_CLAUDE)
    ensures CrowdOf(ds[id := d], e, crowd, {}, Routed)
  {
    ThoseAfterSet(ds, id, d, Outstanding(PROVIDER_CLAUDE));
    assert crowd + {} - {id} == crowd + {};
  }

  lemma {:induction false} CrowdWithPick(ds: map<TaskId, Delegation>, e: nat, crowd: set<TaskId>,
          id: TaskId, d: Delegation)
    requires CrowdOf(ds, e, crowd, {}, Routed) && id !in crowd && Chosen(d, e, Routed)
    ensures CrowdOf(ds[id := d], e, crowd + {id}, {}, Routed)
  {
    ThoseAfterSet(ds, id, d, Outstanding(PROVIDER_CLAUDE));
    assert IsOutstanding(d, PROVIDER_CLAUDE) && crowd + {id} + {} == crowd + {} + {id};
  }

  lemma {:induction false} CrowdWithMove(ds: map<TaskId, Delegation>, e: nat, crowd: set<TaskId>, id: TaskId,
          d: Delegation, phase: Phase, phase': Phase)
    requires CrowdOf(ds, e, crowd, {id}, phase) && Chosen(d, e, phase') && IsOutstanding(d, PROVIDER_CLAUDE)
    ensures CrowdOf(ds[id := d], e, crowd, {id}, phase')
  {
    ThoseAfterSet(ds, id, d, Outstanding(PROVIDER_CLAUDE));
  }

  lemma {:induction false} CrowdWithReport(ds: map<TaskId, Delegation>, e: nat, crowd: set<TaskId>,
          id: TaskId, d: Delegation)
    requires CrowdOf(ds, e, crowd, {id}, ReadBack) && !IsOutstanding(d, PROVIDER_CLAUDE)
    ensures CrowdOf(ds[id := d], e, crowd, {}, Routed)
  {
    ThoseAfterSet(ds, id, d, Outstanding(PROVIDER_CLAUDE));
    assert crowd + {id} - {id} == crowd + {};
  }

  // ---- joining the crowd ----

  function Newcomer(e: nat, id: TaskId): Step {
    Begin(id, Medium, Normal, 4 * e)
  }

  lemma {:induction false} BeginOne(e: nat, x: nat, steps: seq<Step>, n: nat, crowd: set<TaskId>, length: nat)
    returns (more: seq<Step>, id: TaskId)
    requires e >= 200 && Allowed(e, x, steps, n) && |crowd| <= n && Fresh(StateAfter(Tight(e), steps), e)
    requires Shape(StateAfter(Tight(e), steps), e, crowd, {}, Routed, 0, length)
    ensures Allowed(e, x, more, n) && Fresh(StateAfter(Tight(e), more), e) && id !in crowd
    ensures Shape(StateAfter(Tight(e), more), e, crowd, {}, Routed, 0, length + 1)
    ensures var s := StateAfter(Tight(e), more);
            At(s, id, Snapshotted) && s.delegations[id].estimate == e && !s.delegations[id].hinted
  {
    var s := StateAfter(Tight(e), steps);
    id := seq(length, _ => 'x');
    var d := DelegationAfter(Tight(e), s, Newcomer(e, id));
    CrowdWithStranger(s.delegations, e, crowd, id, d);
    assert crowd + {} == crowd;
    AllowOne(e, x, steps, Newcomer(e, id), n);
    more := steps + [Newcomer(e, id)];
  }

  lemma {:induction false} DecideOne(e: nat, x: nat, steps: seq<Step>, n: nat, crowd: set<TaskId>,
          length: nat, id: TaskId)
    returns (more: seq<Step>)
    requires e > 0 && Allowed(e, x, steps, n) && |crowd| < n && Fresh(StateAfter(Tight(e), steps), e) && id !in crowd
    requires Shape(StateAfter(Tight(e), steps), e, crowd, {}, Routed, 0, length)
    requires var s := StateAfter(Tight(e), steps);
             At(s, id, Snapshotted) && s.delegations[id].estimate == e && !s.delegations[id].hinted
    ensures Allowed(e, x, more, n) && Fresh(StateAfter(Tight(e), more), e)
    ensures Shape(StateAfter(Tight(e), more), e, crowd + {id}, {}, Routed, 0, length)
  {
    var s := StateAfter(Tight(e), steps);
    var out := ClaudeIsPicked(e, s, s.delegations[id]);
    var d := DelegationAfter(Tight(e), s, Decide(id, out));
    CrowdWithPick(s.delegations, e, crowd, id, d);
    assert crowd + {id} + {} == crowd + {id};
    AllowOne(e, x, steps, Decide(id, out), n);
    more := steps + [Decide(id, out)];
  }

  lemma {:induction false} SetUp(e: nat, x: nat, n: nat) returns (steps: seq<Step>)
    ensures Allowed(e, x, steps, n) && Fresh(StateAfter(Tight(e), steps), e)
    ensures Shape(StateAfter(Tight(e), steps), e, {}, {}, Routed, 0, 0)
  {
    var none: seq<Step> := [];
    assert Those(INITIAL.delegations, Outstanding(PROVIDER_CLAUDE)) == {};
    assert none[..0] == none;
    AllowOne(e, x, none, SetUpStep(e), n);
    steps := none + [SetUpStep(e)];
  }

  // Callers that come together all see the same room.
  lemma {:induction false} CrowdGathers(e: nat, x: nat, n: nat, k: nat) returns (steps: seq<Step>, crowd: set<TaskId>)
    requires e >= 200 && k <= n
    ensures |crowd| == k && Allowed(e, x, steps, n) && Fresh(StateAfter(Tight(e), steps), e)
    ensures Shape(StateAfter(Tight(e), steps), e, crowd, {}, Routed, 0, k)
  {
    if k == 0 {
      steps := SetUp(e, x, n);
      crowd := {};
    } else {
      steps, crowd := CrowdGathers(e, x, n, k - 1);
      var id;
      steps, id := BeginOne(e, x, steps, n, crowd, k - 1);
      steps := DecideOne(e, x, steps, n, crowd, k, id);
      crowd := crowd + {id};
    }
  }

  // ---- reporting ----

  // From routing to the first update: steps that touch neither the budget nor who is outstanding.
  function StepFor(id: TaskId, phase: Phase): Step {
    match phase
    case Routed => Record(id, 0)
    case Recorded => Register(id)
    case Cancellable => Count(id)
    case _ => Start(id)
  }

  function Following(phase: Phase): Phase {
    match phase
    case Routed => Recorded
    case Recorded => Cancellable
    case Cancellable => Counted
    case _ => Started
  }

  lemma {:induction false} NeutralStep(cfg: Config, s: State, id: TaskId, phase: Phase, e: nat)
    requires At(s, id, phase) && 1 <= phase.Rank() <= 4 && Chosen(s.delegations[id], e, phase)
    ensures var step := StepFor(id, phase);
            && Ready(s, step) && Moves(step) && !step.Decide? && step.id == id
            && Chosen(DelegationAfter(cfg, s, step), e, Following(phase))
            && IsOutstanding(DelegationAfter(cfg, s, step), PROVIDER_CLAUDE)
            && BudgetAfter(cfg, s, step) == s.budget
  {
  }

  // A step that a run within the assumptions may take next.
  ghost predicate MayTake(e: nat, x: nat, n: nat, s: State, step: Step) {
    && Ready(s, step) && !step.Decide? && ModestStep(Tight(e), s, step, PROVIDER_CLAUDE, e, x)
    && HintedCharge(Tight(e), s, step, PROVIDER_CLAUDE) == 0
    && |Those(Next(Tight(e), s, step).delegations, Outstanding(PROVIDER_CLAUDE))| <= n
  }

  // A set of states that such steps do not leave, with rows for the tasks that were not cancelled.
  ghost predicate Closed(reached: State -> bool, e: nat, x: nat, n: nat) {
    && (forall s, step :: reached(s) && MayTake(e, x, n, s, step) ==> reached(Next(Tight(e), s, step)))
    && (forall s, id :: reached(s) && At(s, id, Started) && id !in s.fired ==> id in s.store.tasks)
  }

  // The crowd bounds who is outstanding.
  lemma {:induction false} CrowdFits(s: State, e: nat, crowd: set<TaskId>, moving: set<TaskId>, phase: Phase,
          used: int, length: nat, n: nat)
    requires Shape(s, e, crowd, moving, phase, used, length) && |crowd + moving| <= n
    ensures |Those(s.delegations, Outstanding(PROVIDER_CLAUDE))| <= n
  {
  }

  lemma {:induction false} MoveShape(e: nat, s: State, crowd: set<TaskId>, id: TaskId, phase: Phase,
          used: int, length: nat)
    requires Shape(s, e, crowd, {id}, phase, used, length) && 1 <= phase.Rank() <= 4
    ensures var step := StepFor(id, phase);
            && Ready(s, step) && !step.Decide?
            && Shape(Next(Tight(e), s, step), e, crowd, {id}, Following(phase), used, length)
  {
    NeutralStep(Tight(e), s, id, phase, e);
    var d := DelegationAfter(Tight(e), s, StepFor(id, phase));
    CrowdWithMove(s.delegations, e, crowd, id, d, phase, Following(phase));
  }

  lemma {:induction false} MoveOne(reached: State -> bool, e: nat, x: nat, n: nat, s: State, crowd: set<TaskId>,
          id: TaskId, phase: Phase, used: int, length: nat)
    returns (s': State)
    requires Closed(reached, e, x, n) && reached(s) && |crowd + {id}| <= n && 1 <= phase.Rank() <= 4
    requires Shape(s, e, crowd, {id}, phase, used, length)
    ensures reached(s') && Shape(s', e, crowd, {id}, Following(phase), used, length)
  {
    MoveShape(e, s, crowd, id, phase, used, length);
    s' := Next(Tight(e), s, StepFor(id, phase));
    CrowdFits(s', e, crowd, {id}, Following(phase), used, length, n);
    assert MayTake(e, x, n, s, StepFor(id, phase));
  }

  lemma {:induction false} FinishShape(e: nat, s: State, crowd: set<TaskId>, id: TaskId, used: int, length: nat)
    requires Shape(s, e, crowd, {id}, Started, used, length) && id in s.store.tasks
    ensures var step := Finish(id, CliError(""));
            && Ready(s, step) && id in Next(Tight(e), s, step).store.tasks
            && Shape(Next(Tight(e), s, step), e, crowd, {id}, Finished, used, length)
  {
    var d := DelegationAfter(Tight(e), s, Finish(id, CliError("")));
    CrowdWithMove(s.delegations, e, crowd, id, d, Started, Finished);
  }

  lemma {:induction false} ReadShape(e: nat, s: State, crowd: set<TaskId>, id: TaskId, used: int, length: nat)
    requires Shape(s, e, crowd, {id}, Finished, used, length) && id in s.store.tasks
    ensures Ready(s, Read(id)) && Next(Tight(e), s, Read(id)).delegations[id].seen.Some?
    ensures Shape(Next(Tight(e), s, Read(id)), e, crowd, {id}, ReadBack, used, length)
  {
    CrowdWithMove(s.delegations, e, crowd, id, DelegationAfter(Tight(e), s, Read(id)), Finished, ReadBack);
  }

  lemma {:induction false} ReportShape(e: nat, x: nat, s: State, crowd: set<TaskId>, id: TaskId, used: int, length: nat)
    requires e > 0 && Shape(s, e, crowd, {id}, ReadBack, used, length) && s.delegations[id].seen.Some?
    ensures var step := Report(id, e + x, 0);
            && Ready(s, step) && ModestStep(Tight(e), s, step, PROVIDER_CLAUDE, e, x)
            && Shape(Next(Tight(e), s, step), e, crowd, {}, Routed, used + e + x, length)
  {
    CrowdWithReport(s.delegations, e, crowd, id, DelegationAfter(Tight(e), s, Report(id, e + x, 0)));
    ReportUses(e, x, s, id, used);
  }

  lemma {:induction false} ReportUses(e: nat, x: nat, s: State, id: TaskId, used: int)
    requires e > 0 && At(s, id, ReadBack) && Chosen(s.delegations[id], e, ReadBack) && s.delegations[id].seen.Some?
    requires Used(s, used)
    ensures Used(s.(budget := BudgetAfter(Tight(e), s, Report(id, e + x, 0))), used + e + x)
  {
  }

  lemma {:induction false} FinishOne(reached: State -> bool, e: nat, x: nat, n: nat, s: State, crowd: set<TaskId>,
          id: TaskId, used: int, length: nat)
    returns (s': State)
    requires Closed(reached, e, x, n) && reached(s) && |crowd + {id}| <= n
    requires Shape(s, e, crowd, {id}, Started, used, length)
    ensures reached(s') && id in s'.store.tasks && Shape(s', e, crowd, {id}, Finished, used, length)
  {
    // Nothing was cancelled, so the row is still there.
    assert At(s, id, Started);
    FinishShape(e, s, crowd, id, used, length);
    s' := Next(Tight(e), s, Finish(id, CliError("")));
    CrowdFits(s', e, crowd, {id}, Finished, used, length, n);
    assert MayTake(e, x, n, s, Finish(id, CliError("")));
  }

  lemma {:induction false} ReadOne(reached: State -> bool, e: nat, x: nat, n: nat, s: State, crowd: set<TaskId>,
          id: TaskId, used: int, length: nat)
    returns (s': State)
    requires Closed(reached, e, x, n) && reached(s) && |crowd + {id}| <= n && id in s.store.tasks
    requires Shape(s, e, crowd, {id}, Finished, used, length)
    ensures reached(s') && Shape(s', e, crowd, {id}, ReadBack, used, length) && s'.delegations[id].seen.Some?
  {
    ReadShape(e, s, crowd, id, used, length);
    s' := Next(Tight(e), s, Read(id));
    CrowdFits(s', e, crowd, {id}, ReadBack, used, length, n);
    assert MayTake(e, x, n, s, Read(id));
  }

  lemma {:induction false} ReportOne(reached: State -> bool, e: nat, x: nat, n: nat, s: State, crowd: set<TaskId>,
          id: TaskId, used: int, length: nat)
    returns (s': State)
    requires e > 0 && Closed(reached, e, x, n) && reached(s) && |crowd| <= n
    requires Shape(s, e, crowd, {id}, ReadBack, used, length) && s.delegations[id].seen.Some?
    ensures reached(s') && Shape(s', e, crowd, {}, Routed, used + e + x, length)
  {
    ReportShape(e, x, s, crowd, id, used, length);
    s' := Next(Tight(e), s, Report(id, e + x, 0));
    assert crowd + {} == crowd;
    CrowdFits(s', e, crowd, {}, Routed, used + e + x, length, n);
    assert MayTake(e, x, n, s, Report(id, e + x, 0));
  }

  lemma {:induction false} SetApart(s: State, e: nat, crowd: set<TaskId>, id: TaskId, used: int, length: nat)
    requires Shape(s, e, crowd, {}, Routed, used, length) && id in crowd
    ensures Shape(s, e, crowd - {id}, {id}, Routed, used, length)
  {
    assert crowd - {id} + {id} == crowd + {};
  }

  lemma {:induction false} FollowingRank(phase: Phase)
    requires 1 <= phase.Rank() <= 5 && phase != Started
    ensures phase.Rank() <= 4 && Following(phase).Rank() == phase.Rank() + 1
  {
  }

  lemma {:induction false} OneStarts(reached: State -> bool, e: nat, x: nat, n: nat, s: State, crowd: set<TaskId>,
          id: TaskId, phase: Phase, used: int, length: nat)
    returns (s': State)
    requires Closed(reached, e, x, n) && reached(s) && |crowd + {id}| <= n && 1 <= phase.Rank() <= 5
    requires Shape(s, e, crowd, {id}, phase, used, length)
    ensures reached(s') && Shape(s', e, crowd, {id}, Started, used, length)
    decreases 5 - phase.Rank()
  {
    if phase == Started {
      s' := s;
    } else {
      FollowingRank(phase);
      s' := MoveOne(reached, e, x, n, s, crowd, id, phase, used, length);
      s' := OneStarts(reached, e, x, n, s', crowd, id, Following(phase), used, length);
    }
  }

  lemma {:induction false} OneEnds(reached: State -> bool, e: nat, x: nat, n: nat, s: State, crowd: set<TaskId>,
          id: TaskId, used: int, length: nat)
    returns (s': State)
    requires e > 0 && Closed(reached, e, x, n) && reached(s) && |crowd + {id}| <= n && |crowd| <= n
    requires Shape(s, e, crowd, {id}, Started, used, length)
    ensures reached(s') && Shape(s', e, crowd, {}, Routed, used + e + x, length)
  {
    s' := FinishOne(reached, e, x, n, s, crowd, id, used, length);
    s' := ReadOne(reached, e, x, n, s', crowd, id, used, length);
    s' := ReportOne(reached, e, x, n, s', crowd, id, used, length);
  }

  // One of the crowd runs to its report without interference.
  lemma {:induction false} OneReports(reached: State -> bool, e: nat, x: nat, n: nat, s: State, crowd: set<TaskId>,
          id: TaskId, used: int, length: nat)
    returns (s': State)
    requires e > 0 && Closed(reached, e, x, n) && reached(s) && |crowd| <= n && id in crowd
    requires Shape(s, e, crowd, {}, Routed, used, length)
    ensures reached(s') && Shape(s', e, crowd - {id}, {}, Routed, used + e + x, length)
  {
    assert crowd - {id} + {id} == crowd && |crowd - {id}| < |crowd|;
    SetApart(s, e, crowd, id, used, length);
    s' := OneStarts(reached, e, x, n, s, crowd - {id}, id, Routed, used, length);
    s' := OneEnds(reached, e, x, n, s', crowd - {id}, id, used, length);
  }

  function Times(k: nat, t: nat): nat {
    if k == 0 then 0 else t + Times(k - 1, t)
  }

  lemma {:induction false} TimesIsProduct(k: nat, t: nat)
    ensures Times(k, t) == k * t
  {
    if k == 0 {
    } else {
      TimesIsProduct(k - 1, t);
    }
  }

  lemma {:induction false} AllTogether(n: nat, e: nat, x: nat)
    requires n > 0
    ensures Times(n, e + x) == e + (n - 1) * (e + x) + x
  {
    TimesIsProduct(n - 1, e + x);
  }

  lemma {:induction false} CrowdReports(reached: State -> bool, e: nat, x: nat, n: nat, s: State, crowd: set<TaskId>,
          used: int, length: nat)
    returns (s': State)
    requires e > 0 && Closed(reached, e, x, n) && reached(s) && |crowd| <= n
    requires Shape(s, e, crowd, {}, Routed, used, length)
    ensures reached(s') && Used(s', used + Times(|crowd|, e + x))
    decreases |crowd|
  {
    if crowd == {} {
      s' := s;
    } else {
      var id :| id in crowd;
      assert |crowd - {id}| == |crowd| - 1;
      s' := OneReports(reached, e, x, n, s, crowd, id, used, length);
      s' := CrowdReports(reached, e, x, n, s', crowd - {id}, used + e + x, length);
    }
  }

  // ---- the run ----

  ghost predicate Leads(e: nat, x: nat, n: nat, steps: seq<Step>, s: State) {
    Allowed(e, x, steps, n) && StateAfter(Tight(e), steps) == s
  }

  ghost function Reached(e: nat, x: nat, n: nat): State -> bool {
    (s: State) => exists steps :: Leads(e, x, n, steps, s)
  }

  lemma {:induction false} LeadsFurther(e: nat, x: nat, n: nat, steps: seq<Step>, s: State, step: Step)
    requires Leads(e, x, n, steps, s) && MayTake(e, x, n, s, step)
    ensures Leads(e, x, n, steps + [step], Next(Tight(e), s, step))
  {
    AllowOne(e, x, steps, step, n);
  }

  lemma {:induction false} StartedHasRow(d: Delegation)
    requires d.phase == Started
    ensures d.HasRow() && d.Before(Finished)
  {
  }

  lemma {:induction false} RowIsThere(e: nat, x: nat, n: nat, steps: seq<Step>, s: State, id: TaskId)
    requires Leads(e, x, n, steps, s) && At(s, id, Started) && id !in s.fired
    ensures id in s.store.tasks
  {
    StartedHasRow(s.delegations[id]);
    UncancelledRowIsNeverEvicted(Tight(e), steps, id);
  }

  lemma {:induction false} ReachedIsClosed(e: nat, x: nat, n: nat)
    ensures Closed(Reached(e, x, n), e, x, n)
  {
    var reached := Reached(e, x, n);
    forall s, step | reached(s) && MayTake(e, x, n, s, step)
      ensures reached(Next(Tight(e), s, step))
    {
      var steps :| Leads(e, x, n, steps, s);
      LeadsFurther(e, x, n, steps, s, step);
    }
    forall s, id | reached(s) && At(s, id, Started) && id !in s.fired
      ensures id in s.store.tasks
    {
      var steps :| Leads(e, x, n, steps, s);
      RowIsThere(e, x, n, steps, s, id);
    }
  }

  lemma {:induction false} CrowdIsReached(e: nat, x: nat, n: nat) returns (s: State, crowd: set<TaskId>)
    requires e >= 200
    ensures Reached(e, x, n)(s) && |crowd| == n && Shape(s, e, crowd, {}, Routed, 0, n)
  {
    var steps;
    steps, crowd := CrowdGathers(e, x, n, n);
    s := StateAfter(Tight(e), steps);
    assert Leads(e, x, n, steps, s);
  }

  lemma {:induction false} CrowdOverruns(e: nat, x: nat, n: nat) returns (s: State)
    requires e >= 200 && n > 0
    ensures Reached(e, x, n)(s) && Used(s, e + (n - 1) * (e + x) + x)
  {
    var crowd;
    s, crowd := CrowdIsReached(e, x, n);
    ReachedIsClosed(e, x, n);
    s := CrowdReports(Reached(e, x, n), e, x, n, s, crowd, 0, n);
    AllTogether(n, e, x);
  }

  lemma {:induction false} UsedInBoth(s: State, used: int)
    requires Used(s, used)
    ensures forall dim :: RowUsed(s.budget.rows[PROVIDER_CLAUDE], dim) == used
  {
  }

  lemma {:induction false} TightIsLimited(e: nat)
    requires e > 0
    ensures forall dim :: Limited(Tight(e), PROVIDER_CLAUDE, dim)
                          && LimitOf(Tight(e).configs[PROVIDER_CLAUDE], dim) == e
  {
  }

  // For every number of callers, every estimate the orchestrator can make and every excess, some run takes a limit of
  // one estimate to the bound, in both dimensions.
  lemma {:induction false} BudgetOverrunIsReached(n: nat, e: nat, x: nat) returns (cfg: Config, steps: seq<Step>)
    requires n > 0 && e >= 200
    ensures forall dim :: Limited(cfg, PROVIDER_CLAUDE, dim) && LimitOf(cfg.configs[PROVIDER_CLAUDE], dim) == e
    ensures Legal(cfg, steps) && OutstandingAtMost(cfg, steps, PROVIDER_CLAUDE, n)
    ensures Modest(cfg, steps, PROVIDER_CLAUDE, e, x) && HintedTokens(cfg, steps, PROVIDER_CLAUDE) == 0
    ensures PROVIDER_CLAUDE in StateAfter(cfg, steps).budget.rows
    ensures forall dim :: RowUsed(StateAfter(cfg, steps).budget.rows[PROVIDER_CLAUDE], dim) == e + (n - 1) * (e + x) + x
  {
    cfg := Tight(e);
    var s := CrowdOverruns(e, x, n);
    steps :| Leads(e, x, n, steps, s);
    TightIsLimited(e);
    UsedInBoth(s, e + (n - 1) * (e + x) + x);
  }

  // ---- the limit is kept exactly by single callers without excess ----

  ghost predicate LimitKept(n: nat, e: nat, x: nat, cfg: Config, steps: seq<Step>, p: Provider, dim: Dimension) {
    Legal(cfg, steps) && Limited(cfg, p, dim)
    && OutstandingAtMost(cfg, steps, p, n) && Modest(cfg, steps, p, e, x) && p in StateAfter(cfg, steps).budget.rows ==>
      RowUsed(StateAfter(cfg, steps).budget.rows[p], dim) <=
      LimitOf(cfg.configs[p], dim) + HintedTokens(cfg, steps, p)
  }

  lemma {:induction false} LimitIsKept(e: nat, cfg: Config, steps: seq<Step>, p: Provider, dim: Dimension)
    ensures LimitKept(1, e, 0, cfg, steps, p, dim)
  {
    if Legal(cfg, steps) && Limited(cfg, p, dim) && OutstandingAtMost(cfg, steps, p, 1) && Modest(cfg, steps, p, e, 0) {
      SingleCallerOverrun(cfg, steps, p, dim, e, 0);
    }
  }

  lemma {:induction false} LimitBrokenAt(n: nat, e: nat, x: nat, cfg: Config, steps: seq<Step>, dim: Dimension)
    requires Legal(cfg, steps) && Limited(cfg, PROVIDER_CLAUDE, dim)
    requires OutstandingAtMost(cfg, steps, PROVIDER_CLAUDE, n) && Modest(cfg, steps, PROVIDER_CLAUDE, e, x)
    requires PROVIDER_CLAUDE in StateAfter(cfg, steps).budget.rows && HintedTokens(cfg, steps, PROVIDER_CLAUDE) == 0
    requires RowUsed(StateAfter(cfg, steps).budget.rows[PROVIDER_CLAUDE], dim) >
             LimitOf(cfg.configs[PROVIDER_CLAUDE], dim)
    ensures !LimitKept(n, e, x, cfg, steps, PROVIDER_CLAUDE, dim)
  {
  }

  lemma {:induction false} LimitIsBroken(n: nat, e: nat, x: nat) returns (cfg: Config, steps: seq<Step>)
    requires e >= 200 && n > 0 && (n > 1 || x > 0)
    ensures !LimitKept(n, e, x, cfg, steps, PROVIDER_CLAUDE, Daily)
  {
    cfg, steps := BudgetOverrunIsReached(n, e, x);
    PositiveProduct(n - 1, e + x);
    LimitBrokenAt(n, e, x, cfg, steps, Daily);
  }

  lemma {:induction false} PositiveProduct(k: nat, t: nat)
    ensures k > 0 && t > 0 ==> k * t > 0
  {
  }

  // With n callers at a time whose reports stay within x of their estimates, a limit holds in every run exactly when
  // n is one and x is zero.
  lemma {:induction false} LimitIsKeptIff(n: nat, e: nat, x: nat)
    requires n > 0 && e >= 200
    ensures (forall cfg, steps, p, dim :: LimitKept(n, e, x, cfg, steps, p, dim)) <==> n == 1 && x == 0
  {
    if n == 1 && x == 0 {
      forall cfg, steps, p, dim
        ensures LimitKept(n, e, x, cfg, steps, p, dim)
      {
        LimitIsKept(e, cfg, steps, p, dim);
      }
    } else {
      var cfg, steps := LimitIsBroken(n, e, x);
    }
  }
}
