/** How far a token budget can be overrun: statuses are read when a request is routed, usage is charged when it is
    reported, and resets may fall anywhere in between. */
module Overrun {
  import opened Wrappers
  import opened Finite
  import opened BudgetTypes
  import opened Router
  import opened RouterStatics
  import opened Ledger
  import opened Tasks
  import opened Inflight
  import opened DelegationSteps
  import opened Overshoot

  // ---- the two budget dimensions ----

  function LimitOf(pc: ProviderConfig, dim: Dimension): int {
    if dim == Daily then pc.dailyLimit else pc.weeklyLimit
  }

  function RowLimit(row: Row, dim: Dimension): int {
    if dim == Daily then row.dailyLimit else row.weeklyLimit
  }

  function RowUsed(row: Row, dim: Dimension): int {
    if dim == Daily then row.dailyUsed else row.weeklyUsed
  }

  // A cloud provider other than local that has a limit in this dimension.
  predicate Limited(cfg: Config, p: Provider, dim: Dimension) {
    && p in cfg.configs && p != PROVIDER_LOCAL && p != NO_PROVIDER
    && cfg.configs[p].tier == Cloud && !cfg.configs[p].IsUnlimited()
    && LimitOf(cfg.configs[p], dim) > 0
  }

  // ---- requests between status read and report ----

  predicate IsOutstanding(d: Delegation, p: Provider) {
    !d.hinted && d.provider == p && d.phase != Snapshotted && d.Before(Reported)
  }

  function Outstanding(p: Provider): Delegation -> bool {
    (d: Delegation) => IsOutstanding(d, p)
  }

  ghost function Promises(ds: map<TaskId, Delegation>, p: Provider, x: nat): map<TaskId, int> {
    map id | id in ds && IsOutstanding(ds[id], p) :: ds[id].estimate + x
  }

  // ---- assumptions on a run ----

  ghost function OutstandingFits(cfg: Config, p: Provider, n: nat): seq<Step> -> bool {
    (steps: seq<Step>) => Legal(cfg, steps) ==> |Those(StateAfter(cfg, steps).delegations, Outstanding(p))| <= n
  }

  // At no time are more than n requests routed to p but not yet reported.
  ghost predicate OutstandingAtMost(cfg: Config, steps: seq<Step>, p: Provider, n: nat) {
    forall k :: 0 <= k <= |steps| ==> OutstandingFits(cfg, p, n)(steps[..k])
  }

  predicate ModestStep(cfg: Config, s: State, step: Step, p: Provider, e: int, x: nat)
    requires Ready(s, step)
  {
    match step
    // Every estimate is at most e, and no report of a routed request exceeds its own by more than x.
    case Begin(_, _, _, length) => EstimatedPromptTokens(length) <= e
    case Report(id, tokens, _) =>
      s.delegations[id].provider == p && !s.delegations[id].hinted ==> tokens <= s.delegations[id].estimate + x
    // The tracker writes the configured limits into the row.
    case Housekeep(op) =>
      op.InitProvider? && op.p == p && p in cfg.configs ==>
        op.dailyLimit == cfg.configs[p].dailyLimit && op.weeklyLimit == cfg.configs[p].weeklyLimit
    case _ => true
  }

  ghost function EndsModestly(cfg: Config, p: Provider, e: int, x: nat): seq<Step> -> bool {
    (steps: seq<Step>) =>
      steps == [] || var earlier, last := steps[..|steps| - 1], steps[|steps| - 1];
      Legal(cfg, earlier) && Ready(StateAfter(cfg, earlier), last) ==>
        ModestStep(cfg, StateAfter(cfg, earlier), last, p, e, x)
  }

  ghost predicate Modest(cfg: Config, steps: seq<Step>, p: Provider, e: int, x: nat) {
    forall k :: 0 <= k <= |steps| ==> EndsModestly(cfg, p, e, x)(steps[..k])
  }

  // ---- callers that name an agent of the provider ----

  // They are not checked against the budget; what they report is charged all the same.
  function HintedCharge(cfg: Config, s: State, step: Step, p: Provider): (tokens: int)
    requires Ready(s, step)
    ensures tokens >= 0
  {
    if step.Report? && s.delegations[step.id].hinted && s.delegations[step.id].provider == p
       && Charges(cfg, s.delegations[step.id], step.tokens)
    then step.tokens else 0
  }

  ghost function HintedTokens(cfg: Config, steps: seq<Step>, p: Provider): (tokens: int)
    requires Legal(cfg, steps)
    ensures tokens >= 0
  {
    if steps == [] then 0
    else
      var earlier, last := steps[..|steps| - 1], steps[|steps| - 1];
      HintedTokens(cfg, earlier, p) + HintedCharge(cfg, StateAfter(cfg, earlier), last, p)
  }

  // ---- the invariant ----

  ghost predicate EstimatesWithin(s: State, e: int) {
    forall id :: id in s.delegations ==> !s.delegations[id].hinted ==> 0 < s.delegations[id].estimate <= e
  }

  ghost predicate OutstandingWereRouted(s: State, p: Provider) {
    forall id :: id in s.delegations && s.delegations[id].provider == p && !s.delegations[id].hinted ==>
                   p in s.budget.rows
  }

  // The row's limit never exceeds the configured one, and what is used plus what is promised stays within the bound.
  ghost predicate BudgetInvariant(cfg: Config, s: State, p: Provider, dim: Dimension, bound: int, x: nat)
    requires p in cfg.configs
  {
    p in s.budget.rows ==>
      var row := s.budget.rows[p];
      && 0 <= RowUsed(row, dim)
      && RowLimit(row, dim) <= LimitOf(cfg.configs[p], dim)
      && RowUsed(row, dim) + SumOf(Promises(s.delegations, p, x)) <= bound
  }

  // ---- how the promised total moves ----

  lemma {:induction false} PromiseMade(ds: map<TaskId, Delegation>, id: TaskId, d: Delegation, p: Provider, x: nat)
    requires IsOutstanding(d, p)
    ensures Promises(ds[id := d], p, x) == Promises(ds, p, x)[id := d.estimate + x]
  {
  }

  lemma {:induction false} PromiseGone(ds: map<TaskId, Delegation>, id: TaskId, d: Delegation, p: Provider, x: nat)
    requires !IsOutstanding(d, p)
    ensures Promises(ds[id := d], p, x) == Promises(ds, p, x) - {id}
  {
  }

  lemma {:induction false} SumWithout<K(!new)>(m: map<K, int>, k: K)
    ensures SumOf(m - {k}) == SumOf(m) - (if k in m then m[k] else 0)
  {
    if k in m {
      SumRemove(m, k);
    } else {
      assert m - {k} == m;
    }
  }

  lemma {:induction false} PromisesAfterMove(ds: map<TaskId, Delegation>, id: TaskId, d: Delegation,
          p: Provider, x: nat)
    ensures SumOf(Promises(ds[id := d], p, x)) ==
            SumOf(Promises(ds, p, x))
            - (if id in ds && IsOutstanding(ds[id], p) then ds[id].estimate + x else 0)
            + (if IsOutstanding(d, p) then d.estimate + x else 0)
  {
    var m := Promises(ds, p, x);
    if IsOutstanding(d, p) {
      PromiseMade(ds, id, d, p, x);
      SumUpdate(m, id, d.estimate + x);
    } else {
      PromiseGone(ds, id, d, p, x);
      SumWithout(m, id);
    }
  }

  lemma {:induction false} PromisedTotalBound(s: State, p: Provider, e: int, x: nat)
    requires EstimatesWithin(s, e)
    ensures 0 <= SumOf(Promises(s.delegations, p, x)) <= |Those(s.delegations, Outstanding(p))| * (e + x)
  {
    var m := Promises(s.delegations, p, x);
    assert m.Keys == Those(s.delegations, Outstanding(p));
    SumBounded(m, e + x);
  }

  // What the router may promise: a pick of a limited provider fits into what is left of its row.
  lemma {:induction false} PickFitsRow(cfg: Config, s: State, d: Delegation, out: Result<RouteResponse, RouteError>,
          p: Provider, dim: Dimension)
    requires Limited(cfg, p, dim) && d.estimate > 0
    requires RouterMayAnswer(cfg, s, d, out) && out.Success? && out.value.provider == p
    ensures p in s.budget.rows
    ensures RowUsed(s.budget.rows[p], dim) + d.estimate <= RowLimit(s.budget.rows[p], dim)
  {
    PickIsWithinBudget(Scene(cfg.configs, StatusOf(s.budget), d.Request()), out);
  }

  // ---- one step at a time ----

  lemma {:induction false} EstimatesStep(cfg: Config, s: State, step: Step, p: Provider, e: int, x: nat)
    requires EstimatesWithin(s, e) && Ready(s, step) && ModestStep(cfg, s, step, p, e, x)
    ensures EstimatesWithin(Next(cfg, s, step), e)
  {
  }

  lemma {:induction false} RowsNeverVanish(cfg: Config, s: State, step: Step, p: Provider)
    requires Ready(s, step) && p in s.budget.rows
    ensures p in Next(cfg, s, step).budget.rows
  {
  }

  lemma {:induction false} RoutedStep(cfg: Config, s: State, step: Step, p: Provider, e: int, x: nat)
    requires p != NO_PROVIDER && OutstandingWereRouted(s, p) && Ready(s, step) && ModestStep(cfg, s, step, p, e, x)
    requires forall id :: id in s.delegations && s.delegations[id].phase == Snapshotted ==> !s.delegations[id].hinted
    requires step.Decide? && step.out.Success? && step.out.value.provider == p ==> p in s.budget.rows
    ensures OutstandingWereRouted(Next(cfg, s, step), p)
  {
    if p in s.budget.rows {
      RowsNeverVanish(cfg, s, step, p);
    }
  }

  function RoutedCharge(s: State, step: Step, p: Provider): int
    requires Ready(s, step)
  {
    if step.Report? && !s.delegations[step.id].hinted && s.delegations[step.id].provider == p && step.tokens > 0
    then step.tokens else 0
  }

  // How the row of p moves: a charge of its own report adds tokens, housekeeping may clear it, nothing else touches it.
  lemma {:induction false} RowStep(cfg: Config, s: State, step: Step, p: Provider, dim: Dimension, e: int, x: nat)
    requires Limited(cfg, p, dim) && Ready(s, step) && ModestStep(cfg, s, step, p, e, x)
    requires OutstandingWereRouted(s, p)
    requires p in s.budget.rows ==>
               0 <= RowUsed(s.budget.rows[p], dim) && RowLimit(s.budget.rows[p], dim) <= LimitOf(cfg.configs[p], dim)
    requires p in Next(cfg, s, step).budget.rows
    ensures var row := Next(cfg, s, step).budget.rows[p];
            && RowLimit(row, dim) <= LimitOf(cfg.configs[p], dim)
            && 0 <= RowUsed(row, dim) <= (if p in s.budget.rows then RowUsed(s.budget.rows[p], dim) else 0)
                                         + RoutedCharge(s, step, p) + HintedCharge(cfg, s, step, p)
    ensures p !in s.budget.rows ==> RoutedCharge(s, step, p) == 0
  {
  }

  lemma {:induction false} PromisesAfterStep(cfg: Config, s: State, step: Step, p: Provider, e: int, x: nat)
    requires p != NO_PROVIDER && Ready(s, step) && ModestStep(cfg, s, step, p, e, x)
    requires EstimatesWithin(s, e) && OutstandingWereRouted(s, p)
    requires step.Decide? ==> !s.delegations[step.id].hinted && s.delegations[step.id].provider != p
    ensures var promised := SumOf(Promises(s.delegations, p, x));
            var promised' := SumOf(Promises(Next(cfg, s, step).delegations, p, x));
            if step.Decide? && step.out.Success? && step.out.value.provider == p && p in cfg.agents
            then promised' == promised + s.delegations[step.id].estimate + x
            else if step.Report? && s.delegations[step.id].provider == p && !s.delegations[step.id].hinted
            then promised' == promised - s.delegations[step.id].estimate - x && 0 < s.delegations[step.id].estimate
            else promised' == promised
  {
    if Moves(step) {
      PromiseOfMove(cfg, s, step, p);
      PromisesAfterMove(s.delegations, step.id, DelegationAfter(cfg, s, step), p, x);
    }
  }

  // A promise to p starts with a routing decision for p and ends with the report.
  lemma {:induction false} PromiseOfMove(cfg: Config, s: State, step: Step, p: Provider)
    requires p != NO_PROVIDER && Ready(s, step) && Moves(step)
    requires step.Decide? ==> !s.delegations[step.id].hinted && s.delegations[step.id].provider != p
    ensures var d' := DelegationAfter(cfg, s, step);
            if step.id !in s.delegations then !IsOutstanding(d', p)
            else
              var d := s.delegations[step.id];
              && d'.estimate == d.estimate
              && (IsOutstanding(d', p) <==>
                    (IsOutstanding(d, p) && !step.Report?)
                    || (step.Decide? && step.out.Success? && step.out.value.provider == p && p in cfg.agents))
              && (step.Report? && d.provider == p && !d.hinted ==> IsOutstanding(d, p))
  {
  }

  // Before they are routed, delegations are neither hinted nor on any provider.
  ghost predicate UnroutedAreBlank(s: State) {
    forall id :: id in s.delegations && s.delegations[id].phase == Snapshotted ==>
                   !s.delegations[id].hinted && s.delegations[id].provider == NO_PROVIDER
  }

  lemma {:induction false} UnroutedStep(cfg: Config, s: State, step: Step)
    requires UnroutedAreBlank(s) && Ready(s, step)
    ensures UnroutedAreBlank(Next(cfg, s, step))
  {
  }

  // Everything the bound rests on, for one state.
  ghost predicate WithinBound(cfg: Config, s: State, p: Provider, dim: Dimension, n: nat, e: int, x: nat, hinted: nat)
    requires p in cfg.configs
  {
    && UnroutedAreBlank(s) && EstimatesWithin(s, e) && OutstandingWereRouted(s, p)
    && BudgetInvariant(cfg, s, p, dim, LimitOf(cfg.configs[p], dim) + (n - 1) * (e + x) + x + hinted, x)
  }

  lemma {:induction false} RoomForOneMore(cfg: Config, s: State, step: Step, p: Provider)
    requires p != NO_PROVIDER && UnroutedAreBlank(s) && Ready(s, step)
    requires step.Decide? && step.out.Success? && step.out.value.provider == p && p in cfg.agents
    ensures |Those(Next(cfg, s, step).delegations, Outstanding(p))| == |Those(s.delegations, Outstanding(p))| + 1
  {
    PromiseOfMove(cfg, s, step, p);
    CountAfterSet(s.delegations, step.id, DelegationAfter(cfg, s, step), Outstanding(p));
  }

  lemma {:induction false} PromisesByOthers(s: State, p: Provider, n: nat, e: int, x: nat)
    requires EstimatesWithin(s, e) && e >= 0
    requires |Those(s.delegations, Outstanding(p))| < n
    ensures SumOf(Promises(s.delegations, p, x)) <= (n - 1) * (e + x)
  {
    PromisedTotalBound(s, p, e, x);
    FewerPromises(|Those(s.delegations, Outstanding(p))|, n - 1, e + x);
  }

  lemma {:induction false} FewerPromises(k: nat, n: nat, e: int)
    requires k <= n && 0 <= e
    ensures k * e <= n * e
  {
  }

  // A pick adds its own estimate, which fits into the row next to the promises of at most n - 1 others.
  lemma {:induction false} PickStep(cfg: Config, s: State, step: Step, p: Provider, dim: Dimension, n: nat, e: int,
          x: nat, hinted: nat)
    requires Limited(cfg, p, dim) && n > 0 && e >= 0
    requires WithinBound(cfg, s, p, dim, n, e, x, hinted) && Ready(s, step)
    requires step.Decide? && step.out.Success? && step.out.value.provider == p && p in cfg.agents
    requires RouterMayAnswer(cfg, s, s.delegations[step.id], step.out)
    requires |Those(Next(cfg, s, step).delegations, Outstanding(p))| <= n
    ensures p in s.budget.rows
    ensures RowUsed(s.budget.rows[p], dim) + SumOf(Promises(s.delegations, p, x))
            + s.delegations[step.id].estimate
              <= LimitOf(cfg.configs[p], dim) + (n - 1) * (e + x)
  {
    PickFitsRow(cfg, s, s.delegations[step.id], step.out, p, dim);
    RoomForOneMore(cfg, s, step, p);
    PromisesByOthers(s, p, n, e, x);
  }

  lemma {:induction false} InvariantStep(cfg: Config, s: State, step: Step, p: Provider, dim: Dimension, n: nat,
          e: int, x: nat, hinted: nat)
    requires Limited(cfg, p, dim) && n > 0 && e >= 0
    requires WithinBound(cfg, s, p, dim, n, e, x, hinted) && Ready(s, step) && ModestStep(cfg, s, step, p, e, x)
    requires step.Decide? && step.out.Success? && step.out.value.provider == p && p in cfg.agents ==>
               && p in s.budget.rows
               && RowUsed(s.budget.rows[p], dim) + SumOf(Promises(s.delegations, p, x))
                  + s.delegations[step.id].estimate
                  <= LimitOf(cfg.configs[p], dim) + (n - 1) * (e + x)
    ensures BudgetInvariant(cfg, Next(cfg, s, step), p, dim, LimitOf(cfg.configs[p], dim) + (n - 1) * (e + x) + x
                                                                   + hinted + HintedCharge(cfg, s, step, p), x)
  {
    if p in Next(cfg, s, step).budget.rows {
      RowStep(cfg, s, step, p, dim, e, x);
      PromisesAfterStep(cfg, s, step, p, e, x);
      if p !in s.budget.rows {
        assert Promises(s.delegations, p, x) == map[];
        FewerPromises(0, n - 1, e + x);
      }
    }
  }

  lemma {:induction false} BudgetStep(cfg: Config, s: State, step: Step, p: Provider, dim: Dimension, n: nat, e: int,
          x: nat, hinted: nat)
    requires Limited(cfg, p, dim) && n > 0 && e >= 0
    requires WithinBound(cfg, s, p, dim, n, e, x, hinted) && Ready(s, step) && ModestStep(cfg, s, step, p, e, x)
    requires step.Decide? ==> RouterMayAnswer(cfg, s, s.delegations[step.id], step.out)
    requires |Those(Next(cfg, s, step).delegations, Outstanding(p))| <= n
    ensures WithinBound(cfg, Next(cfg, s, step), p, dim, n, e, x, hinted + HintedCharge(cfg, s, step, p))
  {
    if step.Decide? && step.out.Success? && step.out.value.provider == p {
      PickFitsRow(cfg, s, s.delegations[step.id], step.out, p, dim);
      if p in cfg.agents {
        PickStep(cfg, s, step, p, dim, n, e, x, hinted);
      }
    }
    UnroutedStep(cfg, s, step);
    EstimatesStep(cfg, s, step, p, e, x);
    RoutedStep(cfg, s, step, p, e, x);
    InvariantStep(cfg, s, step, p, dim, n, e, x, hinted);
  }

  lemma {:induction false} BudgetHolds(cfg: Config, steps: seq<Step>, p: Provider, dim: Dimension, n: nat,
          e: int, x: nat)
    requires Legal(cfg, steps) && Limited(cfg, p, dim) && n > 0 && e >= 0
    requires OutstandingAtMost(cfg, steps, p, n) && Modest(cfg, steps, p, e, x)
    ensures WithinBound(cfg, StateAfter(cfg, steps), p, dim, n, e, x, HintedTokens(cfg, steps, p))
  {
    if steps == [] {
    } else {
      var earlier, last := steps[..|steps| - 1], steps[|steps| - 1];
      LastStep(cfg, steps);
      ModestEarlier(cfg, steps, p, n, e, x);
      BudgetHolds(cfg, earlier, p, dim, n, e, x);
      assert steps[..|steps|] == steps;
      assert OutstandingFits(cfg, p, n)(steps[..|steps|]) && EndsModestly(cfg, p, e, x)(steps[..|steps|]);
      if last.Decide? {
        LastAnswer(cfg, steps);
      }
      BudgetStep(cfg, StateAfter(cfg, earlier), last, p, dim, n, e, x, HintedTokens(cfg, earlier, p));
    }
  }

  lemma {:induction false} ModestEarlier(cfg: Config, steps: seq<Step>, p: Provider, n: nat, e: int, x: nat)
    requires steps != [] && OutstandingAtMost(cfg, steps, p, n) && Modest(cfg, steps, p, e, x)
    ensures OutstandingAtMost(cfg, steps[..|steps| - 1], p, n) && Modest(cfg, steps[..|steps| - 1], p, e, x)
  {
    var earlier := steps[..|steps| - 1];
    assert forall k :: 0 <= k <= |earlier| ==> earlier[..k] == steps[..k];
  }

  lemma {:induction false} UsedWithinBound(cfg: Config, s: State, p: Provider, dim: Dimension, n: nat,
          e: int, x: nat, hinted: nat)
    requires p in cfg.configs && n > 0 && WithinBound(cfg, s, p, dim, n, e, x, hinted)
    ensures p in s.budget.rows ==>
              RowUsed(s.budget.rows[p], dim) <= LimitOf(cfg.configs[p], dim) + (n - 1) * (e + x) + x + hinted
  {
    PromisedTotalBound(s, p, e, x);
  }

  // With at most n routed requests between status read and report, each estimate at most e and each report at most x
  // above its estimate, a limit is overrun by at most n - 1 whole reports and one excess, and by what callers that name
  // an agent of the provider report.
  lemma {:induction false} BudgetOverrunBound(cfg: Config, steps: seq<Step>, p: Provider, dim: Dimension, n: nat,
          e: int, x: nat)
    requires Legal(cfg, steps) && Limited(cfg, p, dim) && n > 0 && e >= 0
    requires OutstandingAtMost(cfg, steps, p, n) && Modest(cfg, steps, p, e, x)
    ensures var rows := StateAfter(cfg, steps).budget.rows;
            p in rows ==> RowUsed(rows[p], dim) <= LimitOf(cfg.configs[p], dim) + (n - 1) * (e + x) + x
                                                   + HintedTokens(cfg, steps, p)
  {
    BudgetHolds(cfg, steps, p, dim, n, e, x);
    UsedWithinBound(cfg, StateAfter(cfg, steps), p, dim, n, e, x, HintedTokens(cfg, steps, p));
  }

  // One routed caller at a time overruns it by no more than its own excess.
  lemma {:induction false} SingleCallerOverrun(cfg: Config, steps: seq<Step>, p: Provider, dim: Dimension,
          e: int, x: nat)
    requires Legal(cfg, steps) && Limited(cfg, p, dim) && e >= 0
    requires OutstandingAtMost(cfg, steps, p, 1) && Modest(cfg, steps, p, e, x)
    ensures var rows := StateAfter(cfg, steps).budget.rows;
            p in rows ==> RowUsed(rows[p], dim) <= LimitOf(cfg.configs[p], dim) + x + HintedTokens(cfg, steps, p)
  {
    BudgetOverrunBound(cfg, steps, p, dim, 1, e, x);
  }
}
