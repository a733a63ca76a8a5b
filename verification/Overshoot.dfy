/** How far concurrent callers can overshoot a concurrency cap: the router and the delegation protocol put together.
    Loads are read before the increment. */
module Overshoot {
  import opened Wrappers
  import opened Finite
  import opened BudgetTypes
  import opened Router
  import opened RouterStatics
  import opened Ledger
  import opened Tasks
  import opened Inflight
  import opened DelegationSteps
  import opened Protocol

  // ---- runs ----

  // No caller names an agent of p directly.
  ghost predicate NoHintsFor(steps: seq<Step>, p: Provider) {
    forall k :: 0 <= k < |steps| && steps[k].BeginHinted? ==> steps[k].provider != p
  }

  function Window(): Delegation -> bool {
    (d: Delegation) => d.InWindow()
  }

  ghost function WindowFits(cfg: Config, n: nat): seq<Step> -> bool {
    (steps: seq<Step>) => Legal(cfg, steps) ==> |Those(StateAfter(cfg, steps).delegations, Window())| <= n
  }

  // At no time are more than n callers between the load snapshot and the increment.
  ghost predicate WindowAtMost(cfg: Config, steps: seq<Step>, n: nat) {
    forall k :: 0 <= k <= |steps| ==> WindowFits(cfg, n)(steps[..k])
  }

  // ---- the concurrency cap ----

  function LoadSeen(d: Delegation, p: Provider): int {
    d.Request().LoadOf(p)
  }

  // Callers in the window whose snapshot still showed p below its cap.
  function Eager(p: Provider, cap: int): Delegation -> bool {
    (d: Delegation) => d.InWindow() && LoadSeen(d, p) < cap
  }

  // A caller that was routed to p saw p below its cap.
  ghost predicate SawRoom(d: Delegation, p: Provider, cap: int) {
    && (d.phase == Snapshotted ==> !d.hinted)
    && (d.Before(Counted) && d.provider == p ==> d.hinted || LoadSeen(d, p) < cap)
  }

  ghost predicate RoutedBelowCap(s: State, p: Provider, cap: int) {
    AllSawRoom(s.delegations, p, cap)
  }

  ghost predicate AllSawRoom(ds: map<TaskId, Delegation>, p: Provider, cap: int) {
    forall id :: id in ds ==> SawRoom(ds[id], p, cap)
  }

  function Load(s: State, p: Provider): int {
    LoadIn(s.inflight, p)
  }

  function LoadIn(m: map<Provider, int>, p: Provider): int {
    if p in m then m[p] else 0
  }

  lemma {:induction false} SnapshotSeesLoad(s: State, p: Provider)
    ensures LoadIn(LoadMap(Snapshot(s.inflight)), p) == Load(s, p)
  {
    if |s.inflight| == 0 {
      assert s.inflight == map[];
    }
  }

  // Delegations that hold a slot of p and were routed there, and those whose caller named p's agent.
  function HoldingRouted(p: Provider): Delegation -> bool {
    (d: Delegation) => d.HoldsSlot() && d.provider == p && !d.hinted
  }

  function HoldingHinted(p: Provider): Delegation -> bool {
    (d: Delegation) => d.HoldsSlot() && d.provider == p && d.hinted
  }

  ghost function RoutedTo(s: State, p: Provider): nat {
    |Those(s.delegations, HoldingRouted(p))|
  }

  ghost function HintedTo(s: State, p: Provider): nat {
    |Those(s.delegations, HoldingHinted(p))|
  }

  lemma {:induction false} HeldIsRoutedOrHinted(s: State, p: Provider)
    ensures HeldBy(s, p) == RoutedTo(s, p) + HintedTo(s, p)
  {
    var routed, hinted := Those(s.delegations, HoldingRouted(p)), Those(s.delegations, HoldingHinted(p));
    assert Those(s.delegations, Holding(p)) == routed + hinted && routed !! hinted;
  }

  // Routed callers that hold a slot of p or still may.
  predicate IsCommitted(d: Delegation, p: Provider, cap: int) {
    !d.hinted && ((d.HoldsSlot() && d.provider == p) || (d.InWindow() && LoadSeen(d, p) < cap))
  }

  function Committed(p: Provider, cap: int): Delegation -> bool {
    (d: Delegation) => IsCommitted(d, p, cap)
  }

  lemma {:induction false} CommittedIsBoth(s: State, p: Provider, cap: int)
    ensures |Those(s.delegations, Committed(p, cap))| == RoutedTo(s, p) + EagerCount(s, p, cap)
  {
    var held, eager := Those(s.delegations, HoldingRouted(p)), Those(s.delegations, Eager(p, cap));
    assert Those(s.delegations, Committed(p, cap)) == held + eager && held !! eager;
  }

  lemma {:induction false} DecidedBelowCap(cfg: Config, s: State, d: Delegation,
          out: Result<RouteResponse, RouteError>, p: Provider)
    requires p in cfg.configs && cfg.configs[p].maxConcurrency > 0
    requires RouterMayAnswer(cfg, s, d, out) && out.Success? && out.value.provider == p
    ensures LoadSeen(d, p) < cfg.configs[p].maxConcurrency
  {
    PickIsBelowCap(Scene(cfg.configs, StatusOf(s.budget), d.Request()), out);
  }

  lemma {:induction false} SawRoomAfter(cfg: Config, s: State, step: Step, p: Provider, cap: int)
    requires p != NO_PROVIDER && Ready(s, step) && Moves(step)
    requires step.id in s.delegations ==> SawRoom(s.delegations[step.id], p, cap)
    requires step.Decide? && step.out.Success? && step.out.value.provider == p ==>
               LoadSeen(s.delegations[step.id], p) < cap
    ensures SawRoom(DelegationAfter(cfg, s, step), p, cap)
  {
  }

  lemma {:induction false} RoutedBelowCapStep(cfg: Config, s: State, step: Step, p: Provider, cap: int)
    requires p != NO_PROVIDER && RoutedBelowCap(s, p, cap) && Ready(s, step)
    requires step.Decide? && step.out.Success? && step.out.value.provider == p ==>
               LoadSeen(s.delegations[step.id], p) < cap
    ensures AllSawRoom(DelegationsAfter(cfg, s, step), p, cap)
  {
    if Moves(step) {
      SawRoomAfter(cfg, s, step, p, cap);
    }
  }

  ghost function EagerCount(s: State, p: Provider, cap: int): nat {
    |Those(s.delegations, Eager(p, cap))|
  }

  lemma {:induction false} EagerInWindow(s: State, p: Provider, cap: int)
    ensures EagerCount(s, p, cap) <= |Those(s.delegations, Window())|
  {
    var eager, window := Those(s.delegations, Eager(p, cap)), Those(s.delegations, Window());
    assert eager <= window;
    assert window == eager + (window - eager);
  }

  // Callers enter the window only with their snapshot, and leave it with the increment.
  lemma {:induction false} WindowOnlyShrinks(cfg: Config, s: State, step: Step)
    requires Moves(step) && !step.Begin? && Ready(s, step)
    ensures var d' := DelegationAfter(cfg, s, step);
            d'.InWindow() ==> !step.Count? && step.id in s.delegations && s.delegations[step.id].InWindow()
                              && d'.Request() == s.delegations[step.id].Request()
  {
  }

  // A routed caller takes its slot with the increment and keeps its provider.
  lemma {:induction false} SlotsOnlyShrink(cfg: Config, s: State, step: Step)
    requires Moves(step) && !step.Begin? && Ready(s, step)
    ensures var d' := DelegationAfter(cfg, s, step);
            d'.HoldsSlot() ==>
              && step.id in s.delegations
              && d'.provider == s.delegations[step.id].provider && d'.hinted == s.delegations[step.id].hinted
              && (if step.Count? then s.delegations[step.id].Before(Counted) else s.delegations[step.id].HoldsSlot())
  {
  }

  // No step but a new caller's snapshot commits anyone: a slot is taken by a caller that saw room.
  lemma {:induction false} CommitmentsOnlyShrink(cfg: Config, s: State, step: Step, p: Provider, cap: int)
    requires Ready(s, step) && Moves(step) && !step.Begin?
    requires step.id in s.delegations ==> SawRoom(s.delegations[step.id], p, cap)
    ensures IsCommitted(DelegationAfter(cfg, s, step), p, cap) ==>
              step.id in s.delegations && IsCommitted(s.delegations[step.id], p, cap)
  {
    WindowOnlyShrinks(cfg, s, step);
    SlotsOnlyShrink(cfg, s, step);
  }

  // A new caller that is eager has read a load that is still below the cap.
  lemma {:induction false} NewcomerReadLoad(cfg: Config, s: State, step: Step, p: Provider, cap: int)
    requires Ready(s, step) && step.Begin? && IsCommitted(DelegationAfter(cfg, s, step), p, cap)
    ensures Load(s, p) < cap
  {
    SnapshotSeesLoad(s, p);
  }

  ghost predicate CommittedWithin(s: State, p: Provider, cap: int, bound: int) {
    |Those(s.delegations, Committed(p, cap))| <= bound
  }

  lemma {:induction false} CommittedStep(cfg: Config, s: State, step: Step, p: Provider, cap: int, n: nat)
    requires p != NO_PROVIDER && Ready(s, step) && InflightExact(s) && RoutedBelowCap(s, p, cap)
    requires CommittedWithin(s, p, cap, cap - 1 + n) && |Those(Next(cfg, s, step).delegations, Window())| <= n
    ensures CommittedWithin(Next(cfg, s, step), p, cap, cap - 1 + n)
  {
    if Moves(step) {
      var d := DelegationAfter(cfg, s, step);
      CountAfterSet(s.delegations, step.id, d, Committed(p, cap));
      if step.Begin? && IsCommitted(d, p, cap) {
        NewcomerReadLoad(cfg, s, step, p, cap);
        NewcomerFits(cfg, s, step, p, cap, n);
      } else if !step.Begin? {
        CommitmentsOnlyShrink(cfg, s, step, p, cap);
      }
    }
  }

  lemma {:induction false} NewcomerFits(cfg: Config, s: State, step: Step, p: Provider, cap: int, n: nat)
    requires p != NO_PROVIDER && Ready(s, step) && step.Begin? && InflightExact(s) && Load(s, p) < cap
    requires |Those(Next(cfg, s, step).delegations, Window())| <= n
    ensures CommittedWithin(Next(cfg, s, step), p, cap, cap - 1 + n)
  {
    var s' := Next(cfg, s, step);
    CommittedIsBoth(s', p, cap);
    EagerInWindow(s', p, cap);
    CountAfterSet(s.delegations, step.id, DelegationAfter(cfg, s, step), HoldingRouted(p));
    HeldIsRoutedOrHinted(s, p);
  }

  lemma {:induction false} CommittedInRuns(cfg: Config, steps: seq<Step>, p: Provider, n: nat)
    requires Legal(cfg, steps) && WindowAtMost(cfg, steps, n)
    requires p in cfg.configs && cfg.configs[p].maxConcurrency > 0 && p != NO_PROVIDER
    ensures var s, cap := StateAfter(cfg, steps), cfg.configs[p].maxConcurrency;
            RoutedBelowCap(s, p, cap) && CommittedWithin(s, p, cap, cap - 1 + n)
  {
    var cap := cfg.configs[p].maxConcurrency;
    if steps == [] {
      assert Those(INITIAL.delegations, Committed(p, cap)) == {};
    } else {
      var earlier, last := steps[..|steps| - 1], steps[|steps| - 1];
      LastStep(cfg, steps);
      EarlierWindow(cfg, steps, n);
      CommittedInRuns(cfg, earlier, p, n);
      var s := StateAfter(cfg, earlier);
      if last.Decide? && last.out.Success? && last.out.value.provider == p {
        LastAnswer(cfg, steps);
        DecidedBelowCap(cfg, s, s.delegations[last.id], last.out, p);
      }
      RoutedBelowCapStep(cfg, s, last, p, cap);
      InflightCountsOutstanding(cfg, earlier);
      assert steps[..|steps|] == steps && WindowFits(cfg, n)(steps[..|steps|]);
      CommittedStep(cfg, s, last, p, cap, n);
    }
  }

  lemma {:induction false} EarlierWindow(cfg: Config, steps: seq<Step>, n: nat)
    requires steps != [] && WindowAtMost(cfg, steps, n)
    ensures WindowAtMost(cfg, steps[..|steps| - 1], n)
  {
    var earlier := steps[..|steps| - 1];
    assert forall k :: 0 <= k <= |earlier| ==> earlier[..k] == steps[..k];
  }

  // With at most n callers between snapshot and increment, routed callers overshoot a cap by at most n - 1, whoever
  // else names the provider's agent; the picks of the local fallback are included.
  lemma {:induction false} CapOvershootBound(cfg: Config, steps: seq<Step>, p: Provider, n: nat)
    requires Legal(cfg, steps) && WindowAtMost(cfg, steps, n)
    requires p in cfg.configs && cfg.configs[p].maxConcurrency > 0 && p != NO_PROVIDER
    ensures var s, cap := StateAfter(cfg, steps), cfg.configs[p].maxConcurrency;
            RoutedTo(s, p) + EagerCount(s, p, cap) <= cap - 1 + n
  {
    CommittedInRuns(cfg, steps, p, n);
    CommittedIsBoth(StateAfter(cfg, steps), p, cfg.configs[p].maxConcurrency);
  }

  // In particular the count itself stays within the cap plus the other callers in the window and the callers that
  // named the provider's agent.
  lemma {:induction false} InflightOvershootBound(cfg: Config, steps: seq<Step>, p: Provider, n: nat)
    requires Legal(cfg, steps) && WindowAtMost(cfg, steps, n)
    requires p in cfg.configs && cfg.configs[p].maxConcurrency > 0 && p != NO_PROVIDER
    ensures var s, cap := StateAfter(cfg, steps), cfg.configs[p].maxConcurrency;
            LoadIn(s.inflight, p) <= cap - 1 + n + HintedTo(s, p)
  {
    CapOvershootBound(cfg, steps, p, n);
    InflightCountsOutstanding(cfg, steps);
    HeldIsRoutedOrHinted(StateAfter(cfg, steps), p);
  }

  // ---- without hints ----

  ghost predicate HintedElsewhere(s: State, p: Provider) {
    forall id :: id in s.delegations && s.delegations[id].hinted ==>
                   s.delegations[id].phase != Snapshotted && s.delegations[id].provider != p
  }

  lemma {:induction false} HintedElsewhereStep(cfg: Config, s: State, step: Step, p: Provider)
    requires HintedElsewhere(s, p) && Ready(s, step) && (step.BeginHinted? ==> step.provider != p)
    ensures HintedElsewhere(Next(cfg, s, step), p)
  {
  }

  lemma {:induction false} NoHintsElsewhere(cfg: Config, steps: seq<Step>, p: Provider)
    requires Legal(cfg, steps) && NoHintsFor(steps, p)
    ensures HintedElsewhere(StateAfter(cfg, steps), p)
  {
    if steps == [] {
    } else {
      LastStep(cfg, steps);
      NoHintsElsewhere(cfg, steps[..|steps| - 1], p);
      HintedElsewhereStep(cfg, StateAfter(cfg, steps[..|steps| - 1]), steps[|steps| - 1], p);
    }
  }

  lemma {:induction false} NoHintsAllRouted(cfg: Config, steps: seq<Step>, p: Provider)
    requires Legal(cfg, steps) && NoHintsFor(steps, p)
    ensures HintedTo(StateAfter(cfg, steps), p) == 0
    ensures HeldBy(StateAfter(cfg, steps), p) == RoutedTo(StateAfter(cfg, steps), p)
  {
    NoHintsElsewhere(cfg, steps, p);
    HeldIsRoutedOrHinted(StateAfter(cfg, steps), p);
    assert Those(StateAfter(cfg, steps).delegations, HoldingHinted(p)) == {};
  }
}
