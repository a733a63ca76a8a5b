/** The delegation protocol: every critical section and store call of Delegate, run and Cancel is one step
    (delegator/orchestrator.go). Steps of different delegations interleave freely. */
module DelegationSteps {
  import opened Wrappers
  import opened Finite
  import opened BudgetTypes
  import opened Router
  import opened Ledger
  import opened Tasks
  import opened Inflight

  /** How far a delegation has come. */
  datatype Phase =
    | Snapshotted   // chooseAgent holds a copy of the in-flight counts
    | Routed        // the provider is chosen
    | Recorded      // Store.Put returned
    | Cancellable   // the cancel function is registered
    | Counted       // incrInflight returned; the goroutine may run
    | Started       // the status update to running was attempted
    | Finished      // the final status update was attempted
    | ReadBack      // report has read the stored record
    | Reported      // report returned
    | Released      // decrInflight returned
    | Gone          // the cancel function is deregistered
    | Rejected      // chooseAgent returned an error
  {
    function Rank(): nat {
      match this
      case Snapshotted => 0
      case Routed => 1
      case Recorded => 2
      case Cancellable => 3
      case Counted => 4
      case Started => 5
      case Finished => 6
      case ReadBack => 7
      case Reported => 8
      case Released => 9
      case Gone => 10
      case Rejected => 11
    }
  }

  datatype Delegation = Delegation(
    phase: Phase,
    hinted: bool,
    complexity: Complexity,
    priority: Priority,
    estimate: int,
    snapshot: Option<map<Provider, int>>,
    provider: Provider,
    final: Option<TaskStatus>,       // what the final update wrote, or would have written to an evicted row
    cancelledAtFinish: bool,
    seen: Option<TaskStatus>)        // what report read back
  {
    predicate Before(p: Phase) {
      phase.Rank() < p.Rank()
    }

    // From routing to the return of incrInflight, on the routed path.
    predicate InWindow() {
      !hinted && Before(Counted)
    }

    predicate HoldsSlot() {
      !Before(Counted) && Before(Released)
    }

    predicate HasRow() {
      !Before(Recorded) && phase != Rejected
    }

    predicate Ended() {
      !Before(Finished) && phase != Rejected
    }

    function Request(): RouteRequest {
      RouteRequest(complexity, estimate, false, "", priority, LoadMap(snapshot), 0)
    }
  }

  datatype Config = Config(
    configs: map<Provider, ProviderConfig>,
    agents: set<Provider>,   // providers mapped to an agent that has a CLI spec
    maxTasks: nat)

  datatype State = State(
    delegations: map<TaskId, Delegation>,
    inflight: map<Provider, int>,
    store: StoreView,
    cancels: set<TaskId>,        // keys of runningCancels
    loads: multiset<TaskId>,     // Cancel calls that hold a cancel function they have not called yet
    fired: set<TaskId>,          // contexts that were cancelled
    marks: multiset<TaskId>,     // Cancel calls between cancel() and Store.Update
    budget: Tables)

  const INITIAL := State(map[], map[], EMPTY_STORE, {}, multiset{}, {}, multiset{}, EMPTY_TABLES)

  datatype Step =
    | Begin(id: TaskId, complexity: Complexity, priority: Priority, promptLength: nat)
    | BeginHinted(id: TaskId, provider: Provider, complexity: Complexity, priority: Priority, promptLength: nat)
    | Decide(id: TaskId, out: Result<RouteResponse, RouteError>)
    | Record(id: TaskId, createdAt: int)
    | Register(id: TaskId)
    | Count(id: TaskId)
    | Start(id: TaskId)
    | Finish(id: TaskId, outcome: CliOutcome)
    | Read(id: TaskId)
    | Report(id: TaskId, tokens: int, now: int)
    | Release(id: TaskId)
    | Deregister(id: TaskId)
    | LoadCancel(id: TaskId)
    | FireCancel(id: TaskId)
    | MarkCancel(id: TaskId)
    | Housekeep(op: Op)          // an InitProvider, ResetDaily or ResetWeekly of the tracker

  predicate At(s: State, id: TaskId, phase: Phase) {
    id in s.delegations && s.delegations[id].phase == phase
  }

  ghost predicate RouterMayAnswer(cfg: Config, s: State, d: Delegation, out: Result<RouteResponse, RouteError>) {
    out == Failure(StatusUnavailable) || Scene(cfg.configs, StatusOf(s.budget), d.Request()).Decides(out)
  }

  // The phase each step needs; task ids are unique, so a delegation begins only once.
  predicate Ready(s: State, step: Step)
  {
    match step
    case Begin(id, _, _, _) => id !in s.delegations
    case BeginHinted(id, _, _, _, _) => id !in s.delegations
    case Decide(id, _) => At(s, id, Snapshotted)
    case Record(id, _) => At(s, id, Routed)
    case Register(id) => At(s, id, Recorded)
    case Count(id) => At(s, id, Cancellable)
    case Start(id) => At(s, id, Counted)
    case Finish(id, _) => At(s, id, Started)
    case Read(id) => At(s, id, Finished)
    case Report(id, _, _) => At(s, id, ReadBack)
    case Release(id) => At(s, id, Reported)
    case Deregister(id) => At(s, id, Released)
    case LoadCancel(id) => id in s.cancels
    case FireCancel(id) => id in s.loads
    case MarkCancel(id) => id in s.marks
    case Housekeep(op) => !op.RecordUsage?
  }

  // Route reads the statuses and decides.
  ghost predicate Enabled(cfg: Config, s: State, step: Step) {
    Ready(s, step) && (step.Decide? ==> RouterMayAnswer(cfg, s, s.delegations[step.id], step.out))
  }

  const BLANK_FIELDS := TaskFields(Pending, 0, "", NoError)

  function NewTask(id: TaskId, d: Delegation, createdAt: int): TaskView {
    TaskView(id, d.provider, createdAt, BLANK_FIELDS)
  }

  // Usage is recorded when the record was still there, tokens were counted and the tracker knows the provider.
  predicate Charges(cfg: Config, d: Delegation, tokens: int) {
    d.provider != NO_PROVIDER && d.seen.Some? && tokens > 0 && d.provider in cfg.configs
  }

  predicate Moves(step: Step) {
    !step.LoadCancel? && !step.FireCancel? && !step.MarkCancel? && !step.Housekeep?
  }

  // What the step does to the delegation that takes it.
  function DelegationAfter(cfg: Config, s: State, step: Step): Delegation
    requires Moves(step)
    requires step.Begin? || step.BeginHinted? || step.id in s.delegations
  {
    match step
    case Begin(_, c, pr, length) =>
      Delegation(Snapshotted, false, c, pr, EstimatedPromptTokens(length), Snapshot(s.inflight), NO_PROVIDER,
                 None, false, None)
    case BeginHinted(_, p, c, pr, length) =>
      Delegation(Routed, true, c, pr, EstimatedPromptTokens(length), None, p, None, false, None)
    case Decide(id, out) =>
      if out.Success? && out.value.provider in cfg.agents
      then s.delegations[id].(phase := Routed, provider := out.value.provider)
      else s.delegations[id].(phase := Rejected)
    case Record(id, _) => s.delegations[id].(phase := Recorded)
    case Register(id) => s.delegations[id].(phase := Cancellable)
    case Count(id) => s.delegations[id].(phase := Counted)
    case Start(id) => s.delegations[id].(phase := Started)
    case Finish(id, outcome) =>
      s.delegations[id].(phase := Finished,
                         final := Some(Finalize(outcome, id in s.fired, BLANK_FIELDS).status),
                         cancelledAtFinish := id in s.fired)
    case Read(id) =>
      s.delegations[id].(phase := ReadBack,
                         seen := if id in s.store.tasks then Some(s.store.tasks[id].fields.status) else None)
    case Report(id, _, _) => s.delegations[id].(phase := Reported)
    case Release(id) => s.delegations[id].(phase := Released)
    case Deregister(id) => s.delegations[id].(phase := Gone)
  }

  function DelegationsAfter(cfg: Config, s: State, step: Step): map<TaskId, Delegation>
    requires Ready(s, step)
  {
    if Moves(step) then s.delegations[step.id := DelegationAfter(cfg, s, step)] else s.delegations
  }

  function InflightAfter(s: State, step: Step): map<Provider, int>
    requires step.Count? || step.Release? ==> step.id in s.delegations
  {
    match step
    case Count(id) => Incr(s.inflight, s.delegations[id].provider)
    case Release(id) => Decr(s.inflight, s.delegations[id].provider)
    case _ => s.inflight
  }

  function StoreAfter(cfg: Config, s: State, step: Step): StoreView
    requires step.Record? ==> step.id in s.delegations
  {
    match step
    case Record(id, createdAt) => Inserted(s.store, NewTask(id, s.delegations[id], createdAt), cfg.maxTasks)
    case Start(id) => Updated(s.store, id, MarkRunning)
    case Finish(id, outcome) => Updated(s.store, id, f => Finalize(outcome, id in s.fired, f))
    case MarkCancel(id) => Updated(s.store, id, MarkCancelled)
    case _ => s.store
  }

  function BudgetAfter(cfg: Config, s: State, step: Step): Tables
    requires step.Report? ==> step.id in s.delegations
  {
    match step
    case Report(id, tokens, now) =>
      var d := s.delegations[id];
      if Charges(cfg, d, tokens)
      then Apply(s.budget, RecordUsage(UsageRecord(d.provider, tokens, id, d.seen == Some(Completed), now), now))
      else s.budget
    case Housekeep(op) => Apply(s.budget, op)
    case _ => s.budget
  }

  /** One step of the system. */
  function Next(cfg: Config, s: State, step: Step): State
    requires Ready(s, step)
  {
    State(
      DelegationsAfter(cfg, s, step),
      InflightAfter(s, step),
      StoreAfter(cfg, s, step),
      if step.Register? then s.cancels + {step.id} else if step.Deregister? then s.cancels - {step.id} else s.cancels,
      if step.LoadCancel? then s.loads + multiset{step.id}
      else if step.FireCancel? then s.loads - multiset{step.id} else s.loads,
      if step.FireCancel? then s.fired + {step.id} else s.fired,
      if step.FireCancel? then s.marks + multiset{step.id}
      else if step.MarkCancel? then s.marks - multiset{step.id} else s.marks,
      BudgetAfter(cfg, s, step))
  }

  // ---- runs ----

  // The state after a run from the empty system, if every step of it is enabled.
  ghost function Reach(cfg: Config, steps: seq<Step>): Option<State>
  {
    if steps == [] then Some(INITIAL)
    else
      var s := Reach(cfg, steps[..|steps| - 1]);
      var last := steps[|steps| - 1];
      if s.Some? && Enabled(cfg, s.value, last) then Some(Next(cfg, s.value, last)) else None
  }

  ghost predicate Legal(cfg: Config, steps: seq<Step>) {
    Reach(cfg, steps).Some?
  }

  ghost function StateAfter(cfg: Config, steps: seq<Step>): State
    requires Legal(cfg, steps)
  {
    Reach(cfg, steps).value
  }

  // Everything but the last step, and what the last step adds.
  lemma {:induction false} LastStep(cfg: Config, steps: seq<Step>)
    requires Legal(cfg, steps) && steps != []
    ensures var earlier, last := steps[..|steps| - 1], steps[|steps| - 1];
            && Legal(cfg, earlier)
            && Ready(StateAfter(cfg, earlier), last)
            && StateAfter(cfg, steps) == Next(cfg, StateAfter(cfg, earlier), last)
  {
  }

  lemma {:induction false} LastAnswer(cfg: Config, steps: seq<Step>)
    requires Legal(cfg, steps) && steps != [] && steps[|steps| - 1].Decide?
    requires Legal(cfg, steps[..|steps| - 1])
    requires At(StateAfter(cfg, steps[..|steps| - 1]), steps[|steps| - 1].id, Snapshotted)
    ensures var s, last := StateAfter(cfg, steps[..|steps| - 1]), steps[|steps| - 1];
            RouterMayAnswer(cfg, s, s.delegations[last.id], last.out)
  {
  }

  lemma {:induction false} PrefixIsLegal(cfg: Config, steps: seq<Step>, k: nat)
    requires Legal(cfg, steps) && k <= |steps|
    ensures Legal(cfg, steps[..k])
  {
    if k < |steps| {
      LastStep(cfg, steps);
      PrefixIsLegal(cfg, steps[..|steps| - 1], k);
      assert steps[..|steps| - 1][..k] == steps[..k];
    } else {
      assert steps[..k] == steps;
    }
  }

  // Every step of a legal run was ready where it was taken.
  lemma {:induction false} StepAt(cfg: Config, steps: seq<Step>, k: nat)
    requires Legal(cfg, steps) && k < |steps|
    ensures Legal(cfg, steps[..k]) && Legal(cfg, steps[..k+1])
    ensures Ready(StateAfter(cfg, steps[..k]), steps[k])
    ensures StateAfter(cfg, steps[..k+1]) == Next(cfg, StateAfter(cfg, steps[..k]), steps[k])
  {
    PrefixIsLegal(cfg, steps, k + 1);
    assert steps[..k+1][..k] == steps[..k];
    LastStep(cfg, steps[..k+1]);
  }

  lemma {:induction false} ReadyAt(cfg: Config, steps: seq<Step>, k: nat)
    requires Legal(cfg, steps) && k < |steps|
    ensures Legal(cfg, steps[..k]) && Ready(StateAfter(cfg, steps[..k]), steps[k])
  {
    StepAt(cfg, steps, k);
  }

  lemma {:induction false} ExtendRun(cfg: Config, steps: seq<Step>, step: Step)
    requires Legal(cfg, steps) && Enabled(cfg, StateAfter(cfg, steps), step)
    ensures Legal(cfg, steps + [step]) && StateAfter(cfg, steps + [step]) == Next(cfg, StateAfter(cfg, steps), step)
  {
    assert (steps + [step])[..|steps|] == steps;
  }

  // ---- counting delegations ----

  ghost function Those(ds: map<TaskId, Delegation>, f: Delegation -> bool): set<TaskId> {
    set id | id in ds && f(ds[id])
  }

  lemma {:induction false} ThoseAfterSet(ds: map<TaskId, Delegation>, id: TaskId, d: Delegation, f: Delegation -> bool)
    ensures Those(ds[id := d], f) == if f(d) then Those(ds, f) + {id} else Those(ds, f) - {id}
  {
  }

  lemma {:induction false} CountAfterSet(ds: map<TaskId, Delegation>, id: TaskId, d: Delegation, f: Delegation -> bool)
    ensures |Those(ds[id := d], f)| ==
            |Those(ds, f)| - (if id in ds && f(ds[id]) then 1 else 0) + (if f(d) then 1 else 0)
  {
    ThoseAfterSet(ds, id, d, f);
  }
}
