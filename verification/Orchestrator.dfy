/** The orchestrator's own state and the calls that change it (delegator/orchestrator.go). Each method body is one
    caller's code run without interference; DelegationSteps interleaves the same pieces. */
module Orchestrator {
  import opened Wrappers
  import opened BudgetTypes
  import opened Router
  import opened RouterStatics
  import opened Tasks
  import opened TaskStore
  import opened Inflight
  import Ledger
  import Tracker

  datatype DelegateRequest = DelegateRequest(
    id: TaskId, prompt: string, complexity: Complexity, priority: Priority, agentHint: string)

  datatype DelegateError =
    | PromptRequired | UnknownAgentHint | NoBudgetClient | RouteFailed(error: RouteError)
    | NoAgentMapping(provider: Provider) | NoCliSpec(agent: string)

  datatype Choice = Choice(agent: string, provider: Provider)

  // The budget router as the orchestrator reaches it: the configurations and what Status returned for this call.
  datatype BudgetView = BudgetView(configs: map<Provider, ProviderConfig>, statuses: Result<seq<BudgetStatus>, ()>)

  // The two updates of a run.
  function AfterRun(v: StoreView, id: TaskId, outcome: CliOutcome, ctxDone: bool): StoreView {
    Updated(Updated(v, id, MarkRunning), id, f => Finalize(outcome, ctxDone, f))
  }

  // What the router may answer: the declarative choice, unless the statuses could not be read.
  ghost predicate RouterAnswers(budget: BudgetView, request: RouteRequest, routed: Result<RouteResponse, RouteError>) {
    if budget.statuses.Failure? then routed == Failure(StatusUnavailable)
    else Scene(budget.configs, StatusMap(budget.statuses.value), request).Decides(routed)
  }

  // A record that was there still is, and tells how the run went.
  ghost predicate RecordTells(after: StoreView, before: StoreView, id: TaskId, outcome: CliOutcome, cancelled: bool) {
    id in before.tasks ==>
      id in after.tasks && Tells(after.tasks[id].fields, before.tasks[id].fields, outcome, cancelled)
  }

  lemma {:induction false} AfterRunTells(v: StoreView, id: TaskId, outcome: CliOutcome, ctxDone: bool)
    ensures RecordTells(AfterRun(v, id, outcome, ctxDone), v, id, outcome, ctxDone)
  {
    if id in v.tasks {
      FinalizeTells(outcome, ctxDone, MarkRunning(v.tasks[id].fields));
    }
  }

  // Some provider mapped to the agent, or none exactly when there is none.
  ghost predicate IsProviderOf(agents: map<Provider, string>, agent: string, p: Provider) {
    || (p in agents && agents[p] == agent)
    || (p == NO_PROVIDER && forall q :: q in agents ==> agents[q] != agent)
  }

  // Which outcome of choosing an agent stands for which answer of the router.
  predicate Follows(agents: map<Provider, string>, specs: set<string>,
                    routed: Result<RouteResponse, RouteError>, out: Result<Choice, DelegateError>)
  {
    match out
    case Success(c) =>
      routed.Success? && routed.value.provider == c.provider
      && c.provider in agents && agents[c.provider] == c.agent && c.agent in specs
    case Failure(RouteFailed(e)) => routed == Failure(e)
    case Failure(NoAgentMapping(p)) => routed.Success? && routed.value.provider == p && p !in agents
    case Failure(NoCliSpec(a)) =>
      routed.Success? && routed.value.provider in agents && agents[routed.value.provider] == a && a !in specs
    case Failure(_) => false
  }

  // The request the router sees: the caller's priority, the estimate and the live counts.
  function RequestFor(req: DelegateRequest, inflight: map<Provider, int>): RouteRequest {
    RouteRequest(req.complexity, EstimatedPromptTokens(|req.prompt|), false, "", EffectivePriority(req),
                 LoadMap(Snapshot(inflight)), 0)
  }

  function EffectivePriority(req: DelegateRequest): Priority {
    if req.priority == Unset then Normal else req.priority
  }

  // On the routed path the outcome stands for an answer of the router to this request.
  ghost predicate RoutedOutcome(agents: map<Provider, string>, specs: set<string>, budget: BudgetView,
                                request: RouteRequest, out: Result<Choice, DelegateError>)
  {
    exists routed :: RouterAnswers(budget, request, routed) && Follows(agents, specs, routed, out)
  }

  lemma {:induction false} AnswerUnique(budget: BudgetView, request: RouteRequest,
          x: Result<RouteResponse, RouteError>, y: Result<RouteResponse, RouteError>)
    requires RouterAnswers(budget, request, x) && RouterAnswers(budget, request, y)
    ensures x == y
  {
    if budget.statuses.Success? {
      DecisionUnique(Scene(budget.configs, StatusMap(budget.statuses.value), request), x, y);
    }
  }

  lemma {:induction false} FollowerUnique(agents: map<Provider, string>, specs: set<string>,
          routed: Result<RouteResponse, RouteError>, a: Result<Choice, DelegateError>,
          b: Result<Choice, DelegateError>)
    requires Follows(agents, specs, routed, a) && Follows(agents, specs, routed, b)
    ensures a == b
  {
  }

  // Nothing but the request, the statuses and the counts decides the outcome.
  lemma {:induction false} OutcomeUnique(agents: map<Provider, string>, specs: set<string>, budget: BudgetView,
          request: RouteRequest, a: Result<Choice, DelegateError>, b: Result<Choice, DelegateError>)
    requires RoutedOutcome(agents, specs, budget, request, a) && RoutedOutcome(agents, specs, budget, request, b)
    ensures a == b
  {
    var x :| RouterAnswers(budget, request, x) && Follows(agents, specs, x, a);
    var y :| RouterAnswers(budget, request, y) && Follows(agents, specs, y, b);
    AnswerUnique(budget, request, x, y);
    FollowerUnique(agents, specs, x, a, b);
  }

  // ---- the usage report ----

  // The budget client as a run reaches it.
  datatype BudgetClient = BudgetClient(configs: map<Provider, ProviderConfig>, store: Ledger.BudgetStore)

  // What a run used: the measured total (zero when there is none), the prompt's length and the bytes of output.
  datatype Meter = Meter(measured: int, promptLength: nat, stdoutBytes: nat)
  {
    // Measured tokens count; without them four characters make a token.
    function Tokens(): int {
      if measured > 0 then measured else (promptLength + stdoutBytes) / 4
    }
  }

  function StatusIn(v: StoreView, id: TaskId): Option<TaskStatus> {
    if id in v.tasks then Some(v.tasks[id].fields.status) else None
  }

  // The tables after a report: one usage record, if the task was read back, used something and its provider is known.
  function AfterReport(t: Ledger.Tables, configs: map<Provider, ProviderConfig>, id: TaskId, p: Provider,
                       seen: Option<TaskStatus>, tokens: int, now: int): Ledger.Tables
  {
    if p != NO_PROVIDER && seen.Some? && tokens > 0 && p in configs
    then Ledger.Apply(t, Ledger.RecordUsage(Ledger.UsageRecord(p, tokens, id, seen == Some(Completed), now), now))
    else t
  }

  class Orchestrator {
    const store: TaskStore
    const providerToAgent: map<Provider, string>
    const specs: set<string>
    var runningCancels: set<TaskId>
    var fired: set<TaskId>              // contexts whose cancel function was called
    var inflight: map<Provider, int>

    constructor (store: TaskStore, providerToAgent: map<Provider, string>, specs: set<string>)
      ensures this.store == store && this.providerToAgent == providerToAgent && this.specs == specs
      ensures runningCancels == {} && fired == {} && inflight == map[]
    {
      this.store, this.providerToAgent, this.specs := store, providerToAgent, specs;
      runningCancels, fired, inflight := {}, {}, map[];
    }

    // ---- in-flight counts ----

    method IncrInflight(p: Provider)
      modifies this`inflight
      ensures inflight == Incr(old(inflight), p)
      ensures p == "" ==> inflight == old(inflight)
    {
      if p == NO_PROVIDER {
        return;
      }
      if p !in inflight {
        inflight := inflight[p := 0];
      }
      inflight := inflight[p := inflight[p] + 1];
    }

    method DecrInflight(p: Provider)
      modifies this`inflight
      ensures inflight == Decr(old(inflight), p)
      ensures p == "" ==> inflight == old(inflight)
    {
      if p == NO_PROVIDER {
        return;
      }
      var n := if p in inflight then inflight[p] else 0;
      if n <= 1 {
        inflight := inflight - {p};
      } else {
        inflight := inflight[p := n - 1];
      }
    }

    method InflightSnapshot() returns (copy: Option<map<Provider, int>>)
      ensures copy == Snapshot(inflight)
    {
      if |inflight| == 0 {
        return None;
      }
      var cp: map<Provider, int> := map[];
      var rest := inflight.Keys;
      while rest != {}
        invariant rest <= inflight.Keys
        invariant cp == map p | p in inflight && p !in rest :: inflight[p]
      {
        var p :| p in rest;
        cp := cp[p := inflight[p]];
        rest := rest - {p};
      }
      assert cp == inflight;
      return Some(cp);
    }

    // ---- choosing an agent ----

    method ProviderOf(agent: string) returns (p: Provider)
      ensures IsProviderOf(providerToAgent, agent, p)
    {
      var rest := providerToAgent.Keys;
      while rest != {}
        invariant rest <= providerToAgent.Keys
        invariant forall q :: q in providerToAgent && q !in rest ==> providerToAgent[q] != agent
      {
        p :| p in rest;
        if providerToAgent[p] == agent {
          return;
        }
        rest := rest - {p};
      }
      p := NO_PROVIDER;
    }

    /** A hint wins; otherwise the router decides and its provider must have an agent with a CLI spec. */
    method ChooseAgent(req: DelegateRequest, budget: Option<BudgetView>) returns (out: Result<Choice, DelegateError>)
      ensures req.agentHint != "" ==>
                if req.agentHint in specs
                then out.Success? && out.value.agent == req.agentHint
                     && IsProviderOf(providerToAgent, req.agentHint, out.value.provider)
                else out == Failure(UnknownAgentHint)
      ensures req.agentHint == "" && budget.None? ==> out == Failure(NoBudgetClient)
      ensures req.agentHint == "" && budget.Some? ==>
                RoutedOutcome(providerToAgent, specs, budget.value, RequestFor(req, inflight), out)
    {
      if req.agentHint != "" {
        if req.agentHint !in specs {
          return Failure(UnknownAgentHint);
        }
        var provider := ProviderOf(req.agentHint);
        return Success(Choice(req.agentHint, provider));
      }
      if budget.None? {
        return Failure(NoBudgetClient);
      }
      var snapshot := InflightSnapshot();
      var priority := if req.priority == Unset then Normal else req.priority;
      var request := RouteRequest(
        req.complexity, EstimatedPromptTokens(|req.prompt|), false, "", priority, LoadMap(snapshot), 0);
      var routed := Route(budget.value.configs, budget.value.statuses, request);
      assert RouterAnswers(budget.value, RequestFor(req, inflight), routed);
      if routed.Failure? {
        return Failure(RouteFailed(routed.error));
      }
      var p := routed.value.provider;
      if p !in providerToAgent {
        return Failure(NoAgentMapping(p));
      }
      if providerToAgent[p] !in specs {
        return Failure(NoCliSpec(providerToAgent[p]));
      }
      return Success(Choice(providerToAgent[p], p));
    }

    // ---- delegating, running, cancelling ----

    // The choice a task was made from.
    function ChoiceOf(out: Result<Task, DelegateError>): Result<Choice, DelegateError> {
      match out
      case Success(task) => Success(Choice(task.agent, task.provider))
      case Failure(e) => Failure(e)
    }

    // Records the task, registers its cancel function and counts it.
    method Admit(id: TaskId, agent: string, provider: Provider, now: int) returns (task: Task)
      requires store.Valid()
      modifies this`runningCancels, this`inflight, store
      ensures store.Valid()
      ensures fresh(task) && task.agent == agent
      ensures task.View() == TaskView(id, provider, now, TaskFields(Pending, 0, "", NoError))
      ensures store.View() == Inserted(old(store.View()), task.View(), store.maxTasks)
      ensures id in store.tasks && store.tasks[id] == task
      ensures runningCancels == old(runningCancels) + {id}
      ensures inflight == Incr(old(inflight), provider)
    {
      task := RecordTask(id, agent, provider, now);
      runningCancels := runningCancels + {id};
      IncrInflight(provider);
    }

    method RecordTask(id: TaskId, agent: string, provider: Provider, now: int) returns (task: Task)
      requires store.Valid()
      modifies store
      ensures store.Valid()
      ensures fresh(task) && task.agent == agent
      ensures task.View() == TaskView(id, provider, now, TaskFields(Pending, 0, "", NoError))
      ensures store.View() == Inserted(old(store.View()), task.View(), store.maxTasks)
      ensures id in store.tasks && store.tasks[id] == task
    {
      task := new Task(id, agent, provider, now);
      store.Put(task);
    }

    /** Routes the request and admits the task; the goroutine is left to Run. */
    method Delegate(req: DelegateRequest, budget: Option<BudgetView>, now: int)
      returns (out: Result<Task, DelegateError>)
      requires store.Valid()
      modifies this`runningCancels, this`inflight, store
      ensures store.Valid()
      ensures req.prompt == "" ==> out == Failure(PromptRequired)
      ensures out.Failure? ==>
                store.View() == old(store.View()) && inflight == old(inflight) && runningCancels == old(runningCancels)
      ensures out.Success? ==>
                && fresh(out.value)
                && out.value.View() == TaskView(req.id, out.value.provider, now, TaskFields(Pending, 0, "", NoError))
                && store.View() == Inserted(old(store.View()), out.value.View(), store.maxTasks)
                && req.id in store.tasks && store.tasks[req.id] == out.value
                && runningCancels == old(runningCancels) + {req.id}
                && inflight == Incr(old(inflight), out.value.provider)
      ensures req.prompt != "" && req.agentHint != "" ==>
                if req.agentHint in specs
                then out.Success? && out.value.agent == req.agentHint
                     && IsProviderOf(providerToAgent, req.agentHint, out.value.provider)
                else out == Failure(UnknownAgentHint)
      ensures req.prompt != "" && req.agentHint == "" && budget.None? ==> out == Failure(NoBudgetClient)
      ensures req.prompt != "" && req.agentHint == "" && budget.Some? ==>
                RoutedOutcome(providerToAgent, specs, budget.value, old(RequestFor(req, inflight)), ChoiceOf(out))
    {
      if req.prompt == "" {
        return Failure(PromptRequired);
      }
      var choice := ChooseAgent(req, budget);
      if choice.Failure? {
        return Failure(choice.error);
      }
      var task := Admit(req.id, choice.value.agent, choice.value.provider, now);
      return Success(task);
    }

    /** The goroutine body, given what the CLI returned and what the run used; the deferred calls come last. */
    method Run(task: Task, outcome: CliOutcome, meter: Meter, budget: Option<BudgetClient>, now: int)
      returns (ghost during: StoreView)
      requires store.Valid()
      modifies this`inflight, this`runningCancels, if task.id in store.tasks then {store.tasks[task.id]} else {}
      modifies if budget.Some? then {budget.value.store} else {}
      ensures store.Valid()
      // While the CLI runs the task reads running.
      ensures during == Updated(old(store.View()), task.id, MarkRunning)
      ensures store.View() == AfterRun(old(store.View()), task.id, outcome, task.id in old(fired))
      ensures RecordTells(store.View(), old(store.View()), task.id, outcome, task.id in old(fired))
      ensures inflight == Decr(old(inflight), task.provider)
      ensures runningCancels == old(runningCancels) - {task.id}
      ensures budget.Some? ==>
                budget.value.store.View() ==
                AfterReport(old(budget.value.store.View()), budget.value.configs, task.id, task.provider,
                            StatusIn(store.View(), task.id), meter.Tokens(), now)
    {
      during := UpdateAndReport(task, outcome, meter, budget, now);
      ghost var after := store.View();
      Release(task.id, task.provider);
      assert store.View() == after;
    }

    method UpdateAndReport(task: Task, outcome: CliOutcome, meter: Meter, budget: Option<BudgetClient>, now: int)
      returns (ghost during: StoreView)
      requires store.Valid()
      modifies if task.id in store.tasks then {store.tasks[task.id]} else {}
      modifies if budget.Some? then {budget.value.store} else {}
      ensures store.Valid() && during == Updated(old(store.View()), task.id, MarkRunning)
      ensures store.View() == AfterRun(old(store.View()), task.id, outcome, task.id in old(fired))
      ensures RecordTells(store.View(), old(store.View()), task.id, outcome, task.id in old(fired))
      ensures budget.Some? ==>
                budget.value.store.View() ==
                AfterReport(old(budget.value.store.View()), budget.value.configs, task.id, task.provider,
                            StatusIn(store.View(), task.id), meter.Tokens(), now)
    {
      AfterRunTells(store.View(), task.id, outcome, task.id in fired);
      during := UpdateTwice(task.id, outcome);
      ghost var v := store.View();
      ReportUsage(task, meter, budget, now);
      assert store.View() == v;
    }

    /** Reads the stored record back and reports its usage, if there is anything to report and anyone to report to. */
    method ReportUsage(task: Task, meter: Meter, budget: Option<BudgetClient>, now: int)
      requires store.Valid()
      modifies if budget.Some? then {budget.value.store} else {}
      ensures budget.Some? ==>
                budget.value.store.View() ==
                AfterReport(old(budget.value.store.View()), budget.value.configs, task.id, task.provider,
                            StatusIn(store.View(), task.id), meter.Tokens(), now)
    {
      if budget.None? || task.provider == NO_PROVIDER {
        return;
      }
      var final := store.Get(task.id);
      if final.None? {
        return;
      }
      var total := meter.measured;
      if total <= 0 {
        total := (meter.promptLength + meter.stdoutBytes) / 4;
      }
      if total <= 0 {
        return;
      }
      var success := final.value.fields.status == Completed;
      var request := Tracker.ReportRequest(task.provider, total, task.id, Some(success));
      var answer := Tracker.Report(budget.value.store, budget.value.configs, request, now);
    }

    // The deferred calls, the last one deferred first.
    method Release(id: TaskId, provider: Provider)
      modifies this`inflight, this`runningCancels
      ensures inflight == Decr(old(inflight), provider)
      ensures runningCancels == old(runningCancels) - {id}
    {
      DecrInflight(provider);
      runningCancels := runningCancels - {id};
    }

    // Marks the task running, then classifies what the CLI returned.
    method UpdateTwice(id: TaskId, outcome: CliOutcome) returns (ghost during: StoreView)
      requires store.Valid()
      modifies if id in store.tasks then {store.tasks[id]} else {}
      ensures store.Valid() && store.tasks == old(store.tasks)
      ensures during == Updated(old(store.View()), id, MarkRunning)
      ensures store.View() == AfterRun(old(store.View()), id, outcome, id in old(fired))
    {
      var found := store.Update(id, MarkRunning);
      during := store.View();
      var ctxDone := id in fired;
      found := store.Update(id, f => Finalize(outcome, ctxDone, f));
    }

    /** Fires the context, then records the intent; false when nothing is registered under the id. */
    method Cancel(id: TaskId) returns (delivered: bool)
      requires store.Valid()
      modifies this`fired, if id in store.tasks then {store.tasks[id]} else {}
      ensures store.Valid()
      ensures delivered == (id in runningCancels)
      ensures fired == if delivered then old(fired) + {id} else old(fired)
      ensures store.View() == if delivered then Updated(old(store.View()), id, MarkCancelled) else old(store.View())
    {
      if id !in runningCancels {
        return false;
      }
      fired := fired + {id};
      var found := store.Update(id, MarkCancelled);
      return true;
    }
  }

  // A delegation that runs to its end leaves the counts as it found them.
  lemma {:induction false} IncrDecrCancel(m: map<Provider, int>, p: Provider)
    requires forall q :: q in m ==> m[q] > 0
    ensures Decr(Incr(m, p), p) == m
    ensures forall q :: q in Incr(m, p) ==> Incr(m, p)[q] > 0
  {
    if p != NO_PROVIDER && p !in m {
      assert m[p := 1] - {p} == m;
    }
  }
}
