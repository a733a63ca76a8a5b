/** The two views of a delegation agree: its steps taken without interference do to the shared state exactly what the
    contracts of the orchestrator's methods say. */
module Sequential {
  import opened Wrappers
  import opened BudgetTypes
  import opened Router
  import opened Ledger
  import opened Tasks
  import opened Inflight
  import opened DelegationSteps
  import Orchestrator

  // The shared state the methods see, and how far one delegation is.
  ghost predicate Stands(s: State, id: TaskId, phase: Phase, p: Provider, store: StoreView,
          inflight: map<Provider, int>, cancels: set<TaskId>, fired: set<TaskId>, budget: Tables)
  {
    && At(s, id, phase) && s.delegations[id].provider == p && s.store == store
    && s.inflight == inflight && s.cancels == cancels && s.fired == fired && s.budget == budget
  }

  lemma {:induction false} RecordStands(cfg: Config, s: State, id: TaskId, now: int)
    requires At(s, id, Routed)
    ensures var p := s.delegations[id].provider;
            Stands(Next(cfg, s, Record(id, now)), id, Recorded, p,
                   Inserted(s.store, NewTask(id, s.delegations[id], now), cfg.maxTasks),
                   s.inflight, s.cancels, s.fired, s.budget)
  {
  }

  lemma {:induction false} RegisterStands(cfg: Config, s: State, id: TaskId, p: Provider, store: StoreView)
    requires Stands(s, id, Recorded, p, store, s.inflight, s.cancels, s.fired, s.budget)
    ensures Stands(Next(cfg, s, Register(id)), id, Cancellable, p,
                   store, s.inflight, s.cancels + {id}, s.fired, s.budget)
  {
  }

  lemma {:induction false} CountStands(cfg: Config, s: State, id: TaskId, p: Provider, store: StoreView)
    requires Stands(s, id, Cancellable, p, store, s.inflight, s.cancels, s.fired, s.budget)
    ensures Stands(Next(cfg, s, Count(id)), id, Counted, p, store, Incr(s.inflight, p), s.cancels, s.fired, s.budget)
  {
  }

  lemma {:induction false} StartStands(cfg: Config, s: State, id: TaskId, p: Provider)
    requires Stands(s, id, Counted, p, s.store, s.inflight, s.cancels, s.fired, s.budget)
    ensures Stands(Next(cfg, s, Start(id)), id, Started, p,
                   Updated(s.store, id, MarkRunning), s.inflight, s.cancels, s.fired, s.budget)
  {
  }

  lemma {:induction false} FinishStands(cfg: Config, s: State, id: TaskId, p: Provider,
          v: StoreView, outcome: CliOutcome)
    requires Stands(s, id, Started, p, Updated(v, id, MarkRunning), s.inflight, s.cancels, s.fired, s.budget)
    ensures Stands(Next(cfg, s, Finish(id, outcome)), id, Finished, p,
                   Orchestrator.AfterRun(v, id, outcome, id in s.fired), s.inflight, s.cancels, s.fired, s.budget)
  {
  }

  // What the report charges, given the store after the final update.
  function Reported(cfg: Config, s: State, id: TaskId, p: Provider, tokens: int, now: int): Tables {
    Orchestrator.AfterReport(s.budget, cfg.configs, id, p, Orchestrator.StatusIn(s.store, id), tokens, now)
  }

  lemma {:induction false} ReportStands(cfg: Config, s: State, id: TaskId, p: Provider, tokens: int, now: int)
    requires Stands(s, id, Finished, p, s.store, s.inflight, s.cancels, s.fired, s.budget)
    ensures var read := Next(cfg, s, Read(id));
            && Ready(read, Report(id, tokens, now))
            && Stands(Next(cfg, read, Report(id, tokens, now)), id, Phase.Reported, p,
                      s.store, s.inflight, s.cancels, s.fired, Reported(cfg, s, id, p, tokens, now))
  {
    assert At(Next(cfg, s, Read(id)), id, ReadBack);
  }

  lemma {:induction false} ReleaseStands(cfg: Config, s: State, id: TaskId, p: Provider)
    requires Stands(s, id, Phase.Reported, p, s.store, s.inflight, s.cancels, s.fired, s.budget)
    ensures var released := Next(cfg, s, Release(id));
            && Ready(released, Deregister(id))
            && Stands(Next(cfg, released, Deregister(id)), id, Gone, p,
                      s.store, Decr(s.inflight, p), s.cancels - {id}, s.fired, s.budget)
  {
    assert At(Next(cfg, s, Release(id)), id, Released);
  }

  // Every one of the steps is enabled where it is taken.
  ghost predicate Run(cfg: Config, s: State, steps: seq<Step>, t: State)
    decreases |steps|
  {
    if steps == [] then t == s
    else Enabled(cfg, s, steps[0]) && Run(cfg, Next(cfg, s, steps[0]), steps[1..], t)
  }

  lemma {:induction false} RunOne(cfg: Config, s: State, step: Step, rest: seq<Step>, t: State)
    requires Enabled(cfg, s, step) && Run(cfg, Next(cfg, s, step), rest, t)
    ensures Run(cfg, s, [step] + rest, t)
  {
    assert ([step] + rest)[1..] == rest;
  }

  lemma {:induction false} RunNone(cfg: Config, s: State)
    ensures Run(cfg, s, [], s)
  {
  }

  // ---- choosing ----

  // The budget as one call sees it: the configurations and, if they could be read, the statuses.
  ghost predicate Sees(cfg: Config, s: State, budget: Orchestrator.BudgetView) {
    && budget.configs == cfg.configs
    && (budget.statuses.Success? ==> StatusMap(budget.statuses.value) == StatusOf(s.budget))
  }

  ghost predicate Mapped(cfg: Config, agents: map<Provider, string>, specs: set<string>) {
    forall p :: p in cfg.agents <==> p in agents && agents[p] in specs
  }

  // The statuses read from the tables are the statuses of their rows.
  lemma {:induction false} StatusesReadBack(t: Tables, statuses: seq<BudgetStatus>)
    requires forall i :: 0 <= i < |statuses| ==>
               statuses[i].provider in t.rows && statuses[i] == StatusOf(t)[statuses[i].provider]
    ensures forall p :: p in StatusMap(statuses) <==> exists i :: 0 <= i < |statuses| && statuses[i].provider == p
    ensures forall p :: p in StatusMap(statuses) ==> p in t.rows && StatusMap(statuses)[p] == StatusOf(t)[p]
  {
    if statuses == [] {
    } else {
      StatusesReadBack(t, statuses[..|statuses| - 1]);
    }
  }

  // Reading all statuses gives a view of the budget.
  lemma {:induction false} StatusesAreSeen(cfg: Config, s: State, statuses: seq<BudgetStatus>)
    requires forall st :: st in statuses <==>
                            st.provider in s.budget.rows && st == ScanStatus(st.provider, s.budget.rows[st.provider])
    ensures Sees(cfg, s, Orchestrator.BudgetView(cfg.configs, Success(statuses)))
  {
    forall i | 0 <= i < |statuses|
      ensures statuses[i].provider in s.budget.rows && statuses[i] == StatusOf(s.budget)[statuses[i].provider]
    {
      assert statuses[i] in statuses;
    }
    StatusesReadBack(s.budget, statuses);
    forall p | p in s.budget.rows
      ensures p in StatusMap(statuses)
    {
      assert ScanStatus(p, s.budget.rows[p]) in statuses;
    }
  }

  // The router's answers in the step system are its answers to the orchestrator, with statuses read or not.
  lemma {:induction false} AnswersAgree(cfg: Config, s: State, d: Delegation,
          statuses: seq<BudgetStatus>, routed: Result<RouteResponse, RouteError>)
    requires Sees(cfg, s, Orchestrator.BudgetView(cfg.configs, Success(statuses)))
    ensures var unread := Orchestrator.BudgetView(cfg.configs, Failure(()));
            var read := Orchestrator.BudgetView(cfg.configs, Success(statuses));
            RouterMayAnswer(cfg, s, d, routed) <==>
              || Orchestrator.RouterAnswers(unread, d.Request(), routed)
              || Orchestrator.RouterAnswers(read, d.Request(), routed)
  {
  }

  function BeginStep(req: Orchestrator.DelegateRequest): Step {
    Begin(req.id, req.complexity, Orchestrator.EffectivePriority(req), |req.prompt|)
  }

  lemma {:induction false} BeginStands(cfg: Config, s: State, req: Orchestrator.DelegateRequest)
    requires req.id !in s.delegations
    ensures var t := Next(cfg, s, BeginStep(req));
            && Stands(t, req.id, Snapshotted, NO_PROVIDER, s.store, s.inflight, s.cancels, s.fired, s.budget)
            && t.delegations[req.id].Request() == Orchestrator.RequestFor(req, s.inflight)
  {
  }

  // A delegation goes on exactly when the choice succeeds, with the provider chosen.
  lemma {:induction false} DecideStands(cfg: Config, s: State, id: TaskId, agents: map<Provider, string>,
          specs: set<string>, routed: Result<RouteResponse, RouteError>,
          out: Result<Orchestrator.Choice, Orchestrator.DelegateError>)
    requires At(s, id, Snapshotted) && Mapped(cfg, agents, specs) && Orchestrator.Follows(agents, specs, routed, out)
    ensures Stands(Next(cfg, s, Decide(id, routed)), id, if out.Success? then Routed else Rejected,
                   if out.Success? then out.value.provider else s.delegations[id].provider,
                   s.store, s.inflight, s.cancels, s.fired, s.budget)
  {
  }

  function OutcomeOf(agents: map<Provider, string>, specs: set<string>, routed: Result<RouteResponse, RouteError>):
    (out: Result<Orchestrator.Choice, Orchestrator.DelegateError>)
    ensures Orchestrator.Follows(agents, specs, routed, out)
  {
    if routed.Failure? then Failure(Orchestrator.RouteFailed(routed.error))
    else if routed.value.provider !in agents then Failure(Orchestrator.NoAgentMapping(routed.value.provider))
    else
      var agent := agents[routed.value.provider];
      if agent !in specs then Failure(Orchestrator.NoCliSpec(agent))
      else Success(Orchestrator.Choice(agent, routed.value.provider))
  }

  // Every decision of the step system is one that choosing an agent can make.
  lemma {:induction false} EveryDecisionIsAChoice(cfg: Config, s: State, id: TaskId, agents: map<Provider, string>,
          specs: set<string>, statuses: seq<BudgetStatus>, routed: Result<RouteResponse, RouteError>)
    returns (budget: Orchestrator.BudgetView, out: Result<Orchestrator.Choice, Orchestrator.DelegateError>)
    requires Sees(cfg, s, Orchestrator.BudgetView(cfg.configs, Success(statuses))) && Mapped(cfg, agents, specs)
    requires Enabled(cfg, s, Decide(id, routed))
    ensures Sees(cfg, s, budget)
    ensures Orchestrator.RoutedOutcome(agents, specs, budget, s.delegations[id].Request(), out)
    ensures var t := Next(cfg, s, Decide(id, routed));
            && At(t, id, if out.Success? then Routed else Rejected)
            && (out.Success? ==> t.delegations[id].provider == out.value.provider)
  {
    out := OutcomeOf(agents, specs, routed);
    DecideStands(cfg, s, id, agents, specs, routed, out);
    AnswersAgree(cfg, s, s.delegations[id], statuses, routed);
    budget := Orchestrator.BudgetView(cfg.configs, if routed == Failure(StatusUnavailable) then Failure(())
                                                   else Success(statuses));
    assert Orchestrator.RouterAnswers(budget, s.delegations[id].Request(), routed);
  }

  lemma {:induction false} ChoiceStands(cfg: Config, s: State, req: Orchestrator.DelegateRequest,
          agents: map<Provider, string>, specs: set<string>,
          budget: Orchestrator.BudgetView, out: Result<Orchestrator.Choice, Orchestrator.DelegateError>)
    returns (routed: Result<RouteResponse, RouteError>, begun: State, t: State)
    requires req.id !in s.delegations && Sees(cfg, s, budget) && Mapped(cfg, agents, specs)
    requires Orchestrator.RoutedOutcome(agents, specs, budget, Orchestrator.RequestFor(req, s.inflight), out)
    ensures Enabled(cfg, s, BeginStep(req)) && begun == Next(cfg, s, BeginStep(req))
    ensures Enabled(cfg, begun, Decide(req.id, routed)) && t == Next(cfg, begun, Decide(req.id, routed))
    ensures Stands(t, req.id, if out.Success? then Routed else Rejected,
                   if out.Success? then out.value.provider else NO_PROVIDER,
                   s.store, s.inflight, s.cancels, s.fired, s.budget)
  {
    var request := Orchestrator.RequestFor(req, s.inflight);
    routed :| Orchestrator.RouterAnswers(budget, request, routed) && Orchestrator.Follows(agents, specs, routed, out);
    begun := Next(cfg, s, BeginStep(req));
    BeginStands(cfg, s, req);
    t := Next(cfg, begun, Decide(req.id, routed));
    DecideStands(cfg, begun, req.id, agents, specs, routed, out);
  }

  // ChooseAgent without a hint: the snapshot and the decision.
  lemma {:induction false} ChooseIsTwoSteps(cfg: Config, s: State, req: Orchestrator.DelegateRequest,
          agents: map<Provider, string>, specs: set<string>,
          budget: Orchestrator.BudgetView, out: Result<Orchestrator.Choice, Orchestrator.DelegateError>)
    returns (routed: Result<RouteResponse, RouteError>, t: State)
    requires req.id !in s.delegations && Sees(cfg, s, budget) && Mapped(cfg, agents, specs)
    requires Orchestrator.RoutedOutcome(agents, specs, budget, Orchestrator.RequestFor(req, s.inflight), out)
    ensures Run(cfg, s, [BeginStep(req)] + ([Decide(req.id, routed)] + []), t)
    ensures Stands(t, req.id, if out.Success? then Routed else Rejected,
                   if out.Success? then out.value.provider else NO_PROVIDER,
                   s.store, s.inflight, s.cancels, s.fired, s.budget)
  {
    var begun;
    routed, begun, t := ChoiceStands(cfg, s, req, agents, specs, budget, out);
    RunNone(cfg, t);
    RunOne(cfg, begun, Decide(req.id, routed), [], t);
    RunOne(cfg, s, BeginStep(req), [Decide(req.id, routed)] + [], t);
  }

  function HintedStep(req: Orchestrator.DelegateRequest, p: Provider): Step {
    BeginHinted(req.id, p, req.complexity, Orchestrator.EffectivePriority(req), |req.prompt|)
  }

  // ChooseAgent with a hint: no snapshot and no decision.
  lemma {:induction false} HintIsOneStep(cfg: Config, s: State, req: Orchestrator.DelegateRequest, p: Provider)
    requires req.id !in s.delegations
    ensures Enabled(cfg, s, HintedStep(req, p))
    ensures Stands(Next(cfg, s, HintedStep(req, p)), req.id, Routed, p,
                   s.store, s.inflight, s.cancels, s.fired, s.budget)
  {
  }

  // Delegate with a hint: four steps that leave the task stored, cancellable and counted.
  lemma {:induction false} HintedDelegateIsFourSteps(cfg: Config, s: State, req: Orchestrator.DelegateRequest,
          p: Provider, now: int)
    returns (t: State)
    requires req.id !in s.delegations
    ensures Run(cfg, s, [HintedStep(req, p)] + AdmitSteps(req.id, now), t)
    ensures Stands(t, req.id, Counted, p, Inserted(s.store, TaskView(req.id, p, now, BLANK_FIELDS), cfg.maxTasks),
                   Incr(s.inflight, p), s.cancels + {req.id}, s.fired, s.budget)
  {
    HintIsOneStep(cfg, s, req, p);
    t := AdmitIsThreeSteps(cfg, Next(cfg, s, HintedStep(req, p)), req.id, now);
    RunOne(cfg, s, HintedStep(req, p), AdmitSteps(req.id, now), t);
  }

  // Delegate, routed and chosen: five steps that leave the task stored, cancellable and counted.
  lemma {:induction false} DelegateIsFiveSteps(cfg: Config, s: State, req: Orchestrator.DelegateRequest,
          agents: map<Provider, string>, specs: set<string>, budget: Orchestrator.BudgetView,
          choice: Orchestrator.Choice, now: int)
    returns (routed: Result<RouteResponse, RouteError>, t: State)
    requires req.id !in s.delegations && Sees(cfg, s, budget) && Mapped(cfg, agents, specs)
    requires Orchestrator.RoutedOutcome(agents, specs, budget, Orchestrator.RequestFor(req, s.inflight),
                                        Success(choice))
    ensures Run(cfg, s, [BeginStep(req)] + ([Decide(req.id, routed)] + AdmitSteps(req.id, now)), t)
    ensures Stands(t, req.id, Counted, choice.provider,
                   Inserted(s.store, TaskView(req.id, choice.provider, now, BLANK_FIELDS), cfg.maxTasks),
                   Incr(s.inflight, choice.provider), s.cancels + {req.id}, s.fired, s.budget)
  {
    var begun, chosen;
    routed, begun, chosen := ChoiceStands(cfg, s, req, agents, specs, budget, Success(choice));
    t := AdmitIsThreeSteps(cfg, chosen, req.id, now);
    RunOne(cfg, begun, Decide(req.id, routed), AdmitSteps(req.id, now), t);
    RunOne(cfg, s, BeginStep(req), [Decide(req.id, routed)] + AdmitSteps(req.id, now), t);
  }

  function AdmitSteps(id: TaskId, now: int): seq<Step> {
    [Record(id, now)] + ([Register(id)] + ([Count(id)] + []))
  }

  // ---- admitting, running, cancelling ----

  // Admit: the three steps from routing to the increment.
  lemma {:induction false} AdmitIsThreeSteps(cfg: Config, s: State, id: TaskId, now: int) returns (t: State)
    requires At(s, id, Routed)
    ensures Run(cfg, s, AdmitSteps(id, now), t)
    ensures var p := s.delegations[id].provider;
            Stands(t, id, Counted, p, Inserted(s.store, NewTask(id, s.delegations[id], now), cfg.maxTasks),
                   Incr(s.inflight, p), s.cancels + {id}, s.fired, s.budget)
  {
    var p := s.delegations[id].provider;
    var recorded := Next(cfg, s, Record(id, now));
    RecordStands(cfg, s, id, now);
    var registered := Next(cfg, recorded, Register(id));
    RegisterStands(cfg, recorded, id, p, recorded.store);
    t := Next(cfg, registered, Count(id));
    CountStands(cfg, registered, id, p, registered.store);
    RunNone(cfg, t);
    RunOne(cfg, registered, Count(id), [], t);
    RunOne(cfg, recorded, Register(id), [Count(id)] + [], t);
    RunOne(cfg, s, Record(id, now), [Register(id)] + ([Count(id)] + []), t);
  }

  // Run: the six steps from the first update to the deregistration, for every amount reported in between.
  lemma {:induction false} RunIsSixSteps(cfg: Config, s: State, id: TaskId, outcome: CliOutcome, tokens: int, now: int)
    returns (t: State)
    requires At(s, id, Counted)
    ensures Run(cfg, s, [Start(id)] + ([Finish(id, outcome)] + LastSteps(id, tokens, now)), t)
    ensures var p := s.delegations[id].provider;
            Stands(t, id, Gone, p, Orchestrator.AfterRun(s.store, id, outcome, id in s.fired),
                   Decr(s.inflight, p), s.cancels - {id}, s.fired,
                   Orchestrator.AfterReport(s.budget, cfg.configs, id, p, Orchestrator.StatusIn(t.store, id),
                                            tokens, now))
  {
    var p := s.delegations[id].provider;
    var started := Next(cfg, s, Start(id));
    StartStands(cfg, s, id, p);
    var finished := Next(cfg, started, Finish(id, outcome));
    FinishStands(cfg, started, id, p, s.store, outcome);
    t := LastStepsRun(cfg, finished, id, p, tokens, now);
    RunOne(cfg, started, Finish(id, outcome), LastSteps(id, tokens, now), t);
    RunOne(cfg, s, Start(id), [Finish(id, outcome)] + LastSteps(id, tokens, now), t);
  }

  function LastSteps(id: TaskId, tokens: int, now: int): seq<Step> {
    [Read(id)] + ([Report(id, tokens, now)] + ([Release(id)] + ([Deregister(id)] + [])))
  }

  lemma {:induction false} LastStepsRun(cfg: Config, s: State, id: TaskId, p: Provider, tokens: int, now: int)
    returns (t: State)
    requires Stands(s, id, Finished, p, s.store, s.inflight, s.cancels, s.fired, s.budget)
    ensures Run(cfg, s, LastSteps(id, tokens, now), t)
    ensures Stands(t, id, Gone, p, s.store, Decr(s.inflight, p), s.cancels - {id}, s.fired,
                   Reported(cfg, s, id, p, tokens, now))
  {
    ReportStands(cfg, s, id, p, tokens, now);
    var read := Next(cfg, s, Read(id));
    var reported := Next(cfg, read, Report(id, tokens, now));
    ReleaseStands(cfg, reported, id, p);
    var released := Next(cfg, reported, Release(id));
    t := Next(cfg, released, Deregister(id));
    RunNone(cfg, t);
    RunOne(cfg, released, Deregister(id), [], t);
    RunOne(cfg, reported, Release(id), [Deregister(id)] + [], t);
    RunOne(cfg, read, Report(id, tokens, now), [Release(id)] + ([Deregister(id)] + []), t);
    RunOne(cfg, s, Read(id), [Report(id, tokens, now)] + ([Release(id)] + ([Deregister(id)] + [])), t);
  }

  // What the tracker does to the ledger is one step that touches nothing else.
  lemma {:induction false} HousekeepIsOneStep(cfg: Config, s: State, op: Op)
    requires op.InitProvider? || op.ResetDaily? || op.ResetWeekly?
    ensures Run(cfg, s, [Housekeep(op)] + [], s.(budget := Apply(s.budget, op)))
  {
    var t := s.(budget := Apply(s.budget, op));
    assert Next(cfg, s, Housekeep(op)) == t;
    RunNone(cfg, t);
    RunOne(cfg, s, Housekeep(op), [], t);
  }

  lemma {:induction false} MarkStands(cfg: Config, s: State, id: TaskId)
    requires id in s.marks
    ensures var t := Next(cfg, s, MarkCancel(id));
            t == s.(store := Updated(s.store, id, MarkCancelled), marks := s.marks - multiset{id})
  {
  }

  lemma {:induction false} FireStands(cfg: Config, s: State, id: TaskId)
    requires id in s.loads
    ensures var t := Next(cfg, s, FireCancel(id));
            t == s.(fired := s.fired + {id}, loads := s.loads - multiset{id}, marks := s.marks + multiset{id})
  {
  }

  lemma {:induction false} LoadStands(cfg: Config, s: State, id: TaskId)
    requires id in s.cancels
    ensures Next(cfg, s, LoadCancel(id)) == s.(loads := s.loads + multiset{id})
  {
  }

  // Cancel: loading the function, firing the context and recording the intent, for a registered delegation.
  lemma {:induction false} CancelIsThreeSteps(cfg: Config, s: State, id: TaskId) returns (t: State)
    requires id in s.cancels
    ensures Run(cfg, s, [LoadCancel(id)] + ([FireCancel(id)] + ([MarkCancel(id)] + [])), t)
    ensures t == s.(store := Updated(s.store, id, MarkCancelled), fired := s.fired + {id})
  {
    var loaded := s.(loads := s.loads + multiset{id});
    LoadStands(cfg, s, id);
    var fired := s.(fired := s.fired + {id}, marks := s.marks + multiset{id});
    FireStands(cfg, loaded, id);
    assert loaded.loads - multiset{id} == s.loads;
    t := s.(store := Updated(s.store, id, MarkCancelled), fired := s.fired + {id});
    MarkStands(cfg, fired, id);
    assert fired.marks - multiset{id} == s.marks;
    RunNone(cfg, t);
    RunOne(cfg, fired, MarkCancel(id), [], t);
    RunOne(cfg, loaded, FireCancel(id), [MarkCancel(id)] + [], t);
    RunOne(cfg, s, LoadCancel(id), [FireCancel(id)] + ([MarkCancel(id)] + []), t);
  }
}
