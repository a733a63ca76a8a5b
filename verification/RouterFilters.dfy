/** Which requests a provider may take, and what comes with the answer (the filters, warnings and fallback of
    delegator/budget/router.go in numbers). */
module RouterFilters {
  import opened Wrappers
  import opened BudgetTypes
  import opened Router
  import opened RouterStatics

  // ---- one provider ----

  function Lone(p: Provider, pc: ProviderConfig, st: Option<BudgetStatus>, req: RouteRequest): Scene {
    Scene(map[p := pc], if st.Some? then map[p := st.value] else map[], req)
  }

  // It has a status row that says available, a tier the request accepts, and room for the estimate if it is metered.
  predicate MayTake(pc: ProviderConfig, st: Option<BudgetStatus>, req: RouteRequest) {
    && st.Some? && st.value.isAvailable
    && (req.requireCloud ==> pc.tier == Cloud)
    && (pc.tier == Cloud && !pc.unlimited ==>
          && (pc.dailyLimit <= 0 || st.value.dailyRemaining >= req.estimatedTokens)
          && (pc.weeklyLimit <= 0 || st.value.weeklyRemaining >= req.estimatedTokens))
  }

  predicate HasFreeSlot(p: Provider, pc: ProviderConfig, req: RouteRequest) {
    pc.maxConcurrency <= 0 || (if p in req.providerLoad then req.providerLoad[p] else 0) < pc.maxConcurrency
  }

  lemma {:induction false} LoneIsAdmissibleIff(p: Provider, pc: ProviderConfig,
          st: Option<BudgetStatus>, req: RouteRequest)
    ensures Lone(p, pc, st, req).Viable(p) <==> MayTake(pc, st, req)
    ensures Lone(p, pc, st, req).AtCap(p) <==> !HasFreeSlot(p, pc, req)
    ensures forall q :: q != p ==> !Lone(p, pc, st, req).Known(q)
  {
  }

  // A request goes to the only provider exactly when that may take it and has a free slot; a cloud provider that lacks
  // only the slot is reported as such.
  lemma {:induction false} LoneIsPickedIff(p: Provider, pc: ProviderConfig, st: Option<BudgetStatus>,
          req: RouteRequest, out: Result<RouteResponse, RouteError>)
    requires p != "local" && Lone(p, pc, st, req).Decides(out)
    ensures out.Success? <==> MayTake(pc, st, req) && HasFreeSlot(p, pc, req)
    ensures out.Success? ==> out.value.provider == p && out.value.fallbackProvider == None
    ensures out.Failure? ==>
              out.error == if MayTake(pc, st, req) && pc.tier == Cloud then AllAtConcurrencyCap else NoProviders
  {
    var scene := Lone(p, pc, st, req);
    LoneIsAdmissibleIff(p, pc, st, req);
    assert !scene.LocalEligible();
    assert scene.Admissible(p) <==> MayTake(pc, st, req) && HasFreeSlot(p, pc, req);
    assert scene.ConcurrencyBlocked(p) <==> MayTake(pc, st, req) && !HasFreeSlot(p, pc, req) && pc.tier == Cloud;
  }

  // Local needs only a row that says available and a free slot; as a fallback it comes with a confidence of 0.3.
  lemma {:induction false} LoneLocalIsPickedIff(pc: ProviderConfig, st: Option<BudgetStatus>,
          req: RouteRequest, out: Result<RouteResponse, RouteError>)
    requires Lone("local", pc, st, req).Decides(out)
    ensures out.Success? <==> st.Some? && st.value.isAvailable && HasFreeSlot("local", pc, req)
    ensures out.Success? ==> out.value.provider == "local"
    ensures out.Success? && !MayTake(pc, st, req) ==>
              out.value.confidence == 0.3 && out.value.warning == CloudExhausted
  {
    LoneIsAdmissibleIff("local", pc, st, req);
  }

  // Local stands in for a cloud provider that lacks only a slot.
  lemma {:induction false} LocalStandsIn(scene: Scene, out: Result<RouteResponse, RouteError>)
    requires scene.Decides(out) && out.Success? && forall p :: !scene.Admissible(p)
    ensures out.value.provider == "local" && out.value.fallbackProvider == None && out.value.confidence == 0.3
    ensures out.value.warning == CloudAtCap <==>
            exists p :: scene.Viable(p) && scene.AtCap(p) && scene.configs[p].tier == Cloud
    ensures out.value.warning == CloudAtCap || out.value.warning == CloudExhausted
  {
    forall p | scene.ConcurrencyBlocked(p)
      ensures scene.Viable(p) && scene.AtCap(p) && scene.configs[p].tier == Cloud
    {
    }
    if p :| scene.Viable(p) && scene.AtCap(p) && scene.configs[p].tier == Cloud {
      assert scene.ConcurrencyBlocked(p);
    }
  }

  // ---- what comes with a pick ----

  // The budgets of the winner before its slots, the day before the week: more than four fifths used, or four fifths of
  // the slots taken.
  lemma {:induction false} WarningOfPick(scene: Scene, out: Result<RouteResponse, RouteError>)
    requires scene.Decides(out) && out.Success? && exists p :: scene.Admissible(p)
    ensures scene.Known(out.value.provider)
    ensures var pc, st := scene.configs[out.value.provider], scene.status[out.value.provider];
            var load := if out.value.provider in scene.req.providerLoad
                        then scene.req.providerLoad[out.value.provider] else 0;
            var dayFull := !pc.unlimited && pc.dailyLimit > 0 && 5.0 * st.dailyPct > 4.0;
            var weekFull := !pc.unlimited && pc.weeklyLimit > 0 && 5.0 * st.weeklyPct > 4.0;
            var slotsFull := pc.maxConcurrency > 0 && 5 * load >= 4 * pc.maxConcurrency;
            && (out.value.warning == DailyBudgetHigh <==> dayFull)
            && (out.value.warning == WeeklyBudgetHigh <==> weekFull && !dayFull)
            && (out.value.warning == NearConcurrencyCap <==> slotsFull && !dayFull && !weekFull)
            && (out.value.warning == NoWarning <==> !slotsFull && !dayFull && !weekFull)
  {
  }

  // The model configured for the complexity, or else the provider's default.
  lemma {:induction false} ModelOfPick(scene: Scene, out: Result<RouteResponse, RouteError>)
    requires scene.Decides(out) && out.Success?
    ensures out.value.provider in scene.configs
    ensures var pc := scene.configs[out.value.provider];
            if scene.req.complexity in pc.models then out.value.model == pc.models[scene.req.complexity]
            else out.value.model == pc.defaultModel
  {
  }

  // ---- how sure the router is ----

  function Idle(strength: real): ProviderConfig {
    ProviderConfig(PROVIDER_CLAUDE, Cloud, strength, 0, 0, "", map[], 0.0, true, 0)
  }

  function Unused(): BudgetStatus {
    BudgetStatus(PROVIDER_CLAUDE, 0, 0, 0, 0.0, 0, 0, 0, 0.0, true, 0, 0, 0)
  }

  function IdleScene(c: Complexity, pr: Priority, strength: real): Scene {
    Lone(PROVIDER_CLAUDE, Idle(strength), Some(Unused()), RouteRequest(c, 200, false, "", pr, map[], 0))
  }

  // Strength counts fully from the floor of the complexity on, and by half its share of the floor below.
  function StrengthCounted(c: Complexity, strength: real): real {
    match c
    case Critical => if strength < 0.8 then 0.625 * strength else strength
    case High => if strength < 0.6 then 5.0 * strength / 6.0 else strength
    case Medium => if strength < 0.3 then 5.0 * strength / 3.0 else strength
    case _ => strength
  }

  lemma {:induction false} CapabilityInNumbers(c: Complexity, strength: real)
    ensures CapabilityScore(c, strength) == StrengthCounted(c, strength)
  {
  }

  lemma {:induction false} IdleScore(c: Complexity, pr: Priority, strength: real)
    ensures var scene := IdleScene(c, pr, strength);
            && NormalisesCost(scene.configs, 1.0) && scene.Admissible(PROVIDER_CLAUDE)
            && scene.ScoreAt(PROVIDER_CLAUDE, 1.0) ==
               WeightsFor(c).capability * StrengthCounted(c, strength) + WeightsFor(c).headroom
               + WeightsFor(c).cost * CostMultiplier(pr)
  {
    var scene := IdleScene(c, pr, strength);
    CapabilityInNumbers(c, strength);
    assert scene.FreeShare(PROVIDER_CLAUDE) == 1.0 && CostScore(scene.configs[PROVIDER_CLAUDE], 1.0) == 1.0;
    assert HeadroomScore(scene.configs[PROVIDER_CLAUDE], scene.status[PROVIDER_CLAUDE]) == 1.0;
  }

  // An idle, free, unlimited provider alone is picked with its whole score as the confidence, at most one.
  lemma {:induction false} ConfidenceInNumbers(c: Complexity, pr: Priority,
          strength: real, out: Result<RouteResponse, RouteError>)
    requires IdleScene(c, pr, strength).Decides(out)
    ensures out.Success?
    ensures var urgency := if pr == Immediate then 0.3 else if pr == Background then 1.5 else 1.0;
            var counted := StrengthCounted(c, strength);
            var score := match c
                         case Critical => 0.7 * counted + 0.2 + 0.1 * urgency
                         case High => 0.5 * counted + 0.3 + 0.2 * urgency
                         case Low => 0.1 * counted + 0.2 + 0.7 * urgency
                         case _ => 0.3 * counted + 0.3 + 0.4 * urgency;
            out.value.confidence == if score > 1.0 then 1.0 else score
  {
    var scene := IdleScene(c, pr, strength);
    IdleScore(c, pr, strength);
    var m :| NormalisesCost(scene.configs, m) && scene.DecidesAt(out, m);
    NormaliserUnique(scene.configs, m, 1.0);
    assert scene.Best(out.value.provider, m);
  }
}
