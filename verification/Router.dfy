/** The budget router: hard filters, weighted score, ordering and local fallback (delegator/budget/router.go). */
module Router {
  import opened Wrappers
  import opened BudgetTypes
  import opened Finite
  import opened Ordering

  // ---- weight tables ----

  datatype ScoringWeights = ScoringWeights(capability: real, headroom: real, cost: real)

  function WeightsFor(c: Complexity): ScoringWeights {
    match c
    case Critical => ScoringWeights(0.7, 0.2, 0.1)
    case High => ScoringWeights(0.5, 0.3, 0.2)
    case Low => ScoringWeights(0.1, 0.2, 0.7)
    case _ => ScoringWeights(0.3, 0.3, 0.4)
  }

  // An unset priority counts as normal; an unknown one leaves the weight as it is.
  function CostMultiplier(p: Priority): real {
    match p
    case Immediate => 0.3
    case Background => 1.5
    case _ => 1.0
  }

  function MinimumStrength(c: Complexity): real {
    match c
    case Critical => 0.8
    case High => 0.6
    case Medium => 0.3
    case _ => 0.0
  }

  const BASE_LOAD_EMPHASIS := 0.05
  const MAX_LOAD_EMPHASIS := 0.5
  const QUEUE_DEPTH_FULL_SCALE := 20.0
  const PREFERENCE_BONUS := 0.1
  const FALLBACK_CONFIDENCE := 0.3

  function LoadEmphasisFor(queueDepth: int): (e: real)
    ensures BASE_LOAD_EMPHASIS <= e <= MAX_LOAD_EMPHASIS
  {
    if queueDepth <= 0 then BASE_LOAD_EMPHASIS
    else
      var frac := queueDepth as real / QUEUE_DEPTH_FULL_SCALE;
      BASE_LOAD_EMPHASIS + (if frac > 1.0 then 1.0 else frac) * (MAX_LOAD_EMPHASIS - BASE_LOAD_EMPHASIS)
  }

  function LoadScoreFor(load: int, capacity: int): (free: real)
    ensures 0.0 <= free <= 1.0
  {
    if capacity <= 0 then 1.0
    else
      var l := if load < 0 then 0 else load;
      var free := (capacity - l) as real / capacity as real;
      if free < 0.0 then 0.0 else if free > 1.0 then 1.0 else free
  }

  // ---- score components ----

  function Min(a: real, b: real): real {
    if a <= b then a else b
  }

  function CapabilityScore(c: Complexity, strength: real): real {
    var floor := MinimumStrength(c);
    if strength < floor && floor > 0.0 then strength / floor * 0.5 else strength
  }

  function HeadroomScore(pc: ProviderConfig, st: BudgetStatus): real {
    if pc.IsUnlimited() then 1.0
    else
      var daily := if pc.dailyLimit > 0 then 1.0 - st.dailyPct else 1.0;
      var weekly := if pc.weeklyLimit > 0 then 1.0 - st.weeklyPct else 1.0;
      Min(daily, weekly)
  }

  function CostScore(pc: ProviderConfig, maxCost: real): real
    requires maxCost > 0.0
  {
    1.0 - pc.costPerMToken / maxCost
  }

  // The load penalty is taken off what the other weighted scores add up to.
  function Composite(fixed: real, costWeight: real, costScore: real, emphasis: real, freeShare: real): real {
    fixed + costWeight * costScore - emphasis * (1.0 - freeShare)
  }

  // ---- the cost normaliser ----

  // The largest configured cost, floored at zero, with zero replaced by one.
  ghost predicate NormalisesCost(configs: map<Provider, ProviderConfig>, m: real)
  {
    && m > 0.0
    && (forall p :: p in configs ==> configs[p].costPerMToken <= m)
    && ((exists p :: p in configs && configs[p].costPerMToken == m)
        || (m == 1.0 && forall p :: p in configs ==> configs[p].costPerMToken <= 0.0))
  }

  method FindMaxCost(configs: map<Provider, ProviderConfig>) returns (maxCost: real)
    ensures NormalisesCost(configs, maxCost)
  {
    maxCost := 0.0;
    var rest := configs.Keys;
    while rest != {}
      invariant rest <= configs.Keys
      invariant maxCost >= 0.0
      invariant forall p :: p in configs && p !in rest ==> configs[p].costPerMToken <= maxCost
      invariant maxCost == 0.0 || exists p :: p in configs && configs[p].costPerMToken == maxCost
    {
      var p :| p in rest;
      if configs[p].costPerMToken > maxCost {
        maxCost := configs[p].costPerMToken;
      }
      rest := rest - {p};
    }
    if maxCost == 0.0 {
      maxCost := 1.0;
    }
  }

  // ---- one routing decision ----

  datatype Warning = NoWarning | DailyBudgetHigh | WeeklyBudgetHigh | NearConcurrencyCap | CloudExhausted | CloudAtCap

  datatype RouteResponse = RouteResponse(
    provider: Provider,
    model: string,
    fallbackProvider: Option<Provider>,
    warning: Warning,
    confidence: real)

  datatype RouteError = StatusUnavailable | AllAtConcurrencyCap | NoProviders

  datatype Candidate = Candidate(provider: Provider, score: real, model: string)

  function StatusMap(statuses: seq<BudgetStatus>): map<Provider, BudgetStatus>
  {
    if statuses == [] then map[]
    else
      var last := statuses[|statuses| - 1];
      StatusMap(statuses[..|statuses| - 1])[last.provider := last]
  }

  /** Everything one call to Route looks at. */
  datatype Scene = Scene(
    configs: map<Provider, ProviderConfig>,
    status: map<Provider, BudgetStatus>,
    req: RouteRequest)
  {
    predicate Known(p: Provider) {
      p in configs && p in status
    }

    // The hard filters before the concurrency cap.
    predicate Viable(p: Provider) {
      && Known(p)
      && status[p].isAvailable
      && (req.requireCloud ==> configs[p].tier == Cloud)
      && WithinBudget(configs[p], status[p])
    }

    predicate WithinBudget(pc: ProviderConfig, st: BudgetStatus) {
      pc.tier == Cloud && !pc.IsUnlimited() ==>
        && (pc.dailyLimit > 0 ==> req.estimatedTokens <= st.dailyRemaining)
        && (pc.weeklyLimit > 0 ==> req.estimatedTokens <= st.weeklyRemaining)
    }

    predicate AtCap(p: Provider)
      requires p in configs
    {
      configs[p].maxConcurrency > 0 && req.LoadOf(p) >= configs[p].maxConcurrency
    }

    predicate Admissible(p: Provider) {
      Viable(p) && !AtCap(p)
    }

    // A cloud provider held back by nothing but its cap.
    predicate ConcurrencyBlocked(p: Provider) {
      Viable(p) && AtCap(p) && configs[p].tier == Cloud
    }

    // The part of the score that depends on neither the priority nor the load.
    function FixedPart(p: Provider): real
      requires Known(p)
    {
      var w := WeightsFor(req.complexity);
      w.capability * CapabilityScore(req.complexity, configs[p].strength)
      + w.headroom * HeadroomScore(configs[p], status[p])
      + (if req.preferProvider != "" && req.preferProvider == p then PREFERENCE_BONUS else 0.0)
    }

    function CostWeight(): real {
      WeightsFor(req.complexity).cost * CostMultiplier(req.priority)
    }

    function FreeShare(p: Provider): real
      requires Known(p)
    {
      LoadScoreFor(req.LoadOf(p), configs[p].maxConcurrency)
    }

    function ScoreAt(p: Provider, maxCost: real): real
      requires Known(p) && maxCost > 0.0
    {
      Composite(FixedPart(p), CostWeight(), CostScore(configs[p], maxCost),
                LoadEmphasisFor(req.queueDepth), FreeShare(p))
    }

    function CandidateAt(p: Provider, maxCost: real): Candidate
      requires Known(p) && maxCost > 0.0
    {
      Candidate(p, ScoreAt(p, maxCost), configs[p].ModelForComplexity(req.complexity))
    }

    // Score descending, then name ascending.
    predicate Better(p: Provider, q: Provider, maxCost: real)
      requires Known(p) && Known(q) && maxCost > 0.0
    {
      ScoreAt(p, maxCost) > ScoreAt(q, maxCost)
      || (ScoreAt(p, maxCost) == ScoreAt(q, maxCost) && Less(p, q))
    }

    ghost predicate Best(p: Provider, maxCost: real)
      requires maxCost > 0.0
    {
      && Admissible(p)
      && forall q :: Admissible(q) && q != p ==> Better(p, q, maxCost)
    }

    // The best admissible provider once the winner is set aside, if there is one.
    ghost predicate RunnerUp(fallback: Option<Provider>, winner: Provider, maxCost: real)
      requires maxCost > 0.0
    {
      match fallback
      case None => forall q :: Admissible(q) ==> q == winner
      case Some(f) =>
        && Admissible(f) && f != winner
        && forall q :: Admissible(q) && q != winner && q != f ==> Better(f, q, maxCost)
    }

    predicate LocalEligible() {
      Known(PROVIDER_LOCAL) && status[PROVIDER_LOCAL].isAvailable && !AtCap(PROVIDER_LOCAL)
    }

    // The budget signal comes before the concurrency signal, and daily before weekly.
    function WinnerWarning(p: Provider): (w: Warning)
      requires Known(p)
    {
      var pc, st := configs[p], status[p];
      if !pc.IsUnlimited() && pc.dailyLimit > 0 && st.dailyPct > 0.8 then DailyBudgetHigh
      else if !pc.IsUnlimited() && pc.weeklyLimit > 0 && st.weeklyPct > 0.8 then WeeklyBudgetHigh
      else if pc.maxConcurrency > 0 && req.LoadOf(p) as real >= 0.8 * pc.maxConcurrency as real then NearConcurrencyCap
      else NoWarning
    }

    /** What Route promises, without saying how the candidates are enumerated or sorted. */
    ghost predicate Decides(out: Result<RouteResponse, RouteError>)
    {
      exists maxCost: real :: NormalisesCost(configs, maxCost) && DecidesAt(out, maxCost)
    }

    ghost predicate DecidesAt(out: Result<RouteResponse, RouteError>, maxCost: real)
      requires maxCost > 0.0
    {
      if exists p :: Admissible(p) then
        && out.Success?
        && var r := out.value;
        && Best(r.provider, maxCost)
        && r.model == configs[r.provider].ModelForComplexity(req.complexity)
        && RunnerUp(r.fallbackProvider, r.provider, maxCost)
        && r.warning == WinnerWarning(r.provider)
        && r.confidence == Min(ScoreAt(r.provider, maxCost), 1.0)
      else if LocalEligible() then
        out == Success(RouteResponse(
          PROVIDER_LOCAL, configs[PROVIDER_LOCAL].ModelForComplexity(req.complexity), None,
          if exists p :: ConcurrencyBlocked(p) then CloudAtCap else CloudExhausted, FALLBACK_CONFIDENCE))
      else
        out == Failure(if exists p :: ConcurrencyBlocked(p) then AllAtConcurrencyCap else NoProviders)
    }
  }

  // ---- Route ----

  predicate Precedes(a: Candidate, b: Candidate) {
    if a.score != b.score then a.score > b.score else Less(a.provider, b.provider)
  }

  lemma {:induction false} PrecedesIsStrict()
    ensures StrictWeakOrder(Precedes)
  {
    NameOrderIsStrict();
    forall x, y, z | Precedes(x, z)
      ensures Precedes(x, y) || Precedes(y, z)
    {
      assert Less(x.provider, z.provider) ==> Less(x.provider, y.provider) || Less(y.provider, z.provider);
    }
    forall x, y | Precedes(x, y)
      ensures !Precedes(y, x)
    {
      assert Less(x.provider, y.provider) ==> !Less(y.provider, x.provider);
    }
  }

  method SortedNames(configs: map<Provider, ProviderConfig>) returns (names: seq<Provider>)
    ensures Distinct(names) && SortedBy(names, Less)
    ensures forall p :: p in names <==> p in configs
  {
    NameOrderIsStrict();
    names := SortedElements(configs.Keys, Less);
  }

  // The candidates stand for exactly the admissible providers among those seen, once each.
  ghost predicate Gathered(scene: Scene, maxCost: real, seen: set<Provider>, cs: seq<Candidate>)
    requires maxCost > 0.0
  {
    && (forall c :: c in cs ==>
          && c.provider in seen && scene.Admissible(c.provider)
          && c == scene.CandidateAt(c.provider, maxCost))
    && (forall p :: p in seen && scene.Admissible(p) ==> scene.CandidateAt(p, maxCost) in cs)
    && Distinct(cs)
  }

  lemma {:induction false} GatheredGrows(scene: Scene, maxCost: real, seen: set<Provider>,
          cs: seq<Candidate>, p: Provider)
    requires maxCost > 0.0 && Gathered(scene, maxCost, seen, cs) && p !in seen
    ensures Gathered(scene, maxCost, seen + {p},
                     if scene.Admissible(p) then cs + [scene.CandidateAt(p, maxCost)] else cs)
  {
  }

  method GatherCandidates(scene: Scene, maxCost: real) returns (candidates: seq<Candidate>, blocked: nat)
    requires maxCost > 0.0
    ensures Gathered(scene, maxCost, scene.configs.Keys, candidates)
    ensures blocked > 0 <==> exists p :: scene.ConcurrencyBlocked(p)
  {
    var names := SortedNames(scene.configs);
    candidates, blocked := [], 0;
    for i := 0 to |names|
      invariant Gathered(scene, maxCost, Elements(names[..i]), candidates)
      invariant blocked > 0 <==> exists p :: p in Elements(names[..i]) && scene.ConcurrencyBlocked(p)
    {
      var p := names[i];
      assert Elements(names[..i+1]) == Elements(names[..i]) + {p} && p !in Elements(names[..i]);
      GatheredGrows(scene, maxCost, Elements(names[..i]), candidates, p);
      if scene.Viable(p) {
        if scene.AtCap(p) {
          if scene.configs[p].tier == Cloud {
            blocked := blocked + 1;
          }
        } else {
          candidates := candidates + [scene.CandidateAt(p, maxCost)];
        }
      }
    }
    assert Elements(names[..|names|]) == scene.configs.Keys;
  }

  lemma {:induction false} EarlierIsBetter(scene: Scene, maxCost: real, cs: seq<Candidate>, i: nat, p: Provider)
    requires maxCost > 0.0
    requires Gathered(scene, maxCost, scene.configs.Keys, cs)
    requires SortedBy(cs, Precedes)
    requires i < |cs| && scene.Admissible(p) && forall k :: 0 <= k <= i ==> cs[k].provider != p
    ensures scene.Better(cs[i].provider, p, maxCost)
  {
    var c := scene.CandidateAt(p, maxCost);
    assert c in cs;
    var j :| 0 <= j < |cs| && cs[j] == c;
    LessTotal(cs[i].provider, p);
    assert cs[i] in cs && !Precedes(cs[j], cs[i]);
  }

  // In a sorted list of all candidates the first beats every other and the second every one but the first.
  lemma {:induction false} SortedCandidatesRank(scene: Scene, maxCost: real, cs: seq<Candidate>)
    requires maxCost > 0.0
    requires Gathered(scene, maxCost, scene.configs.Keys, cs)
    requires SortedBy(cs, Precedes) && cs != []
    ensures scene.Best(cs[0].provider, maxCost)
    ensures scene.RunnerUp(if |cs| > 1 then Some(cs[1].provider) else None, cs[0].provider, maxCost)
  {
    assert cs[0] in cs;
    forall q | scene.Admissible(q) && q != cs[0].provider
      ensures scene.Better(cs[0].provider, q, maxCost)
    {
      EarlierIsBetter(scene, maxCost, cs, 0, q);
    }
    if |cs| > 1 {
      assert cs[1] in cs;
      forall q | scene.Admissible(q) && q != cs[0].provider && q != cs[1].provider
        ensures scene.Better(cs[1].provider, q, maxCost)
      {
        EarlierIsBetter(scene, maxCost, cs, 1, q);
      }
    } else {
      forall q | scene.Admissible(q)
        ensures q == cs[0].provider
      {
        assert scene.CandidateAt(q, maxCost) in cs;
      }
    }
  }

  lemma {:induction false} RearrangedCandidates(scene: Scene, maxCost: real, cs: seq<Candidate>, sorted: seq<Candidate>)
    requires maxCost > 0.0
    requires Gathered(scene, maxCost, scene.configs.Keys, cs)
    requires multiset(cs) == multiset(sorted)
    ensures Gathered(scene, maxCost, scene.configs.Keys, sorted)
  {
    DistinctPermutation(cs, sorted);
    forall c ensures c in sorted <==> c in cs {
      assert c in sorted <==> c in multiset(sorted);
      assert c in cs <==> c in multiset(cs);
    }
  }

  /** Picks the provider for a request; statuses is what the tracker's Status call returned. */
  method Route(configs: map<Provider, ProviderConfig>, statuses: Result<seq<BudgetStatus>, ()>, req: RouteRequest)
    returns (out: Result<RouteResponse, RouteError>)
    ensures statuses.Failure? ==> out == Failure(StatusUnavailable)
    ensures statuses.Success? ==> Scene(configs, StatusMap(statuses.value), req).Decides(out)
  {
    if statuses.Failure? {
      return Failure(StatusUnavailable);
    }
    var status: map<Provider, BudgetStatus> := map[];
    for i := 0 to |statuses.value|
      invariant status == StatusMap(statuses.value[..i])
    {
      assert statuses.value[..i+1][..i] == statuses.value[..i];
      status := status[statuses.value[i].provider := statuses.value[i]];
    }
    assert statuses.value[..|statuses.value|] == statuses.value;

    var scene := Scene(configs, status, req);
    var maxCost := FindMaxCost(configs);
    var gathered, blocked := GatherCandidates(scene, maxCost);
    PrecedesIsStrict();
    var candidates := SliceStable(gathered, Precedes);
    RearrangedCandidates(scene, maxCost, gathered, candidates);

    if |candidates| == 0 {
      assert forall p :: !scene.Admissible(p);
      if PROVIDER_LOCAL in configs && scene.LocalEligible() {
        out := Success(RouteResponse(
          PROVIDER_LOCAL, configs[PROVIDER_LOCAL].ModelForComplexity(req.complexity), None,
          if blocked > 0 then CloudAtCap else CloudExhausted, FALLBACK_CONFIDENCE));
      } else if blocked > 0 {
        out := Failure(AllAtConcurrencyCap);
      } else {
        out := Failure(NoProviders);
      }
    } else {
      SortedCandidatesRank(scene, maxCost, candidates);
      var best := candidates[0];
      var fallback := if |candidates| > 1 then Some(candidates[1].provider) else None;
      var response := RouteResponse(
        best.provider, best.model, fallback, scene.WinnerWarning(best.provider), Min(best.score, 1.0));
      out := Success(response);
      assert scene.Admissible(best.provider);
    }
    assert scene.DecidesAt(out, maxCost);
  }
}
