/** What the score trades against what: two providers that differ in strength and one other respect, and the exact
    point at which the router changes its mind (the tables of delegator/budget/router.go in numbers). */
module RouterPrices {
  import opened Wrappers
  import opened BudgetTypes
  import opened Ordering
  import opened Router
  import opened RouterStatics

  // ---- two contenders ----

  function Contender(p: Provider, strength: real, cost: real, capacity: int): ProviderConfig {
    ProviderConfig(p, Cloud, strength, 0, 0, "", map[], cost, true, capacity)
  }

  function Metered(p: Provider, strength: real, dailyLimit: int, weeklyLimit: int): ProviderConfig {
    ProviderConfig(p, Cloud, strength, dailyLimit, weeklyLimit, "", map[], 0.0, false, 0)
  }

  // So much used in the day and in the week, and still room for any request.
  function UsedBy(p: Provider, req: RouteRequest, daily: real, weekly: real): BudgetStatus {
    BudgetStatus(p, 0, 0, req.estimatedTokens, daily, 0, 0, req.estimatedTokens, weekly, true, 0, 0, 0)
  }

  function Duel(a: ProviderConfig, b: ProviderConfig, req: RouteRequest, daily: real, weekly: real): Scene {
    Scene(map[PROVIDER_CLAUDE := a, PROVIDER_GEMINI := b],
          map[PROVIDER_CLAUDE := UsedBy(PROVIDER_CLAUDE, req, daily, weekly),
              PROVIDER_GEMINI := UsedBy(PROVIDER_GEMINI, req, 0.0, 0.0)],
          req)
  }

  function Plain(c: Complexity, pr: Priority): RouteRequest {
    RouteRequest(c, 200, false, "", pr, map[], 0)
  }

  lemma {:induction false} ClaudeComesFirst()
    ensures Less(PROVIDER_CLAUDE, PROVIDER_GEMINI) && !Less(PROVIDER_GEMINI, PROVIDER_CLAUDE)
  {
  }

  // Of two admissible providers the first by name wins exactly when it scores no lower.
  lemma {:induction false} DuelIff(scene: Scene, out: Result<RouteResponse, RouteError>, m: real)
    requires scene.configs.Keys == {PROVIDER_CLAUDE, PROVIDER_GEMINI} && NormalisesCost(scene.configs, m)
    requires scene.Admissible(PROVIDER_CLAUDE) && scene.Admissible(PROVIDER_GEMINI) && scene.Decides(out)
    ensures out.Success? && out.value.provider in {PROVIDER_CLAUDE, PROVIDER_GEMINI}
    ensures out.value.provider == PROVIDER_CLAUDE <==>
            scene.ScoreAt(PROVIDER_CLAUDE, m) >= scene.ScoreAt(PROVIDER_GEMINI, m)
  {
    var n :| NormalisesCost(scene.configs, n) && scene.DecidesAt(out, n);
    NormaliserUnique(scene.configs, m, n);
    ClaudeComesFirst();
    assert scene.Best(out.value.provider, m);
    if out.value.provider == PROVIDER_CLAUDE {
      assert scene.Better(PROVIDER_CLAUDE, PROVIDER_GEMINI, m);
    } else {
      assert scene.Better(PROVIDER_GEMINI, PROVIDER_CLAUDE, m);
    }
  }

  lemma {:induction false} StrongIsStrong(c: Complexity, strength: real)
    requires 0.8 <= strength
    ensures CapabilityScore(c, strength) == strength
  {
  }

  // What two contenders get for the same headroom, load and preference cancels out.
  function Base(c: Complexity, strength: real): real {
    WeightsFor(c).capability * strength + WeightsFor(c).headroom
  }

  lemma {:induction false} PlainScore(scene: Scene, p: Provider, m: real, strength: real, x: real)
    requires scene.Known(p) && m > 0.0 && 0.8 <= strength && scene.configs[p].strength == strength
    requires scene.configs[p].IsUnlimited() && scene.configs[p].maxConcurrency == 0
    requires scene.req.preferProvider == "" && scene.req.queueDepth == 0
    requires CostScore(scene.configs[p], m) == x
    ensures scene.ScoreAt(p, m) == Base(scene.req.complexity, strength) + scene.CostWeight() * x
  {
    StrongIsStrong(scene.req.complexity, strength);
    assert HeadroomScore(scene.configs[p], scene.status[p]) == 1.0;
    assert scene.FreeShare(p) == 1.0;
    assert scene.FixedPart(p) == Base(scene.req.complexity, strength);
  }

  lemma {:induction false} PriceOfStrength(c: Complexity, pr: Priority, s: real, t: real, x: real)
    ensures var urgency := if pr == Immediate then 3.0 else if pr == Background then 15.0 else 10.0;
            var dearer := Base(c, s) >= Base(c, t) + WeightsFor(c).cost * CostMultiplier(pr) * x;
            var rate := match c case Critical => 70.0 case High => 25.0 case Low => 10.0 / 7.0 case _ => 7.5;
            dearer <==> rate * (s - t) >= urgency * x
  {
  }

  function CostDuel(c: Complexity, pr: Priority, s: real, t: real, cost: real): Scene {
    Duel(Contender(PROVIDER_CLAUDE, s, 10.0, 0), Contender(PROVIDER_GEMINI, t, cost, 0), Plain(c, pr), 0.0, 0.0)
  }

  lemma {:induction false} CostDuelIsFair(c: Complexity, pr: Priority, s: real, t: real, cost: real)
    requires 0.0 <= cost <= 10.0
    ensures var scene := CostDuel(c, pr, s, t, cost);
            && NormalisesCost(scene.configs, 10.0)
            && scene.Admissible(PROVIDER_CLAUDE) && scene.Admissible(PROVIDER_GEMINI)
  {
    assert CostDuel(c, pr, s, t, cost).configs[PROVIDER_CLAUDE].costPerMToken == 10.0;
  }

  lemma {:induction false} CostDuelScores(c: Complexity, pr: Priority, s: real, t: real, cost: real)
    requires 0.8 <= s && 0.8 <= t
    ensures var scene, weight := CostDuel(c, pr, s, t, cost), WeightsFor(c).cost * CostMultiplier(pr);
            && scene.ScoreAt(PROVIDER_CLAUDE, 10.0) == Base(c, s) + weight * 0.0
            && scene.ScoreAt(PROVIDER_GEMINI, 10.0) == Base(c, t) + weight * (1.0 - cost / 10.0)
  {
    var scene := CostDuel(c, pr, s, t, cost);
    PlainScore(scene, PROVIDER_CLAUDE, 10.0, s, 0.0);
    PlainScore(scene, PROVIDER_GEMINI, 10.0, t, 1.0 - cost / 10.0);
  }

  // The dearer provider needs an advantage in strength that grows with what it costs more. Immediate requests count
  // three tenths of that, background ones half as much again.
  lemma {:induction false} StrengthAgainstCost(c: Complexity, pr: Priority, s: real, t: real,
          cost: real, out: Result<RouteResponse, RouteError>)
    requires 0.8 <= s && 0.8 <= t && 0.0 <= cost <= 10.0 && CostDuel(c, pr, s, t, cost).Decides(out)
    ensures out.Success? && out.value.provider in {PROVIDER_CLAUDE, PROVIDER_GEMINI}
    ensures var urgency := if pr == Immediate then 3.0 else if pr == Background then 15.0 else 10.0;
            var dearer, saved := out.value.provider == PROVIDER_CLAUDE, 1.0 - cost / 10.0;
            var rate := match c case Critical => 70.0 case High => 25.0 case Low => 10.0 / 7.0 case _ => 7.5;
            dearer <==> rate * (s - t) >= urgency * saved
  {
    CostDuelIsFair(c, pr, s, t, cost);
    CostDuelScores(c, pr, s, t, cost);
    DuelIff(CostDuel(c, pr, s, t, cost), out, 10.0);
    PriceOfStrength(c, pr, s, t, 1.0 - cost / 10.0);
  }

  // An immediate request goes to the dear, strong provider, a background one to the cheap, weaker one.
  lemma {:induction false} UrgencyDecides(now: Result<RouteResponse, RouteError>,
          later: Result<RouteResponse, RouteError>)
    requires CostDuel(High, Immediate, 1.0, 0.8, 0.0).Decides(now)
    requires CostDuel(High, Background, 1.0, 0.8, 0.0).Decides(later)
    ensures now.Success? && now.value.provider == "claude"
    ensures later.Success? && later.value.provider == "gemini"
  {
    StrengthAgainstCost(High, Immediate, 1.0, 0.8, 0.0, now);
    StrengthAgainstCost(High, Background, 1.0, 0.8, 0.0, later);
  }

  // ---- headroom ----

  function HeadroomDuel(c: Complexity, s: real, t: real, dailyLimit: int, weeklyLimit: int, daily: real, weekly: real):
    Scene
  {
    Duel(Metered(PROVIDER_CLAUDE, s, dailyLimit, weeklyLimit), Contender(PROVIDER_GEMINI, t, 0.0, 0), Plain(c, Normal),
         daily, weekly)
  }

  // The larger of the two used shares; a budget without a limit is never used up.
  function UsedShare(dailyLimit: int, weeklyLimit: int, daily: real, weekly: real): real {
    var d := if dailyLimit > 0 then daily else 0.0;
    var w := if weeklyLimit > 0 then weekly else 0.0;
    if d < w then w else d
  }

  lemma {:induction false} HeadroomDuelScores(c: Complexity, s: real, t: real, dailyLimit: int, weeklyLimit: int,
          daily: real, weekly: real)
    requires 0.8 <= s && 0.8 <= t && 0 <= dailyLimit && 0 <= weeklyLimit && 0.0 <= daily && 0.0 <= weekly
    ensures var scene := HeadroomDuel(c, s, t, dailyLimit, weeklyLimit, daily, weekly);
            var used := UsedShare(dailyLimit, weeklyLimit, daily, weekly);
            && NormalisesCost(scene.configs, 1.0)
            && scene.Admissible(PROVIDER_CLAUDE) && scene.Admissible(PROVIDER_GEMINI)
            && scene.ScoreAt(PROVIDER_CLAUDE, 1.0) ==
               Base(c, s) - WeightsFor(c).headroom * used + WeightsFor(c).cost * CostMultiplier(Normal)
            && scene.ScoreAt(PROVIDER_GEMINI, 1.0) == Base(c, t) + WeightsFor(c).cost * CostMultiplier(Normal)
  {
    var scene := HeadroomDuel(c, s, t, dailyLimit, weeklyLimit, daily, weekly);
    PlainScore(scene, PROVIDER_GEMINI, 1.0, t, 1.0);
    StrongIsStrong(c, s);
    assert HeadroomScore(scene.configs[PROVIDER_CLAUDE], scene.status[PROVIDER_CLAUDE]) ==
           1.0 - UsedShare(dailyLimit, weeklyLimit, daily, weekly);
    assert scene.FreeShare(PROVIDER_CLAUDE) == 1.0 && CostScore(scene.configs[PROVIDER_CLAUDE], 1.0) == 1.0;
  }

  // What a provider has used up counts against its strength, the fuller budget of the two.
  lemma {:induction false} StrengthAgainstHeadroom(c: Complexity, s: real, t: real, dailyLimit: int, weeklyLimit: int,
          daily: real, weekly: real, out: Result<RouteResponse, RouteError>)
    requires 0.8 <= s && 0.8 <= t && 0 <= dailyLimit && 0 <= weeklyLimit && 0.0 <= daily && 0.0 <= weekly
    requires HeadroomDuel(c, s, t, dailyLimit, weeklyLimit, daily, weekly).Decides(out)
    ensures out.Success? && out.value.provider in {PROVIDER_CLAUDE, PROVIDER_GEMINI}
    ensures var fuller := out.value.provider == PROVIDER_CLAUDE;
            var used := UsedShare(dailyLimit, weeklyLimit, daily, weekly);
            match c
            case Critical => fuller <==> 7.0 * (s - t) >= 2.0 * used
            case High => fuller <==> 5.0 * (s - t) >= 3.0 * used
            case Low => fuller <==> s - t >= 2.0 * used
            case _ => fuller <==> s - t >= used
  {
    HeadroomDuelScores(c, s, t, dailyLimit, weeklyLimit, daily, weekly);
    DuelIff(HeadroomDuel(c, s, t, dailyLimit, weeklyLimit, daily, weekly), out, 1.0);
  }

  // ---- preference ----

  function PreferenceDuel(c: Complexity, s: real, t: real): Scene {
    Duel(Contender(PROVIDER_CLAUDE, s, 0.0, 0), Contender(PROVIDER_GEMINI, t, 0.0, 0),
         Plain(c, Normal).(preferProvider := PROVIDER_GEMINI), 0.0, 0.0)
  }

  lemma {:induction false} PreferenceDuelScores(c: Complexity, s: real, t: real)
    requires 0.8 <= s && 0.8 <= t
    ensures var scene := PreferenceDuel(c, s, t);
            && NormalisesCost(scene.configs, 1.0)
            && scene.Admissible(PROVIDER_CLAUDE) && scene.Admissible(PROVIDER_GEMINI)
            && scene.ScoreAt(PROVIDER_CLAUDE, 1.0) == Base(c, s) + WeightsFor(c).cost * CostMultiplier(Normal)
            && scene.ScoreAt(PROVIDER_GEMINI, 1.0) ==
               Base(c, t) + PREFERENCE_BONUS + WeightsFor(c).cost * CostMultiplier(Normal)
  {
    var scene := PreferenceDuel(c, s, t);
    StrongIsStrong(c, s);
    StrongIsStrong(c, t);
    assert CostScore(scene.configs[PROVIDER_CLAUDE], 1.0) == 1.0;
    assert CostScore(scene.configs[PROVIDER_GEMINI], 1.0) == 1.0;
    assert scene.FreeShare(PROVIDER_CLAUDE) == 1.0 && scene.FreeShare(PROVIDER_GEMINI) == 1.0;
  }

  // A preference is worth a tenth of a point.
  lemma {:induction false} StrengthAgainstPreference(c: Complexity, s: real,
          t: real, out: Result<RouteResponse, RouteError>)
    requires 0.8 <= s && 0.8 <= t && PreferenceDuel(c, s, t).Decides(out)
    ensures out.Success? && out.value.provider in {PROVIDER_CLAUDE, PROVIDER_GEMINI}
    ensures var other := out.value.provider == PROVIDER_CLAUDE;
            match c
            case Critical => other <==> 7.0 * (s - t) >= 1.0
            case High => other <==> 5.0 * (s - t) >= 1.0
            case Low => other <==> s - t >= 1.0
            case _ => other <==> 3.0 * (s - t) >= 1.0
  {
    PreferenceDuelScores(c, s, t);
    DuelIff(PreferenceDuel(c, s, t), out, 1.0);
    PriceOfPreference(c, s, t);
  }

  lemma {:induction false} PriceOfPreference(c: Complexity, s: real, t: real)
    ensures var other := Base(c, s) >= Base(c, t) + PREFERENCE_BONUS;
            match c
            case Critical => other <==> 7.0 * (s - t) >= 1.0
            case High => other <==> 5.0 * (s - t) >= 1.0
            case Low => other <==> s - t >= 1.0
            case _ => other <==> 3.0 * (s - t) >= 1.0
  {
  }

  // ---- load ----

  function LoadDuel(c: Complexity, s: real, t: real, load: int, capacity: int, depth: int): Scene {
    Duel(Contender(PROVIDER_CLAUDE, s, 0.0, capacity), Contender(PROVIDER_GEMINI, t, 0.0, 0),
         Plain(c, Normal).(providerLoad := map[PROVIDER_CLAUDE := load], queueDepth := depth), 0.0, 0.0)
  }

  // The backlog as far as it counts.
  function Backlog(depth: int): int {
    if depth < 0 then 0 else if depth > 20 then 20 else depth
  }

  // In four hundredths of a point.
  lemma {:induction false} EmphasisInNumbers(depth: int)
    ensures 400.0 * LoadEmphasisFor(depth) == 20.0 + 9.0 * Backlog(depth) as real
  {
  }

  lemma {:induction false} TakenShare(load: int, capacity: int)
    requires 0 <= load < capacity
    ensures (1.0 - LoadScoreFor(load, capacity)) * capacity as real == load as real
  {
    var c := capacity as real;
    var free := (capacity - load) as real / c;
    assert free * c == (capacity - load) as real;
    QuotientEndpoints((capacity - load) as real, c);
  }

  lemma {:induction false} LoadDuelIsFair(c: Complexity, s: real, t: real, load: int, capacity: int, depth: int)
    requires load < capacity
    ensures var scene := LoadDuel(c, s, t, load, capacity, depth);
            && NormalisesCost(scene.configs, 1.0)
            && scene.Admissible(PROVIDER_CLAUDE) && scene.Admissible(PROVIDER_GEMINI)
  {
  }

  lemma {:induction false} LoadDuelScores(c: Complexity, s: real, t: real, load: int, capacity: int, depth: int)
    requires 0.8 <= s && 0.8 <= t && 0 <= load < capacity
    ensures var scene := LoadDuel(c, s, t, load, capacity, depth);
            && scene.ScoreAt(PROVIDER_CLAUDE, 1.0) ==
               Base(c, s) + WeightsFor(c).cost * CostMultiplier(Normal)
               - LoadEmphasisFor(depth) * (1.0 - LoadScoreFor(load, capacity))
            && scene.ScoreAt(PROVIDER_GEMINI, 1.0) == Base(c, t) + WeightsFor(c).cost * CostMultiplier(Normal)
  {
    var scene := LoadDuel(c, s, t, load, capacity, depth);
    StrongIsStrong(c, s);
    StrongIsStrong(c, t);
    assert CostScore(scene.configs[PROVIDER_CLAUDE], 1.0) == 1.0;
    assert CostScore(scene.configs[PROVIDER_GEMINI], 1.0) == 1.0;
    assert scene.FreeShare(PROVIDER_GEMINI) == 1.0;
  }

  lemma {:induction false} BusierIff(c: Complexity, t: real, lead: real, load: int, capacity: int,
          depth: int, out: Result<RouteResponse, RouteError>)
    requires 0.8 <= t && 0.8 <= t + lead && 0 <= load < capacity
    requires LoadDuel(c, t + lead, t, load, capacity, depth).Decides(out)
    ensures out.Success? && out.value.provider in {PROVIDER_CLAUDE, PROVIDER_GEMINI}
    ensures out.value.provider == PROVIDER_CLAUDE <==>
            WeightsFor(c).capability * lead >= LoadEmphasisFor(depth) * (1.0 - LoadScoreFor(load, capacity))
  {
    LoadDuelIsFair(c, t + lead, t, load, capacity, depth);
    LoadDuelScores(c, t + lead, t, load, capacity, depth);
    DuelIff(LoadDuel(c, t + lead, t, load, capacity, depth), out, 1.0);
    LeadAgainstPenalty(c, t, lead, WeightsFor(c).cost * CostMultiplier(Normal),
                       LoadEmphasisFor(depth) * (1.0 - LoadScoreFor(load, capacity)));
  }

  lemma {:induction false} LeadAgainstPenalty(c: Complexity, t: real, lead: real, rest: real, penalty: real)
    ensures Base(c, t + lead) + rest - penalty >= Base(c, t) + rest <==> WeightsFor(c).capability * lead >= penalty
  {
  }

  // The busy share of its slots counts against a provider's lead in strength, more so behind a backlog of up to twenty.
  lemma {:induction false} StrengthAgainstLoad(c: Complexity, t: real, lead: real, load: int, capacity: int,
          depth: int, out: Result<RouteResponse, RouteError>)
    requires 0.8 <= t && 0.8 <= t + lead && 0 <= load < capacity
    requires LoadDuel(c, t + lead, t, load, capacity, depth).Decides(out)
    ensures out.Success? && out.value.provider in {PROVIDER_CLAUDE, PROVIDER_GEMINI}
    ensures var ahead, penalty := lead * capacity as real, (20 + 9 * Backlog(depth)) as real * load as real;
            var rate := match c case Critical => 280.0 case High => 200.0 case Low => 40.0 case _ => 120.0;
            out.value.provider == PROVIDER_CLAUDE <==> rate * ahead >= penalty
  {
    BusierIff(c, t, lead, load, capacity, depth, out);
    LoadInNumbers(c, lead, load, capacity, depth);
  }

  lemma {:induction false} LoadInNumbers(c: Complexity, lead: real, load: int, capacity: int, depth: int)
    requires 0 <= load < capacity
    ensures var ahead, penalty := lead * capacity as real, (20 + 9 * Backlog(depth)) as real * load as real;
            var rate := match c case Critical => 280.0 case High => 200.0 case Low => 40.0 case _ => 120.0;
            WeightsFor(c).capability * lead >= LoadEmphasisFor(depth) * (1.0 - LoadScoreFor(load, capacity)) <==>
            rate * ahead >= penalty
  {
    TakenShare(load, capacity);
    EmphasisInNumbers(depth);
    PriceOfLoad(c, lead, LoadEmphasisFor(depth), 1.0 - LoadScoreFor(load, capacity), load as real, capacity as real,
                (20 + 9 * Backlog(depth)) as real);
    CapabilityInNumbers(c, lead * capacity as real);
  }

  lemma {:induction false} CapabilityInNumbers(c: Complexity, ahead: real)
    ensures 400.0 * WeightsFor(c).capability * ahead ==
            (match c case Critical => 280.0 case High => 200.0 case Low => 40.0 case _ => 120.0) * ahead
  {
  }

  // Cross-multiplied with the number of slots.
  lemma {:induction false} PriceOfLoad(c: Complexity, ahead: real, emphasis: real, taken: real, load: real,
          slots: real, rate: real)
    requires slots > 0.0 && taken * slots == load && 400.0 * emphasis == rate
    ensures WeightsFor(c).capability * ahead >= emphasis * taken <==>
            400.0 * WeightsFor(c).capability * (ahead * slots) >= rate * load
  {
    var gap := WeightsFor(c).capability * ahead - emphasis * taken;
    assert gap * slots * 400.0 == 400.0 * WeightsFor(c).capability * (ahead * slots) - rate * load by {
      assert emphasis * taken * slots * 400.0 == rate * load;
    }
    ProductSign(slots, gap);
    assert gap >= 0.0 ==> gap * slots >= 0.0;
  }
}
