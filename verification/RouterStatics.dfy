/** How a routing decision responds when one input changes: claims that compare two calls to Route. */
module RouterStatics {
  import opened Wrappers
  import opened BudgetTypes
  import opened Ordering
  import opened Router

  // ---- the decision is a function of its inputs ----

  lemma {:induction false} NormaliserUnique(configs: map<Provider, ProviderConfig>, m: real, n: real)
    requires NormalisesCost(configs, m) && NormalisesCost(configs, n)
    ensures m == n
  {
    if exists p :: p in configs && configs[p].costPerMToken == m {
      assert m <= n;
    }
    if exists p :: p in configs && configs[p].costPerMToken == n {
      assert n <= m;
    }
  }

  lemma {:induction false} BetterIsStrict(scene: Scene, p: Provider, q: Provider, m: real)
    requires scene.Known(p) && scene.Known(q) && m > 0.0
    ensures !(scene.Better(p, q, m) && scene.Better(q, p, m))
  {
    if scene.Better(p, q, m) && scene.Better(q, p, m) {
      LessAsymmetric(p, q);
    }
  }

  // The answer is the same whatever order the providers were enumerated in.
  lemma {:induction false} DecisionUnique(scene: Scene, a: Result<RouteResponse, RouteError>,
          b: Result<RouteResponse, RouteError>)
    requires scene.Decides(a) && scene.Decides(b)
    ensures a == b
  {
    var m :| NormalisesCost(scene.configs, m) && scene.DecidesAt(a, m);
    var n :| NormalisesCost(scene.configs, n) && scene.DecidesAt(b, n);
    NormaliserUnique(scene.configs, m, n);
    if exists p :: scene.Admissible(p) {
      var p, q := a.value.provider, b.value.provider;
      BetterIsStrict(scene, p, q, m);
      assert p == q;
      if a.value.fallbackProvider.Some? && b.value.fallbackProvider.Some? {
        BetterIsStrict(scene, a.value.fallbackProvider.value, b.value.fallbackProvider.value, m);
      }
    }
  }

  // ---- what a pick guarantees ----

  // Every pick, the local fallback included, is below its concurrency cap.
  lemma {:induction false} PickIsBelowCap(scene: Scene, out: Result<RouteResponse, RouteError>)
    requires scene.Decides(out) && out.Success?
    ensures scene.Known(out.value.provider) && scene.status[out.value.provider].isAvailable
    ensures !scene.AtCap(out.value.provider)
  {
  }

  // The local fallback does not look at the cloud requirement: an answer to a request that has one is a cloud
  // provider exactly when some provider is admissible, or local itself is configured as one.
  lemma {:induction false} CloudRequirementIsMetIff(scene: Scene, out: Result<RouteResponse, RouteError>)
    requires scene.Decides(out) && out.Success? && scene.req.requireCloud
    ensures out.value.provider in scene.configs
    ensures scene.configs[out.value.provider].tier == Cloud
            <==> (exists p :: scene.Admissible(p))
                 || (PROVIDER_LOCAL in scene.configs && scene.configs[PROVIDER_LOCAL].tier == Cloud)
  {
    if p :| scene.Admissible(p) {
      assert scene.Admissible(out.value.provider);
    } else {
      assert out.value.provider == PROVIDER_LOCAL;
    }
  }

  function OneLocal(): Scene {
    var pc := ProviderConfig(PROVIDER_LOCAL, Local, 1.0, 0, 0, "", map[], 0.0, true, 0);
    var status := BudgetStatus(PROVIDER_LOCAL, 0, 0, 0, 0.0, 0, 0, 0, 0.0, true, 0, 0, 0);
    Scene(map[PROVIDER_LOCAL := pc], map[PROVIDER_LOCAL := status],
          RouteRequest(Medium, 200, true, "", Normal, map[], 0))
  }

  // A local provider alone answers a request that requires a cloud provider.
  lemma {:induction false} CloudRequirementCanGoUnmet() returns (out: Result<RouteResponse, RouteError>)
    ensures OneLocal().Decides(out) && OneLocal().req.requireCloud
    ensures out.Success? && out.value.provider == PROVIDER_LOCAL
    ensures OneLocal().configs[PROVIDER_LOCAL].tier == Local
  {
    var scene := OneLocal();
    assert NormalisesCost(scene.configs, 1.0) && forall p :: !scene.Admissible(p);
    out := Success(RouteResponse(PROVIDER_LOCAL, "", None, CloudExhausted, FALLBACK_CONFIDENCE));
    assert forall p :: !scene.ConcurrencyBlocked(p);
    assert scene.DecidesAt(out, 1.0);
  }

  // Every pick of a limited cloud provider other than local leaves room for the estimate.
  lemma {:induction false} PickIsWithinBudget(scene: Scene, out: Result<RouteResponse, RouteError>)
    requires scene.Decides(out) && out.Success?
    requires out.value.provider != PROVIDER_LOCAL
    ensures scene.Known(out.value.provider)
    ensures scene.WithinBudget(scene.configs[out.value.provider], scene.status[out.value.provider])
  {
  }

  // ---- single crossing ----

  // If x beats y at cost weight j and y beats x at the larger weight k, then y's cost score is at least x's.
  lemma {:induction false} CrossingInCost(fx: real, fy: real, x: real, y: real, e: real, sx: real, sy: real,
          j: real, k: real)
    requires Composite(fx, j, x, e, sx) >= Composite(fy, j, y, e, sy)
    requires Composite(fy, k, y, e, sy) >= Composite(fx, k, x, e, sx)
    requires j < k
    ensures x <= y
  {
    assert (k - j) * (y - x) >= 0.0;
    ProductSign(k - j, y - x);
  }

  // The same for the load penalty: a larger emphasis favours the larger share of free capacity.
  lemma {:induction false} CrossingInLoad(fx: real, fy: real, w: real, x: real, y: real, sx: real, sy: real,
          j: real, k: real)
    requires Composite(fx, w, x, j, sx) >= Composite(fy, w, y, j, sy)
    requires Composite(fy, w, y, k, sy) >= Composite(fx, w, x, k, sx)
    requires j < k
    ensures sx <= sy
  {
    assert (k - j) * (sy - sx) >= 0.0;
    ProductSign(k - j, sy - sx);
  }

  lemma {:induction false} ProductSign(a: real, b: real)
    requires a > 0.0
    ensures a * b >= 0.0 ==> b >= 0.0
  {
    assert b < 0.0 ==> a * b < 0.0;
  }

  // Two scenes whose weights agree score every provider alike.
  lemma {:induction false} ScoresAgree(a: Scene, b: Scene, p: Provider, m: real)
    requires a.Known(p) && m > 0.0
    requires b == Scene(a.configs, a.status, a.req.(priority := b.req.priority, queueDepth := b.req.queueDepth))
    requires a.CostWeight() == b.CostWeight()
    requires LoadEmphasisFor(a.req.queueDepth) == LoadEmphasisFor(b.req.queueDepth)
    ensures a.ScoreAt(p, m) == b.ScoreAt(p, m)
  {
    assert a.FixedPart(p) == b.FixedPart(p);
  }

  // ---- priority ----

  function WithPriority(a: Scene, priority: Priority): Scene {
    a.(req := a.req.(priority := priority))
  }

  lemma {:induction false} PriorityShape(a: Scene, priority: Priority, p: Provider, m: real)
    requires a.Known(p) && m > 0.0
    ensures WithPriority(a, priority).ScoreAt(p, m) ==
            Composite(a.FixedPart(p), WithPriority(a, priority).CostWeight(), CostScore(a.configs[p], m),
                      LoadEmphasisFor(a.req.queueDepth), a.FreeShare(p))
  {
    assert WithPriority(a, priority).FixedPart(p) == a.FixedPart(p);
  }

  lemma {:induction false} PriorityCrossing(a: Scene, priority: Priority, p: Provider, q: Provider, m: real)
    requires a.Known(p) && a.Known(q) && m > 0.0
    requires CostMultiplier(a.req.priority) < CostMultiplier(priority)
    requires a.ScoreAt(p, m) >= a.ScoreAt(q, m)
    requires WithPriority(a, priority).ScoreAt(q, m) >= WithPriority(a, priority).ScoreAt(p, m)
    ensures CostScore(a.configs[p], m) <= CostScore(a.configs[q], m)
  {
    PriorityShape(a, priority, p, m);
    PriorityShape(a, priority, q, m);
    MultiplierMovesWeight(a, priority);
    CrossingInCost(a.FixedPart(p), a.FixedPart(q), CostScore(a.configs[p], m), CostScore(a.configs[q], m),
                   LoadEmphasisFor(a.req.queueDepth), a.FreeShare(p), a.FreeShare(q),
                   a.CostWeight(), WithPriority(a, priority).CostWeight());
  }

  lemma {:induction false} MultiplierMovesWeight(a: Scene, priority: Priority)
    requires CostMultiplier(a.req.priority) < CostMultiplier(priority)
    ensures a.CostWeight() < WithPriority(a, priority).CostWeight()
  {
  }

  lemma {:induction false} PriorityIsNoFilter(a: Scene, priority: Priority)
    ensures forall p :: a.Admissible(p) <==> WithPriority(a, priority).Admissible(p)
    ensures a.LocalEligible() == WithPriority(a, priority).LocalEligible()
  {
  }

  lemma {:induction false} PriorityWinners(a: Scene, priority: Priority, p: Provider, q: Provider, m: real)
    requires CostMultiplier(a.req.priority) <= CostMultiplier(priority)
    requires m > 0.0 && a.Best(p, m) && WithPriority(a, priority).Best(q, m)
    ensures a.configs[q].costPerMToken <= a.configs[p].costPerMToken
  {
    var b := WithPriority(a, priority);
    PriorityIsNoFilter(a, priority);
    if p != q {
      assert a.Better(p, q, m) && b.Better(q, p, m);
      if CostMultiplier(a.req.priority) == CostMultiplier(priority) {
        ScoresAgree(a, b, p, m);
        ScoresAgree(a, b, q, m);
        BetterIsStrict(a, p, q, m);
      } else {
        PriorityCrossing(a, priority, p, q, m);
        CheaperScoresHigher(a.configs[p], a.configs[q], m);
      }
    }
  }

  // Immediate requests are the most urgent, background requests the least; all others lie between.
  predicate NoMoreUrgent(priority: Priority, than: Priority) {
    than == Immediate || priority == Background || (than != Background && priority != Immediate)
  }

  // A less urgent request is never routed to a dearer provider; whether it is routed at all does not depend on the
  // priority.
  lemma {:induction false} LessUrgentNeverCostsMore(a: Scene, priority: Priority,
          out: Result<RouteResponse, RouteError>, out': Result<RouteResponse, RouteError>)
    requires NoMoreUrgent(priority, a.req.priority)
    requires a.Decides(out) && WithPriority(a, priority).Decides(out')
    ensures out.Success? <==> out'.Success?
    ensures out.Success? ==>
              && out.value.provider in a.configs && out'.value.provider in a.configs
              && a.configs[out'.value.provider].costPerMToken <= a.configs[out.value.provider].costPerMToken
  {
    var m :| NormalisesCost(a.configs, m) && a.DecidesAt(out, m);
    var n :| NormalisesCost(a.configs, n) && WithPriority(a, priority).DecidesAt(out', n);
    NormaliserUnique(a.configs, m, n);
    PriorityIsNoFilter(a, priority);
    LessUrgentWeighsCostMore(a.req.priority, priority);
    if exists p :: a.Admissible(p) {
      PriorityWinners(a, priority, out.value.provider, out'.value.provider, m);
    }
  }

  lemma {:induction false} LessUrgentWeighsCostMore(priority: Priority, priority': Priority)
    requires NoMoreUrgent(priority', priority)
    ensures CostMultiplier(priority) <= CostMultiplier(priority')
  {
  }

  lemma {:induction false} CheaperScoresHigher(x: ProviderConfig, y: ProviderConfig, m: real)
    requires m > 0.0 && CostScore(x, m) <= CostScore(y, m)
    ensures y.costPerMToken <= x.costPerMToken
  {
    assert y.costPerMToken / m * m == y.costPerMToken && x.costPerMToken / m * m == x.costPerMToken;
  }

  // ---- queue depth ----

  lemma {:induction false} EmphasisGrowsWithBacklog(d: int, e: int)
    requires d <= e
    ensures LoadEmphasisFor(d) <= LoadEmphasisFor(e)
  {
    QuotientOrder(d as real, e as real, QUEUE_DEPTH_FULL_SCALE);
  }

  function WithBacklog(a: Scene, depth: int): Scene {
    a.(req := a.req.(queueDepth := depth))
  }

  lemma {:induction false} BacklogShape(a: Scene, depth: int, p: Provider, m: real)
    requires a.Known(p) && m > 0.0
    ensures WithBacklog(a, depth).ScoreAt(p, m) ==
            Composite(a.FixedPart(p), a.CostWeight(), CostScore(a.configs[p], m), LoadEmphasisFor(depth),
                a.FreeShare(p))
  {
    assert WithBacklog(a, depth).FixedPart(p) == a.FixedPart(p);
  }

  lemma {:induction false} BacklogCrossing(a: Scene, depth: int, p: Provider, q: Provider, m: real)
    requires a.Known(p) && a.Known(q) && m > 0.0
    requires LoadEmphasisFor(a.req.queueDepth) < LoadEmphasisFor(depth)
    requires a.ScoreAt(p, m) >= a.ScoreAt(q, m)
    requires WithBacklog(a, depth).ScoreAt(q, m) >= WithBacklog(a, depth).ScoreAt(p, m)
    ensures a.FreeShare(p) <= a.FreeShare(q)
  {
    BacklogShape(a, depth, p, m);
    BacklogShape(a, depth, q, m);
    CrossingInLoad(a.FixedPart(p), a.FixedPart(q), a.CostWeight(),
                   CostScore(a.configs[p], m), CostScore(a.configs[q], m),
                   a.FreeShare(p), a.FreeShare(q), LoadEmphasisFor(a.req.queueDepth), LoadEmphasisFor(depth));
  }

  lemma {:induction false} BacklogIsNoFilter(a: Scene, depth: int)
    ensures forall p :: a.Admissible(p) <==> WithBacklog(a, depth).Admissible(p)
    ensures a.LocalEligible() == WithBacklog(a, depth).LocalEligible()
  {
  }

  lemma {:induction false} BacklogWinners(a: Scene, depth: int, p: Provider, q: Provider, m: real)
    requires a.req.queueDepth <= depth
    requires m > 0.0 && a.Best(p, m) && WithBacklog(a, depth).Best(q, m)
    ensures a.FreeShare(p) <= a.FreeShare(q)
  {
    var b := WithBacklog(a, depth);
    BacklogIsNoFilter(a, depth);
    EmphasisGrowsWithBacklog(a.req.queueDepth, depth);
    if p != q {
      assert a.Better(p, q, m) && b.Better(q, p, m);
      if LoadEmphasisFor(a.req.queueDepth) == LoadEmphasisFor(depth) {
        ScoresAgree(a, b, p, m);
        ScoresAgree(a, b, q, m);
        BetterIsStrict(a, p, q, m);
      } else {
        BacklogCrossing(a, depth, p, q, m);
      }
    }
  }

  // A deeper backlog never moves a request to a provider with a smaller share of free capacity.
  lemma {:induction false} DeeperBacklogSeeksFreeCapacity(a: Scene, depth: int,
          out: Result<RouteResponse, RouteError>, out': Result<RouteResponse, RouteError>)
    requires a.req.queueDepth <= depth
    requires a.Decides(out) && WithBacklog(a, depth).Decides(out')
    ensures out.Success? <==> out'.Success?
    ensures out.Success? ==>
              && a.Known(out.value.provider) && a.Known(out'.value.provider)
              && a.FreeShare(out.value.provider) <= a.FreeShare(out'.value.provider)
  {
    var m :| NormalisesCost(a.configs, m) && a.DecidesAt(out, m);
    var n :| NormalisesCost(a.configs, n) && WithBacklog(a, depth).DecidesAt(out', n);
    NormaliserUnique(a.configs, m, n);
    BacklogIsNoFilter(a, depth);
    if exists p :: a.Admissible(p) {
      BacklogWinners(a, depth, out.value.provider, out'.value.provider, m);
    }
  }

  // ---- load ----

  lemma {:induction false} QuotientOrder(x: real, y: real, c: real)
    requires c > 0.0 && x <= y
    ensures x / c <= y / c
  {
    assert c * (x / c) == x && c * (y / c) == y;
    assert c * (y / c - x / c) == y - x;
    ProductSign(c, y / c - x / c);
  }

  lemma {:induction false} LoadOnlyHurts(load: int, load': int, capacity: int)
    requires load <= load'
    ensures LoadScoreFor(load', capacity) <= LoadScoreFor(load, capacity)
  {
    if capacity > 0 {
      var l, l' := if load < 0 then 0 else load, if load' < 0 then 0 else load';
      var c := capacity as real;
      QuotientOrder((capacity - l') as real, (capacity - l) as real, c);
    }
  }

  // The scene after provider r has taken on more work.
  function MoreLoaded(a: Scene, r: Provider, load: int): Scene {
    a.(req := a.req.(providerLoad := a.req.providerLoad[r := load]))
  }

  lemma {:induction false} OnlyTheLoadedProviderIsAffected(a: Scene, r: Provider, load: int, p: Provider, m: real)
    requires a.req.LoadOf(r) <= load && a.Known(p) && m > 0.0
    ensures MoreLoaded(a, r, load).Viable(p) == a.Viable(p)
    ensures a.AtCap(p) ==> MoreLoaded(a, r, load).AtCap(p)
    ensures MoreLoaded(a, r, load).ScoreAt(p, m) <= a.ScoreAt(p, m)
    ensures p != r ==> MoreLoaded(a, r, load).AtCap(p) == a.AtCap(p)
    ensures p != r ==> MoreLoaded(a, r, load).ScoreAt(p, m) == a.ScoreAt(p, m)
  {
    var b := MoreLoaded(a, r, load);
    assert a.FixedPart(p) == b.FixedPart(p) && a.CostWeight() == b.CostWeight();
    if p == r {
      LoadOnlyHurts(a.req.LoadOf(r), load, a.configs[p].maxConcurrency);
      LessFreeScoresLower(a.FixedPart(p), a.CostWeight(), CostScore(a.configs[p], m),
                          LoadEmphasisFor(a.req.queueDepth), a.FreeShare(p), b.FreeShare(p));
    } else {
      assert a.FreeShare(p) == b.FreeShare(p);
    }
  }

  lemma {:induction false} LessFreeScoresLower(f: real, w: real, c: real, e: real, s: real, t: real)
    requires e >= 0.0 && t <= s
    ensures Composite(f, w, c, e, t) <= Composite(f, w, c, e, s)
  {
    assert e * (s - t) >= 0.0;
  }

  // Giving provider r more work never makes r the winner, and a winner other than r stays the winner,
  // through the filters, the score and the local fallback alike.
  lemma {:induction false} LoadIsIndependent(a: Scene, r: Provider, load: int,
          out: Result<RouteResponse, RouteError>, out': Result<RouteResponse, RouteError>)
    requires a.req.LoadOf(r) <= load
    requires a.Decides(out) && MoreLoaded(a, r, load).Decides(out')
    ensures out'.Success? && out'.value.provider == r ==> out.Success? && out.value.provider == r
    ensures out.Success? && out.value.provider != r ==> out'.Success? && out'.value.provider == out.value.provider
  {
    var b := MoreLoaded(a, r, load);
    var m :| NormalisesCost(a.configs, m) && a.DecidesAt(out, m);
    var n :| NormalisesCost(b.configs, n) && b.DecidesAt(out', n);
    NormaliserUnique(a.configs, m, n);
    forall p | a.Known(p)
      ensures b.Admissible(p) ==> a.Admissible(p)
      ensures p != r ==> b.Admissible(p) == a.Admissible(p) && b.ScoreAt(p, m) == a.ScoreAt(p, m)
      ensures b.ScoreAt(p, m) <= a.ScoreAt(p, m)
    {
      OnlyTheLoadedProviderIsAffected(a, r, load, p, m);
    }
    if exists p :: a.Admissible(p) {
      var p := out.value.provider;
      if p != r {
        assert b.Admissible(p);
        var q := out'.value.provider;
        if q != p {
          assert a.Better(p, q, m) && b.Better(q, p, m);
          LessAsymmetricIf(p, q);
        }
      }
    }
  }

  lemma {:induction false} LessAsymmetricIf(p: string, q: string)
    ensures !(Less(p, q) && Less(q, p))
  {
    if Less(p, q) {
      LessAsymmetric(p, q);
    }
  }

  // A provider has no free share exactly at or over its cap, and a full one exactly when uncapped or idle.
  lemma {:induction false} FreeShareEndpoints(load: int, capacity: int)
    ensures LoadScoreFor(load, capacity) == 0.0 <==> 0 < capacity <= load
    ensures LoadScoreFor(load, capacity) == 1.0 <==> capacity <= 0 || load <= 0
  {
    if capacity > 0 {
      var l := if load < 0 then 0 else load;
      var c := capacity as real;
      QuotientEndpoints((capacity - l) as real, c);
    }
  }

  lemma {:induction false} QuotientEndpoints(x: real, c: real)
    requires c > 0.0
    ensures x / c <= 0.0 <==> x <= 0.0
    ensures x / c >= 1.0 <==> x >= c
  {
    assert x / c * c == x;
    assert x / c >= 1.0 ==> x / c * c >= 1.0 * c;
    assert x >= c ==> x / c >= c / c;
  }

  // ---- the capability floor ----

  // The score below the floor is a penalty exactly when the floor is above one half. At medium
  // complexity, whose floor is 0.3, a positive strength below the floor scores above its raw value.
  lemma {:induction false} FloorPenalisesIff(c: Complexity, strength: real)
    requires 0.0 < strength < MinimumStrength(c)
    ensures CapabilityScore(c, strength) < strength <==> MinimumStrength(c) > 0.5
    ensures c == Medium ==> CapabilityScore(c, strength) > strength
  {
    var f := MinimumStrength(c);
    assert strength / f * f == strength;
    assert strength / f * 0.5 == strength * (0.5 / f);
  }

  // A stronger provider never scores lower at any complexity but medium; there 0.29 outscores 0.3.
  lemma {:induction false} CapabilityMonotoneIff(c: Complexity)
    ensures c != Medium <==>
            forall s: real, t: real {:trigger CapabilityScore(c, s), CapabilityScore(c, t)} ::
              0.0 <= s <= t <= 1.0 ==> CapabilityScore(c, s) <= CapabilityScore(c, t)
  {
    if c == Medium {
      assert CapabilityScore(c, 0.29) > CapabilityScore(c, 0.3);
    } else {
      forall s: real, t: real | 0.0 <= s <= t <= 1.0
        ensures CapabilityScore(c, s) <= CapabilityScore(c, t)
      {
        var f := MinimumStrength(c);
        if f > 0.0 {
          QuotientOrder(s, t, f);
        }
      }
    }
  }
}
