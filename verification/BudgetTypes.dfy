/** Request, status and configuration types of the budget router (delegator/budget/types.go). */
module BudgetTypes {
  import opened Wrappers

  type Provider = string

  const PROVIDER_CLAUDE: Provider := "claude"
  const PROVIDER_OPENAI: Provider := "openai"
  const PROVIDER_GEMINI: Provider := "gemini"
  const PROVIDER_LOCAL: Provider := "local"
  const VALID_PROVIDERS: set<Provider> := {PROVIDER_CLAUDE, PROVIDER_OPENAI, PROVIDER_GEMINI, PROVIDER_LOCAL}

  // The string types of the source; the last constructor stands for any other text.
  datatype Tier = Cloud | Local | OtherTier(text: string)
  datatype Complexity = Low | Medium | High | Critical | OtherComplexity(text: string)
  datatype Priority = Unset | Immediate | Normal | Background | OtherPriority(text: string)

  datatype ConfigError =
    | UnknownProvider | BadTier | BadStrength | NegativeCost
    | NegativeDailyLimit | NegativeWeeklyLimit | NegativeConcurrency

  datatype ProviderConfig = ProviderConfig(
    provider: Provider,
    tier: Tier,
    strength: real,
    dailyLimit: int,
    weeklyLimit: int,
    defaultModel: string,
    models: map<Complexity, string>,
    costPerMToken: real,
    unlimited: bool,
    maxConcurrency: int)
  {
    predicate IsUnlimited() {
      unlimited || (dailyLimit == 0 && weeklyLimit == 0)
    }

    function ModelForComplexity(c: Complexity): string {
      if c in models then models[c] else defaultModel
    }

    function Validate(): (error: Option<ConfigError>)
      ensures error.None? <==>
              && provider in {"claude", "openai", "gemini", "local"}
              && tier in {Cloud, Local}
              && 0.0 <= strength <= 1.0
              && 0.0 <= costPerMToken
              && 0 <= dailyLimit && 0 <= weeklyLimit && 0 <= maxConcurrency
    {
      if provider !in VALID_PROVIDERS then Some(UnknownProvider)
      else if tier != Cloud && tier != Local then Some(BadTier)
      else if strength < 0.0 || strength > 1.0 then Some(BadStrength)
      else if costPerMToken < 0.0 then Some(NegativeCost)
      else if dailyLimit < 0 then Some(NegativeDailyLimit)
      else if weeklyLimit < 0 then Some(NegativeWeeklyLimit)
      else if maxConcurrency < 0 then Some(NegativeConcurrency)
      else None
    }
  }

  // The two budgets of a provider.
  datatype Dimension = Daily | Weekly

  // One provider's row as the router sees it.
  datatype BudgetStatus = BudgetStatus(
    provider: Provider,
    dailyUsed: int, dailyLimit: int, dailyRemaining: int, dailyPct: real,
    weeklyUsed: int, weeklyLimit: int, weeklyRemaining: int, weeklyPct: real,
    isAvailable: bool,
    errorCount: int,
    dailyResetAt: int,
    weeklyResetAt: int)

  datatype RouteRequest = RouteRequest(
    complexity: Complexity,
    estimatedTokens: int,
    requireCloud: bool,
    preferProvider: Provider,
    priority: Priority,
    providerLoad: map<Provider, int>,
    queueDepth: int)
  {
    // A missing key reads as zero, as in a Go map.
    function LoadOf(p: Provider): int {
      if p in providerLoad then providerLoad[p] else 0
    }
  }

  datatype ServiceConfig = ServiceConfig(
    dailyResetHour: int,
    weeklyResetDay: int,
    timezone: string,
    providers: seq<ProviderConfig>)

  datatype ServiceError =
    | BadResetHour | BadResetDay | MissingTimezone | UnknownTimezone
    | InvalidProvider(index: nat, error: ConfigError)
    | DuplicateProvider(provider: Provider)

  ghost predicate ProvidersUsable(pcs: seq<ProviderConfig>)
  {
    && (forall i :: 0 <= i < |pcs| ==> pcs[i].Validate().None?)
    && (forall i, j :: 0 <= i < j < |pcs| ==> pcs[i].provider != pcs[j].provider)
  }

  /** Checks the service configuration; loadable is the time-zone database's answer for the configured name. */
  method ValidateService(sc: ServiceConfig, loadable: bool) returns (error: Option<ServiceError>)
    ensures error.None? <==>
            && 0 <= sc.dailyResetHour <= 23
            && 0 <= sc.weeklyResetDay <= 6
            && sc.timezone != "" && loadable
            && ProvidersUsable(sc.providers)
    // The first provider that breaks a rule is the one reported.
    ensures error.Some? && error.value.InvalidProvider? ==>
              && error.value.index < |sc.providers|
              && ProvidersUsable(sc.providers[..error.value.index])
              && sc.providers[error.value.index].Validate() == Some(error.value.error)
    ensures error.Some? && error.value.DuplicateProvider? ==>
              exists j | 0 <= j < |sc.providers| ::
                && ProvidersUsable(sc.providers[..j])
                && sc.providers[j].provider == error.value.provider
                && (exists i | 0 <= i < j :: sc.providers[i].provider == error.value.provider)
  {
    if sc.dailyResetHour < 0 || sc.dailyResetHour > 23 {
      return Some(BadResetHour);
    }
    if sc.weeklyResetDay < 0 || sc.weeklyResetDay > 6 {
      return Some(BadResetDay);
    }
    if sc.timezone == "" {
      return Some(MissingTimezone);
    }
    if !loadable {
      return Some(UnknownTimezone);
    }
    var seen: set<Provider> := {};
    for i := 0 to |sc.providers|
      invariant ProvidersUsable(sc.providers[..i])
      invariant forall p :: p in seen <==> exists k :: 0 <= k < i && sc.providers[k].provider == p
    {
      var pc := sc.providers[i];
      assert sc.providers[..i+1] == sc.providers[..i] + [pc];
      var invalid := pc.Validate();
      if invalid.Some? {
        return Some(InvalidProvider(i, invalid.value));
      }
      if pc.provider in seen {
        return Some(DuplicateProvider(pc.provider));
      }
      seen := seen + {pc.provider};
    }
    assert sc.providers[..|sc.providers|] == sc.providers;
    return None;
  }
}
