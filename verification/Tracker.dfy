/** Reports, manual resets and the periodic reset check over the ledger (delegator/budget/tracker.go). */
module Tracker {
  import opened Wrappers
  import opened BudgetTypes
  import opened Calendar
  import opened Ledger
  import opened Ordering

  const WARNING_LEVEL := 0.8

  datatype ReportRequest = ReportRequest(provider: Provider, totalTokens: int, taskId: string, success: Option<bool>)

  datatype BudgetWarning = NoWarning | DailyHigh | WeeklyHigh

  datatype ReportResponse = ReportResponse(dailyRemaining: int, weeklyRemaining: int, warning: BudgetWarning)

  datatype TrackerError = UnconfiguredProvider

  // An absent success flag counts as success.
  function RecordOf(req: ReportRequest, now: int): UsageRecord {
    UsageRecord(req.provider, req.totalTokens, req.taskId,
                if req.success.Some? then req.success.value else true, now)
  }

  // What is left of a limit; -1 says the dimension has none.
  ghost predicate LeftOf(limit: int, used: int, left: int) {
    if limit <= 0 then left == -1
    else left >= 0 && (used <= limit ==> used + left == limit) && (used > limit ==> left == 0)
  }

  // More than four fifths of a limit are used.
  predicate NearlyUsed(limit: int, used: int) {
    limit > 0 && 5 * used > 4 * limit
  }

  lemma {:induction false} NearlyUsedIff(limit: int, used: int)
    ensures Percentage(limit, used) > WARNING_LEVEL <==> NearlyUsed(limit, used)
  {
    if limit > 0 {
      QuotientAbove(used as real, limit as real, 0.8);
      QuotientAbove(used as real, limit as real, 0.0);
      QuotientAbove(used as real, limit as real, 1.0);
    }
  }

  /** Records one usage report and returns what is left of the provider's budget. */
  method Report(store: BudgetStore, configs: map<Provider, ProviderConfig>, req: ReportRequest, now: int)
    returns (out: Result<ReportResponse, TrackerError>)
    modifies store
    ensures out.Failure? <==> req.provider !in configs
    ensures out.Failure? ==> store.View() == old(store.View())
    ensures out.Success? ==> store.View() == Apply(old(store.View()), RecordUsage(RecordOf(req, now), now))
    // One more entry, with the tokens and the outcome reported; no outcome counts as success.
    ensures out.Success? ==>
              && store.ledger != [] && store.ledger[..|store.ledger| - 1] == old(store.ledger)
              && var entry := store.ledger[|store.ledger| - 1];
              && entry.provider == req.provider && entry.totalTokens == req.totalTokens
              && entry.taskId == req.taskId && entry.recordedAt == now
              && (entry.success <==> req.success != Some(false))
    ensures out.Success? ==>
              && req.provider in store.rows
              && var pc, row := configs[req.provider], store.rows[req.provider];
              if pc.unlimited || (pc.dailyLimit == 0 && pc.weeklyLimit == 0)
              then out.value == ReportResponse(-1, -1, NoWarning)
              else
                && LeftOf(pc.dailyLimit, row.dailyUsed, out.value.dailyRemaining)
                && LeftOf(pc.weeklyLimit, row.weeklyUsed, out.value.weeklyRemaining)
                && (out.value.warning == DailyHigh <==> pc.dailyLimit > 0 && NearlyUsed(row.dailyLimit, row.dailyUsed))
                && (out.value.warning == WeeklyHigh <==>
                      && pc.weeklyLimit > 0 && NearlyUsed(row.weeklyLimit, row.weeklyUsed)
                      && !(pc.dailyLimit > 0 && NearlyUsed(row.dailyLimit, row.dailyUsed)))
  {
    if req.provider !in configs {
      return Failure(UnconfiguredProvider);
    }
    var pc := configs[req.provider];
    store.Record(RecordOf(req, now), now);
    var status := ScanStatus(req.provider, store.rows[req.provider]);
    if pc.IsUnlimited() {
      return Success(ReportResponse(-1, -1, NoWarning));
    }
    var daily, weekly := -1, -1;
    if pc.dailyLimit > 0 {
      daily := pc.dailyLimit - status.dailyUsed;
      if daily < 0 {
        daily := 0;
      }
    }
    if pc.weeklyLimit > 0 {
      weekly := pc.weeklyLimit - status.weeklyUsed;
      if weekly < 0 {
        weekly := 0;
      }
    }
    NearlyUsedIff(status.dailyLimit, status.dailyUsed);
    NearlyUsedIff(status.weeklyLimit, status.weeklyUsed);
    var warning := NoWarning;
    if pc.dailyLimit > 0 && status.dailyPct > WARNING_LEVEL {
      warning := DailyHigh;
    } else if pc.weeklyLimit > 0 && status.weeklyPct > WARNING_LEVEL {
      warning := WeeklyHigh;
    }
    out := Success(ReportResponse(daily, weekly, warning));
  }

  function ResetNow(t: Tables, z: Zone, p: Provider, now: int): Tables {
    Apply(Apply(t, ResetDaily(p, NextDailyReset(z, now))), ResetWeekly(p, NextWeeklyReset(z, now)))
  }

  method ResetProvider(store: BudgetStore, configs: map<Provider, ProviderConfig>, z: Zone, p: Provider, now: int)
    returns (out: Result<(), TrackerError>)
    modifies store
    ensures out.Failure? <==> p !in configs
    ensures store.View() == if out.Failure? then old(store.View()) else ResetNow(old(store.View()), z, p, now)
  {
    if p !in configs {
      return Failure(UnconfiguredProvider);
    }
    store.ResetDay(p, NextDailyReset(z, now));
    store.ResetWeek(p, NextWeeklyReset(z, now));
    out := Success(());
  }

  // ---- the periodic check ----

  predicate DailyDue(row: Row, now: int) {
    now > row.dailyResetAt
  }

  predicate WeeklyDue(row: Row, now: int) {
    now > row.weeklyResetAt
  }

  // The row with the resets of one check that have been written.
  function PartRow(row: Row, z: Zone, at: int, daily: bool, weekly: bool): Row {
    var r := if daily
             then row.(dailyUsed := 0, errorCount := 0, isAvailable := true, dailyResetAt := NextDailyReset(z, at))
             else row;
    if weekly then r.(weeklyUsed := 0, weeklyResetAt := NextWeeklyReset(z, at)) else r
  }

  function CheckRow(row: Row, z: Zone, now: int): Row {
    PartRow(row, z, now, DailyDue(row, now), WeeklyDue(row, now))
  }

  // The tables after one check: each row is reset on the dimensions that are due, and nothing is recorded.
  function Checked(t: Tables, z: Zone, now: int): Tables {
    t.(rows := map p | p in t.rows :: CheckRow(t.rows[p], z, now))
  }

  method ResetIfDue(store: BudgetStore, status: BudgetStatus, z: Zone, now: int)
    requires status.provider in store.rows && status == ScanStatus(status.provider, store.rows[status.provider])
    modifies store
    ensures store.ledger == old(store.ledger)
    ensures store.rows ==
            old(store.rows)[status.provider := CheckRow(old(store.rows)[status.provider], z, now)]
  {
    if now > status.dailyResetAt {
      store.ResetDay(status.provider, NextDailyReset(z, now));
    }
    if now > status.weeklyResetAt {
      store.ResetWeek(status.provider, NextWeeklyReset(z, now));
    }
  }

  /** Reads every status once, then resets what is overdue. */
  method CheckResets(store: BudgetStore, collation: (Provider, Provider) -> bool, z: Zone, now: int)
    requires StrictWeakOrder(collation)
    modifies store
    ensures store.View() == Checked(old(store.View()), z, now)
  {
    var statuses := store.AllStatuses(collation);
    ghost var before := store.View();
    ghost var done: set<Provider> := {};
    for i := 0 to |statuses|
      invariant store.ledger == before.ledger
      invariant done == set k | 0 <= k < i :: statuses[k].provider
      invariant store.rows.Keys == before.rows.Keys
      invariant forall p :: p in before.rows ==>
                  store.rows[p] == if p in done then CheckRow(before.rows[p], z, now) else before.rows[p]
    {
      var status := statuses[i];
      assert status in statuses && status.provider !in done;
      ResetIfDue(store, status, z, now);
      done := done + {status.provider};
    }
    forall p | p in before.rows
      ensures p in done
    {
      assert ScanStatus(p, before.rows[p]) in statuses;
    }
    assert store.rows == Checked(before, z, now).rows;
  }

  // Checking twice at the same instant changes nothing more.
  lemma {:induction false} CheckIsIdempotent(t: Tables, z: Zone, now: int)
    requires z.Valid()
    ensures Checked(Checked(t, z, now), z, now) == Checked(t, z, now)
  {
    NextDailyIsLeast(z, now);
    NextWeeklyIsLeast(z, now);
  }
}
