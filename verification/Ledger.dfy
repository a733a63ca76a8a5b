/** The budget ledger: provider rows and the append-only usage records (delegator/budget/store.go). */
module Ledger {
  import opened Wrappers
  import opened BudgetTypes
  import opened Finite
  import opened Ordering

  datatype Row = Row(
    dailyUsed: int, dailyLimit: int,
    weeklyUsed: int, weeklyLimit: int,
    dailyResetAt: int, weeklyResetAt: int,
    isAvailable: bool, errorCount: int)

  datatype UsageRecord = UsageRecord(
    provider: Provider, totalTokens: int, taskId: string, success: bool, recordedAt: int)

  const ERROR_THRESHOLD := 5

  /** The two tables. */
  datatype Tables = Tables(rows: map<Provider, Row>, ledger: seq<UsageRecord>)

  const EMPTY_TABLES := Tables(map[], [])

  // One committed transaction or statement. Now is the instant RecordUsage writes into a row it has to create.
  datatype Op =
    | InitProvider(p: Provider, dailyLimit: int, weeklyLimit: int, dailyReset: int, weeklyReset: int)
    | RecordUsage(rec: UsageRecord, now: int)
    | ResetDaily(p: Provider, next: int)
    | ResetWeekly(p: Provider, next: int)

  // ---- the effect of each operation on one row ----

  function Charge(row: Row, rec: UsageRecord): Row
  {
    var errors := if rec.success then (if row.errorCount > 1 then row.errorCount - 1 else 0) else row.errorCount + 1;
    row.(dailyUsed := row.dailyUsed + rec.totalTokens,
         weeklyUsed := row.weeklyUsed + rec.totalTokens,
         errorCount := errors,
         isAvailable := row.isAvailable && (rec.success || errors <= ERROR_THRESHOLD))
  }

  function BlankRow(now: int): Row {
    Row(0, 0, 0, 0, now, now, true, 0)
  }

  function Apply(t: Tables, op: Op): Tables
  {
    match op
    case InitProvider(p, dl, wl, dr, wr) =>
      t.(rows := t.rows[p := if p in t.rows
                             then t.rows[p].(dailyLimit := dl, weeklyLimit := wl)
                             else Row(0, dl, 0, wl, dr, wr, true, 0)])
    case RecordUsage(rec, now) =>
      var row := if rec.provider in t.rows then t.rows[rec.provider] else BlankRow(now);
      Tables(t.rows[rec.provider := Charge(row, rec)], t.ledger + [rec])
    case ResetDaily(p, next) =>
      if p in t.rows
      then t.(rows := t.rows[p := t.rows[p].(dailyUsed := 0, errorCount := 0, isAvailable := true,
          dailyResetAt := next)])
      else t
    case ResetWeekly(p, next) =>
      if p in t.rows
      then t.(rows := t.rows[p := t.rows[p].(weeklyUsed := 0, weeklyResetAt := next)])
      else t
  }

  // The tables after a whole run, in the order the operations committed.
  function After(ops: seq<Op>): Tables
  {
    if ops == [] then EMPTY_TABLES else Apply(After(ops[..|ops| - 1]), ops[|ops| - 1])
  }

  // ---- reading a row back ----

  function ClampPct(v: real): (r: real)
    ensures 0.0 <= r <= 1.0
    ensures 0.0 <= v <= 1.0 ==> r == v
  {
    if v < 0.0 then 0.0 else if v > 1.0 then 1.0 else v
  }

  function Remaining(limit: int, used: int): (r: int)
    ensures r >= 0
    ensures r > 0 ==> limit > 0 && used + r == limit
    ensures limit > 0 && used <= limit ==> used + r == limit
  {
    if limit > 0 && limit - used > 0 then limit - used else 0
  }

  // The share of a limit that is used, between nothing and all of it.
  function Percentage(limit: int, used: int): (r: real)
    ensures 0.0 <= r <= 1.0
  {
    if limit > 0 then ClampPct(used as real / limit as real) else 0.0
  }

  function ScanStatus(p: Provider, row: Row): BudgetStatus {
    var dailyLeft, weeklyLeft := Remaining(row.dailyLimit, row.dailyUsed), Remaining(row.weeklyLimit, row.weeklyUsed);
    BudgetStatus(
      p,
      row.dailyUsed, row.dailyLimit, dailyLeft, Percentage(row.dailyLimit, row.dailyUsed),
      row.weeklyUsed, row.weeklyLimit, weeklyLeft, Percentage(row.weeklyLimit, row.weeklyUsed),
      row.isAvailable, row.errorCount, row.dailyResetAt, row.weeklyResetAt)
  }

  lemma {:induction false} QuotientAbove(x: real, y: real, bound: real)
    requires y > 0.0
    ensures x / y > bound <==> x > bound * y
  {
    var q := x / y;
    assert q * y == x;
    assert (q - bound) * y == x - bound * y;
    if q > bound {
      assert (q - bound) * y > 0.0;
    } else {
      assert (bound - q) * y >= 0.0;
    }
  }

  lemma {:induction false} PercentageIsShare(limit: int, used: int)
    ensures 0 <= used <= limit ==> Percentage(limit, used) * limit as real == used as real
    ensures 0 < limit < used ==> Percentage(limit, used) == 1.0
  {
    if limit > 0 {
      QuotientAbove(used as real, limit as real, 1.0);
      QuotientAbove(-(used as real), limit as real, 0.0);
      assert used as real / limit as real * limit as real == used as real;
    }
  }

  // A status shows the row's counters, what is left of each limit and which share of it is used.
  lemma {:induction false} StatusShowsRow(p: Provider, row: Row)
    ensures var st := ScanStatus(p, row);
            && st.provider == p && st.isAvailable == row.isAvailable && st.errorCount == row.errorCount
            && st.dailyUsed == row.dailyUsed && st.weeklyUsed == row.weeklyUsed
            && st.dailyLimit == row.dailyLimit && st.weeklyLimit == row.weeklyLimit
            && st.dailyResetAt == row.dailyResetAt && st.weeklyResetAt == row.weeklyResetAt
            && (0 <= row.dailyUsed <= row.dailyLimit ==>
                  && st.dailyUsed + st.dailyRemaining == row.dailyLimit
                  && st.dailyPct * row.dailyLimit as real == row.dailyUsed as real)
            && (0 <= row.weeklyUsed <= row.weeklyLimit ==>
                  && st.weeklyUsed + st.weeklyRemaining == row.weeklyLimit
                  && st.weeklyPct * row.weeklyLimit as real == row.weeklyUsed as real)
            && (row.dailyLimit < row.dailyUsed ==> st.dailyRemaining == 0)
            && (row.weeklyLimit < row.weeklyUsed ==> st.weeklyRemaining == 0)
            && (0 < row.dailyLimit < row.dailyUsed ==> st.dailyPct == 1.0)
            && (0 < row.weeklyLimit < row.weeklyUsed ==> st.weeklyPct == 1.0)
  {
    PercentageIsShare(row.dailyLimit, row.dailyUsed);
    PercentageIsShare(row.weeklyLimit, row.weeklyUsed);
  }

  function StatusOf(t: Tables): map<Provider, BudgetStatus> {
    map p | p in t.rows :: ScanStatus(p, t.rows[p])
  }

  // ---- the store ----

  class BudgetStore {
    var rows: map<Provider, Row>
    var ledger: seq<UsageRecord>

    function View(): Tables
      reads this
    {
      Tables(rows, ledger)
    }

    constructor ()
      ensures View() == EMPTY_TABLES
    {
      rows, ledger := map[], [];
    }

    method Init(p: Provider, dailyLimit: int, weeklyLimit: int, dailyReset: int, weeklyReset: int)
      modifies this
      ensures View() == Apply(old(View()), InitProvider(p, dailyLimit, weeklyLimit, dailyReset, weeklyReset))
    {
      if p in rows {
        rows := rows[p := rows[p].(dailyLimit := dailyLimit, weeklyLimit := weeklyLimit)];
      } else {
        rows := rows[p := Row(0, dailyLimit, 0, weeklyLimit, dailyReset, weeklyReset, true, 0)];
      }
    }

    /** Inserts the record, makes sure the row exists, bumps the counters, then checks the error threshold. */
    method Record(rec: UsageRecord, now: int)
      modifies this
      ensures View() == Apply(old(View()), RecordUsage(rec, now))
      // A row made for the record has no limits and both resets at once.
      ensures rec.provider !in old(rows) ==>
                && rec.provider in rows
                && var row := rows[rec.provider];
                && row.dailyLimit == 0 && row.weeklyLimit == 0 && row.dailyResetAt == now && row.weeklyResetAt == now
    {
      var p := rec.provider;
      ledger := ledger + [rec];
      if p !in rows {
        rows := rows[p := BlankRow(now)];
      }
      rows := rows[p := rows[p].(dailyUsed := rows[p].dailyUsed + rec.totalTokens,
                                 weeklyUsed := rows[p].weeklyUsed + rec.totalTokens)];
      if rec.success {
        rows := rows[p := rows[p].(errorCount := if rows[p].errorCount - 1 > 0 then rows[p].errorCount - 1 else 0)];
      } else {
        rows := rows[p := rows[p].(errorCount := rows[p].errorCount + 1)];
        if rows[p].errorCount > ERROR_THRESHOLD {
          rows := rows[p := rows[p].(isAvailable := false)];
        }
      }
    }

    method ResetDay(p: Provider, next: int)
      modifies this
      ensures View() == Apply(old(View()), ResetDaily(p, next))
    {
      if p in rows {
        rows := rows[p := rows[p].(dailyUsed := 0, errorCount := 0, isAvailable := true, dailyResetAt := next)];
      }
    }

    method ResetWeek(p: Provider, next: int)
      modifies this
      ensures View() == Apply(old(View()), ResetWeekly(p, next))
    {
      if p in rows {
        rows := rows[p := rows[p].(weeklyUsed := 0, weeklyResetAt := next)];
      }
    }

    /** All statuses, one per row, in the order the database's collation gives the names. */
    method AllStatuses(collation: (Provider, Provider) -> bool) returns (statuses: seq<BudgetStatus>)
      requires StrictWeakOrder(collation)
      ensures |statuses| == |rows.Keys|
      ensures forall s :: s in statuses <==> s.provider in rows && s == ScanStatus(s.provider, rows[s.provider])
      ensures forall i, j :: 0 <= i < j < |statuses| ==>
                statuses[i].provider != statuses[j].provider
                && !collation(statuses[j].provider, statuses[i].provider)
    {
      var names := SortedElements(rows.Keys, collation);
      statuses := [];
      for k := 0 to |names|
        invariant |statuses| == k
        invariant forall i :: 0 <= i < k ==> statuses[i] == ScanStatus(names[i], rows[names[i]])
      {
        statuses := statuses + [ScanStatus(names[k], rows[names[k]])];
      }
      assert Elements(names) == rows.Keys;
      DistinctCardinality(names);
      assert forall i :: 0 <= i < |names| ==> statuses[i].provider == names[i];
      forall s: BudgetStatus | s.provider in rows && s == ScanStatus(s.provider, rows[s.provider])
        ensures s in statuses
      {
        var i :| 0 <= i < |names| && names[i] == s.provider;
        assert statuses[i] == s;
      }
    }
  }

  // ---- conservation ----

  // The tokens recorded for one provider in a stretch of the ledger.
  function TokensOf(p: Provider, ledger: seq<UsageRecord>): int
  {
    if ledger == [] then 0
    else
      var last := ledger[|ledger| - 1];
      TokensOf(p, ledger[..|ledger| - 1]) + (if last.provider == p then last.totalTokens else 0)
  }

  function AllTokens(ledger: seq<UsageRecord>): int
  {
    if ledger == [] then 0 else AllTokens(ledger[..|ledger| - 1]) + ledger[|ledger| - 1].totalTokens
  }

  // How long the ledger was when the run last reset p's day (week).
  function DailyMark(p: Provider, ops: seq<Op>): nat
  {
    if ops == [] then 0
    else
      var earlier, last := ops[..|ops| - 1], ops[|ops| - 1];
      if last.ResetDaily? && last.p == p then |After(earlier).ledger| else DailyMark(p, earlier)
  }

  function WeeklyMark(p: Provider, ops: seq<Op>): nat
  {
    if ops == [] then 0
    else
      var earlier, last := ops[..|ops| - 1], ops[|ops| - 1];
      if last.ResetWeekly? && last.p == p then |After(earlier).ledger| else WeeklyMark(p, earlier)
  }

  lemma {:induction false} MarksInLedger(p: Provider, ops: seq<Op>)
    ensures DailyMark(p, ops) <= |After(ops).ledger|
    ensures WeeklyMark(p, ops) <= |After(ops).ledger|
  {
    if ops == [] {
    } else {
      MarksInLedger(p, ops[..|ops| - 1]);
    }
  }

  lemma {:induction false} TokensOfAppend(p: Provider, ledger: seq<UsageRecord>, from: nat, rec: UsageRecord)
    requires from <= |ledger|
    ensures TokensOf(p, (ledger + [rec])[from..]) ==
            TokensOf(p, ledger[from..]) + (if rec.provider == p then rec.totalTokens else 0)
  {
    assert (ledger + [rec])[from..] == ledger[from..] + [rec];
    assert (ledger[from..] + [rec])[..|ledger[from..]|] == ledger[from..];
  }

  // The counters of p are the tokens of its entries from two marks on.
  ghost predicate Matches(p: Provider, t: Tables, daily: nat, weekly: nat)
    requires daily <= |t.ledger| && weekly <= |t.ledger|
  {
    if p in t.rows
    then
      && t.rows[p].dailyUsed == TokensOf(p, t.ledger[daily..])
      && t.rows[p].weeklyUsed == TokensOf(p, t.ledger[weekly..])
    else TokensOf(p, t.ledger[daily..]) == 0 && TokensOf(p, t.ledger[weekly..]) == 0
  }

  lemma {:induction false} RecordKeepsMatch(p: Provider, t: Tables, daily: nat, weekly: nat, rec: UsageRecord, now: int)
    requires daily <= |t.ledger| && weekly <= |t.ledger| && Matches(p, t, daily, weekly)
    ensures Matches(p, Apply(t, RecordUsage(rec, now)), daily, weekly)
  {
    TokensOfAppend(p, t.ledger, daily, rec);
    TokensOfAppend(p, t.ledger, weekly, rec);
  }

  lemma {:induction false} StepKeepsMatch(p: Provider, t: Tables, daily: nat, weekly: nat, op: Op)
    requires daily <= |t.ledger| && weekly <= |t.ledger| && Matches(p, t, daily, weekly)
    ensures |t.ledger| <= |Apply(t, op).ledger|
    ensures Matches(p, Apply(t, op), if op.ResetDaily? && op.p == p then |t.ledger| else daily,
                    if op.ResetWeekly? && op.p == p then |t.ledger| else weekly)
  {
    if op.RecordUsage? {
      RecordKeepsMatch(p, t, daily, weekly, op.rec, op.now);
    }
  }

  // Whatever the interleaving of reports and resets, a counter is the sum of the entries appended since its last reset.
  lemma {:induction false} CountersMatchLedger(p: Provider, ops: seq<Op>)
    ensures DailyMark(p, ops) <= |After(ops).ledger| && WeeklyMark(p, ops) <= |After(ops).ledger|
    ensures p in After(ops).rows ==>
              && After(ops).rows[p].dailyUsed == TokensOf(p, After(ops).ledger[DailyMark(p, ops)..])
              && After(ops).rows[p].weeklyUsed == TokensOf(p, After(ops).ledger[WeeklyMark(p, ops)..])
    ensures p !in After(ops).rows ==>
              && TokensOf(p, After(ops).ledger[DailyMark(p, ops)..]) == 0
              && TokensOf(p, After(ops).ledger[WeeklyMark(p, ops)..]) == 0
  {
    MarksInLedger(p, ops);
    if ops == [] {
    } else {
      var earlier, last := ops[..|ops| - 1], ops[|ops| - 1];
      CountersMatchLedger(p, earlier);
      StepKeepsMatch(p, After(earlier), DailyMark(p, earlier), WeeklyMark(p, earlier), last);
    }
  }

  // The token totals of every provider that has a row.
  function TokensByProvider(t: Tables): map<Provider, int> {
    map p | p in t.rows :: TokensOf(p, t.ledger)
  }

  // The providers with rows account for every recorded token.
  ghost predicate Covered(t: Tables) {
    && SumOf(TokensByProvider(t)) == AllTokens(t.ledger)
    && forall p :: p !in t.rows ==> TokensOf(p, t.ledger) == 0
  }

  lemma {:induction false} RecordKeepsCover(t: Tables, rec: UsageRecord, now: int)
    requires Covered(t)
    ensures Covered(Apply(t, RecordUsage(rec, now)))
  {
    var u := Apply(t, RecordUsage(rec, now));
    assert u.ledger[..|u.ledger| - 1] == t.ledger;
    SumUpdate(TokensByProvider(t), rec.provider, TokensOf(rec.provider, u.ledger));
    assert TokensByProvider(u) == TokensByProvider(t)[rec.provider := TokensOf(rec.provider, u.ledger)];
  }

  lemma {:induction false} InitKeepsCover(t: Tables, op: Op)
    requires Covered(t) && op.InitProvider?
    ensures Covered(Apply(t, op))
  {
    SumUpdate(TokensByProvider(t), op.p, TokensOf(op.p, t.ledger));
    assert TokensByProvider(Apply(t, op)) == TokensByProvider(t)[op.p := TokensOf(op.p, t.ledger)];
  }

  // Nothing is lost between the rows and the ledger: the providers with rows account for every recorded token.
  lemma {:induction false} ProvidersCoverLedger(ops: seq<Op>)
    ensures SumOf(TokensByProvider(After(ops))) == AllTokens(After(ops).ledger)
    ensures forall p :: p !in After(ops).rows ==> TokensOf(p, After(ops).ledger) == 0
  {
    if ops == [] {
    } else {
      var earlier, last := ops[..|ops| - 1], ops[|ops| - 1];
      ProvidersCoverLedger(earlier);
      if last.RecordUsage? {
        RecordKeepsCover(After(earlier), last.rec, last.now);
      } else if last.InitProvider? {
        InitKeepsCover(After(earlier), last);
      } else {
        assert TokensByProvider(After(ops)) == TokensByProvider(After(earlier));
      }
    }
  }

  // ---- availability ----

  // The outcomes reported for p since its day was last reset.
  function OutcomesSince(p: Provider, ops: seq<Op>): seq<bool>
  {
    if ops == [] then []
    else
      var earlier, last := ops[..|ops| - 1], ops[|ops| - 1];
      if last.ResetDaily? && last.p == p then []
      else if last.RecordUsage? && last.rec.provider == p then OutcomesSince(p, earlier) + [last.rec.success]
      else OutcomesSince(p, earlier)
  }

  // Failures minus successes.
  function Net(outcomes: seq<bool>): int
  {
    if outcomes == [] then 0
    else Net(outcomes[..|outcomes| - 1]) + (if outcomes[|outcomes| - 1] then -1 else 1)
  }

  function Block(outcomes: seq<bool>, i: nat, j: nat): seq<bool>
    requires i <= j <= |outcomes|
  {
    outcomes[i..j]
  }

  // e is the largest excess of failures over any final stretch of the outcomes, the empty one included.
  ghost predicate IsWorstSuffix(outcomes: seq<bool>, e: int)
  {
    && (forall i :: 0 <= i <= |outcomes| ==> Net(Block(outcomes, i, |outcomes|)) <= e)
    && (exists i :: 0 <= i <= |outcomes| && Net(Block(outcomes, i, |outcomes|)) == e)
  }

  // Some contiguous stretch of the outcomes has at least six more failures than successes.
  ghost predicate HasBadStretch(outcomes: seq<bool>)
  {
    exists i, j :: 0 <= i <= j <= |outcomes| && Net(Block(outcomes, i, j)) >= 6
  }

  lemma {:induction false} BlockOfAppend(outcomes: seq<bool>, success: bool)
    ensures forall i :: 0 <= i <= |outcomes| ==>
              Net(Block(outcomes + [success], i, |outcomes| + 1)) ==
              Net(Block(outcomes, i, |outcomes|)) + (if success then -1 else 1)
    ensures forall i, j :: 0 <= i <= j <= |outcomes| ==> Block(outcomes + [success], i, j) == Block(outcomes, i, j)
    ensures Net(Block(outcomes + [success], |outcomes| + 1, |outcomes| + 1)) == 0
  {
    forall i | 0 <= i <= |outcomes|
      ensures Net(Block(outcomes + [success], i, |outcomes| + 1)) ==
              Net(Block(outcomes, i, |outcomes|)) + (if success then -1 else 1)
    {
      var b := Block(outcomes, i, |outcomes|);
      assert Block(outcomes + [success], i, |outcomes| + 1) == b + [success];
      assert (b + [success])[..|b|] == b;
    }
  }

  // One more outcome moves the worst suffix exactly as RecordUsage moves the error count.
  lemma {:induction false} WorstSuffixStep(outcomes: seq<bool>, e: int, success: bool)
    requires IsWorstSuffix(outcomes, e)
    ensures e >= 0
    ensures IsWorstSuffix(outcomes + [success], if !success then e + 1 else if e > 1 then e - 1 else 0)
  {
    var longer := outcomes + [success];
    BlockOfAppend(outcomes, success);
    assert Net(Block(outcomes, |outcomes|, |outcomes|)) == 0;
    var i :| 0 <= i <= |outcomes| && Net(Block(outcomes, i, |outcomes|)) == e;
    var d := if success then -1 else 1;
    assert Net(Block(longer, i, |longer|)) == e + d;
    forall k | 0 <= k <= |longer|
      ensures Net(Block(longer, k, |longer|)) <= if e + d > 0 then e + d else 0
    {
      if k <= |outcomes| {
        assert Net(Block(outcomes, k, |outcomes|)) <= e;
      }
    }
  }

  lemma {:induction false} BadStretchStep(outcomes: seq<bool>, e: int, success: bool)
    requires IsWorstSuffix(outcomes, e)
    ensures HasBadStretch(outcomes + [success]) <==>
            HasBadStretch(outcomes) || (!success && e + 1 >= 6)
  {
    var longer := outcomes + [success];
    BlockOfAppend(outcomes, success);
    if HasBadStretch(outcomes) {
      var i, j :| 0 <= i <= j <= |outcomes| && Net(Block(outcomes, i, j)) >= 6;
      assert Net(Block(longer, i, j)) >= 6;
    }
    if !success && e + 1 >= 6 {
      var i :| 0 <= i <= |outcomes| && Net(Block(outcomes, i, |outcomes|)) == e;
      assert Net(Block(longer, i, |longer|)) >= 6;
    }
    if HasBadStretch(longer) {
      var i, j :| 0 <= i <= j <= |longer| && Net(Block(longer, i, j)) >= 6;
      if j <= |outcomes| {
        assert Net(Block(outcomes, i, j)) >= 6;
      } else if i <= |outcomes| {
        assert Net(Block(outcomes, i, |outcomes|)) <= e;
        if success {
          assert Net(Block(outcomes, i, |outcomes|)) >= 6;
        }
      }
    }
  }

  // What a row must say after the given outcomes.
  ghost predicate Tracks(row: Row, outcomes: seq<bool>)
  {
    && IsWorstSuffix(outcomes, row.errorCount)
    && (!row.isAvailable <==> HasBadStretch(outcomes))
  }

  lemma {:induction false} ChargeTracks(row: Row, outcomes: seq<bool>, rec: UsageRecord)
    requires Tracks(row, outcomes)
    ensures Tracks(Charge(row, rec), outcomes + [rec.success])
  {
    WorstSuffixStep(outcomes, row.errorCount, rec.success);
    BadStretchStep(outcomes, row.errorCount, rec.success);
  }

  lemma {:induction false} FreshRowTracks(row: Row)
    requires row.errorCount == 0 && row.isAvailable
    ensures Tracks(row, [])
  {
    assert Net(Block([], 0, 0)) == 0;
  }

  // The error count is the worst suffix of the day's outcomes, and a provider is unavailable
  // exactly when some stretch of them went bad; in particular no success brings it back.
  lemma {:induction false} AvailabilityIsAWindowProperty(p: Provider, ops: seq<Op>)
    requires p in After(ops).rows
    ensures Tracks(After(ops).rows[p], OutcomesSince(p, ops))
  {
    var earlier, last := ops[..|ops| - 1], ops[|ops| - 1];
    if p in After(earlier).rows {
      var row := After(earlier).rows[p];
      AvailabilityIsAWindowProperty(p, earlier);
      if last.RecordUsage? && last.rec.provider == p {
        ChargeTracks(row, OutcomesSince(p, earlier), last.rec);
      } else if last.ResetDaily? && last.p == p {
        FreshRowTracks(After(ops).rows[p]);
      }
    } else {
      NoRowNoOutcomes(p, earlier);
      if last.RecordUsage? {
        FreshRowTracks(BlankRow(last.now));
        ChargeTracks(BlankRow(last.now), [], last.rec);
      } else if last.InitProvider? {
        FreshRowTracks(After(ops).rows[p]);
      }
    }
  }

  lemma {:induction false} NoRowNoOutcomes(p: Provider, ops: seq<Op>)
    requires p !in After(ops).rows
    ensures OutcomesSince(p, ops) == []
  {
    if ops == [] {
    } else {
      NoRowNoOutcomes(p, ops[..|ops| - 1]);
    }
  }

  // ---- coming back ----

  // An unavailable provider becomes available in exactly one way.
  lemma {:induction false} OnlyDailyResetRestores(t: Tables, op: Op, p: Provider)
    requires p in t.rows && !t.rows[p].isAvailable
    ensures p in Apply(t, op).rows
    ensures Apply(t, op).rows[p].isAvailable <==> op.ResetDaily? && op.p == p
  {
  }

  // Whatever is reported, an unavailable provider stays out until its day is reset.
  lemma {:induction false} OutUntilDailyReset(p: Provider, ops: seq<Op>, k: nat)
    requires k <= |ops| && p in After(ops[..k]).rows && !After(ops[..k]).rows[p].isAvailable
    requires forall i :: k <= i < |ops| ==> !(ops[i].ResetDaily? && ops[i].p == p)
    ensures p in After(ops).rows && !After(ops).rows[p].isAvailable
  {
    if k == |ops| {
      assert ops[..k] == ops;
    } else {
      var earlier, last := ops[..|ops| - 1], ops[|ops| - 1];
      assert earlier[..k] == ops[..k];
      OutUntilDailyReset(p, earlier, k);
      OnlyDailyResetRestores(After(earlier), last, p);
    }
  }

  // A new provider's row, then so many failures, then so many successes.
  function Troubled(p: Provider, failures: nat, successes: nat): seq<Op>
    decreases successes, failures
  {
    if successes > 0 then Troubled(p, failures, successes - 1) + [RecordUsage(UsageRecord(p, 1, "", true, 0), 0)]
    else if failures > 0 then Troubled(p, failures - 1, 0) + [RecordUsage(UsageRecord(p, 1, "", false, 0), 0)]
    else [InitProvider(p, 0, 0, 0, 0)]
  }

  lemma {:induction false} TroubledRow(p: Provider, failures: nat, successes: nat)
    ensures p in After(Troubled(p, failures, successes)).rows
    ensures var row := After(Troubled(p, failures, successes)).rows[p];
            && row.errorCount == (if failures > successes then failures - successes else 0)
            && row.isAvailable == (failures < 6)
    decreases successes, failures
  {
    var ops := Troubled(p, failures, successes);
    if successes == 0 && failures == 0 {
      assert After(ops[..0]) == EMPTY_TABLES;
    } else {
      var earlier := if successes > 0 then Troubled(p, failures, successes - 1) else Troubled(p, failures - 1, 0);
      TroubledRow(p, if successes > 0 then failures else failures - 1, if successes > 0 then successes - 1 else 0);
      assert ops[..|ops| - 1] == earlier;
    }
  }

  // Six failures and six successes clear the error count and leave the provider unavailable.
  lemma {:induction false} SuccessesDoNotRestore(p: Provider) returns (ops: seq<Op>)
    ensures p in After(ops).rows && After(ops).rows[p].errorCount == 0 && !After(ops).rows[p].isAvailable
  {
    ops := Troubled(p, 6, 6);
    TroubledRow(p, 6, 6);
  }
}
