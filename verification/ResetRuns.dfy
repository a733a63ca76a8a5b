/** Resets in time (delegator/budget/tracker.go). Nothing locks the tracker: a check reads the clock and the statuses
    and then writes row by row, a manual reset reads the clock and then writes twice, and reports, manual resets and
    the writes of a check interleave freely. Every event is one statement; resets carry the clock reading they go back
    to. */
module ResetRuns {
  import opened Wrappers
  import opened BudgetTypes
  import opened Calendar
  import opened Ledger
  import opened Tracker

  datatype Event =
    | Init(p: Provider, dailyLimit: int, weeklyLimit: int, read: int)
    | Reported(rec: UsageRecord, at: int)
    | Manual(p: Provider, dim: Dimension, read: int)
    | CheckRead(read: int)                       // the statuses are read; the clock was read just before
    | CheckWrite(p: Provider, dim: Dimension)

  // What the running check still has to reset, and its clock reading.
  datatype Pass = Pass(read: int, due: set<(Provider, Dimension)>)

  datatype State = State(tables: Tables, pass: Pass)

  const INITIAL := State(EMPTY_TABLES, Pass(0, {}))

  function ResetAt(row: Row, dim: Dimension): int {
    if dim == Daily then row.dailyResetAt else row.weeklyResetAt
  }

  function ResetOp(p: Provider, dim: Dimension, next: int): Op {
    if dim == Daily then ResetDaily(p, next) else ResetWeekly(p, next)
  }

  function Overdue(t: Tables, now: int): set<(Provider, Dimension)> {
    set p, dim | p in t.rows && dim in {Daily, Weekly} && now > ResetAt(t.rows[p], dim) :: (p, dim)
  }

  // Reports are taken for configured providers only, whose rows exist; a check writes only what it found overdue,
  // each once. A write that fails is left out by the next read.
  predicate Enabled(s: State, e: Event) {
    match e
    case Reported(rec, _) => rec.provider in s.tables.rows
    case CheckWrite(p, dim) => (p, dim) in s.pass.due
    case _ => true
  }

  function Next(s: State, z: Zone, e: Event): State {
    match e
    case Init(p, dl, wl, read) =>
      s.(tables := Apply(s.tables, InitProvider(p, dl, wl, NextReset(z, Daily, read), NextReset(z, Weekly, read))))
    case Reported(rec, at) => s.(tables := Apply(s.tables, RecordUsage(rec, at)))
    case Manual(p, dim, read) => s.(tables := Apply(s.tables, ResetOp(p, dim, NextReset(z, dim, read))))
    case CheckRead(read) => s.(pass := Pass(read, Overdue(s.tables, read)))
    case CheckWrite(p, dim) =>
      State(Apply(s.tables, ResetOp(p, dim, NextReset(z, dim, s.pass.read))), s.pass.(due := s.pass.due - {(p, dim)}))
  }

  function RunTo(es: seq<Event>, z: Zone, n: nat): State
    requires n <= |es|
  {
    if n == 0 then INITIAL else Next(RunTo(es, z, n - 1), z, es[n-1])
  }

  ghost predicate EnabledAt(es: seq<Event>, z: Zone, i: nat) {
    i < |es| && Enabled(RunTo(es, z, i), es[i])
  }

  ghost predicate Legal(es: seq<Event>, z: Zone) {
    forall i :: 0 <= i < |es| ==> EnabledAt(es, z, i)
  }

  // ---- which events set a reset instant ----

  predicate Sets(s: State, e: Event, p: Provider, dim: Dimension) {
    match e
    case Init(q, _, _, _) => q == p && p !in s.tables.rows
    case Manual(q, d, _) => q == p && d == dim && p in s.tables.rows
    case CheckWrite(q, d) => q == p && d == dim && p in s.tables.rows
    case _ => false
  }

  // The clock reading a reset goes back to.
  function Reading(s: State, e: Event): int {
    match e
    case Init(_, _, _, read) => read
    case Manual(_, _, read) => read
    case _ => s.pass.read
  }

  lemma {:induction false} InstantAfter(s: State, z: Zone, e: Event, p: Provider, dim: Dimension)
    requires Enabled(s, e) && p in Next(s, z, e).tables.rows
    ensures Sets(s, e, p, dim) ==> ResetAt(Next(s, z, e).tables.rows[p], dim) == NextReset(z, dim, Reading(s, e))
    ensures !Sets(s, e, p, dim) ==>
              p in s.tables.rows && ResetAt(Next(s, z, e).tables.rows[p], dim) == ResetAt(s.tables.rows[p], dim)
  {
  }

  lemma {:induction false} RowStays(s: State, z: Zone, e: Event, p: Provider, dim: Dimension)
    requires p in s.tables.rows || Sets(s, e, p, dim)
    ensures p in Next(s, z, e).tables.rows
  {
  }

  lemma {:induction false} RowsStay(es: seq<Event>, z: Zone, i: nat, j: nat, p: Provider)
    requires i <= j <= |es| && p in RunTo(es, z, i).tables.rows
    ensures p in RunTo(es, z, j).tables.rows
    decreases j
  {
    if i == j {
    } else {
      RowsStay(es, z, i, j - 1, p);
      RowStays(RunTo(es, z, j - 1), z, es[j-1], p, Daily);
    }
  }

  ghost predicate SetsAt(es: seq<Event>, z: Zone, i: nat, p: Provider, dim: Dimension) {
    i < |es| && Sets(RunTo(es, z, i), es[i], p, dim)
  }

  function ReadingAt(es: seq<Event>, z: Zone, i: nat): int
    requires i < |es|
  {
    Reading(RunTo(es, z, i), es[i])
  }

  // ---- logs of clock readings ----

  // What each event does to one reset instant: set it from a clock reading, or leave it.
  type Log = seq<Option<int>>

  function LastReading(log: Log): Option<int>
  {
    if log == [] then None
    else if log[|log| - 1].Some? then log[|log| - 1]
    else LastReading(log[..|log| - 1])
  }

  lemma {:induction false} LastEntry(log: Log) returns (i: nat)
    requires LastReading(log).Some?
    ensures i < |log| && log[i] == LastReading(log) && forall k :: i < k < |log| ==> log[k].None?
  {
    if log[|log| - 1].Some? {
      i := |log| - 1;
    } else {
      i := LastEntry(log[..|log| - 1]);
    }
  }

  ghost predicate Falls(log: Log, next: int -> int, m: nat, n: nat) {
    && m <= n <= |log| && LastReading(log[..m]).Some? && LastReading(log[..n]).Some?
    && next(LastReading(log[..n]).value) < next(LastReading(log[..m]).value)
  }

  ghost predicate Overtaken(log: Log, next: int -> int, i: nat, j: nat) {
    i < j < |log| && log[i].Some? && log[j].Some? && next(log[j].value) < next(log[i].value)
  }

  lemma {:induction false} OvertakenFalls(log: Log, next: int -> int, i: nat, j: nat) returns (m: nat, n: nat)
    requires Overtaken(log, next, i, j)
    ensures Falls(log, next, m, n)
  {
    m, n := i + 1, j + 1;
    assert log[..i+1][..i] == log[..i] && log[..j+1][..j] == log[..j];
  }

  lemma {:induction false} FallIsOvertaken(log: Log, next: int -> int, m: nat, n: nat) returns (i: nat, j: nat)
    requires Falls(log, next, m, n)
    ensures Overtaken(log, next, i, j)
  {
    i := LastEntry(log[..m]);
    j := LastEntry(log[..n]);
    assert log[..n][i] == log[i] && log[..n][j] == log[j];
  }

  // ---- the instant in a row is the one its last reset set ----

  function LogOf(es: seq<Event>, z: Zone, n: nat, p: Provider, dim: Dimension): (log: Log)
    requires n <= |es|
    ensures |log| == n
  {
    if n == 0 then []
    else
      var s, e := RunTo(es, z, n - 1), es[n-1];
      LogOf(es, z, n - 1, p, dim) + [if Sets(s, e, p, dim) then Some(Reading(s, e)) else None]
  }

  lemma {:induction false} LogPrefix(es: seq<Event>, z: Zone, m: nat, n: nat, p: Provider, dim: Dimension)
    requires m <= n <= |es|
    ensures LogOf(es, z, n, p, dim)[..m] == LogOf(es, z, m, p, dim)
  {
    if m == n {
    } else {
      LogPrefix(es, z, m, n - 1, p, dim);
      assert LogOf(es, z, n, p, dim)[..n-1] == LogOf(es, z, n - 1, p, dim);
      assert LogOf(es, z, n, p, dim)[..m] == LogOf(es, z, n, p, dim)[..n-1][..m];
    }
  }

  lemma {:induction false} LogAt(es: seq<Event>, z: Zone, i: nat, p: Provider, dim: Dimension)
    requires i < |es|
    ensures LogOf(es, z, |es|, p, dim)[i] == if SetsAt(es, z, i, p, dim) then Some(ReadingAt(es, z, i)) else None
  {
    LogPrefix(es, z, i + 1, |es|, p, dim);
    assert LogOf(es, z, |es|, p, dim)[..i+1][i] == LogOf(es, z, |es|, p, dim)[i];
  }

  // The row a provider has, and its instant, after n events.
  ghost predicate InstantIs(s: State, p: Provider, dim: Dimension, instant: Option<int>) {
    if p in s.tables.rows then instant == Some(ResetAt(s.tables.rows[p], dim)) else instant == None
  }

  function NextOf(z: Zone, dim: Dimension): int -> int {
    (t: int) => NextReset(z, dim, t)
  }

  function InstantFrom(z: Zone, dim: Dimension, reading: Option<int>): Option<int> {
    if reading.Some? then Some(NextOf(z, dim)(reading.value)) else None
  }

  lemma {:induction false} InstantStep(s: State, z: Zone, e: Event, p: Provider, dim: Dimension, instant: Option<int>)
    requires Enabled(s, e) && InstantIs(s, p, dim, instant)
    ensures InstantIs(Next(s, z, e), p, dim,
                      if Sets(s, e, p, dim) then InstantFrom(z, dim, Some(Reading(s, e))) else instant)
  {
    if p in s.tables.rows || Sets(s, e, p, dim) {
      RowStays(s, z, e, p, dim);
    }
    if p in Next(s, z, e).tables.rows {
      InstantAfter(s, z, e, p, dim);
    }
  }

  lemma {:induction false} InstantIsLast(es: seq<Event>, z: Zone, n: nat, p: Provider, dim: Dimension)
    requires Legal(es, z) && n <= |es|
    ensures InstantIs(RunTo(es, z, n), p, dim, InstantFrom(z, dim, LastReading(LogOf(es, z, n, p, dim))))
  {
    if n == 0 {
    } else {
      InstantIsLast(es, z, n - 1, p, dim);
      assert EnabledAt(es, z, n - 1);
      var before := InstantFrom(z, dim, LastReading(LogOf(es, z, n - 1, p, dim)));
      InstantStep(RunTo(es, z, n - 1), z, es[n-1], p, dim, before);
      assert LogOf(es, z, n, p, dim)[..n-1] == LogOf(es, z, n - 1, p, dim);
    }
  }

  // ---- when instants go back ----

  ghost predicate GoesBack(es: seq<Event>, z: Zone, m: nat, n: nat, p: Provider, dim: Dimension) {
    && m <= n <= |es| && p in RunTo(es, z, m).tables.rows && p in RunTo(es, z, n).tables.rows
    && ResetAt(RunTo(es, z, n).tables.rows[p], dim) < ResetAt(RunTo(es, z, m).tables.rows[p], dim)
  }

  // Reset j comes after reset i but goes back to a clock reading before a boundary that i's reading had reached.
  ghost predicate Stale(es: seq<Event>, z: Zone, i: nat, j: nat, b: int, p: Provider, dim: Dimension) {
    && i < j < |es| && SetsAt(es, z, i, p, dim) && SetsAt(es, z, j, p, dim)
    && IsReset(z, dim, b) && ReadingAt(es, z, j) < b <= ReadingAt(es, z, i)
  }

  lemma {:induction false} GoesBackIffFalls(es: seq<Event>, z: Zone, m: nat, n: nat, p: Provider, dim: Dimension)
    requires Legal(es, z)
    ensures GoesBack(es, z, m, n, p, dim) <==> Falls(LogOf(es, z, |es|, p, dim), NextOf(z, dim), m, n)
  {
    if m <= n <= |es| {
      LogPrefix(es, z, m, |es|, p, dim);
      LogPrefix(es, z, n, |es|, p, dim);
      InstantIsLast(es, z, m, p, dim);
      InstantIsLast(es, z, n, p, dim);
    }
  }

  lemma {:induction false} StaleIffOvertaken(es: seq<Event>, z: Zone, i: nat, j: nat, p: Provider, dim: Dimension)
    requires z.Valid()
    ensures (exists b :: Stale(es, z, i, j, b, p, dim)) <==> Overtaken(LogOf(es, z, |es|, p, dim), NextOf(z, dim), i, j)
  {
    if i < j < |es| {
      LogAt(es, z, i, p, dim);
      LogAt(es, z, j, p, dim);
      if SetsAt(es, z, i, p, dim) && SetsAt(es, z, j, p, dim) {
        NextResetsDifferIff(z, dim, ReadingAt(es, z, j), ReadingAt(es, z, i));
        if b :| IsReset(z, dim, b) && ReadingAt(es, z, j) < b <= ReadingAt(es, z, i) {
          assert Stale(es, z, i, j, b, p, dim);
        }
      }
    }
  }

  lemma {:induction false} StaleIsOvertaken(es: seq<Event>, z: Zone, i: nat, j: nat, b: int,
          p: Provider, dim: Dimension)
    requires z.Valid() && Stale(es, z, i, j, b, p, dim)
    ensures Overtaken(LogOf(es, z, |es|, p, dim), NextOf(z, dim), i, j)
  {
    StaleIffOvertaken(es, z, i, j, p, dim);
  }

  lemma {:induction false} OvertakenGoesBack(es: seq<Event>, z: Zone, i: nat, j: nat, p: Provider, dim: Dimension)
    returns (m: nat, n: nat)
    requires Legal(es, z) && Overtaken(LogOf(es, z, |es|, p, dim), NextOf(z, dim), i, j)
    ensures GoesBack(es, z, m, n, p, dim)
  {
    m, n := OvertakenFalls(LogOf(es, z, |es|, p, dim), NextOf(z, dim), i, j);
    GoesBackIffFalls(es, z, m, n, p, dim);
  }

  lemma {:induction false} StaleGoesBack(es: seq<Event>, z: Zone, i: nat, j: nat, b: int, p: Provider, dim: Dimension)
    returns (m: nat, n: nat)
    requires z.Valid() && Legal(es, z) && Stale(es, z, i, j, b, p, dim)
    ensures GoesBack(es, z, m, n, p, dim)
  {
    StaleIsOvertaken(es, z, i, j, b, p, dim);
    m, n := OvertakenGoesBack(es, z, i, j, p, dim);
  }

  lemma {:induction false} BackIsStale(es: seq<Event>, z: Zone, m: nat, n: nat, p: Provider, dim: Dimension)
    returns (i: nat, j: nat, b: int)
    requires z.Valid() && Legal(es, z) && GoesBack(es, z, m, n, p, dim)
    ensures Stale(es, z, i, j, b, p, dim)
  {
    GoesBackIffFalls(es, z, m, n, p, dim);
    i, j := FallIsOvertaken(LogOf(es, z, |es|, p, dim), NextOf(z, dim), m, n);
    StaleIffOvertaken(es, z, i, j, p, dim);
    b :| Stale(es, z, i, j, b, p, dim);
  }

  ghost predicate NeverBack(es: seq<Event>, z: Zone, p: Provider, dim: Dimension) {
    forall m, n :: !GoesBack(es, z, m, n, p, dim)
  }

  ghost predicate NoneStale(es: seq<Event>, z: Zone, p: Provider, dim: Dimension) {
    forall i, j, b :: !Stale(es, z, i, j, b, p, dim)
  }

  // A reset instant never moves backwards exactly when no reset is stale.
  lemma {:induction false} InstantsNeverGoBackIff(es: seq<Event>, z: Zone, p: Provider, dim: Dimension)
    requires z.Valid() && Legal(es, z)
    ensures NeverBack(es, z, p, dim) <==> NoneStale(es, z, p, dim)
  {
    if !NoneStale(es, z, p, dim) {
      var i: nat, j: nat, b: int :| Stale(es, z, i, j, b, p, dim);
      var m, n := StaleGoesBack(es, z, i, j, b, p, dim);
    }
    if !NeverBack(es, z, p, dim) {
      var m: nat, n: nat :| GoesBack(es, z, m, n, p, dim);
      var i, j, b := BackIsStale(es, z, m, n, p, dim);
    }
  }

  // ---- checks, and resets in the order of the clock ----

  // The read a check's writes go back to: the last one before them.
  lemma {:induction false} LastCheckRead(es: seq<Event>, z: Zone, n: nat, p: Provider, dim: Dimension) returns (k: nat)
    requires n <= |es| && (p, dim) in RunTo(es, z, n).pass.due
    ensures k < n && es[k].CheckRead? && RunTo(es, z, n).pass.read == es[k].read
    ensures forall i :: k < i < n ==> !es[i].CheckRead? && es[i] != CheckWrite(p, dim)
    ensures p in RunTo(es, z, k).tables.rows && ResetAt(RunTo(es, z, k).tables.rows[p], dim) < es[k].read
  {
    if es[n-1].CheckRead? {
      k := n - 1;
    } else {
      k := LastCheckRead(es, z, n - 1, p, dim);
    }
  }

  ghost predicate OwnReading(e: Event) {
    e.Init? || e.Manual? || e.CheckRead?
  }

  // Tracker starts and manual resets write before the clock moves on: in the order of the events, their readings and
  // those of the checks never go back.
  ghost predicate ClockOrdered(es: seq<Event>) {
    forall i, j :: 0 <= i <= j < |es| && OwnReading(es[i]) && OwnReading(es[j]) ==> es[i].read <= es[j].read
  }

  // The event whose clock reading a reset goes back to.
  lemma {:induction false} Source(es: seq<Event>, z: Zone, i: nat, p: Provider, dim: Dimension) returns (k: nat)
    requires Legal(es, z) && i < |es| && SetsAt(es, z, i, p, dim)
    ensures k <= i && OwnReading(es[k]) && ReadingAt(es, z, i) == es[k].read
    ensures es[i].CheckWrite? ==>
              && k < i && es[k].CheckRead? && es[i] == CheckWrite(p, dim)
              && (forall m :: k < m < i ==> !es[m].CheckRead? && es[m] != CheckWrite(p, dim))
              && p in RunTo(es, z, k).tables.rows && ResetAt(RunTo(es, z, k).tables.rows[p], dim) < es[k].read
    ensures !es[i].CheckWrite? ==> k == i
  {
    assert EnabledAt(es, z, i);
    if es[i].CheckWrite? {
      k := LastCheckRead(es, z, i, p, dim);
    } else {
      k := i;
    }
  }

  // A manual reset lands between a check's read and its write, with a boundary after the one clock reading and not
  // after the other.
  ghost predicate CrossesCheck(es: seq<Event>, k: nat, i: nat, j: nat, b: int, z: Zone, p: Provider, dim: Dimension) {
    && k < i < j < |es| && es[k].CheckRead? && es[j] == CheckWrite(p, dim)
    && (forall m :: k < m < j ==> !es[m].CheckRead?)
    && es[i].Manual? && es[i].p == p && es[i].dim == dim
    && IsReset(z, dim, b) && es[k].read < b <= es[i].read
  }

  lemma {:induction false} StaleCrosses(es: seq<Event>, z: Zone, i: nat, j: nat, b: int, p: Provider, dim: Dimension)
    returns (k: nat)
    requires Legal(es, z) && ClockOrdered(es) && Stale(es, z, i, j, b, p, dim)
    ensures CrossesCheck(es, k, i, j, b, z, p, dim)
  {
    k := Source(es, z, j, p, dim);
    var l := Source(es, z, i, p, dim);
    assert k < l;
    RowsStay(es, z, k, i, p);
  }

  lemma {:induction false} CrossingIsStale(es: seq<Event>, k: nat, i: nat, j: nat, b: int, z: Zone,
          p: Provider, dim: Dimension)
    requires Legal(es, z) && CrossesCheck(es, k, i, j, b, z, p, dim)
    ensures Stale(es, z, i, j, b, p, dim)
  {
    assert EnabledAt(es, z, j);
    var l := LastCheckRead(es, z, j, p, dim);
    assert l == k;
    RowsStay(es, z, k, i, p);
    RowsStay(es, z, k, j, p);
  }

  // With resets in the order of the clock an instant never moves backwards exactly when no manual reset crosses a check
  // over a boundary.
  lemma {:induction false} ClockOrderedNeverBackIff(es: seq<Event>, z: Zone, p: Provider, dim: Dimension)
    requires z.Valid() && Legal(es, z) && ClockOrdered(es)
    ensures NeverBack(es, z, p, dim) <==> forall k, i, j, b :: !CrossesCheck(es, k, i, j, b, z, p, dim)
  {
    InstantsNeverGoBackIff(es, z, p, dim);
    if !NoneStale(es, z, p, dim) {
      var i: nat, j: nat, b: int :| Stale(es, z, i, j, b, p, dim);
      var k := StaleCrosses(es, z, i, j, b, p, dim);
    }
    if k: nat, i: nat, j: nat, b: int :| CrossesCheck(es, k, i, j, b, z, p, dim) {
      CrossingIsStale(es, k, i, j, b, z, p, dim);
    }
  }

  // ---- one reset per boundary ----

  // Some reset from event i on set the instant found at k.
  lemma {:induction false} SetterSince(es: seq<Event>, z: Zone, i: nat, k: nat, p: Provider, dim: Dimension)
    returns (a: nat)
    requires Legal(es, z) && i < k <= |es| && SetsAt(es, z, i, p, dim) && p in RunTo(es, z, k).tables.rows
    ensures i <= a < k && SetsAt(es, z, a, p, dim)
    ensures ResetAt(RunTo(es, z, k).tables.rows[p], dim) == NextReset(z, dim, ReadingAt(es, z, a))
  {
    InstantIsLast(es, z, k, p, dim);
    a := LastEntry(LogOf(es, z, k, p, dim));
    LogPrefix(es, z, k, |es|, p, dim);
    LogAt(es, z, a, p, dim);
    LogAt(es, z, i, p, dim);
    assert LogOf(es, z, |es|, p, dim)[..k][i] == LogOf(es, z, |es|, p, dim)[i];
  }

  // Between two writes of checks for the same instant lies the second one's read, which found it overdue.
  lemma {:induction false} ReadInBetween(es: seq<Event>, z: Zone, i: nat, j: nat, p: Provider, dim: Dimension)
    returns (k: nat)
    requires Legal(es, z) && i < j < |es| && SetsAt(es, z, j, p, dim)
    requires es[i] == CheckWrite(p, dim) && es[j] == CheckWrite(p, dim)
    ensures i < k < j && p in RunTo(es, z, k).tables.rows
    ensures ResetAt(RunTo(es, z, k).tables.rows[p], dim) < ReadingAt(es, z, j)
  {
    k := Source(es, z, j, p, dim);
    assert es[i] == CheckWrite(p, dim) && i != k;
  }

  ghost predicate BoundaryBetween(z: Zone, dim: Dimension, r: int, t: int) {
    exists b :: IsReset(z, dim, b) && r < b < t
  }

  // The automatic reset i is overtaken backwards: a later reset of the row goes back behind a boundary it had passed.
  ghost predicate Undone(es: seq<Event>, z: Zone, i: nat, a: nat, p: Provider, dim: Dimension) {
    i < |es| && es[i] == CheckWrite(p, dim) && exists b :: Stale(es, z, i, a, b, p, dim)
  }

  lemma {:induction false} UndoneIff(es: seq<Event>, z: Zone, i: nat, a: nat, p: Provider, dim: Dimension)
    requires z.Valid() && i < a < |es| && SetsAt(es, z, i, p, dim) && SetsAt(es, z, a, p, dim)
    requires es[i] == CheckWrite(p, dim)
    ensures Undone(es, z, i, a, p, dim) <==>
            NextReset(z, dim, ReadingAt(es, z, a)) < NextReset(z, dim, ReadingAt(es, z, i))
  {
    NextResetsDifferIff(z, dim, ReadingAt(es, z, a), ReadingAt(es, z, i));
    if b: int :| IsReset(z, dim, b) && ReadingAt(es, z, a) < b <= ReadingAt(es, z, i) {
      assert Stale(es, z, i, a, b, p, dim);
    }
  }

  // A check that found the instant of reset i, or a later one, overdue came after a boundary that i had not passed.
  lemma {:induction false} BoundaryPassed(z: Zone, dim: Dimension, r: int, instant: int, t: int)
    requires z.Valid() && NextReset(z, dim, r) <= instant < t
    ensures BoundaryBetween(z, dim, r, t)
  {
    NextResetIsLeast(z, dim, r);
  }

  // Between two automatic resets of a provider lies a boundary, unless a reset in between undoes the first.
  lemma {:induction false} BoundaryUnlessUndone(es: seq<Event>, z: Zone, i: nat, j: nat, p: Provider, dim: Dimension)
    requires z.Valid() && Legal(es, z) && i < j < |es|
    requires es[i] == CheckWrite(p, dim) && es[j] == CheckWrite(p, dim)
    requires forall a :: i < a < j ==> !Undone(es, z, i, a, p, dim)
    ensures BoundaryBetween(z, dim, ReadingAt(es, z, i), ReadingAt(es, z, j))
  {
    SetsAtWrite(es, z, i, p, dim);
    SetsAtWrite(es, z, j, p, dim);
    var k := ReadInBetween(es, z, i, j, p, dim);
    var a := SetterSince(es, z, i, k, p, dim);
    if i < a {
      UndoneIff(es, z, i, a, p, dim);
    }
    BoundaryPassed(z, dim, ReadingAt(es, z, i), NextReset(z, dim, ReadingAt(es, z, a)), ReadingAt(es, z, j));
  }

  lemma {:induction false} SetsAtWrite(es: seq<Event>, z: Zone, i: nat, p: Provider, dim: Dimension)
    requires Legal(es, z) && i < |es| && es[i] == CheckWrite(p, dim)
    ensures SetsAt(es, z, i, p, dim)
  {
    assert EnabledAt(es, z, i);
    var k := LastCheckRead(es, z, i, p, dim);
    RowsStay(es, z, k, i, p);
  }

  // The events of an uninterrupted check that resets this instant.
  function CheckNow(t: int, p: Provider, dim: Dimension): seq<Event> {
    [CheckRead(t), CheckWrite(p, dim)]
  }

  lemma {:induction false} SameStart(es: seq<Event>, more: seq<Event>, z: Zone, n: nat)
    requires n <= |es|
    ensures RunTo(es + more, z, n) == RunTo(es, z, n)
  {
    if n == 0 {
    } else {
      SameStart(es, more, z, n - 1);
    }
  }

  // A check can come after a run exactly when it finds the instant overdue.
  lemma {:induction false} CheckNowIsLegalIff(es: seq<Event>, z: Zone, t: int, p: Provider, dim: Dimension)
    requires Legal(es, z)
    ensures Legal(es + CheckNow(t, p, dim), z) <==>
            var rows := RunTo(es, z, |es|).tables.rows; p in rows && ResetAt(rows[p], dim) < t
  {
    var all, n := es + CheckNow(t, p, dim), |es|;
    SameStart(es, CheckNow(t, p, dim), z, n);
    assert RunTo(all, z, n + 1) == Next(RunTo(es, z, n), z, CheckRead(t));
    forall i | 0 <= i < n
      ensures EnabledAt(all, z, i)
    {
      SameStart(es, CheckNow(t, p, dim), z, i);
      assert EnabledAt(es, z, i);
    }
    assert EnabledAt(all, z, n);
    assert EnabledAt(all, z, n + 1) <==>
           (p, dim) in Overdue(RunTo(es, z, n).tables, t);
  }

  // A check right after the first n events resets once more although no boundary has passed since automatic reset i.
  ghost predicate ResetsTwice(es: seq<Event>, z: Zone, i: nat, n: nat, t: int, p: Provider, dim: Dimension) {
    && i < n <= |es| && es[i] == CheckWrite(p, dim) && Legal(es[..n] + CheckNow(t, p, dim), z)
    && !BoundaryBetween(z, dim, ReadingAt(es, z, i), t)
  }

  lemma {:induction false} PrefixIsLegal(es: seq<Event>, z: Zone, n: nat)
    requires Legal(es, z) && n <= |es|
    ensures Legal(es[..n], z) && RunTo(es[..n], z, n) == RunTo(es, z, n)
  {
    assert es == es[..n] + es[n..];
    SameStart(es[..n], es[n..], z, n);
    forall i | 0 <= i < n
      ensures EnabledAt(es[..n], z, i)
    {
      SameStart(es[..n], es[n..], z, i);
      assert EnabledAt(es, z, i);
    }
  }

  // After n events a check may reset twice exactly when the instant in the row lies before the one reset i had set.
  lemma {:induction false} ResetsTwiceIff(es: seq<Event>, z: Zone, i: nat, n: nat, p: Provider, dim: Dimension)
    requires z.Valid() && Legal(es, z) && i < n <= |es| && es[i] == CheckWrite(p, dim)
    ensures p in RunTo(es, z, n).tables.rows
    ensures (exists t :: ResetsTwice(es, z, i, n, t, p, dim)) <==>
            ResetAt(RunTo(es, z, n).tables.rows[p], dim) < NextReset(z, dim, ReadingAt(es, z, i))
  {
    SetsAtWrite(es, z, i, p, dim);
    RowStays(RunTo(es, z, i), z, es[i], p, dim);
    RowsStay(es, z, i + 1, n, p);
    PrefixIsLegal(es, z, n);
    var r, instant := ReadingAt(es, z, i), ResetAt(RunTo(es, z, n).tables.rows[p], dim);
    NextResetIsLeast(z, dim, r);
    if instant < NextReset(z, dim, r) {
      CheckNowIsLegalIff(es[..n], z, NextReset(z, dim, r), p, dim);
      assert ResetsTwice(es, z, i, n, NextReset(z, dim, r), p, dim);
    }
    if t: int :| ResetsTwice(es, z, i, n, t, p, dim) {
      CheckNowIsLegalIff(es[..n], z, t, p, dim);
      if NextReset(z, dim, r) <= instant {
        BoundaryPassed(z, dim, r, instant, t);
      }
    }
  }

  // No check ever resets twice for one boundary, whenever it comes, exactly when no reset undoes an automatic one.
  lemma {:induction false} OneResetPerBoundaryIff(es: seq<Event>, z: Zone, p: Provider, dim: Dimension)
    requires z.Valid() && Legal(es, z)
    ensures (forall i, n, t :: !ResetsTwice(es, z, i, n, t, p, dim)) <==> forall i, a :: !Undone(es, z, i, a, p, dim)
  {
    if i: nat, a: nat :| Undone(es, z, i, a, p, dim) {
      var t := UndoneResetsTwice(es, z, i, a, p, dim);
    }
    if i: nat, n: nat, t: int :| ResetsTwice(es, z, i, n, t, p, dim) {
      var a := TwiceIsUndone(es, z, i, n, t, p, dim);
    }
  }

  lemma {:induction false} UndoneResetsTwice(es: seq<Event>, z: Zone, i: nat, a: nat, p: Provider, dim: Dimension)
    returns (t: int)
    requires z.Valid() && Legal(es, z) && Undone(es, z, i, a, p, dim)
    ensures ResetsTwice(es, z, i, a + 1, t, p, dim)
  {
    UndoneIff(es, z, i, a, p, dim);
    ResetsTwiceIff(es, z, i, a + 1, p, dim);
    assert EnabledAt(es, z, a);
    InstantAfter(RunTo(es, z, a), z, es[a], p, dim);
    t :| ResetsTwice(es, z, i, a + 1, t, p, dim);
  }

  lemma {:induction false} TwiceIsUndone(es: seq<Event>, z: Zone, i: nat, n: nat, t: int, p: Provider, dim: Dimension)
    returns (a: nat)
    requires z.Valid() && Legal(es, z) && ResetsTwice(es, z, i, n, t, p, dim)
    ensures Undone(es, z, i, a, p, dim)
  {
    ResetsTwiceIff(es, z, i, n, p, dim);
    SetsAtWrite(es, z, i, p, dim);
    a := SetterSince(es, z, i, n, p, dim);
    if i < a {
      UndoneIff(es, z, i, a, p, dim);
    }
  }

  // ---- with resets in the order of the clock ----

  // Readings never fall behind an earlier check's, so nothing undoes an automatic reset.
  lemma {:induction false} NothingUndoneInOrder(es: seq<Event>, z: Zone, i: nat, a: nat, p: Provider, dim: Dimension)
    requires Legal(es, z) && ClockOrdered(es)
    ensures !Undone(es, z, i, a, p, dim)
  {
    if Undone(es, z, i, a, p, dim) {
      var k := Source(es, z, i, p, dim);
      var l := Source(es, z, a, p, dim);
    }
  }

  // Between two automatic resets of a provider lies a boundary, whatever else interleaves in the order of the clock.
  lemma {:induction false} OneResetPerBoundary(es: seq<Event>, z: Zone, i: nat, j: nat, p: Provider, dim: Dimension)
    requires z.Valid() && Legal(es, z) && ClockOrdered(es) && i < j < |es|
    requires es[i] == CheckWrite(p, dim) && es[j] == CheckWrite(p, dim)
    ensures BoundaryBetween(z, dim, ReadingAt(es, z, i), ReadingAt(es, z, j))
  {
    forall a | i < a < j
      ensures !Undone(es, z, i, a, p, dim)
    {
      NothingUndoneInOrder(es, z, i, a, p, dim);
    }
    BoundaryUnlessUndone(es, z, i, j, p, dim);
  }

  // ---- a manual reset that writes late ----

  // A manual reset reads the clock before a boundary and writes after a check that came after it.
  function LateRun(z: Zone, p: Provider, dim: Dimension): seq<Event> {
    var b := NextReset(z, dim, 0);
    [Init(p, 0, 0, 0), CheckRead(b + 1), CheckWrite(p, dim), Manual(p, dim, b - 1)] + CheckNow(b + 2, p, dim)
  }

  lemma {:induction false} LateRunStates(z: Zone, p: Provider, dim: Dimension)
    requires z.Valid()
    ensures var es, b := LateRun(z, p, dim), NextReset(z, dim, 0);
            && p in RunTo(es, z, 1).tables.rows && ResetAt(RunTo(es, z, 1).tables.rows[p], dim) == b
            && RunTo(es, z, 2) == Next(RunTo(es, z, 1), z, CheckRead(b + 1))
            && p in RunTo(es, z, 4).tables.rows && ResetAt(RunTo(es, z, 4).tables.rows[p], dim) == b
            && RunTo(es, z, 5) == Next(RunTo(es, z, 4), z, CheckRead(b + 2))
  {
    var es, b := LateRun(z, p, dim), NextReset(z, dim, 0);
    NextResetIsLeast(z, dim, 0);
    NextResetIsLeast(z, dim, b - 1);
    assert RunTo(es, z, 1) == Next(INITIAL, z, es[0]);
    assert RunTo(es, z, 2) == Next(RunTo(es, z, 1), z, es[1]);
    assert RunTo(es, z, 3) == Next(RunTo(es, z, 2), z, es[2]);
    assert RunTo(es, z, 4) == Next(RunTo(es, z, 3), z, es[3]);
    assert RunTo(es, z, 5) == Next(RunTo(es, z, 4), z, es[4]);
  }

  // In every zone some run resets twice for one boundary.
  lemma {:induction false} BoundaryCanResetTwice(z: Zone, p: Provider, dim: Dimension)
    requires z.Valid()
    ensures var es := LateRun(z, p, dim);
            && Legal(es, z) && es[2] == CheckWrite(p, dim) && es[5] == CheckWrite(p, dim)
            && !BoundaryBetween(z, dim, ReadingAt(es, z, 2), ReadingAt(es, z, 5))
  {
    var es, b := LateRun(z, p, dim), NextReset(z, dim, 0);
    LateRunStates(z, p, dim);
    assert (p, dim) in Overdue(RunTo(es, z, 1).tables, b + 1);
    assert (p, dim) in Overdue(RunTo(es, z, 4).tables, b + 2);
    forall i | 0 <= i < |es|
      ensures EnabledAt(es, z, i)
    {
      assert i == 2 || i == 5 || !es[i].CheckWrite?;
    }
  }

  // ---- a manual reset inside a check ----

  // The check finds the row overdue before a boundary, the manual reset comes after it, and the check writes last.
  function CrossingRun(z: Zone, p: Provider, dim: Dimension): seq<Event> {
    var t := NextReset(z, dim, 0) + 1;
    [Init(p, 0, 0, 0), CheckRead(t), Manual(p, dim, NextReset(z, dim, t)), CheckWrite(p, dim)]
  }

  lemma {:induction false} CrossingRunStates(z: Zone, p: Provider, dim: Dimension)
    ensures var es, t := CrossingRun(z, p, dim), NextReset(z, dim, 0) + 1;
            && p in RunTo(es, z, 1).tables.rows && ResetAt(RunTo(es, z, 1).tables.rows[p], dim) == t - 1
            && RunTo(es, z, 2).pass == Pass(t, Overdue(RunTo(es, z, 1).tables, t))
            && RunTo(es, z, 3).pass == RunTo(es, z, 2).pass
  {
    var es := CrossingRun(z, p, dim);
    assert RunTo(es, z, 1) == Next(INITIAL, z, es[0]);
    assert RunTo(es, z, 2) == Next(RunTo(es, z, 1), z, es[1]);
    assert RunTo(es, z, 3) == Next(RunTo(es, z, 2), z, es[2]);
  }

  lemma {:induction false} CrossingRunIsLegal(z: Zone, p: Provider, dim: Dimension)
    ensures Legal(CrossingRun(z, p, dim), z)
  {
    var es, t := CrossingRun(z, p, dim), NextReset(z, dim, 0) + 1;
    CrossingRunStates(z, p, dim);
    assert (p, dim) in Overdue(RunTo(es, z, 1).tables, t);
    forall i | 0 <= i < |es|
      ensures EnabledAt(es, z, i)
    {
      assert i == 3 || !es[i].CheckWrite?;
    }
  }

  // In every zone some run moves a reset instant backwards.
  lemma {:induction false} InstantsCanGoBack(z: Zone, p: Provider, dim: Dimension)
    requires z.Valid()
    ensures var es := CrossingRun(z, p, dim); Legal(es, z) && ClockOrdered(es) && !NeverBack(es, z, p, dim)
  {
    var es, t := CrossingRun(z, p, dim), NextReset(z, dim, 0) + 1;
    CrossingRunIsLegal(z, p, dim);
    NextResetIsLeast(z, dim, 0);
    NextResetIsLeast(z, dim, t);
    assert CrossesCheck(es, 1, 2, 3, NextReset(z, dim, t), z, p, dim);
    ClockOrderedNeverBackIff(es, z, p, dim);
  }

  // ---- a check that nothing interrupts ----

  predicate Wrote(s: State, t: Tables, at: int, p: Provider, dim: Dimension) {
    (p, dim) in Overdue(t, at) && (p, dim) !in s.pass.due
  }

  // The state of a check over tables t that has written some of its resets and nothing else has happened.
  ghost predicate PartlyChecked(s: State, z: Zone, t: Tables, at: int) {
    && s.pass.read == at && s.pass.due <= Overdue(t, at)
    && s.tables.ledger == t.ledger && s.tables.rows.Keys == t.rows.Keys
    && forall p :: p in t.rows ==>
         s.tables.rows[p] == PartRow(t.rows[p], z, at, Wrote(s, t, at, p, Daily), Wrote(s, t, at, p, Weekly))
  }

  lemma {:induction false} WriteGoesOn(s: State, z: Zone, t: Tables, at: int, p: Provider, dim: Dimension)
    requires PartlyChecked(s, z, t, at) && Enabled(s, CheckWrite(p, dim))
    ensures PartlyChecked(Next(s, z, CheckWrite(p, dim)), z, t, at)
  {
    assert p in t.rows;
  }

  lemma {:induction false} ReadStarts(s: State, z: Zone, at: int)
    ensures PartlyChecked(Next(s, z, CheckRead(at)), z, s.tables, at)
  {
  }

  // What every write keeps holds as long as there are only writes.
  lemma {:induction false} WritesKeep(es: seq<Event>, z: Zone, m: nat, n: nat, inv: State -> bool)
    requires Legal(es, z) && m <= n <= |es| && inv(RunTo(es, z, m))
    requires forall i :: m <= i < n ==> es[i].CheckWrite?
    requires forall s, e: Event :: inv(s) && e.CheckWrite? && Enabled(s, e) ==> inv(Next(s, z, e))
    ensures inv(RunTo(es, z, n))
    decreases n
  {
    if n == m {
    } else {
      WritesKeep(es, z, m, n - 1, inv);
      assert EnabledAt(es, z, n - 1);
    }
  }

  ghost function PartlyCheckedOver(z: Zone, t: Tables, at: int): State -> bool {
    (s: State) => PartlyChecked(s, z, t, at)
  }

  lemma {:induction false} WritesGoOn(es: seq<Event>, z: Zone, k: nat, n: nat, t: Tables, at: int)
    requires Legal(es, z) && k < n <= |es| && es[k] == CheckRead(at) && t == RunTo(es, z, k).tables
    requires forall i :: k < i < n ==> es[i].CheckWrite?
    ensures PartlyChecked(RunTo(es, z, n), z, t, at)
  {
    ReadStarts(RunTo(es, z, k), z, at);
    var inv := PartlyCheckedOver(z, t, at);
    forall s, e: Event | inv(s) && e.CheckWrite? && Enabled(s, e)
      ensures inv(Next(s, z, e))
    {
      WriteGoesOn(s, z, t, at, e.p, e.dim);
    }
    WritesKeep(es, z, k + 1, n, inv);
  }

  // The writes of a check, in whatever order they come, do together what CheckResets promises.
  lemma {:induction false} UninterruptedCheck(es: seq<Event>, z: Zone, k: nat, n: nat)
    requires Legal(es, z) && k < n <= |es| && es[k].CheckRead?
    requires forall i :: k < i < n ==> es[i].CheckWrite?
    requires RunTo(es, z, n).pass.due == {}
    ensures RunTo(es, z, n).tables == Checked(RunTo(es, z, k).tables, z, es[k].read)
  {
    WritesGoOn(es, z, k, n, RunTo(es, z, k).tables, es[k].read);
    NothingDueIsChecked(RunTo(es, z, n), z, RunTo(es, z, k).tables, es[k].read);
  }

  lemma {:induction false} NothingDueIsChecked(s: State, z: Zone, t: Tables, at: int)
    requires PartlyChecked(s, z, t, at)
    ensures s.pass.due == {} ==> s.tables == Checked(t, z, at)
  {
    if s.pass.due == {} {
      forall p | p in t.rows
        ensures s.tables.rows[p] == CheckRow(t.rows[p], z, at)
      {
        assert (p, Daily) in Overdue(t, at) <==> DailyDue(t.rows[p], at);
        assert (p, Weekly) in Overdue(t, at) <==> WeeklyDue(t.rows[p], at);
      }
      assert s.tables.rows == Checked(t, z, at).rows;
    }
  }

  // ---- the ledger's view of a run ----

  function OpOf(s: State, z: Zone, e: Event): seq<Op> {
    match e
    case Init(p, dl, wl, read) => [InitProvider(p, dl, wl, NextReset(z, Daily, read), NextReset(z, Weekly, read))]
    case Reported(rec, at) => [RecordUsage(rec, at)]
    case Manual(p, dim, read) => [ResetOp(p, dim, NextReset(z, dim, read))]
    case CheckRead(_) => []
    case CheckWrite(p, dim) => [ResetOp(p, dim, NextReset(z, dim, s.pass.read))]
  }

  function OpsOf(es: seq<Event>, z: Zone, n: nat): seq<Op>
    requires n <= |es|
  {
    if n == 0 then [] else OpsOf(es, z, n - 1) + OpOf(RunTo(es, z, n - 1), z, es[n-1])
  }

  // The tables are those of the ledger after the same statements, so its results hold however checks are interrupted.
  lemma {:induction false} TablesAreAfterOps(es: seq<Event>, z: Zone, n: nat)
    requires n <= |es|
    ensures RunTo(es, z, n).tables == After(OpsOf(es, z, n))
  {
    if n == 0 {
    } else {
      TablesAreAfterOps(es, z, n - 1);
      var s := RunTo(es, z, n - 1);
      OneMoreOp(s, z, es[n-1], OpsOf(es, z, n - 1));
    }
  }

  lemma {:induction false} OneMoreOp(s: State, z: Zone, e: Event, ops: seq<Op>)
    requires s.tables == After(ops)
    ensures Next(s, z, e).tables == After(ops + OpOf(s, z, e))
  {
    var op := OpOf(s, z, e);
    if op == [] {
      assert ops + op == ops;
    } else {
      assert (ops + op)[..|ops + op| - 1] == ops;
    }
  }
}
