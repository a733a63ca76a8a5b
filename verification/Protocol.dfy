/** What every interleaving of delegations, cancellations and evictions keeps. */
module Protocol {
  import opened Wrappers
  import opened BudgetTypes
  import opened Router
  import opened Ledger
  import opened Tasks
  import opened Inflight
  import opened DelegationSteps

  // ---- in-flight accounting ----

  function Holding(p: Provider): Delegation -> bool {
    (d: Delegation) => d.HoldsSlot() && d.provider == p
  }

  // How many delegations of p lie between increment and release.
  ghost function HeldBy(s: State, p: Provider): nat {
    |Those(s.delegations, Holding(p))|
  }

  // The map holds exactly the non-zero counts, and never the empty provider.
  ghost predicate InflightExact(s: State) {
    forall p ::
      && (p in s.inflight <==> p != NO_PROVIDER && HeldBy(s, p) > 0)
      && (p in s.inflight ==> s.inflight[p] == HeldBy(s, p))
  }

  // Only the increment and the release change whether a delegation holds a slot; no step moves it to another provider.
  lemma {:induction false} SlotUntouched(cfg: Config, s: State, step: Step)
    requires Ready(s, step) && Moves(step) && !step.Count? && !step.Release?
    ensures var d := DelegationAfter(cfg, s, step);
            if step.id in s.delegations && s.delegations[step.id].HoldsSlot()
            then d.HoldsSlot() && d.provider == s.delegations[step.id].provider
            else !d.HoldsSlot()
  {
  }

  lemma {:induction false} SlotsMove(cfg: Config, s: State, step: Step)
    requires Ready(s, step) && (step.Count? || step.Release?)
    ensures step.id in s.delegations
    ensures var d, d' := s.delegations[step.id], Next(cfg, s, step).delegations[step.id];
            && d'.provider == d.provider
            && d.HoldsSlot() == step.Release? && d'.HoldsSlot() == step.Count?
            && Next(cfg, s, step).inflight
               == if step.Count? then Incr(s.inflight, d.provider) else Decr(s.inflight, d.provider)
  {
  }

  lemma {:induction false} CountsStay(s: State, s': State)
    requires InflightExact(s) && s'.inflight == s.inflight && forall p :: HeldBy(s', p) == HeldBy(s, p)
    ensures InflightExact(s')
  {
  }

  lemma {:induction false} CountsMove(s: State, s': State, q: Provider, up: bool)
    requires InflightExact(s) && s'.inflight == if up then Incr(s.inflight, q) else Decr(s.inflight, q)
    requires forall p :: HeldBy(s', p) == HeldBy(s, p) + (if p != q then 0 else if up then 1 else -1)
    ensures InflightExact(s')
  {
  }

  lemma {:induction false} InflightStep(cfg: Config, s: State, step: Step)
    requires InflightExact(s) && Ready(s, step)
    ensures InflightExact(Next(cfg, s, step))
  {
    var s' := Next(cfg, s, step);
    if Moves(step) {
      HeldAfterMove(s, s', step.id);
    }
    if step.Count? || step.Release? {
      SlotsMove(cfg, s, step);
      CountsMove(s, s', s.delegations[step.id].provider, step.Count?);
    } else {
      if Moves(step) {
        SlotUntouched(cfg, s, step);
      }
      CountsStay(s, s');
    }
  }

  lemma {:induction false} HeldAfterMove(s: State, s': State, id: TaskId)
    requires id in s'.delegations && s'.delegations == s.delegations[id := s'.delegations[id]]
    ensures forall p :: HeldBy(s', p) == HeldBy(s, p)
                                 - (if id in s.delegations && Holding(p)(s.delegations[id]) then 1 else 0)
                                 + (if Holding(p)(s'.delegations[id]) then 1 else 0)
  {
    forall p
      ensures HeldBy(s', p) == HeldBy(s, p)
                               - (if id in s.delegations && Holding(p)(s.delegations[id]) then 1 else 0)
                               + (if Holding(p)(s'.delegations[id]) then 1 else 0)
    {
      CountAfterSet(s.delegations, id, s'.delegations[id], Holding(p));
    }
  }

  lemma {:induction false} InflightCountsOutstanding(cfg: Config, steps: seq<Step>)
    requires Legal(cfg, steps)
    ensures InflightExact(StateAfter(cfg, steps))
  {
    if steps == [] {
      forall p ensures HeldBy(INITIAL, p) == 0 {
        assert Those(INITIAL.delegations, Holding(p)) == {};
      }
    } else {
      LastStep(cfg, steps);
      InflightCountsOutstanding(cfg, steps[..|steps| - 1]);
      InflightStep(cfg, StateAfter(cfg, steps[..|steps| - 1]), steps[|steps| - 1]);
    }
  }

  // The snapshot handed to the router is nil exactly when no delegation of a tracked provider is outstanding.
  lemma {:induction false} SnapshotNilIffIdle(cfg: Config, steps: seq<Step>)
    requires Legal(cfg, steps)
    ensures var s := StateAfter(cfg, steps);
            Snapshot(s.inflight) == None <==>
            forall id :: id in s.delegations && s.delegations[id].HoldsSlot() ==>
                           s.delegations[id].provider == NO_PROVIDER
  {
    var s := StateAfter(cfg, steps);
    InflightCountsOutstanding(cfg, steps);
    if Snapshot(s.inflight) == None {
      forall id | id in s.delegations && s.delegations[id].HoldsSlot()
        ensures s.delegations[id].provider == NO_PROVIDER
      {
        var p := s.delegations[id].provider;
        assert id in Those(s.delegations, Holding(p)) && p !in s.inflight;
      }
    } else {
      var p :| p in s.inflight.Keys;
      assert HeldBy(s, p) > 0;
      var id :| id in Those(s.delegations, Holding(p));
      assert s.delegations[id].HoldsSlot() && s.delegations[id].provider == p;
    }
  }

  // ---- the store and the cancellations ----

  // The stored status of a delegation whose final update is behind it is the one that update chose.
  ghost predicate RowFinal(s: State, id: TaskId)
    requires id in s.delegations
  {
    var d := s.delegations[id];
    && (d.Ended() <==> d.final.Some?)
    && (d.Ended() ==> IsTerminalStatus(d.final.value) && (d.cancelledAtFinish ==> d.final != Some(Completed)))
    && (d.Ended() && id in s.store.tasks ==> s.store.tasks[id].fields.status == d.final.value)
    && (d.seen.Some? ==> d.seen == d.final)
  }

  // The row of a delegation that is still to be finished and was never cancelled is there, and live.
  ghost predicate RowKept(s: State, id: TaskId)
    requires id in s.delegations
  {
    var d := s.delegations[id];
    d.HasRow() && d.Before(Finished) && id !in s.fired ==>
      id in s.store.tasks && Live(s.store.tasks[id].fields.status)
  }

  // Rows belong to delegations that were recorded.
  ghost predicate RowConsistent(s: State, id: TaskId) {
    && (id in s.store.tasks ==> id in s.delegations && s.delegations[id].HasRow())
    && (id in s.delegations ==> RowFinal(s, id) && RowKept(s, id))
  }

  ghost predicate RowsConsistent(s: State) {
    s.store.Valid() && forall id :: RowConsistent(s, id)
  }

  ghost predicate CancelsConsistent(s: State) {
    && (forall id :: id in s.cancels ==> id in s.delegations && !s.delegations[id].Before(Cancellable))
    && (forall id :: id in s.loads ==> id in s.delegations && !s.delegations[id].Before(Cancellable))
    && (forall id :: id in s.fired ==> id in s.delegations && !s.delegations[id].Before(Cancellable))
    && (forall id :: id in s.marks ==> id in s.fired)
  }

  // Delegations only move forward.
  lemma {:induction false} PhasesAdvance(cfg: Config, s: State, step: Step)
    requires Ready(s, step) && Moves(step)
    ensures step.id in s.delegations ==>
              s.delegations[step.id].phase.Rank() < DelegationAfter(cfg, s, step).phase.Rank()
    ensures step.Register? ==> DelegationAfter(cfg, s, step).phase == Cancellable
  {
  }

  lemma {:induction false} PastCancellableStays(cfg: Config, s: State, step: Step, id: TaskId)
    requires Ready(s, step)
    requires (id in s.delegations && !s.delegations[id].Before(Cancellable)) || (step.Register? && step.id == id)
    ensures id in Next(cfg, s, step).delegations && !Next(cfg, s, step).delegations[id].Before(Cancellable)
  {
    if Moves(step) {
      PhasesAdvance(cfg, s, step);
    }
  }

  lemma {:induction false} CancelsStep(cfg: Config, s: State, step: Step)
    requires CancelsConsistent(s) && Ready(s, step)
    ensures CancelsConsistent(Next(cfg, s, step))
  {
    var s' := Next(cfg, s, step);
    forall id | id in s'.cancels || id in s'.loads || id in s'.fired
      ensures id in s'.delegations && !s'.delegations[id].Before(Cancellable)
    {
      PastCancellableStays(cfg, s, step, id);
    }
  }

  // What a step may do to the row of a delegation other than the one it belongs to: keep it, or evict it once it is
  // terminal.
  lemma {:induction false} OtherRows(cfg: Config, s: State, step: Step, id: TaskId)
    requires s.store.Valid() && Ready(s, step)
    requires step.Housekeep? || step.id != id
    ensures id in StoreAfter(cfg, s, step).tasks ==>
              id in s.store.tasks && StoreAfter(cfg, s, step).tasks[id] == s.store.tasks[id]
    ensures id in s.store.tasks && Live(s.store.tasks[id].fields.status) ==> id in StoreAfter(cfg, s, step).tasks
  {
    if step.Record? {
      InsertionIsSafe(s.store, NewTask(step.id, s.delegations[step.id], step.createdAt), cfg.maxTasks);
    }
  }

  lemma {:induction false} OwnRowUnrecorded(cfg: Config, s: State, step: Step)
    requires step.Begin? || step.BeginHinted? || step.Decide?
    requires RowConsistent(s, step.id) && Ready(s, step)
    ensures RowConsistent(Next(cfg, s, step), step.id)
  {
  }

  // A delegation gets its row from Put, pending and live.
  lemma {:induction false} OwnRowRecorded(cfg: Config, s: State, step: Step)
    requires step.Record?
    requires RowConsistent(s, step.id) && Ready(s, step) && s.store.Valid()
    ensures RowConsistent(Next(cfg, s, step), step.id)
  {
    InsertionIsSafe(s.store, NewTask(step.id, s.delegations[step.id], step.createdAt), cfg.maxTasks);
  }

  lemma {:induction false} OwnRowRunning(cfg: Config, s: State, step: Step)
    requires step.Register? || step.Count? || step.Start? || step.Finish?
    requires RowConsistent(s, step.id) && Ready(s, step)
    ensures RowConsistent(Next(cfg, s, step), step.id)
  {
  }

  lemma {:induction false} OwnRowRead(cfg: Config, s: State, step: Step)
    requires step.Read?
    requires RowConsistent(s, step.id) && Ready(s, step)
    ensures RowConsistent(Next(cfg, s, step), step.id)
  {
  }

  lemma {:induction false} OwnRowEnded(cfg: Config, s: State, step: Step)
    requires step.Report? || step.Release? || step.Deregister?
    requires RowConsistent(s, step.id) && Ready(s, step)
    ensures RowConsistent(Next(cfg, s, step), step.id)
  {
  }

  lemma {:induction false} OwnRowCancelled(cfg: Config, s: State, step: Step)
    requires step.LoadCancel? || step.FireCancel? || (step.MarkCancel? && step.id in s.fired)
    requires RowConsistent(s, step.id) && Ready(s, step)
    ensures RowConsistent(Next(cfg, s, step), step.id)
  {
  }

  lemma {:induction false} OwnRow(cfg: Config, s: State, step: Step)
    requires RowsConsistent(s) && CancelsConsistent(s) && Ready(s, step) && !step.Housekeep?
    ensures RowConsistent(Next(cfg, s, step), step.id)
  {
    assert RowConsistent(s, step.id);
    match step
    case Begin(_, _, _, _) => OwnRowUnrecorded(cfg, s, step);
    case BeginHinted(_, _, _, _, _) => OwnRowUnrecorded(cfg, s, step);
    case Decide(_, _) => OwnRowUnrecorded(cfg, s, step);
    case Record(_, _) => OwnRowRecorded(cfg, s, step);
    case LoadCancel(_) => OwnRowCancelled(cfg, s, step);
    case FireCancel(_) => OwnRowCancelled(cfg, s, step);
    case MarkCancel(_) => OwnRowCancelled(cfg, s, step);
    case Register(_) => OwnRowRunning(cfg, s, step);
    case Count(_) => OwnRowRunning(cfg, s, step);
    case Start(_) => OwnRowRunning(cfg, s, step);
    case Finish(_, _) => OwnRowRunning(cfg, s, step);
    case Read(_) => OwnRowRead(cfg, s, step);
    case _ => OwnRowEnded(cfg, s, step);
  }

  lemma {:induction false} StoreStaysValid(cfg: Config, s: State, step: Step)
    requires s.store.Valid() && Ready(s, step)
    ensures StoreAfter(cfg, s, step).Valid()
  {
    if step.Record? {
      InsertionIsSafe(s.store, NewTask(step.id, s.delegations[step.id], step.createdAt), cfg.maxTasks);
    }
  }

  lemma {:induction false} RowsStep(cfg: Config, s: State, step: Step)
    requires RowsConsistent(s) && CancelsConsistent(s) && Ready(s, step)
    ensures RowsConsistent(Next(cfg, s, step))
  {
    var s' := Next(cfg, s, step);
    StoreStaysValid(cfg, s, step);
    assert s'.store == StoreAfter(cfg, s, step);
    if !step.Housekeep? {
      OwnRow(cfg, s, step);
    }
    forall id | step.Housekeep? || step.id != id
      ensures RowConsistent(s', id)
    {
      assert RowConsistent(s, id);
      OtherRows(cfg, s, step, id);
    }
  }

  lemma {:induction false} RunsAreConsistent(cfg: Config, steps: seq<Step>)
    requires Legal(cfg, steps)
    ensures RowsConsistent(StateAfter(cfg, steps)) && CancelsConsistent(StateAfter(cfg, steps))
  {
    if steps == [] {
    } else {
      LastStep(cfg, steps);
      RunsAreConsistent(cfg, steps[..|steps| - 1]);
      CancelsStep(cfg, StateAfter(cfg, steps[..|steps| - 1]), steps[|steps| - 1]);
      RowsStep(cfg, StateAfter(cfg, steps[..|steps| - 1]), steps[|steps| - 1]);
    }
  }

  // ---- cancellation safety ----

  // The row of a delegation that was never cancelled stays in the store, live, until its final update.
  lemma {:induction false} UncancelledRowIsNeverEvicted(cfg: Config, steps: seq<Step>, id: TaskId)
    requires Legal(cfg, steps)
    requires var s := StateAfter(cfg, steps);
             id in s.delegations && s.delegations[id].HasRow() && s.delegations[id].Before(Finished) && id !in s.fired
    ensures var s := StateAfter(cfg, steps);
            id in s.store.tasks && Live(s.store.tasks[id].fields.status)
  {
    RunsAreConsistent(cfg, steps);
    assert RowConsistent(StateAfter(cfg, steps), id);
  }

  // Once the final update is behind a delegation, a step can at most evict its row.
  lemma {:induction false} EndedRowUntouched(cfg: Config, s: State, step: Step, id: TaskId)
    requires RowsConsistent(s) && Ready(s, step)
    requires id in s.delegations && s.delegations[id].Ended()
    ensures var s' := Next(cfg, s, step);
            && id in s'.delegations && s'.delegations[id].Ended()
            && s'.delegations[id].final == s.delegations[id].final
            && s'.delegations[id].cancelledAtFinish == s.delegations[id].cancelledAtFinish
            && (id in s'.store.tasks ==> id in s.store.tasks && s'.store.tasks[id] == s.store.tasks[id])
  {
    assert RowConsistent(s, id);
    if !step.Housekeep? && step.id == id {
      OwnEndedRow(cfg, s, step);
    } else {
      OtherRows(cfg, s, step, id);
    }
  }

  lemma {:induction false} OwnEndedRow(cfg: Config, s: State, step: Step)
    requires !step.Housekeep? && RowConsistent(s, step.id) && Ready(s, step)
    requires step.id in s.delegations && s.delegations[step.id].Ended()
    ensures var s' := Next(cfg, s, step);
            && s'.delegations[step.id].Ended()
            && s'.delegations[step.id].final == s.delegations[step.id].final
            && s'.delegations[step.id].cancelledAtFinish == s.delegations[step.id].cancelledAtFinish
            && s'.store == s.store
  {
    if step.MarkCancel? {
      MarkOnEnded(cfg, s, step.id);
    }
  }

  lemma {:induction false} MarkOnEnded(cfg: Config, s: State, id: TaskId)
    requires id in s.store.tasks ==> !Live(s.store.tasks[id].fields.status)
    ensures StoreAfter(cfg, s, MarkCancel(id)) == s.store
  {
    if id in s.store.tasks {
      assert s.store.tasks[id := s.store.tasks[id]] == s.store.tasks;
    }
  }

  // What the final update wrote is what every later state shows, for as long as the row is kept.
  lemma {:induction false} FinalStatusIsFinal(cfg: Config, steps: seq<Step>, k: nat, id: TaskId)
    requires Legal(cfg, steps) && k <= |steps| && Legal(cfg, steps[..k])
    requires id in StateAfter(cfg, steps[..k]).delegations && StateAfter(cfg, steps[..k]).delegations[id].Ended()
    ensures var s, s' := StateAfter(cfg, steps[..k]), StateAfter(cfg, steps);
            && id in s'.delegations && s'.delegations[id].Ended()
            && s'.delegations[id].final == s.delegations[id].final
            && s'.delegations[id].cancelledAtFinish == s.delegations[id].cancelledAtFinish
            && (id in s'.store.tasks ==> id in s.store.tasks && s'.store.tasks[id] == s.store.tasks[id])
  {
    if k == |steps| {
      assert steps[..k] == steps;
    } else {
      var earlier := steps[..|steps| - 1];
      assert earlier[..k] == steps[..k];
      LastStep(cfg, steps);
      FinalStatusIsFinal(cfg, earlier, k, id);
      RunsAreConsistent(cfg, earlier);
      EndedRowUntouched(cfg, StateAfter(cfg, earlier), steps[|steps| - 1], id);
    }
  }

  // A delegation whose cancel fired before its final update is never shown as completed from then on.
  lemma {:induction false} CancelledNeverCompletes(cfg: Config, steps: seq<Step>, k: nat, id: TaskId)
    requires Legal(cfg, steps) && k < |steps| && Legal(cfg, steps[..k])
    requires steps[k].Finish? && steps[k].id == id && id in StateAfter(cfg, steps[..k]).fired
    ensures var s := StateAfter(cfg, steps);
            && id in s.delegations && s.delegations[id].final != Some(Completed)
            && (id in s.store.tasks ==> s.store.tasks[id].fields.status != Completed)
  {
    StepAt(cfg, steps, k);
    FinalStatusIsFinal(cfg, steps, k + 1, id);
    RunsAreConsistent(cfg, steps);
    assert RowConsistent(StateAfter(cfg, steps), id);
  }

  // A slot is released only after the final update: every release has its Finish step before it.
  lemma {:induction false} EndedHasFinishStep(cfg: Config, steps: seq<Step>, id: TaskId)
    requires Legal(cfg, steps)
    requires id in StateAfter(cfg, steps).delegations && StateAfter(cfg, steps).delegations[id].Ended()
    ensures exists k :: 0 <= k < |steps| && steps[k].Finish? && steps[k].id == id
  {
    if steps == [] {
    } else {
      var earlier, last := steps[..|steps| - 1], steps[|steps| - 1];
      LastStep(cfg, steps);
      if last.Finish? && last.id == id {
        assert steps[|steps| - 1].Finish?;
      } else {
        EndedBeforeUnlessFinish(cfg, StateAfter(cfg, earlier), last, id);
        EndedHasFinishStep(cfg, earlier, id);
        var k :| 0 <= k < |earlier| && earlier[k].Finish? && earlier[k].id == id;
        assert steps[k].Finish? && steps[k].id == id;
      }
    }
  }

  lemma {:induction false} EndedBeforeUnlessFinish(cfg: Config, s: State, step: Step, id: TaskId)
    requires Ready(s, step) && !(step.Finish? && step.id == id)
    requires id in Next(cfg, s, step).delegations && Next(cfg, s, step).delegations[id].Ended()
    ensures id in s.delegations && s.delegations[id].Ended()
  {
  }

  lemma {:induction false} ReportedHasFinishStep(cfg: Config, steps: seq<Step>, id: TaskId)
    requires Legal(cfg, steps) && At(StateAfter(cfg, steps), id, Reported)
    ensures exists k :: 0 <= k < |steps| && steps[k].Finish? && steps[k].id == id
  {
    EndedHasFinishStep(cfg, steps, id);
  }

  lemma {:induction false} ReleaseFollowsFinish(cfg: Config, steps: seq<Step>, j: nat)
    requires Legal(cfg, steps) && j < |steps| && steps[j].Release?
    ensures exists k :: 0 <= k < j && steps[k].Finish? && steps[k].id == steps[j].id
  {
    var earlier, id := steps[..j], steps[j].id;
    assert exists k :: 0 <= k < |earlier| && earlier[k].Finish? && earlier[k].id == id by {
      ReadyAt(cfg, steps, j);
      ReportedHasFinishStep(cfg, earlier, id);
    }
    var k :| 0 <= k < |earlier| && earlier[k].Finish? && earlier[k].id == id;
    assert steps[k] == earlier[k];
  }

  // ---- what a terminal status is worth before the final update ----

  // A stored terminal status changes exactly where the first update finds one, and where the final update
  // finds another than it writes.
  lemma {:induction false} TerminalStatusChangesIff(cfg: Config, s: State, step: Step, id: TaskId)
    requires s.store.Valid() && Ready(s, step)
    requires id in s.store.tasks && IsTerminalStatus(s.store.tasks[id].fields.status)
    requires step.Record? ==> step.id != id
    ensures var fields, after := s.store.tasks[id].fields, StoreAfter(cfg, s, step);
            (id in after.tasks && after.tasks[id].fields.status != fields.status) <==>
            step == Start(id)
            || (step.Finish? && step.id == id && Finalize(step.outcome, id in s.fired, fields).status != fields.status)
  {
    if step.Record? {
      OtherRows(cfg, s, step, id);
    }
  }

  function HintedDelegation(phase: Phase): Delegation {
    Delegation(phase, true, Medium, Unset, 200, None, NO_PROVIDER, None, false, None)
  }

  // The system once a delegation with a hinted, unmapped agent has begun on its own.
  function LoneBeginning(id: TaskId): State {
    State(map[id := HintedDelegation(Routed)], map[], EMPTY_STORE, {}, multiset{}, {}, multiset{}, EMPTY_TABLES)
  }

  // The same delegation from its record up to the increment.
  function LoneState(id: TaskId, phase: Phase, status: TaskStatus, cancels: set<TaskId>, fired: set<TaskId>): State {
    State(map[id := HintedDelegation(phase)], map[],
          StoreView([id], map[id := TaskView(id, NO_PROVIDER, 0, BLANK_FIELDS.(status := status))]),
          cancels, multiset{}, fired, multiset{}, EMPTY_TABLES)
  }

  lemma {:induction false} LoneBegin(cfg: Config, id: TaskId) returns (steps: seq<Step>)
    ensures Legal(cfg, steps)
    ensures StateAfter(cfg, steps) == LoneBeginning(id)
  {
    steps := [] + [BeginHinted(id, NO_PROVIDER, Medium, Unset, 0)];
    ExtendRun(cfg, [], BeginHinted(id, NO_PROVIDER, Medium, Unset, 0));
  }

  lemma {:induction false} LoneRecord(cfg: Config, begun: seq<Step>, id: TaskId) returns (steps: seq<Step>)
    requires cfg.maxTasks > 0 && Legal(cfg, begun)
    requires StateAfter(cfg, begun) == LoneBeginning(id)
    ensures Legal(cfg, steps) && StateAfter(cfg, steps) == LoneState(id, Recorded, Pending, {}, {})
  {
    var s := StateAfter(cfg, begun);
    steps := begun + [Record(id, 0)];
    ExtendRun(cfg, begun, Record(id, 0));
    FirstInsertion(NewTask(id, s.delegations[id], 0), cfg.maxTasks);
    assert s.delegations[id := HintedDelegation(Recorded)] == map[id := HintedDelegation(Recorded)];
  }

  lemma {:induction false} LoneRegister(cfg: Config, recorded: seq<Step>, id: TaskId) returns (steps: seq<Step>)
    requires Legal(cfg, recorded) && StateAfter(cfg, recorded) == LoneState(id, Recorded, Pending, {}, {})
    ensures Legal(cfg, steps) && StateAfter(cfg, steps) == LoneState(id, Cancellable, Pending, {id}, {})
  {
    steps := recorded + [Register(id)];
    ExtendRun(cfg, recorded, Register(id));
  }

  lemma {:induction false} LoneCount(cfg: Config, registered: seq<Step>, id: TaskId) returns (steps: seq<Step>)
    requires Legal(cfg, registered) && StateAfter(cfg, registered) == LoneState(id, Cancellable, Pending, {id}, {})
    ensures Legal(cfg, steps) && StateAfter(cfg, steps) == LoneState(id, Counted, Pending, {id}, {})
  {
    steps := registered + [Count(id)];
    ExtendRun(cfg, registered, Count(id));
  }

  lemma {:induction false} LoneLoad(cfg: Config, counted: seq<Step>, id: TaskId) returns (steps: seq<Step>)
    requires Legal(cfg, counted) && StateAfter(cfg, counted) == LoneState(id, Counted, Pending, {id}, {})
    ensures Legal(cfg, steps)
    ensures StateAfter(cfg, steps) == LoneState(id, Counted, Pending, {id}, {}).(loads := multiset{id})
  {
    steps := counted + [LoadCancel(id)];
    ExtendRun(cfg, counted, LoadCancel(id));
  }

  lemma {:induction false} LoneCancel(cfg: Config, loaded: seq<Step>, id: TaskId) returns (steps: seq<Step>)
    requires Legal(cfg, loaded)
    requires StateAfter(cfg, loaded) == LoneState(id, Counted, Pending, {id}, {}).(loads := multiset{id})
    ensures Legal(cfg, steps)
    ensures StateAfter(cfg, steps) == LoneState(id, Counted, Pending, {id}, {id}).(marks := multiset{id})
  {
    steps := loaded + [FireCancel(id)];
    ExtendRun(cfg, loaded, FireCancel(id));
  }

  lemma {:induction false} LoneMark(cfg: Config, fired: seq<Step>, id: TaskId) returns (steps: seq<Step>)
    requires Legal(cfg, fired)
    requires StateAfter(cfg, fired) == LoneState(id, Counted, Pending, {id}, {id}).(marks := multiset{id})
    ensures Legal(cfg, steps) && StateAfter(cfg, steps) == LoneState(id, Counted, Cancelled, {id}, {id})
  {
    steps := fired + [MarkCancel(id)];
    ExtendRun(cfg, fired, MarkCancel(id));
    var before, after := LoneState(id, Counted, Pending, {id}, {id}), LoneState(id, Counted, Cancelled, {id}, {id});
    assert before.store.tasks[id := after.store.tasks[id]] == after.store.tasks;
  }

  // Such a state is reachable: the cancellation lands between the increment and the goroutine's first update.
  lemma {:induction false} EarlyCancelIsReachable(cfg: Config, id: TaskId) returns (steps: seq<Step>)
    requires cfg.maxTasks > 0
    ensures Legal(cfg, steps) && StateAfter(cfg, steps) == LoneState(id, Counted, Cancelled, {id}, {id})
  {
    steps := LoneBegin(cfg, id);
    steps := LoneRecord(cfg, steps, id);
    steps := LoneRegister(cfg, steps, id);
    steps := LoneCount(cfg, steps, id);
    steps := LoneLoad(cfg, steps, id);
    steps := LoneCancel(cfg, steps, id);
    steps := LoneMark(cfg, steps, id);
  }

  lemma {:induction false} FirstInsertion(t: TaskView, maxTasks: nat)
    requires maxTasks > 0
    ensures Inserted(EMPTY_STORE, t, maxTasks) == StoreView([t.id], map[t.id := t])
  {
    assert EMPTY_STORE.order + [t.id] == [t.id];
    assert EMPTY_STORE.tasks[t.id := t] == map[t.id := t];
    assert Restrict(map[t.id := t], [t.id]) == map[t.id := t];
  }
}
