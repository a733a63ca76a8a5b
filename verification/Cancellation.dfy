/** What a recorded cancellation is worth: when the row of a cancelled task stays as Cancel left it. */
module Cancellation {
  import opened Wrappers
  import opened Router
  import opened Ledger
  import opened Tasks
  import opened Inflight
  import opened DelegationSteps
  import opened Protocol

  // ---- what a stored live status says about the delegation ----

  function StatusOfRow(s: State, id: TaskId): TaskStatus
    requires id in s.store.tasks
  {
    s.store.tasks[id].fields.status
  }

  // A row reads pending only before the first update, and running only between the two updates.
  ghost predicate StatusFollowsPhase(s: State, id: TaskId) {
    id in s.delegations && id in s.store.tasks ==>
      && (StatusOfRow(s, id) == Pending ==> s.delegations[id].Before(Started))
      && (StatusOfRow(s, id) == Running ==> s.delegations[id].phase == Started)
  }

  lemma {:induction false} RecordedStatus(cfg: Config, s: State, step: Step)
    requires step.Record? && Ready(s, step) && s.store.Valid()
    ensures StatusFollowsPhase(Next(cfg, s, step), step.id)
  {
    InsertionIsSafe(s.store, NewTask(step.id, s.delegations[step.id], step.createdAt), cfg.maxTasks);
  }

  lemma {:induction false} UpdatedStatus(cfg: Config, s: State, step: Step)
    requires step.Start? || step.Finish? || step.MarkCancel?
    requires Ready(s, step) && StatusFollowsPhase(s, step.id)
    ensures StatusFollowsPhase(Next(cfg, s, step), step.id)
  {
  }

  lemma {:induction false} UntouchedStatus(cfg: Config, s: State, step: Step)
    requires !step.Record? && !step.Start? && !step.Finish? && !step.MarkCancel? && !step.Housekeep?
    requires Ready(s, step) && StatusFollowsPhase(s, step.id)
    requires step.id in s.store.tasks ==> step.id in s.delegations && s.delegations[step.id].HasRow()
    ensures StatusFollowsPhase(Next(cfg, s, step), step.id)
  {
  }

  lemma {:induction false} OthersStatus(cfg: Config, s: State, step: Step, id: TaskId)
    requires s.store.Valid() && Ready(s, step) && StatusFollowsPhase(s, id)
    requires step.Housekeep? || step.id != id
    ensures StatusFollowsPhase(Next(cfg, s, step), id)
  {
    OtherRows(cfg, s, step, id);
  }

  lemma {:induction false} StatusStep(cfg: Config, s: State, step: Step, id: TaskId)
    requires RowsConsistent(s) && Ready(s, step) && StatusFollowsPhase(s, id)
    ensures StatusFollowsPhase(Next(cfg, s, step), id)
  {
    assert RowConsistent(s, id);
    if step.Housekeep? || step.id != id {
      OthersStatus(cfg, s, step, id);
    } else if step.Record? {
      RecordedStatus(cfg, s, step);
    } else if step.Start? || step.Finish? || step.MarkCancel? {
      UpdatedStatus(cfg, s, step);
    } else {
      UntouchedStatus(cfg, s, step);
    }
  }

  lemma {:induction false} StatusFollowsPhaseInRuns(cfg: Config, steps: seq<Step>, id: TaskId)
    requires Legal(cfg, steps)
    ensures StatusFollowsPhase(StateAfter(cfg, steps), id)
  {
    if steps == [] {
    } else {
      var earlier := steps[..|steps| - 1];
      LastStep(cfg, steps);
      StatusFollowsPhaseInRuns(cfg, earlier, id);
      RunsAreConsistent(cfg, earlier);
      StatusStep(cfg, StateAfter(cfg, earlier), steps[|steps| - 1], id);
    }
  }

  // ---- from the first update on a terminal status stays terminal ----

  ghost predicate Settled(s: State, id: TaskId) {
    && id in s.delegations && !s.delegations[id].Before(Started)
    && (id in s.store.tasks ==> !Live(StatusOfRow(s, id)))
  }

  lemma {:induction false} SettledOwnStep(cfg: Config, s: State, step: Step)
    requires !step.Housekeep? && Ready(s, step) && Settled(s, step.id)
    ensures Settled(Next(cfg, s, step), step.id)
  {
    if Moves(step) {
      PhasesAdvance(cfg, s, step);
    }
  }

  lemma {:induction false} SettledStep(cfg: Config, s: State, step: Step, id: TaskId)
    requires s.store.Valid() && Ready(s, step) && Settled(s, id)
    ensures Settled(Next(cfg, s, step), id)
  {
    if !step.Housekeep? && step.id == id {
      SettledOwnStep(cfg, s, step);
    } else {
      OtherRows(cfg, s, step, id);
    }
  }

  lemma {:induction false} SettledStays(cfg: Config, steps: seq<Step>, more: seq<Step>, id: TaskId)
    requires Legal(cfg, steps) && Legal(cfg, steps + more) && Settled(StateAfter(cfg, steps), id)
    ensures Settled(StateAfter(cfg, steps + more), id)
    decreases |more|
  {
    if more == [] {
      assert steps + more == steps;
    } else {
      var front, last := more[..|more| - 1], more[|more| - 1];
      assert (steps + more)[..|steps + more| - 1] == steps + front;
      LastStep(cfg, steps + more);
      SettledStays(cfg, steps, front, id);
      RunsAreConsistent(cfg, steps + front);
      SettledStep(cfg, StateAfter(cfg, steps + front), last, id);
    }
  }

  // ---- before the first update it does not ----

  // Some continuation of the run shows the task pending or running.
  ghost predicate LiveAfter(cfg: Config, steps: seq<Step>, more: seq<Step>, id: TaskId) {
    && Legal(cfg, steps + more) && id in StateAfter(cfg, steps + more).store.tasks
    && Live(StatusOfRow(StateAfter(cfg, steps + more), id))
  }

  lemma {:induction false} StartRevives(cfg: Config, steps: seq<Step>, id: TaskId)
    requires Legal(cfg, steps) && At(StateAfter(cfg, steps), id, Counted) && id in StateAfter(cfg, steps).store.tasks
    ensures LiveAfter(cfg, steps, [Start(id)], id)
  {
    ExtendRun(cfg, steps, Start(id));
  }

  lemma {:induction false} CountKeepsRow(cfg: Config, steps: seq<Step>, id: TaskId)
    requires Legal(cfg, steps) && At(StateAfter(cfg, steps), id, Cancellable)
    requires id in StateAfter(cfg, steps).store.tasks
    ensures Legal(cfg, steps + [Count(id)]) && At(StateAfter(cfg, steps + [Count(id)]), id, Counted)
    ensures id in StateAfter(cfg, steps + [Count(id)]).store.tasks
  {
    ExtendRun(cfg, steps, Count(id));
  }

  lemma {:induction false} UnstartedRevives(cfg: Config, steps: seq<Step>, id: TaskId) returns (more: seq<Step>)
    requires Legal(cfg, steps) && id in StateAfter(cfg, steps).store.tasks
    requires At(StateAfter(cfg, steps), id, Cancellable) || At(StateAfter(cfg, steps), id, Counted)
    ensures LiveAfter(cfg, steps, more, id)
  {
    if At(StateAfter(cfg, steps), id, Counted) {
      StartRevives(cfg, steps, id);
      more := [Start(id)];
    } else {
      CountKeepsRow(cfg, steps, id);
      StartRevives(cfg, steps + [Count(id)], id);
      more := [Count(id)] + [Start(id)];
      assert steps + [Count(id)] + [Start(id)] == steps + more;
    }
  }

  // ---- the exact condition ----

  // The state in which Cancel is about to record its intent on a live row.
  ghost predicate AboutToMark(cfg: Config, steps: seq<Step>, id: TaskId) {
    && Legal(cfg, steps) && id in StateAfter(cfg, steps).marks && id in StateAfter(cfg, steps).store.tasks
    && Live(StatusOfRow(StateAfter(cfg, steps), id))
  }

  lemma {:induction false} MarkKeepsPhase(cfg: Config, s: State, id: TaskId)
    requires id in s.marks && id in s.store.tasks && id in s.delegations && Live(StatusOfRow(s, id))
    ensures var t := Next(cfg, s, MarkCancel(id));
            && t.delegations == s.delegations && id in t.store.tasks && StatusOfRow(t, id) == Cancelled
  {
  }

  lemma {:induction false} MarkedRun(cfg: Config, steps: seq<Step>, id: TaskId)
    requires AboutToMark(cfg, steps, id)
    ensures var s, marked := StateAfter(cfg, steps), steps + [MarkCancel(id)];
            && Legal(cfg, marked) && id in s.delegations && s.delegations[id].HasRow()
            && !s.delegations[id].Before(Cancellable)
            && StateAfter(cfg, marked).delegations == s.delegations
            && id in StateAfter(cfg, marked).store.tasks && StatusOfRow(StateAfter(cfg, marked), id) == Cancelled
  {
    RunsAreConsistent(cfg, steps);
    assert RowConsistent(StateAfter(cfg, steps), id);
    ExtendRun(cfg, steps, MarkCancel(id));
    MarkKeepsPhase(cfg, StateAfter(cfg, steps), id);
  }

  lemma {:induction false} RunningIsSettled(cfg: Config, steps: seq<Step>, id: TaskId)
    requires AboutToMark(cfg, steps, id) && StatusOfRow(StateAfter(cfg, steps), id) == Running
    ensures Legal(cfg, steps + [MarkCancel(id)]) && Settled(StateAfter(cfg, steps + [MarkCancel(id)]), id)
  {
    MarkedRun(cfg, steps, id);
    StatusFollowsPhaseInRuns(cfg, steps, id);
  }

  lemma {:induction false} PhasesBeforeStart(d: Delegation)
    requires !d.Before(Cancellable) && d.Before(Started)
    ensures d.phase == Cancellable || d.phase == Counted
  {
  }

  lemma {:induction false} PendingIsUnstarted(cfg: Config, steps: seq<Step>, id: TaskId) returns (marked: seq<Step>)
    requires AboutToMark(cfg, steps, id) && StatusOfRow(StateAfter(cfg, steps), id) == Pending
    ensures marked == steps + [MarkCancel(id)]
    ensures Legal(cfg, marked) && id in StateAfter(cfg, marked).store.tasks
    ensures At(StateAfter(cfg, marked), id, Cancellable) || At(StateAfter(cfg, marked), id, Counted)
  {
    marked := steps + [MarkCancel(id)];
    MarkedRun(cfg, steps, id);
    StatusFollowsPhaseInRuns(cfg, steps, id);
    PhasesBeforeStart(StateAfter(cfg, steps).delegations[id]);
  }

  // A cancellation recorded on a live row lasts, whatever happens later, exactly when the row read running;
  // a task that read pending can be shown running again.
  lemma {:induction false} CancellationLastsIff(cfg: Config, steps: seq<Step>, id: TaskId)
    requires AboutToMark(cfg, steps, id)
    ensures (forall more :: !LiveAfter(cfg, steps + [MarkCancel(id)], more, id))
            <==> StatusOfRow(StateAfter(cfg, steps), id) == Running
  {
    var marked := steps + [MarkCancel(id)];
    if StatusOfRow(StateAfter(cfg, steps), id) == Running {
      RunningIsSettled(cfg, steps, id);
      forall more
        ensures !LiveAfter(cfg, marked, more, id)
      {
        if LiveAfter(cfg, marked, more, id) {
          SettledStays(cfg, marked, more, id);
        }
      }
    } else {
      var _ := PendingIsUnstarted(cfg, steps, id);
      var more := UnstartedRevives(cfg, marked, id);
    }
  }
}
