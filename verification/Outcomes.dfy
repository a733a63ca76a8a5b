/** What a stored record says once its delegation is over: how the run went, in every reachable state. */
module Outcomes {
  import opened Wrappers
  import opened Tasks
  import opened DelegationSteps
  import opened Protocol

  // Until its final update a record says nothing but its status, and it belongs to its delegation.
  ghost predicate SaysNothingYet(s: State, id: TaskId) {
    id in s.store.tasks && id in s.delegations ==>
      var t, d := s.store.tasks[id], s.delegations[id];
      && t.id == id && t.provider == d.provider
      && (d.Before(Finished) ==> t.fields.exitCode == 0 && t.fields.output == "" && t.fields.error == NoError)
  }

  lemma {:induction false} OwnRecordUpdated(cfg: Config, s: State, step: Step)
    requires step.Start? || step.Finish? || step.MarkCancel?
    requires Ready(s, step) && SaysNothingYet(s, step.id)
    ensures SaysNothingYet(Next(cfg, s, step), step.id)
  {
  }

  lemma {:induction false} ProviderStays(cfg: Config, s: State, step: Step)
    requires Ready(s, step) && Moves(step) && !step.Begin? && !step.BeginHinted? && !step.Decide?
    ensures DelegationAfter(cfg, s, step).provider == s.delegations[step.id].provider
  {
  }

  lemma {:induction false} OwnRecordUntouched(cfg: Config, s: State, step: Step)
    requires !step.Record? && !step.Decide? && !step.Begin? && !step.BeginHinted? && !step.Housekeep?
    requires !step.Start? && !step.Finish? && !step.MarkCancel?
    requires Ready(s, step) && SaysNothingYet(s, step.id)
    ensures SaysNothingYet(Next(cfg, s, step), step.id)
  {
    if Moves(step) {
      PhasesAdvance(cfg, s, step);
      ProviderStays(cfg, s, step);
    }
  }

  lemma {:induction false} OwnRecordMade(cfg: Config, s: State, step: Step)
    requires step.Record? && Ready(s, step) && s.store.Valid()
    ensures SaysNothingYet(Next(cfg, s, step), step.id)
  {
    InsertionIsSafe(s.store, NewTask(step.id, s.delegations[step.id], step.createdAt), cfg.maxTasks);
  }

  lemma {:induction false} NoRecordYet(cfg: Config, s: State, step: Step)
    requires step.Decide? || step.Begin? || step.BeginHinted?
    requires Ready(s, step) && RowConsistent(s, step.id)
    ensures SaysNothingYet(Next(cfg, s, step), step.id)
  {
  }

  lemma {:induction false} OtherRecord(cfg: Config, s: State, step: Step, id: TaskId)
    requires s.store.Valid() && Ready(s, step) && SaysNothingYet(s, id)
    requires step.Housekeep? || step.id != id
    ensures SaysNothingYet(Next(cfg, s, step), id)
  {
    OtherRows(cfg, s, step, id);
  }

  lemma {:induction false} RecordStep(cfg: Config, s: State, step: Step, id: TaskId)
    requires RowsConsistent(s) && Ready(s, step) && SaysNothingYet(s, id)
    ensures SaysNothingYet(Next(cfg, s, step), id)
  {
    assert RowConsistent(s, id);
    if step.Housekeep? || step.id != id {
      OtherRecord(cfg, s, step, id);
    } else if step.Record? {
      OwnRecordMade(cfg, s, step);
    } else if step.Decide? || step.Begin? || step.BeginHinted? {
      NoRecordYet(cfg, s, step);
    } else if step.Start? || step.Finish? || step.MarkCancel? {
      OwnRecordUpdated(cfg, s, step);
    } else {
      OwnRecordUntouched(cfg, s, step);
    }
  }

  lemma {:induction false} RecordsInRuns(cfg: Config, steps: seq<Step>, id: TaskId)
    requires Legal(cfg, steps)
    ensures SaysNothingYet(StateAfter(cfg, steps), id)
  {
    if steps == [] {
    } else {
      var earlier := steps[..|steps| - 1];
      LastStep(cfg, steps);
      RecordsInRuns(cfg, earlier, id);
      RunsAreConsistent(cfg, earlier);
      RecordStep(cfg, StateAfter(cfg, earlier), steps[|steps| - 1], id);
    }
  }

  lemma {:induction false} FinishTells(cfg: Config, s: State, id: TaskId, outcome: CliOutcome)
    requires At(s, id, Started) && SaysNothingYet(s, id)
    ensures var s' := Next(cfg, s, Finish(id, outcome));
            id in s'.store.tasks ==>
              Tells(s'.store.tasks[id].fields, TaskFields(Pending, 0, "", NoError), outcome, id in s.fired)
  {
    if id in s.store.tasks {
      FinalizeTells(outcome, id in s.fired, s.store.tasks[id].fields);
    }
  }

  // The final update that ended a delegation, and what it was taken with.
  ghost predicate FinishedAt(cfg: Config, steps: seq<Step>, k: nat, id: TaskId) {
    k < |steps| && steps[k].Finish? && steps[k].id == id && Legal(cfg, steps[..k])
  }

  lemma {:induction false} RowAfterFinish(cfg: Config, steps: seq<Step>, k: nat, id: TaskId)
    requires Legal(cfg, steps) && FinishedAt(cfg, steps, k, id)
    ensures Legal(cfg, steps[..k+1])
    ensures var s := StateAfter(cfg, steps[..k+1]);
            && id in s.delegations && s.delegations[id].Ended()
            && s.delegations[id].cancelledAtFinish == (id in StateAfter(cfg, steps[..k]).fired)
            && (id in s.store.tasks ==>
                  Tells(s.store.tasks[id].fields, TaskFields(Pending, 0, "", NoError), steps[k].outcome,
                        id in StateAfter(cfg, steps[..k]).fired))
  {
    StepAt(cfg, steps, k);
    RecordsInRuns(cfg, steps[..k], id);
    FinishTells(cfg, StateAfter(cfg, steps[..k]), id, steps[k].outcome);
  }

  // A record still stored after the final update tells, in every later state, how the run it came from went: its
  // output and exit code, whether it timed out, was cancelled before it ended, failed or completed, and why it failed.
  lemma {:induction false} RecordTellsTheOutcome(cfg: Config, steps: seq<Step>, id: TaskId) returns (k: nat)
    requires Legal(cfg, steps)
    requires var s := StateAfter(cfg, steps);
             id in s.delegations && s.delegations[id].Ended() && id in s.store.tasks
    ensures FinishedAt(cfg, steps, k, id)
    ensures StateAfter(cfg, steps).delegations[id].cancelledAtFinish == (id in StateAfter(cfg, steps[..k]).fired)
    ensures Tells(StateAfter(cfg, steps).store.tasks[id].fields, TaskFields(Pending, 0, "", NoError), steps[k].outcome,
                  id in StateAfter(cfg, steps[..k]).fired)
  {
    EndedHasFinishStep(cfg, steps, id);
    k :| 0 <= k < |steps| && steps[k].Finish? && steps[k].id == id;
    PrefixIsLegal(cfg, steps, k);
    RowAfterFinish(cfg, steps, k, id);
    FinalStatusIsFinal(cfg, steps, k + 1, id);
  }
}
