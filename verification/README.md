# Verified model of the delegator

The delegator hands prompts to command-line agents. A budget router picks the provider, an orchestrator runs the
delegation and keeps its record, a ledger charges what was used and a tracker resets the counters; around them sit a
few text algorithms. This project models that code in Dafny and proves what it promises, above all over whole runs in
which delegations, cancellations, evictions, reports and resets interleave.

`dafny verify dfyconfig.toml` checks everything.

## How it is put together

| module | what it models |
|---|---|
| `BudgetTypes` | provider and service configuration, statuses, route requests |
| `Router`, `RouterStatics` | one routing decision; how a decision responds when one input changes |
| `RouterPrices`, `RouterFilters` | the tables in numbers: what outweighs what, who may take a request, what comes with the answer |
| `Ledger` | the provider rows and usage records, one operation per transaction |
| `Calendar`, `Tracker`, `ResetRuns` | reset instants; reports, manual and automatic resets; the same interleaved statement by statement |
| `Tasks`, `TaskStore`, `PgTaskStore` | store contents as values; the in-memory store; the table-backed store |
| `Inflight`, `Orchestrator` | in-flight counts; `Delegate`, `run` and `Cancel` as methods of a class |
| `DelegationSteps`, `Protocol`, `Cancellation`, `Outcomes` | the same pieces as steps that interleave freely; what every run keeps; when a cancellation lasts; what a record tells |
| `Sequential` | the steps of one delegation, taken alone, do what the methods' contracts say |
| `Overshoot`, `Overrun` | router, protocol and ledger together: the bounds on caps and budgets |
| `OvershootWitness`, `OverrunWitness` | runs that reach those bounds, and when caps and limits hold in every run |
| `Chunker`, `Html`, `Base64`, `TaskEvents`, `AgentResponse` | the text algorithms |
| `Wrappers`, `Finite`, `Sequences`, `Ordering`, `Text` | options, sums, sequences, sorting, string operations |

Code that changes things step by step is a method over a class, a `map` or a `seq`; its contract ties it to a
specification function or predicate, and the lemmas are about that specification. The step system of
`DelegationSteps` is built from the very functions the methods of `Orchestrator`, `TaskStore` and `BudgetStore` are
proved against. `Sequential` shows that a delegation's steps, taken alone, do what `ChooseAgent`, `Delegate`, `Run` and
`Cancel` promise, and that every routing decision a step may take is one `ChooseAgent` can make; so what holds of the
steps is about that code. Each critical section, store call, load of a cancel function and call of one is a step; a
delegation moves through the phases snapshotted, routed, recorded, cancellable, counted, started, finished, read back,
reported, released and gone.

Every lemma switches automatic induction off: its body is its proof.

## Main results

* **Concurrency.** With at most n callers between load snapshot and increment, the routed delegations of a provider
  never pass its cap plus n - 1, whoever else names its agent (`CapOvershootBound`), and for every cap and every n
  some run gets there (`CapOvershootIsReached`); routed callers respect caps in every run exactly when n is at most
  one (`CapIsKeptIff`).
* **Budget.** With at most n routed requests between status read and report, each estimate at most e and each report
  at most x above its estimate, a limit is overrun by at most (n - 1)(e + x) + x and what callers that name an agent
  report (`BudgetOverrunBound`), and for every n, e from 200 on and x some run gets there (`BudgetOverrunIsReached`);
  routed callers keep limits in every run exactly when n is one and x is zero (`LimitIsKeptIff`).
* **Routing.** `Route` refines a declarative choice that has exactly one answer. A less urgent request never goes to a
  dearer provider, a deeper backlog never to one with less free capacity, and more load on one provider never makes it
  the winner nor dethrones another. `RouterPrices` gives, in numbers, the exact lead in strength that outweighs a
  price, a used budget, a preference or a load, for every complexity and priority.
* **Ledger.** Counters are sums of ledger entries since the last reset; the error count is the worst suffix of the
  day's outcomes and a provider is out exactly when some stretch of them had six more failures than successes.
* **Protocol.** In-flight counts are exact, slots are released only after the final update, the final status is final,
  a cancelled delegation is never shown as completed, and a live row is never evicted. A recorded cancellation lasts
  through every continuation exactly when the row read running (`CancellationLastsIff`). A record kept after the final
  update tells how its run went: output, exit code, status and error (`RecordTellsTheOutcome`).
* **Resets.** However checks, manual resets and reports interleave, a reset instant never moves back exactly when no
  reset goes back to a clock reading that another has overtaken by a boundary (`InstantsNeverGoBackIff`). No check
  resets twice for one boundary exactly when no later reset goes back behind a boundary that an automatic one had
  passed (`OneResetPerBoundaryIff`); resets that write in the order of their clock readings never do.
* **Eviction.** The evicting loop deletes in one go what the SQL statement deletes, and through every run of new tasks
  and updates both stores hold the same records (`StoresAgree`).
* **Text.** Chunking is lossless and its rules leave one cut; tidying equals its one-pass form; published events put
  the stream back together; the response parser undoes the printer exactly when no further detail starts with a label.

## Where code and documentation disagree

The model follows the code.

* `delegator/budget/router.go:71-77` and `:217` speak of penalising a provider below the floor. At medium complexity,
  whose floor is 0.3, halving the ratio to the floor raises the score above the raw strength, and the score is not
  monotone in strength (`FloorPenalisesIff`, `CapabilityMonotoneIff`).
* `delegator/orchestrator.go:469-470` has `Cancel` record its intent, but `run` sets the status to running
  unconditionally. A cancellation recorded on a row that reads pending can be overwritten, one recorded on a row that
  reads running cannot (`CancellationLastsIff`); `EarlyCancelIsReachable` is a run to the first case. The final status
  is never completed in either.
* A capped provider can be overshot by concurrent callers, because loads are read before they are incremented
  (`CapOvershootIsReached`).
* A limit can be overrun by concurrent callers and by reports above the estimate, although each pick fits what its row
  has left (`BudgetOverrunIsReached`).
* `delegator/budget/store.go:80-84` says successes clear transient failures. They lower the error count, but an
  unavailable provider stays out until its day is reset (`OnlyDailyResetRestores`, `OutUntilDailyReset`): six failures
  and six successes leave no errors and the provider out (`SuccessesDoNotRestore`).
* `delegator/budget/tracker.go:202-251` takes no lock, so a manual reset that crosses a running check over a boundary
  has its reset instant moved back (`InstantsCanGoBack`; with resets in the order of the clock exactly then, by
  `ClockOrderedNeverBackIff`), and one that reads the clock before a boundary and writes after the check of that
  boundary has it reset twice (`BoundaryCanResetTwice`).
* `delegator/budget/types.go:76` lets a request require a cloud provider; the local fallback does not look at it
  (`CloudRequirementIsMetIff`; `CloudRequirementCanGoUnmet` is a request answered by a local provider).

## Model

| member | source | states |
|---|---|---|
| `BudgetTypes.ProviderConfig.Validate` | delegator/budget/types.go:237-264 | accepts exactly the configurations of claude, openai, gemini or local with a known tier, a strength in [0,1] and no negative cost, limit or cap |
| `BudgetTypes.ValidateService` | delegator/budget/types.go:183-214 | accepts exactly the usable service configurations; a provider error names the first offending entry |
| `Router.FindMaxCost` | delegator/budget/router.go:110-119 | the cost normaliser is positive and the largest configured cost, or one when no cost is positive |
| `Router.SortedNames` | delegator/budget/router.go:153-161 | the names of the configured providers in increasing order, each once |
| `Router.GatherCandidates` | delegator/budget/router.go:163-266 | the candidates are exactly the admissible providers with their scores, and the blocked count is positive exactly when a cloud provider is held back by its cap alone |
| `Router.SortedCandidatesRank` | delegator/budget/router.go:268-335 | in the sorted list the first candidate beats every other admissible provider and the second all but the first |
| `Router.Route` | delegator/budget/router.go:88-361 | whatever the enumeration order, the answer is the one the declarative choice prescribes: winner, runner-up, model, warning, confidence, local fallback or error |
| `Ordering.SliceStable` | delegator/budget/router.go:268-281 | under any strict weak order the result is sorted, a permutation of the input, and keeps the order of tied elements |
| `RouterStatics.DecisionUnique` | delegator/budget/router.go:153-281 | the prescription has at most one answer, so routing is deterministic |
| `RouterStatics.PickIsBelowCap` | delegator/budget/router.go:195-212 | every pick, the local fallback included, is available and below its cap in the loads it was given |
| `RouterStatics.PickIsWithinBudget` | delegator/budget/router.go:183-193 | every pick other than local leaves room for the estimate in each limited dimension |
| `RouterStatics.CloudRequirementIsMetIff` | delegator/budget/router.go:305-315 | a request that requires a cloud provider gets one exactly when some provider passes the filters or local is itself a cloud provider |
| `RouterStatics.CloudRequirementCanGoUnmet` | delegator/budget/router.go:305-315 | a request that requires a cloud provider is answered by a local one |
| `RouterStatics.LessUrgentNeverCostsMore` | delegator/budget/router.go:61-69 | with all else equal a request that is less urgent, immediate before all others and background after them, is routed just as often and never to a dearer provider |
| `RouterStatics.EmphasisGrowsWithBacklog` | delegator/budget/router.go:379-391 | a deeper backlog never lowers the penalty weight |
| `RouterStatics.DeeperBacklogSeeksFreeCapacity` | delegator/budget/router.go:136-141 | with all else equal a deeper backlog never selects a provider with a smaller share of free capacity |
| `RouterStatics.LoadOnlyHurts` | delegator/budget/router.go:393-413 | more load never raises the share of free capacity |
| `RouterStatics.FreeShareEndpoints` | delegator/budget/router.go:393-413 | the share is zero exactly at or over the cap and one exactly when uncapped or idle |
| `RouterStatics.OnlyTheLoadedProviderIsAffected` | delegator/budget/router.go:195-252 | raising one load changes no other provider's filters or score, and cannot help its own |
| `RouterStatics.LoadIsIndependent` | delegator/budget/router.go:195-322 | raising a provider's load never makes it the winner, and another winner stays the winner, through filter, score and fallback |
| `RouterStatics.FloorPenalisesIff` | delegator/budget/router.go:214-218 | below the floor the score is a penalty exactly when the floor exceeds one half; at medium it is a bonus |
| `RouterStatics.CapabilityMonotoneIff` | delegator/budget/router.go:71-77 | the capability score is monotone in strength at every complexity but medium |
| `RouterPrices.StrengthAgainstCost` | delegator/budget/router.go:54-69 | of two idle providers the dearer wins exactly when its lead in strength, at the rate of the complexity, makes up for what it costs more, counted at three tenths for immediate and one and a half for background requests |
| `RouterPrices.UrgencyDecides` | delegator/budget/router.go:65-69 | at high complexity the same two providers get an immediate request to the dear and a background one to the cheap of them |
| `RouterPrices.StrengthAgainstHeadroom` | delegator/budget/router.go:220-234 | the fuller of a provider's two budgets counts against its lead in strength, at the rate of the complexity |
| `RouterPrices.StrengthAgainstPreference` | delegator/budget/router.go:251-254 | a preferred provider loses exactly to a lead worth a tenth of a point |
| `RouterPrices.StrengthAgainstLoad` | delegator/budget/router.go:367-413 | the busy share of a capped provider counts against its lead, from a twentieth without a backlog to a half from twenty queued requests on |
| `RouterFilters.LoneIsPickedIff` | delegator/budget/router.go:163-212 | the only provider gets a request exactly when it is available, of an accepted tier, has room in each limited budget unless it is unlimited or not in the cloud, and has a free slot; the error says whether only the slot was missing |
| `RouterFilters.LoneLocalIsPickedIff` | delegator/budget/router.go:283-315 | local needs only a row that says available and a free slot, and as a fallback has a confidence of 0.3 |
| `RouterFilters.LocalStandsIn` | delegator/budget/router.go:283-315 | when nobody passes the filters an answer is local with a confidence of 0.3, and its warning says whether some cloud provider lacked only a slot |
| `RouterFilters.WarningOfPick` | delegator/budget/router.go:336-361 | the warning of a pick: more than four fifths of the day's budget, else of the week's, else four fifths of the slots, else none |
| `RouterFilters.ModelOfPick` | delegator/budget/router.go:256 | the model is the one configured for the complexity, else the default one |
| `RouterFilters.ConfidenceInNumbers` | delegator/budget/router.go:54-77 | an idle, free provider alone is picked with a confidence of its whole score, given in numbers for every complexity, priority and strength, below the floor too |
| `Ledger.BudgetStore.Init` | delegator/budget/store.go:59-78 | an upsert: a new row is fresh, an existing one keeps its counters and reset instants |
| `Ledger.BudgetStore.Record` | delegator/budget/store.go:80-165 | one transaction: ledger entry, creation of a row without limits whose resets are due at once, counters, error count and the availability threshold |
| `Ledger.BudgetStore.ResetDay` | delegator/budget/store.go:205-222 | clears the day of one existing row and nothing else |
| `Ledger.BudgetStore.ResetWeek` | delegator/budget/store.go:224-239 | clears the week of one existing row and nothing else |
| `Ledger.BudgetStore.AllStatuses` | delegator/budget/store.go:179-203 | one status per row, each read from its row, in the order of the names under the database's collation |
| `Ledger.Remaining` | delegator/budget/store.go:344-357 | what remains is never negative and, up to the limit, adds up with what is used |
| `Ledger.StatusShowsRow` | delegator/budget/store.go:328-359 | a status shows the counters, limits and reset instants of its row, what is left of each limit and which share of it is used |
| `Ledger.CountersMatchLedger` | delegator/budget/store.go:85-239 | over any interleaving a counter equals the tokens of the provider's entries appended since its last reset of that kind |
| `Ledger.ProvidersCoverLedger` | delegator/budget/store.go:85-165 | the per-provider sums add up to the whole ledger and no provider without a row has entries |
| `Ledger.WorstSuffixStep` | delegator/budget/store.go:121-147 | the clamped error count follows the maximum over suffixes of failures minus successes |
| `Ledger.AvailabilityIsAWindowProperty` | delegator/budget/store.go:121-162 | the error count is the worst suffix of the outcomes since the last daily reset, and the provider is unavailable exactly when some contiguous block has at least six more failures than successes |
| `Ledger.OnlyDailyResetRestores` | delegator/budget/store.go:85-239 | of all operations exactly the daily reset makes an unavailable provider available |
| `Ledger.OutUntilDailyReset` | delegator/budget/store.go:205-222 | an unavailable provider stays so through every run without a daily reset of it |
| `Ledger.SuccessesDoNotRestore` | delegator/budget/store.go:130-162 | after six failures and six successes the error count is zero and the provider still unavailable |
| `Calendar.NextDailyIsLeast` | delegator/budget/tracker.go:253-277 | the next daily reset is the least later instant a whole number of days of 86,400 seconds from the reset hour, at most a day ahead |
| `Calendar.NextWeeklyIsLeast` | delegator/budget/tracker.go:279-299 | the next weekly reset is the least later instant a whole number of weeks from the reset hour of the reset day counted from Sunday, 4 January 1970, at most a week ahead |
| `Calendar.NextResetsAreMonotone` | delegator/budget/tracker.go:253-299 | a later clock never gives an earlier reset |
| `Tracker.Report` | delegator/budget/tracker.go:74-144 | records exactly one usage with the tokens and outcome reported, no outcome counting as success, for configured providers only, and returns what is left and a warning exactly when more than four fifths of a limit are used |
| `Tracker.ResetProvider` | delegator/budget/tracker.go:174-185 | resets both dimensions of a configured provider to its next boundaries and refuses others |
| `Tracker.CheckResets` | delegator/budget/tracker.go:223-251 | run without interruption: every row is reset on exactly the dimensions that are overdue, and the ledger is untouched |
| `Tracker.CheckIsIdempotent` | delegator/budget/tracker.go:223-251 | a second check at the same instant changes nothing |
| `ResetRuns.TablesAreAfterOps` | delegator/budget/tracker.go:174-251 | an interleaved run leaves the tables the ledger has after the same statements, so what holds of the ledger holds however checks are interrupted |
| `ResetRuns.UninterruptedCheck` | delegator/budget/tracker.go:223-251 | the writes of a check that nothing interrupts do together what `CheckResets` promises |
| `ResetRuns.InstantsNeverGoBackIff` | delegator/budget/tracker.go:174-251 | a reset instant never moves back exactly when no reset follows another whose clock reading had passed a boundary its own had not |
| `ResetRuns.ClockOrderedNeverBackIff` | delegator/budget/tracker.go:174-251 | with resets that write in the order of their clock readings it never moves back exactly when no manual reset crosses a running check over a boundary |
| `ResetRuns.InstantsCanGoBack` | delegator/budget/tracker.go:223-251 | in every zone a legal run moves an instant back |
| `ResetRuns.BoundaryUnlessUndone` | delegator/budget/tracker.go:232-249 | in every interleaving a boundary lies between the readings of two automatic resets, unless a reset in between went back behind a boundary the first had passed |
| `ResetRuns.ResetsTwiceIff` | delegator/budget/tracker.go:232-249 | a check may reset again without a boundary in between exactly when the instant in the row lies before the one the automatic reset had set |
| `ResetRuns.OneResetPerBoundaryIff` | delegator/budget/tracker.go:174-251 | no check, whenever it comes, resets twice for one boundary exactly when no reset of the run undoes an automatic one |
| `ResetRuns.BoundaryCanResetTwice` | delegator/budget/tracker.go:174-185 | in every zone a legal run, with a manual reset that writes late, resets twice for one boundary |
| `ResetRuns.OneResetPerBoundary` | delegator/budget/tracker.go:232-249 | with resets in the order of the clock a boundary lies between the readings of two automatic resets of a provider in one dimension |
| `Tasks.Finalize` | delegator/orchestrator.go:257-286 | the final update is terminal, and completed exactly for a clean exit of a run neither timed out nor cancelled |
| `Tasks.FinalizeTells` | delegator/orchestrator.go:257-286 | the final update takes over output and exit code of a run; it says timed out, else cancelled, else failed or completed by the exit code, with the error that belongs to that, and failed with its message for an error of the CLI |
| `Tasks.SurvivesIff` | delegator/store.go:99-126 | an entry survives eviction exactly when it is live or enough evictable entries come before it |
| `Tasks.SurvivorsKeepOrder` | delegator/store.go:99-126 | survivors keep their order, and the number dropped is the smaller of excess and evictable entries |
| `Tasks.EvictionIsSafe` | delegator/store.go:99-126 | eviction keeps order and keys in step, loses no live task, changes no record and reaches the cap unless only live tasks remain |
| `Tasks.InsertionIsSafe` | delegator/store.go:32-45 | inserting keeps the store consistent, loses no live task and changes no other record |
| `TaskStore.Task.Apply` | delegator/store.go:59-71 | the closure is applied to the stored object's mutable fields |
| `TaskStore.TaskStore.constructor` | delegator/store.go:19-30 | a new store is empty and takes a cap of 1000 for a cap that is not positive |
| `TaskStore.TaskStore.FirstEvictable` | delegator/store.go:104-115 | finds the first entry whose task is terminal or gone, or says there is none |
| `TaskStore.TaskStore.EvictIfFull` | delegator/store.go:99-126 | the loop that drops one entry at a time terminates and leaves what one deletion of the excess leaves |
| `TaskStore.EvictStep` | delegator/store.go:102-126 | taking out the first evictable entry does not change what eviction leaves in the end |
| `TaskStore.TaskStore.Put` | delegator/store.go:32-45 | a known id is replaced in place, a new one appended and the excess evicted; the record put is the shared object |
| `TaskStore.TaskStore.Get` | delegator/store.go:47-57 | a copy of the record, or nothing for an unknown id |
| `TaskStore.TaskStore.Update` | delegator/store.go:59-71 | changes the fields of exactly the record with the id, or reports that it is gone |
| `PgTaskStore.SelectOldest` | delegator/postgres_store.go:245-252 | selects exactly the oldest terminal rows up to the limit |
| `PgTaskStore.PgTaskStore.EvictIfFull` | delegator/postgres_store.go:231-255 | deletes the oldest terminal rows beyond the cap and no others |
| `PgTaskStore.PgTaskStore.Put` | delegator/postgres_store.go:81-116 | an upsert that keeps the identity columns of an existing row, then evicts |
| `PgTaskStore.PgTaskStore.Update` | delegator/postgres_store.go:134-181 | changes the mutable columns of exactly the row with the id, or reports that there is none |
| `PgTaskStore.OldestAreDropped` | delegator/postgres_store.go:235-255 | when creation instants follow insertion order, the one-shot deletion picks exactly what the evicting loop drops |
| `PgTaskStore.StoresAgree` | delegator/store.go:32-126 | through every run of puts of new tasks in order of creation and updates, both stores hold the same records after every change, whatever ties the database breaks |
| `PgTaskStore.PutAgainAgreesIff` | delegator/postgres_store.go:81-116 | putting a known id again, which evicts in the table only, leaves the stores equal exactly when there is nothing to evict and the identity is unchanged |
| `Inflight.EstimatedPromptTokens` | delegator/orchestrator.go:585-594 | a quarter of the prompt's length with a floor of 200 |
| `Orchestrator.Orchestrator.IncrInflight` | delegator/orchestrator.go:478-491 | counts one more, never for the empty provider |
| `Orchestrator.Orchestrator.DecrInflight` | delegator/orchestrator.go:493-506 | counts one less and removes the key at zero |
| `Orchestrator.IncrDecrCancel` | delegator/orchestrator.go:478-506 | an increment and a decrement leave the counts as they were |
| `Orchestrator.Orchestrator.InflightSnapshot` | delegator/orchestrator.go:508-522 | a copy of the counts, or nil when nothing is outstanding |
| `Orchestrator.Orchestrator.ProviderOf` | delegator/orchestrator.go:540-548 | some provider mapped to the agent, and the empty one exactly when there is none |
| `Orchestrator.Orchestrator.ChooseAgent` | delegator/orchestrator.go:532-583 | a hint wins if it has a CLI spec, with a provider mapped to it if there is one; otherwise the outcome stands for an answer of the router on the live counts: its error, its provider without an agent, its agent without a spec, or both |
| `Orchestrator.OutcomeUnique` | delegator/orchestrator.go:532-583 | request, statuses and counts leave exactly one outcome on the routed path |
| `Orchestrator.Orchestrator.Admit` | delegator/orchestrator.go:144-166 | the new pending task is stored, cancellable and counted |
| `Orchestrator.Orchestrator.Delegate` | delegator/orchestrator.go:112-171 | a failed call changes nothing; a successful one stores, registers and counts exactly the returned task; it succeeds or fails as choosing the agent does, with the same agent, provider and error |
| `Orchestrator.Orchestrator.Run` | delegator/orchestrator.go:228-290 | the task reads running while the CLI runs; then its record tells how the run went, what was used is charged to the task read back, the slot is released and the cancel function deregistered |
| `Orchestrator.Orchestrator.ReportUsage` | delegator/orchestrator.go:327-361 | one usage record for the measured tokens, or else a quarter of prompt and output, exactly when the task is still stored, something was used and the provider is configured |
| `Orchestrator.Orchestrator.Cancel` | delegator/orchestrator.go:456-476 | delivered exactly when registered; fires the context and marks a live record cancelled |
| `Protocol.InflightCountsOutstanding` | delegator/orchestrator.go:478-506 | in every reachable state the map holds exactly the positive counts of delegations between increment and release, and never the empty provider |
| `Protocol.SnapshotNilIffIdle` | delegator/orchestrator.go:508-522 | the snapshot is nil exactly when no delegation of a real provider is outstanding |
| `Protocol.RunsAreConsistent` | delegator/orchestrator.go:228-290 | in every reachable state the store is consistent, rows agree with what their delegations wrote, and cancel functions belong to registered delegations |
| `Protocol.UncancelledRowIsNeverEvicted` | delegator/store.go:99-126 | the row of an uncancelled delegation is in the store and live until its final update |
| `Protocol.FinalStatusIsFinal` | delegator/orchestrator.go:257-286 | after the final update no later step changes the status; the row can only be evicted |
| `Protocol.CancelledNeverCompletes` | delegator/orchestrator.go:254-286 | a delegation cancelled before its final update is never shown as completed |
| `Outcomes.RecordsInRuns` | delegator/orchestrator.go:144-166 | in every reachable state a record carries its delegation's id and provider, and before the final update no output, exit code or error |
| `Outcomes.RecordTellsTheOutcome` | delegator/orchestrator.go:254-286 | in every reachable state a record kept after the final update tells how that run went: its output and exit code, timed out, cancelled before it ended, failed or completed, and the error that belongs to it |
| `Protocol.EndedHasFinishStep` | delegator/orchestrator.go:254-290 | a delegation past its final update has taken that step |
| `Protocol.ReleaseFollowsFinish` | delegator/orchestrator.go:231-286 | every release of a slot comes after the delegation's final update |
| `Protocol.TerminalStatusChangesIff` | delegator/orchestrator.go:235-286 | a stored terminal status changes exactly in the task's own first update and where its final update finds another than it writes |
| `Protocol.EarlyCancelIsReachable` | delegator/orchestrator.go:161-168 | such a cancellation can happen, between the increment and the goroutine's first update |
| `Cancellation.StatusFollowsPhaseInRuns` | delegator/orchestrator.go:235-286 | in every run a stored pending means the first update is still to come, a stored running that it is past and the final one is not |
| `Cancellation.SettledStays` | delegator/orchestrator.go:235-286 | a terminal status stored from the first update on stays terminal through every continuation |
| `Cancellation.CancellationLastsIff` | delegator/orchestrator.go:456-476 | a cancellation recorded on a live row keeps it from ever being live again exactly when the row read running |
| `Sequential.EveryDecisionIsAChoice` | delegator/orchestrator.go:550-583 | every routing decision a step may take is one that choosing an agent can make, and the delegation goes on exactly when the choice succeeds |
| `Sequential.StatusesAreSeen` | delegator/budget/store.go:179-203 | the list of all statuses, in whatever order, gives the router the statuses of the rows |
| `Sequential.ChooseIsTwoSteps` | delegator/orchestrator.go:532-583 | whatever choosing an agent can come to without a hint, snapshot and decision come to it and change nothing shared |
| `Sequential.DelegateIsFiveSteps` | delegator/orchestrator.go:112-171 | for every choice, five steps taken without interference do what `Delegate` promises |
| `Sequential.HintIsOneStep` | delegator/orchestrator.go:536-548 | a hinted choice takes one step, with no snapshot and no decision |
| `Sequential.HintedDelegateIsFourSteps` | delegator/orchestrator.go:112-171 | for every hinted provider, four steps taken without interference do what `Delegate` promises |
| `Sequential.AdmitIsThreeSteps` | delegator/orchestrator.go:144-166 | the steps from routing to the increment, taken without interference, do what `Admit` promises |
| `Sequential.RunIsSixSteps` | delegator/orchestrator.go:228-290 | the steps from the first update to the deregistration, taken without interference, do what `Run` promises, the usage report included |
| `Sequential.CancelIsThreeSteps` | delegator/orchestrator.go:456-476 | loading the cancel function, calling it and recording the intent together do what `Cancel` promises |
| `Sequential.HousekeepIsOneStep` | delegator/budget/tracker.go:174-251 | what the tracker does to the ledger, an initialisation or a reset of either kind, is one step that touches nothing else |
| `Overshoot.CapOvershootBound` | delegator/orchestrator.go:552-570 | with at most n callers between snapshot and increment, a provider's routed delegations plus the callers still to count that saw room never exceed the cap plus n - 1, hinted callers or not |
| `Overshoot.InflightOvershootBound` | delegator/orchestrator.go:115-171 | the count itself never exceeds the cap plus n - 1 and the delegations of callers that named the provider's agent |
| `Overshoot.NoHintsAllRouted` | delegator/orchestrator.go:536-548 | without such callers every delegation of the provider that holds a slot was routed |
| `OvershootWitness.CapOvershootIsReached` | delegator/orchestrator.go:562-570 | for every cap and every n some run within the assumptions and without hinted callers reaches cap plus n - 1 |
| `OvershootWitness.CapIsKeptIff` | delegator/budget/router.go:195-212 | routed callers respect caps in every run with at most n callers between snapshot and increment exactly when n is at most one |
| `Overrun.PickFitsRow` | delegator/budget/router.go:183-193 | a pick of a limited provider fits into what its row has left |
| `Overrun.PromisesAfterStep` | delegator/orchestrator.go:327-361 | the promised total grows by a pick's estimate and excess, falls by them at the report and moves at no other step |
| `Overrun.BudgetStep` | delegator/budget/store.go:121-146 | every step keeps used plus promised tokens within the bound |
| `Overrun.BudgetOverrunBound` | delegator/budget/router.go:183-193 | with at most n routed requests between status read and report, each estimate at most e and each report at most x above its own, a daily or weekly limit is overrun by at most (n - 1)(e + x) + x and the tokens charged to callers that named an agent of the provider |
| `Overrun.SingleCallerOverrun` | delegator/budget/router.go:183-193 | one routed request at a time overruns a limit by at most its excess and those tokens |
| `OverrunWitness.BudgetOverrunIsReached` | delegator/orchestrator.go:550-570 | for every n, every e of at least 200 and every x some run within the assumptions and without hinted charges reaches the bound in both dimensions |
| `OverrunWitness.LimitIsKeptIff` | delegator/budget/router.go:183-193 | limits, plus the tokens charged to hinted callers, hold in every such run exactly when n is one and x is zero |
| `Chunker.ChunkOpts.WithDefaults` | delegator/contextmode/chunker.go:18-29 | the options in force: 256 and 2048 for sizes that are not given, twice the minimum for a maximum below it, and a positive minimum no larger than the maximum |
| `Chunker.TakeLine` | delegator/contextmode/chunker.go:61-70 | one turn of the loop keeps the state a correct cut of the lines read |
| `Chunker.SplitSections` | delegator/contextmode/chunker.go:50-71 | pass 1 cuts the lines into sections that end only where they are full or before a strong heading |
| `Chunker.MergeUndersized` | delegator/contextmode/chunker.go:73-81 | pass 2 groups the sections so that only the last group may be undersized |
| `Chunker.MeasureLines` | delegator/contextmode/chunker.go:109-115 | the joined length counts every line and its newline |
| `Chunker.HeadingOf` | delegator/contextmode/chunker.go:117-129 | the first non-blank line, trimmed and capped |
| `Chunker.HeadingComesFromALine` | delegator/contextmode/chunker.go:117-129 | the heading of lines with text is the first of them that has some, trimmed and cut off at the limit |
| `Chunker.ChunkText` | delegator/contextmode/chunker.go:43-95 | the chunks are the rendered groups of a cut that keeps the rules; empty input gives none |
| `Chunker.ChunkingIsLossless` | delegator/contextmode/chunker.go:48-94 | sections and groups concatenate to the lines, and the group texts joined with newlines are the input |
| `Chunker.OnlyBlankGroupsAreDropped` | delegator/contextmode/chunker.go:83-93 | a group's text is in the output exactly when it is not all whitespace |
| `Chunker.SectionBound` | delegator/contextmode/chunker.go:61-70 | a section is shorter than the maximum plus one line |
| `Chunker.GroupBounds` | delegator/contextmode/chunker.go:73-81 | every group but the last reaches the minimum and none exceeds minimum, maximum and longest line together |
| `Chunker.HeadingsAreEarly` | delegator/contextmode/chunker.go:61-81 | before a line that starts with "## ", "### " or "==> " a group has fewer than the minimum characters |
| `Chunker.SectionsBeginAtHeadings` | delegator/contextmode/chunker.go:61-107 | a section begins after a full one or with a line that starts with "## ", "### " or "==> ", and holds no other such line |
| `Chunker.ChunkHeading` | delegator/contextmode/chunker.go:83-129 | the heading of a chunk is the first line with text of its group, trimmed and cut off after 120 characters |
| `Chunker.SectioningUnique` | delegator/contextmode/chunker.go:50-71 | the section rules leave exactly one cut |
| `Chunker.GroupingUnique` | delegator/contextmode/chunker.go:73-81 | the grouping rules leave exactly one grouping |
| `Chunker.CutUnique` | delegator/contextmode/chunker.go:43-81 | any two cuts that keep the rules are the same |
| `Html.Tidy` | delegator/contextmode/html.go:212-219 | the loop terminates and gives the trimmed one-pass squeeze of newlines |
| `Html.ReplacingShortens` | delegator/contextmode/html.go:215-217 | a round of replacement shortens the text whenever a triple newline is left |
| `Html.ReplacingKeepsSqueeze` | delegator/contextmode/html.go:215-217 | no round of replacement changes the one-pass result |
| `Html.SqueezeByRuns` | delegator/contextmode/html.go:212-219 | each maximal run of n newlines becomes min(n, 2) and every other character stays |
| `Html.SqueezeLeavesNoTriple` | delegator/contextmode/html.go:212-219 | no triple newline is left |
| `Html.TidyIsIdempotent` | delegator/contextmode/html.go:212-219 | tidying twice is tidying once |
| `Text.TrimSpaceIsTheCore` | delegator/contextmode/html.go:218 | trimming takes off exactly the blanks, tabs, line and form feeds, vertical tabs and carriage returns at both ends |
| `Html.CollapseWS` | delegator/contextmode/html.go:190-210 | the byte loop computes the collapsed text |
| `Html.CollapseIsIdempotent` | delegator/contextmode/html.go:190-210 | collapsing twice is collapsing once |
| `Html.CollapsedIsClean` | delegator/contextmode/html.go:190-210 | no tab, line feed or carriage return is left, no space is doubled and none leads |
| `Html.CollapseSpacesWords` | delegator/contextmode/html.go:190-210 | the result is the words, between blanks, tabs, line feeds and carriage returns, with one space between them, and one after them if whitespace ended the text |
| `Base64.RoundTrip` | delegator/task_events.go:97 | decoding an encoded piece restores it |
| `Base64.RfcVectors` | delegator/task_events.go:97 | the encoding is the one of RFC 4648: the vectors of its section 10 |
| `Base64.EncodedLength` | delegator/task_events.go:22-27 | an encoding is four characters for every three bytes begun |
| `Base64.EncodedIsPlain` | delegator/task_events.go:81-87 | an encoding holds only alphabet characters and padding |
| `TaskEvents.SplitBytes` | delegator/task_events.go:113-128 | the pieces concatenate to the chunk; all but a shorter last one have the limit's length; no limit or a short chunk gives one piece |
| `TaskEvents.PieceCount` | delegator/task_events.go:113-128 | the number of pieces is the length divided by the limit, rounded up |
| `TaskEvents.SplitUnique` | delegator/task_events.go:113-128 | the rules leave exactly one split |
| `TaskEvents.PayloadFitsIff` | delegator/task_events.go:22-27 | a payload stays under 8000 bytes exactly for pieces up to 5976 bytes, hence for every piece published |
| `TaskEvents.ReceivePayload` | delegator/task_events.go:81-101 | a subscriber to the stream reads the piece back, a subscriber to the other one ignores it |
| `TaskEvents.SanitizeChannel` | delegator/task_events.go:65-79 | every rune becomes one character at its place: a lower-case letter or digit itself, an upper-case letter its lower case, anything else an underscore |
| `TaskEvents.ChannelsAreDistinct` | delegator/task_events.go:56-63 | tasks with generated ids never share a channel |
| `TaskEvents.PgTaskEvents.Publish` | delegator/task_events.go:89-111 | notifies exactly the pieces whose attempt succeeds, in order; nothing without a pool or for an empty chunk |
| `TaskEvents.NoteText` | delegator/task_events.go:56-105 | a piece goes to the channel delegator_task_ and the sanitized id, as a JSON object with the stream's name and the base64 text |
| `TaskEvents.HeardOfNotes` | delegator/task_events.go:34-41 | a publication adds to what a subscriber hears exactly the pieces that got through |
| `TaskEvents.SubscriberHearsTheStream` | delegator/task_events.go:34-41 | however tasks and streams interleave, a subscriber puts together exactly what its task wrote to its stream |
| `AgentResponse.Clamped` | delegator/llm/client.go:720-734 | a confidence that parses is moved to the nearest end of [0,1] |
| `AgentResponse.StartsWithRecognizedHeader` | delegator/llm/client.go:663-675 | true exactly when the line starts with "VERDICT:", "CONFIDENCE:", "SEVERITY:", "RATIONALE:" or "DETAILS:" in any letter case |
| `AgentResponse.RegionGrows` | delegator/llm/client.go:694-759 | a DETAILS region goes on exactly through unlabelled, non-blank lines |
| `Text.UpperLetters` | delegator/llm/client.go:704 | upper-casing moves the letters from a to z and nothing else |
| `AgentResponse.TakeLabelled` | delegator/llm/client.go:704-752 | a labelled line replaces its field if it says something legal, or opens a region |
| `AgentResponse.TakeLine` | delegator/llm/client.go:695-761 | one turn of the loop turns the reading of the lines so far into the reading with the next line |
| `AgentResponse.BlankResponseIff` | delegator/llm/client.go:689-692 | the empty-response branch is taken exactly for all-whitespace responses |
| `AgentResponse.ParseAgentResponse` | delegator/llm/client.go:677-768 | the loop computes the declarative reading: the last word on each field, and exactly the non-empty texts of the lines in DETAILS regions |
| `AgentResponse.LastIff` | delegator/llm/client.go:704-746 | a field holds a value exactly when the last line with an answer gives it, or none does and it is the default |
| `AgentResponse.LastVerdictDecides` | delegator/llm/client.go:706-716 | the last line that starts with "VERDICT:" decides the verdict if it names one, "PASS" before "WARNING" before "FAIL" |
| `AgentResponse.LastConfidenceDecides` | delegator/llm/client.go:717-734 | the last line that starts with "CONFIDENCE:" and a number decides the confidence, moved into [0,1] |
| `AgentResponse.LastSeverityDecides` | delegator/llm/client.go:735-743 | the last line that starts with "SEVERITY:" decides the severity if it says "LOW", "MEDIUM", "HIGH" or "CRITICAL" |
| `AgentResponse.LastRationaleDecides` | delegator/llm/client.go:744-746 | the last line that starts with "RATIONALE:" is the rationale, or the default one if it says nothing |
| `AgentResponse.LastDetailsAreKept` | delegator/llm/client.go:747-752 | the text after the last "DETAILS:" is among the details |
| `AgentResponse.UntaggedSaysNothing` | delegator/llm/client.go:680-765 | a response without labels gives "FAIL", 0.5, "MEDIUM", the upper-case agent as category, no details and the default rationale, or the one for an empty response |
| `AgentResponse.ResultIsLegal` | delegator/llm/client.go:677-768 | for every response the verdict is "PASS", "WARNING" or "FAIL", the severity "LOW", "MEDIUM", "HIGH" or "CRITICAL", the confidence is in [0,1] and there is a rationale |
| `AgentResponse.PrintParseIff` | delegator/llm/client.go:585-595 | parsing undoes printing in the prompt's layout, its five labels spelled out, exactly when no detail after the first starts with a header |

## Left out

* Floating-point rounding: scores, percentages and confidences are reals; `NaN` and infinities appear only as results of
  parsing a confidence.
* Machine integers: counters and lengths are unbounded.
* Failures of the ledger's and the task store's database calls, except a failing status read in `Route`; timeouts,
  logging, gauges, and the wording of reasons and warnings (warnings are kept as kinds).
* The durable workflow path and other processes: the in-flight counts are those of one process.
* Skills enrichment, the token reader and the subprocess: the outcome of a run, its output size and the measured tokens
  are inputs.
* Record fields other than identity, agent, provider, creation instant, status, exit code, output and error.
* Orphan sweeping, `List`, history queries and pruning, the HTTP and MCP layers, HTML parsing itself.
* Zones with daylight saving: reset times are proved for a fixed offset.
* Strings are sequences of bytes; trimming and letter case cover ASCII.
- Tracker.CheckResets: one uninterrupted check with succeeding store calls; `ResetRuns` interleaves its statements, but
  takes the clock reading of a check and its status read as one event.
- TaskEvents.SanitizeChannel: here, unlike elsewhere, a string is a sequence of runes, as the source ranges over it.
- DelegationSteps.DelegationAfter: task ids are assumed never to be reused, as generated ids are.
- PgTaskStore.StoresAgree: assumes creation instants that strictly increase; among equal ones the database may evict
  another row than the memory store.
- Overrun.BudgetOverrunBound: assumes that the tracker writes the configured limits into the row; what hinted callers
  report is counted over the whole run, whether or not a reset has cleared it.
- TaskEvents.PgTaskEvents.Publish: the stream is one of the two names the orchestrator passes, so the JSON envelope
  needs no escaping.
- AgentResponse.PrintParseIff: number parsing is a parameter; the printed confidence is any text that parses back.
