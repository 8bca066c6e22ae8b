# Verified model of the payment-recovery agent

A Dafny model of how failed payments are recovered without doing anything twice, and the proofs that it
does so. Everything is deterministic once the model's answers, the payment provider and the clock are
given; those are parameters throughout, so the theorems quantify over all of them.

**Guarded execution** (`GuardModel`, `GuardStores`, `Executor`, `GuardRuns`, `Parity`, `Isolation`, `RunViews`,
`Replay`, `GuardSafety`, `Verdicts`, `GuardApproval`, `GuardCrash`, `Backing`, `Origins`). `GuardModel` holds the abstract store and the guard chain,
written as the list of writes one call commits. The two stores and the executor are classes proved to carry
those writes out. The other modules reason about whole runs of calls on interleaved runs: the stores cannot
be told apart, runs do not influence each other, the audit log alone determines the counters, limits hold,
every reply is what the run's history makes it, approvals are what they claim, what is lost when the process dies between two writes, and that even then
nothing is held to be done that was not.

**Statistics** (`Wilson`, `Lifecycle`). The score interval decides exactly the quadratic tests it inverts;
promotion and demotion become tests in whole numbers, and no sample passes both.

**Rules and distillation** (`Rules`, `PaymentRules`, `Situations`, `Clusters`, `RuleStore`, `Distillation`,
`Distiller`, `RuleLifecycle`, `RefundBound`, `Evaluation`, `CandidatesExact`, `RuleOrigins`, `BlockedRefunds`, `Meaning`, `MeaningExact`,
`GeneratedCases`, `StubPolicy`). Proposals are untrusted JSON until they parse; keys compile to
rules that mean them; clustering conserves what it counts. `Distillation` says what the distiller does to
its state, `Distiller` is the class that does it, `CandidatesExact` says on the pool itself what is proposed,
`RuleOrigins` and `RuleLifecycle` follow every rule over every run.
`Evaluation` is the harness; `Meaning` proves that distillation changes who decides a case but never what is
decided, and `MeaningExact` that the condition it asks of the hand-written rules is exact. Both take the set of
cases that can occur as a parameter; `GeneratedCases` is the instance of the cases the generator draws.

**Agent and pipeline** (`AgentTools`, `AgentLoop`, `AgentRuns`, `RecoveryTools`, `RecoveryCrash`, `RefundRecords`,
`PipelineModel`, `Pipeline`, `PipelineRuns`, `PipelineActs`, `RefundAmounts`, `LedgerRecords`, `LedgerApprovals`, `LedgerClaims`). The bounded loop and
its trajectory against the audit log and the executor's replies, the three effect tools with one key per payment
and kind, and the live pipeline with its ledger: what an event leads to is told from the stored rules, the provider's
answers and the executor's guards, a rule that applies decides without the model, one row per event, redeliveries do nothing, drains finish, each
payment sees at most one effect of each kind and one more per death inside an executor call, a budget of three
and one more per such death never rejects, refunds are of the amounts the provider quoted, ledger rows name the trajectories and approvals they record, and the
effects they claim have happened. One kind of row claims more than was done: an agent run the model finishes
without asking for an effect is recorded as resolved, or escalated, on the model's word
(`LedgerClaims.NothingDoneIsResolved`).

**Playground** (`RateLimiter`). A pruned queue that decides as the full history would.

Objects that change in place are classes. Each method is proved equal to a function of the old state, and
the theorems are about those functions. `dafny verify dfyconfig.toml` checks the whole project.

Where the code and its own documentation disagree the model follows the code:

- `reject_approval` is documented to make an action "never execute under its key". `approve` accepts a
  rejected record, so it can; `GuardApproval.RejectedActionCanExecute` shows it and
  `GuardApproval.FiledKeyExecutesExactlyOverRuns` says exactly when, over any calls.
- `execute` is documented to append exactly one audit entry per call. An unregistered name that reaches the
  handler lookup appends none; `GuardSafety.OneEntryPerExecute` gives the exact condition.
- `_is_high_value_refund` is documented to ask for a bound strictly below the threshold. It also accepts
  "at most the threshold": `RefundBound.AtTheThreshold` is a rule that does so for every threshold, and
  `RefundBound.StrictExactly` says exactly which rules are bounded strictly on the contexts that can occur. What
  all of them keep is amount <= threshold.
- The situation features `failure_history` and `recency` only partly become predicates;
  `PaymentRules.UnencodedKeyOvermatches` and `PaymentRules.CompiledMeansProjection` say for which keys a
  compiled rule means its key.

## Model

| member | source | states |
|---|---|---|
| `Executor.GuardedExecutor.Execute` | agentcore/guardrails/executor.py:74-163 | `execute` on either store leaves exactly the world, and returns exactly the reply, that the guard chain of `GuardModel` prescribes: breaker, stored result, unregistered name, approval gate, budget, spend cap, effect, in that order |
| `Executor.GuardedExecutor.Gate` | agentcore/guardrails/executor.py:98-121 | the gate lets an approved key through untouched; otherwise it audits `pending_approval` once, enqueueing only if the key has no record, and names the record that waits |
| `Executor.GuardedExecutor.ExecuteWithinLimits` | agentcore/guardrails/executor.py:123-163 | past the gate: an exhausted budget rejects, an exceeding cost trips the breaker and rejects, anything else reaches the handler |
| `Executor.GuardedExecutor.PerformAndRecord` | agentcore/guardrails/executor.py:146-163 | one handler call; success commits effect, consumption, result and audit entry in that order, a raising handler leaves only its error entry |
| `Executor.GuardedExecutor.RecordSuccess` | agentcore/guardrails/executor.py:153-163 | the three store writes after a successful effect, in order |
| `Executor.GuardedExecutor.Approve` | agentcore/guardrails/executor.py:165-178 | `approve` flips the record unless it is approved already and then runs the action stored at enqueue time; an unknown or foreign id is refused and writes nothing |
| `Executor.GuardedExecutor.RejectApproval` | agentcore/guardrails/executor.py:180-183 | `reject_approval` sets the record's state and writes nothing else |
| `Executor.GuardedExecutor.RequireApproval` | agentcore/guardrails/executor.py:191-197 | only records of the executor's own run are found |
| `Executor.GuardedExecutor.Finish` | agentcore/guardrails/executor.py:209-225 | every verdict is audited once under the run's next number and returned with it |
| `Executor.GuardedExecutor.Register` | agentcore/guardrails/executor.py:70-72 | registering adds one handler and keeps the others |
| `GuardModel.ApplyKeepsWellFormed` | agentcore/guardrails/store.py:169-201 | every single committed write keeps records and their (run, key) index one to one and every run's entries numbered 1, 2, 3, ... |
| `GuardStores.InMemoryGuardStore.RecordExecution` | agentcore/guardrails/store.py:219-224 | dictionary counters carry out the abstract write that counts the execution and adds the cost |
| `GuardStores.InMemoryGuardStore.PutResult` | agentcore/guardrails/store.py:148-158 | overwrites: the abstract write, for any earlier result |
| `GuardStores.InMemoryGuardStore.CreatePending` | agentcore/guardrails/store.py:169-195 | returns the record on file for the key, or files the new one and its index entry |
| `GuardStores.InMemoryGuardStore.SetApprovalState` | agentcore/guardrails/store.py:197-201 | changes the state of exactly that record |
| `GuardStores.InMemoryGuardStore.TripBreaker` | agentcore/guardrails/store.py:230-232 | opens exactly that run's breaker |
| `GuardStores.InMemoryGuardStore.AppendAudit` | agentcore/guardrails/store.py:234-260 | a per-run counter numbers the entry as the run's log length demands |
| `GuardStores.InMemoryGuardStore.ListPending` | agentcore/guardrails/store.py:203-209 | finds exactly the undecided records of the run |
| `GuardStores.SqlGuardStore.RecordExecution` | agentcore/guardrails/store.py:503-515 | run and subject rows, created on demand, carry out the same abstract write |
| `GuardStores.SqlGuardStore.PutResult` | agentcore/guardrails/store.py:397-411 | keeps the first result of a key: an existing row is left alone, a missing one gets the abstract write |
| `GuardStores.SqlGuardStore.CreatePending` | agentcore/guardrails/store.py:442-474 | same contract as in memory, by query over rows |
| `GuardStores.SqlGuardStore.SetApprovalState` | agentcore/guardrails/store.py:476-481 | same abstract write, by row update |
| `GuardStores.SqlGuardStore.TripBreaker` | agentcore/guardrails/store.py:522-526 | same abstract write, on a run row created on demand |
| `GuardStores.SqlGuardStore.AppendAudit` | agentcore/guardrails/store.py:528-567 | the maximum number of the run's rows plus one is the run's log length plus one |
| `GuardStores.SqlGuardStore.ListPending` | agentcore/guardrails/store.py:483-491 | finds exactly the undecided records of the run, by query over rows |
| `GuardStores.SqlGuardStore.SubjectExecutedCount` | agentcore/guardrails/store.py:493-496 | reads the abstract count, 0 where there is no row |
| `GuardStores.SqlGuardStore.AccumulatedSpend` | agentcore/guardrails/store.py:498-501 | reads the abstract spend, 0 where there is no row |
| `Parity.Serve` | agentcore/guardrails/executor.py:74-183 | any sequence of execute, approve and reject calls on any runs leaves either store in the state, and gives the replies, of the abstract run |
| `Parity.BothStores` | agentcore/guardrails/store.py:130-589 | the two stores, each served any calls, both give the replies of the abstract run and end in its state with its effects, so they cannot be told apart |
| `Parity.PutAgreesExactly` | agentcore/guardrails/store.py:397-411 | the overwriting write of the dictionaries and the keep-first write of the tables leave the same store exactly when the key is unused or holds that very result |
| `Isolation.RunsAreIsolated` | agentcore/guardrails/executor.py:74-183 | each run's part of the store, and every reply its callers get, are those of the run made alone, whatever the interleaving |
| `Isolation.CallMovesItsRun` | agentcore/guardrails/executor.py:74-183 | a call moves its own run's view as that view alone decides, and no other run's |
| `GuardRuns.RunsStayWellFormed` | agentcore/guardrails/store.py:169-260 | every reachable store is well formed |
| `Replay.Reconstruct` | agentcore/guardrails/replay.py:26-42 | sorting by number and folding gives the replayed state of the sorted entries |
| `Replay.SortRestoresOrder` | agentcore/guardrails/replay.py:26-28 | any permutation of entries numbered in steps of one sorts back to that order |
| `Replay.ReachableIsSound` | agentcore/guardrails/executor.py:146-163 | in every reachable state a run's counters are the replay of its log, its effects are the executed entries' actions, and every entry is the verdict its predecessors demand |
| `Replay.ReplayEqualsState` | agentcore/guardrails/replay.py:26-42 | replaying any permutation of a run's entries gives exactly the store's spend, per-subject counts, number of results and breaker |
| `Replay.TalliesAgree` | agentcore/guardrails/replay.py:29-40 | the per-decision tallies count executed entries once each, and the breaker is reported exactly when a cap rejection is |
| `Replay.TalliesCount` | agentcore/guardrails/replay.py:29-31 | every decision is tallied as often as it was reported |
| `GuardSafety.RunsAreSafe` | agentcore/guardrails/executor.py:74-163 | in every reachable state: spend within the cap, counts within the budget, no key executed twice, every duplicate after its execution, and breaker rejections exactly after the cap rejection |
| `GuardSafety.EffectsAreAccountedFor` | agentcore/guardrails/executor.py:146-163 | what the outside world has seen of a run has distinct keys, costs exactly the recorded spend, and is the executed entries in order |
| `GuardSafety.OneEntryPerExecute` | agentcore/guardrails/executor.py:46-48 | the documented one audit entry per call holds exactly unless the call gets to an unregistered name; then there is none |
| `GuardSafety.LegalLogWithinLimits` | agentcore/guardrails/executor.py:123-144 | a log of demanded verdicts never adds up to more than the cap or the budget |
| `GuardSafety.KeyExecutesOnce` | agentcore/guardrails/executor.py:84-92 | two entries of a legal log never execute the same key |
| `GuardSafety.DuplicateFollowsExecuted` | agentcore/guardrails/executor.py:84-92 | a duplicate entry has an earlier executed entry of its key |
| `GuardSafety.BreakerHaltsTheRun` | agentcore/guardrails/executor.py:76-82 | after the cap rejection, and only then, every entry is a breaker rejection |
| `Verdicts.VerdictsTellHistory` | agentcore/guardrails/executor.py:74-183 | over any calls: the next execute is told exactly what its run's entries and records make of its action: open breaker after a cap rejection, duplicate with the result the handler returned when the key was executed, unregistered, pending under the record on file, over budget by the executed actions of its subject, over the cap by their cost, or what the handler does; an approve is refused unless the record is its run's, and is else told the same of the filed action as approved |
| `Verdicts.StoredWasReturned` | agentcore/guardrails/executor.py:153-163 | a stored result is what the handler returned to an earlier call of the run that executed the key |
| `GuardApproval.CallOnRecord` | agentcore/guardrails/executor.py:165-183 | a filed record keeps run, name, subject, key, cost and parameters for ever; only its own run's approve and reject change its state |
| `GuardApproval.NewRecord` | agentcore/guardrails/executor.py:98-109 | a record appears pending, above the threshold, with the enqueueing call's own action |
| `GuardApproval.ApprovedRecordsWereApproved` | agentcore/guardrails/executor.py:165-178 | an approved record was approved by its own run and not rejected since |
| `GuardApproval.GatedEffectNeedsApproval` | agentcore/guardrails/executor.py:98-121 | an effect above the threshold needs its (run, key) record approved, and `approve` performs exactly the filed action |
| `GuardApproval.GatedEffectsWereApproved` | agentcore/guardrails/executor.py:98-121 | over every run: each effect above the threshold has a record of its run and key approved by that run |
| `GuardApproval.ChainPerforms` | agentcore/guardrails/executor.py:74-163 | the chain performs an action exactly when every guard lets it through and the handler returns |
| `GuardApproval.RejectedStaysRejected` | agentcore/guardrails/executor.py:180-183 | as long as nobody approves the record again, or lowers the cost to the threshold, a rejected key has no effect over any further calls |
| `GuardApproval.RejectedKeyExecutesExactly` | agentcore/guardrails/executor.py:165-183 | a call causes an effect under a rejected key exactly when it approves the record after all or offers the key at a cost within the threshold, and the remaining guards pass |
| `GuardApproval.CallPerforms` | agentcore/guardrails/executor.py:74-178 | a call performs an action exactly when it offers it, by execute or by approving the record that holds it, its handler returns, and every guard passes with the approval counted in |
| `GuardApproval.FiledKeyExecutesExactly` | agentcore/guardrails/executor.py:74-178 | the same for any key with a record on file, whatever the record's state |
| `GuardApproval.FiledKeyExecutesExactlyOverRuns` | agentcore/guardrails/executor.py:74-183 | over any calls from a state in which a key's record is rejected or undecided, however often it is approved and rejected: which of the run's calls cause an effect under the key, exactly |
| `GuardApproval.RejectedActionCanExecute` | agentcore/guardrails/executor.py:180-181 | the documented promise that a rejected action never executes is false: enqueue, reject, approve, executed |
| `GuardCrash.CrashesKeepOrder` | agentcore/guardrails/executor.py:132-163 | calls may die after any committed write: per run effects >= recorded executions >= results >= executed entries, the excess is at most the number of deaths, and cap and budget still hold |
| `GuardCrash.NoCrashNoGap` | agentcore/guardrails/executor.py:146-163 | without a death the four tallies are equal |
| `GuardCrash.EffectsPerKey` | agentcore/guardrails/executor.py:132-163 | wherever calls die, a run's effects under one key exceed one by at most the run's deaths |
| `GuardCrash.DeathMayRepeatEffect` | agentcore/guardrails/executor.py:146-160 | a death between an effect and its record lets a retry repeat the effect, for every action the guards admit |
| `Origins.EventsKeepOf` | agentcore/guardrails/executor.py:98-178 | wherever calls die, every effect and every action that waits is one some call asked to execute |
| `Origins.LargeEffectsHadLeave` | agentcore/guardrails/executor.py:98-178 | wherever calls die, every effect above the threshold was performed with the record on file for its run and key approved by that run and not rejected since |
| `Origins.SpendIsCost` | agentcore/guardrails/executor.py:146-163 | where no call on a run was cut short, its recorded spend is the cost of its effects |
| `Wilson.LowerInverts` | agentcore/eval/metrics.py:12-23 | lower end >= c exactly when k >= cn and (k-cn)^2 >= z^2 c(1-c)n; likewise strictly |
| `Wilson.UpperInverts` | agentcore/eval/metrics.py:12-23 | upper end < c exactly when k < cn and (cn-k)^2 > z^2 c(1-c)n |
| `Wilson.ContainsPoint` | agentcore/eval/metrics.py:12-23 | 0 <= lower <= k/n <= upper <= 1 |
| `Wilson.Monotone` | agentcore/eval/metrics.py:12-23 | more successes never lower either end |
| `Wilson.Mirror` | agentcore/eval/metrics.py:12-23 | counting failures instead of successes reflects the interval about one half |
| `Wilson.WidthFromThirty` | agentcore/eval/metrics.py:12-23 | at z = 1.96 the half-width is at most 0.18 for every count and every n >= 30 |
| `Lifecycle.ShadowStats.Record` | agentcore/distill/lifecycle.py:58-69 | each record counts a match and, where they apply, an agreement and a recovery; the parts never exceed the whole |
| `Lifecycle.PromotionIsExact` | agentcore/distill/lifecycle.py:80-92 | the promotion criteria amount to a test in whole numbers, whichever roots are computed |
| `Lifecycle.DemotionIsExact` | agentcore/distill/lifecycle.py:95-102 | the demotion criterion amounts to a test in whole numbers |
| `Lifecycle.NoFlapping` | agentcore/distill/lifecycle.py:6-33 | no sample of any size clears the recovery bound and fails the demotion test at the same floor |
| `Lifecycle.PromotableIsNotDemotable` | agentcore/distill/lifecycle.py:6-33 | a record that qualifies is not one the demotion test removes |
| `Lifecycle.FullWindow` | agentcore/distill/lifecycle.py:95-102 | a full window of 30 is demoted exactly at 9 recoveries or fewer |
| `Lifecycle.FirstPromotion` | agentcore/distill/lifecycle.py:80-92 | at 30 matches promotion takes exactly 29 agreements and 21 recoveries or more |
| `Rules.ParseIsExact` | agentcore/rules/validator.py:20-145 | a proposal parses to a rule exactly when the rule conforms to the schema and the proposal is that rule written down (an empty parameter object may be left out) |
| `Rules.ParsePredicateIsExact` | agentcore/rules/validator.py:53-95 | predicates: exact keys, known field, operator allowed for its type, literal of its type |
| `Rules.ParseActionIsExact` | agentcore/rules/validator.py:123-145 | actions: known name and exactly the declared parameters, each a literal of its type |
| `Rules.Evaluate` | agentcore/rules/evaluator.py:26-40 | the loop with early exit holds exactly when every predicate holds; missing fields and incomparable types do not match |
| `Rules.OperatorsAgree` | agentcore/rules/evaluator.py:15-40 | the seven operators against each other: not-equal denies equal, in is equal to some item, of two numbers or two texts exactly one of less, equal and greater holds, the weak orders add equality, greater is less the other way round, and nothing else has an order |
| `Rules.OperatorsOnScalars` | agentcore/rules/evaluator.py:15-23 | less and equal on numbers and texts are those of numbers and of text in dictionary order, and a number never equals a text |
| `Rules.TextIsOrdered` | agentcore/rules/evaluator.py:15-23 | the order of texts is strict and total |
| `PaymentRules.SuggestionParses` | recovery/distiller.py:243-280 | the suggestion for a key passes validation exactly when reason, channel and action are known ones, and comes back as the rule compiled |
| `PaymentRules.CompiledMeansKey` | recovery/distiller.py:91-103 | for every key and well-typed context the compiled rule matches exactly when the encoded features' fields are present and agree |
| `PaymentRules.CompiledMeansProjection` | recovery/distiller.py:54-103 | for keys all of whose features are encoded, among them those the distiller builds: the rule matches a context carrying the fields exactly when its situation projects to the key |
| `PaymentRules.UnencodedKeyOvermatches` | recovery/distiller.py:97-100 | every other key over-matches: some complete context satisfies its rule without projecting to it |
| `PaymentRules.BandsPartition` | recovery/distiller.py:80-88 | exactly one band's predicates accept any given amount, the band of the amount |
| `PaymentRules.RuleKeysAreUnique` | recovery/distiller.py:360-363 | two keys the distiller builds have the same rule key only if they are equal |
| `PaymentRules.DefaultsConform` | recovery/distiller.py:271-280 | the default parameters conform exactly for the schema's actions |
| `PaymentRules.DefaultsSay` | recovery/distiller.py:271-279 | the parameters a suggestion carries for each action |
| `PaymentRules.FeaturesTellTheContext` | recovery/distiller.py:54-77 | the situation of a context: reason and channel as they are, the amount's band, the failure history and the recency by their limits, and what stands for what is not known |
| `Clusters.Cluster.Add` | agentcore/distill/cluster.py:49-52 | one observation counts once in support, its action, recoveries and sources |
| `Clusters.ClusterObservations` | agentcore/distill/cluster.py:38-53 | one cluster per projected key, in order of first appearance, each the summary of exactly that key's observations |
| `Clusters.SummaryCounts` | agentcore/distill/cluster.py:10-17 | a cluster's fields are the counts over its members |
| `Clusters.ClustersAddUp` | agentcore/distill/cluster.py:38-53 | supports, recoveries and the count of every action are conserved |
| `Clusters.ClusteringConserves` | agentcore/distill/cluster.py:38-53 | whatever is counted per observation, the clusters' counts add up to the total |
| `Clusters.DominantIsCounted` | agentcore/distill/cluster.py:19-21 | the dominant action occurs, and its count is the dominant count |
| `Clusters.DominantIsLargest` | agentcore/distill/cluster.py:19-29 | no action is counted more often than the dominant one |
| `Clusters.DominantIsFirst` | agentcore/distill/cluster.py:19-21 | it is the first seen of those taken most often |
| `Clusters.RefinementPartitions` | recovery/distiller.py:215-241 | refining a cluster by more features partitions exactly its members and never lowers the number that agree with their part's dominant action |
| `RuleStore.RuleRepository.AddRule` | recovery/rules_repo.py:67-102 | an invalid rule is never stored; a stored one gets the version given, or one above all of its key's; no row is overwritten and (key, version) stays unique |
| `RuleStore.RuleRepository.SetStatus` | recovery/rules_repo.py:161-186 | exactly the named row changes status, recording when it was promoted or demoted and appending to its demotion history |
| `RuleStore.NextVersionIsAbove` | recovery/rules_repo.py:81-87 | an assigned version is one above the highest the key has, or 1 |
| `RuleStore.ListedExactly` | recovery/rules_repo.py:104-131 | a rule is listed exactly when a row of that status parses as it |
| `RuleStore.ListIsAscending` | recovery/rules_repo.py:104-131 | listed rules ascend in priority |
| `RuleStore.Route` | recovery/router.py:42-53 | routing is the first match among the active rules as listed |
| `RuleStore.RoutingPicksBest` | recovery/router.py:42-53 | routing picks the applicable active row of smallest priority number, the oldest among equals, and escalates exactly when none applies |
| `Distiller.PaymentDistiller.Observe` | recovery/distiller.py:150-174 | pool, statistics and windows change as the specification function says |
| `Distiller.PaymentDistiller.WatchRule` | recovery/distiller.py:161-174 | a matching rule's statistics grow by one and, if active, its bounded window takes the outcome; nothing else changes |
| `Distiller.PaymentDistiller.Step` | recovery/distiller.py:176-183 | off the cadence nothing happens; on it distil, promote, demote, in that order |
| `Distiller.PaymentDistiller.Distill` | recovery/distiller.py:187-213 | each candidate situation not yet proposed is proposed once, and stored as a shadow rule if its proposal validates |
| `Distiller.PaymentDistiller.Propose` | recovery/distiller.py:243-269 | a proposal is taken whole or counted as invalid |
| `Distiller.PaymentDistiller.CandidateSituations` | recovery/distiller.py:215-229 | large clusters of one mind that recover stand by reason, other large ones are refined by amount band |
| `Distiller.PaymentDistiller.Refine` | recovery/distiller.py:231-241 | of a reason's observations, the bands large, of one mind and recovering |
| `Distiller.PaymentDistiller.PromoteRule` | recovery/distiller.py:284-302 | a shadow rule whose statistics qualify goes active, unless it is a high-value refund, which is only logged as blocked, once |
| `Distiller.PaymentDistiller.DemoteRule` | recovery/distiller.py:304-327 | an active rule with a degraded window is demoted and its window cleared |
| `CandidatesExact.CandidatesExactly` | recovery/distiller.py:215-241 | the candidates are exactly, with the sources of their observations: a reason with at least 15 observations of which four in five took the action and three in five recovered; and a reason and band with as many, where the reason as a whole has 15 observations that speak for no action |
| `CandidatesExact.WorthyIsPersuasive` | agentcore/distill/cluster.py:9-37 | a cluster passes the three tests with an action as its dominant one exactly if its members' counts do |
| `RuleOrigins.RulesHaveOrigins` | recovery/distiller.py:150-159 | over every run: the pool is what the agent decided; every distilled rule was proposed from the pool of the day it was created, which spoke for its situation and the action it was suggested for, and keeps the first twenty sources; and the log lists the created keys in order and counts the invalid proposals |
| `RuleOrigins.StepServes` | recovery/distiller.py:176-213 | a step on the cadence leaves no situation out that the pool speaks for: each has its rule, or the proposer had nothing valid for it just then |
| `BlockedRefunds.StepReportsHeldBack` | recovery/distiller.py:284-292 | a step on the cadence reports as blocked exactly the shadow rules whose record would promote them and whose refunds nothing bounds, each key once; no other step reports |
| `BlockedRefunds.ReportIsExact` | recovery/distiller.py:284-292 | over every run a key is on the report exactly if some step on the cadence found its rule held back, and none is on it twice |
| `RuleOrigins.PromotesInWholes` | recovery/distiller.py:284-302 | under the default policy a rule is promoted exactly if its statistics pass the whole-number test and it is no refund without a bound on the amount |
| `RuleOrigins.DemotesInWholes` | recovery/distiller.py:304-327 | under the default policy a rule is demoted exactly if its window's recoveries fail the whole-number test |
| `RuleLifecycle.LifecycleHolds` | recovery/distiller.py:150-213 | over every run: each distilled rule's row, statistics and window are a batch recount of the matching observations since creation and the last ones since promotion; promotion came on qualifying statistics, demotion on a degraded window, and the log has one entry for each that was made, with those statistics or that window's recoveries |
| `RuleLifecycle.StepDecides` | recovery/distiller.py:284-327 | a step activates a shadow rule exactly when its recounted statistics qualify and it is no high-value refund, demotes an active one exactly when its recounted window has degraded, and moves nothing else |
| `RuleLifecycle.RulesOnlyAdvance` | recovery/rules_repo.py:161-186 | one event moves a distilled rule at most one place along SHADOW, ACTIVE, DEMOTED and never writes another row |
| `RuleLifecycle.StatusNeverReturns` | recovery/distiller.py:284-327 | over any run a rule keeps its row and identity and its status never goes back, so it is activated once at most and demoted once at most |
| `RuleLifecycle.StatsSnoc` | agentcore/distill/lifecycle.py:58-69 | the running statistics are the batch recount, one more observation at a time |
| `RuleLifecycle.WindowSnoc` | recovery/distiller.py:170-174 | the bounded deque is the tail of the outcomes, one more observation at a time |
| `RefundBound.ActivatedRefundsAreBounded` | recovery/distiller.py:331-347 | whatever is proposed and observed, a refund rule the distiller ever activated matches only amounts within the approval threshold |
| `RefundBound.BoundedRefund` | recovery/distiller.py:331-347 | a bounded precondition bounds every matching context's amount |
| `RefundBound.AtTheThreshold` | recovery/distiller.py:331-347 | the documented strict bound is false, for every threshold: 'at most the threshold' is a valid refund rule, is not held to be high-value, and matches the threshold in a well-typed context |
| `RefundBound.OnlyTheAmountDecides` | agentcore/rules/evaluator.py:26-40 | with the rest of a matching context kept, an amount matches exactly when no predicate of the rule turns it down |
| `RefundBound.StrictExactly` | recovery/distiller.py:331-347 | whatever contexts can occur, if their amount may be the threshold: a refund rule that passes the gate bounds its amounts strictly below the threshold exactly when one of its predicates turns the threshold down, or it matches nothing that can occur |
| `RefundBound.TypedStrictExactly` | recovery/distiller.py:331-347 | in particular over every context whose fields have the schema's types |
| `RefundBound.ActivatedStrictExactly` | recovery/distiller.py:284-302 | the same condition for every refund rule the distiller activated, over every run |
| `RefundBound.CompiledRefundsAreStrict` | recovery/distiller.py:80-103 | rules compiled from a situation key always bound their amounts strictly, whatever can occur |
| `Evaluation.Process` | evals/harness.py:154-202 | control cases take no action; others take the routed rule's action or the agent's, and the simulator decides the outcome |
| `Evaluation.RecordTells` | evals/harness.py:154-202 | a held-out case gets no action whatever the rules and the agent, and recovers as its customer does when nothing is done; any other names a best applicable rule and takes its action, or the agent's exactly if none applies, and recovers as its customer does on it |
| `Evaluation.RunEval` | evals/harness.py:205-236 | the baseline run processes every case against the same rules |
| `Evaluation.RunEvalDistilled` | evals/harness.py:239-282 | the distilled run processes each case against the rules as they stand, shows the distiller every case outside the control group, and counts every case |
| `RuleOrigins.EveryCaseCounts` | evals/harness.py:264-282 | in a distilled evaluation every case is counted towards the cadence and every one outside the held-out group is observed once |
| `Evaluation.Seed` | recovery/seed_rules.py:44-52 | seeding adds the two seed rules, active, each under its key's next version, behind whatever rows there are |
| `Meaning.SeedsSay` | recovery/seed_rules.py:19-41 | on a seeded database blocked risks go to a human, invalid details get a link, and nothing else is decided |
| `Evaluation.Prepare` | evals/harness.py:258-259 | a database is seeded exactly when it has no usable active rule |
| `CandidatesExact.CandidatesAreBacked` | recovery/distiller.py:215-241 | every candidate's action was taken by an observed case of its reason |
| `Meaning.EchoesChangeNothing` | recovery/router.py:42-53 | rules that echo the agent, behind hand-written ones, never change the action taken, whatever the hand-written rules look at |
| `Meaning.DistillationPreservesMeaning` | evals/harness.py:239-282 | whatever cases can occur, with an agent whose action on them depends only on the reason, an echoing proposer and hand-written rules of which none behind priority 50 decides only part of a reason on them, on a database that holds those rules alone or has been through such runs before: on any stream of such cases the distilled run takes, case by case, the action the baseline takes, with the same outcome, and asks the agent only where the baseline asks it; and the condition on the database holds again afterwards |
| `Meaning.PrioritySettles` | recovery/distiller.py:201-211 | hand-written rules with priorities up to 50 meet that condition, whatever they look at and whatever can occur |
| `Meaning.WatchedRulesAgree` | recovery/distiller.py:161-169 | where the hand-written rules decide all cases of a reason that can occur or none, every watched rule that matches such a case would have taken the action taken |
| `Meaning.ShadowAgrees` | recovery/distiller.py:161-169 | and so every shadow match of the run agreed |
| `Meaning.SeedsAreUniform` | recovery/seed_rules.py:19-52 | seeding any database without usable active rules gives rules that meet both conditions |
| `MeaningExact.MeaningIsPreservedExactly` | evals/harness.py:239-282 | the first condition is exact, at any cadence and whatever cases can occur: for hand-written rules that miss it there is a stream of such cases, numbered 0, 1, 2, ... with ids of their own, on which the distilled run takes another action than the baseline |
| `MeaningExact.ShadowAgreesExactly` | evals/harness.py:239-282 | the second condition is exact in the same sense: for hand-written rules that miss it there is such a stream with a shadow match that disagrees |
| `GeneratedCases.GeneratedOccur` | evals/generator.py:75-118 | what rules can see of a case is something the generator draws exactly if its reason, method, amount, counts, hours and attempt are within the generator's ranges |
| `GeneratedCases.AmountRuleSettles` | evals/generator.py:75-79 | of the generator's cases, a rule on amounts from some threshold on decides whole reasons exactly if its priority is at most 50 or its threshold is at most 50 or above 200000 |
| `GeneratedCases.AmountRuleUnbounded` | recovery/distiller.py:201-211 | with no bounds on amounts, exactly if its priority is at most 50 |
| `GeneratedCases.AmountRuleKeepsMeaning` | evals/harness.py:239-282 | so on the generator's cases distillation changes what some run decides on top of such a rule exactly if it stands behind priority 50 and its threshold separates two amounts that are drawn |
| `GeneratedCases.StrictOnGenerated` | recovery/distiller.py:331-347 | on the generator's cases the refund gate is strict exactly if the threshold is no amount that is drawn, or the rule turns it down, or the rule matches no case |
| `StubPolicy.StubActsOnReason` | llm/stub.py:92-137 | a run of the stub ends with the action its failure reason alone determines, whatever the amount, customer, provider data, policy and store |
| `StubPolicy.StubEvaluationUnchanged` | evals/harness.py:239-311 | with the stub run on each case through the loop, the tools and the guarded executor, an echoing proposer and a seeded database: the distilled evaluation decides every case as the baseline does, and every shadow match agrees |
| `StubPolicy.EffectTurn` | llm/stub.py:122-137 | once it has looked, the stub takes the one effect its reason maps to |
| `AgentTools.BoundIsExact` | agentcore/agent/tools.py:142-166 | bounding changes exactly the values out of bounds, and bounding again changes nothing |
| `AgentTools.BoundIsWithin` | agentcore/agent/tools.py:142-166 | whatever a tool returns, what is shown is within every bound of length, size and depth |
| `AgentTools.BoundedLookup` | agentcore/agent/tools.py:154-160 | a bounded mapping holds, under each shortened key, the bounded value stored last, and no other key |
| `AgentTools.BoundedItem` | agentcore/agent/tools.py:161-164 | a bounded list holds the bounded first items in order |
| `AgentTools.ValidateArgs` | agentcore/agent/tools.py:106-139 | arguments come back unchanged exactly when none is unknown, no required one is missing and each has its type and length; None where the call raises |
| `AgentTools.ValidatedExactly` | agentcore/agent/tools.py:106-139 | arguments are accepted exactly if each is a declared parameter of its type and no required one is missing, and then as they are |
| `AgentLoop.AgentLoop.Run` | agentcore/agent/loop.py:111-213 | the loop over a live executor leaves the trajectory, history and world of the specified run |
| `AgentLoop.AgentLoop.TakeTurn` | agentcore/agent/loop.py:125-209 | one iteration: deadline, request, malformed, final, unknown tool, bad arguments, effect or read, in that order |
| `AgentLoop.AgentLoop.RunEffect` | agentcore/agent/loop.py:173-197 | an effect goes through the executor; its status and action name are kept, and the bounded observation shows status, result and detail |
| `AgentLoop.AgentLoop.UseTool` | agentcore/agent/loop.py:148-209 | unknown tools, bad arguments and failing builders are told, with the tool's name or the detail, and the run goes on; reads are bounded |
| `AgentLoop.DecisionsRoundTrip` | agentcore/agent/loop.py:39-65 | a decision written as the model is asked to write it is read as meant |
| `AgentLoop.MalformedExactly` | agentcore/agent/loop.py:39-65 | an answer is malformed exactly if it is no object with either a final answer or a call of a named tool on arguments, which may be missing |
| `AgentLoop.EffectIsShown` | agentcore/agent/loop.py:183-196 | the model is shown of an effect its status by name, its result and the detail, cut to the bounds |
| `AgentLoop.RefusalsAreShown` | agentcore/agent/loop.py:125-172 | and of a request that came to nothing the error with the tool's name or the detail |
| `AgentLoop.StatusNamesTellApart` | agentcore/guardrails/model.py:16-24 | no two statuses are shown alike |
| `AgentRuns.TrajectoryMatchesAudit` | agentcore/agent/loop.py:111-213 | at most `max_iterations` requests, one numbered step per request, each answering the projection of the steps before it, with the decision and observation its request calls for; the entries audited meanwhile are those of the effect steps, one to one and in order, and what the model is shown of an effect is what the executor replied; a run that raises has one request more than steps and at most one error entry more |
| `AgentRuns.RunEndsExactly` | agentcore/agent/loop.py:111-213 | no request is made past the deadline; a run raises exactly if the tool it asked for last did; a run that stops is malformed exactly if its last step is, out of iterations exactly if it made `max_iterations` requests without an end, and out of time exactly if it made fewer and was late for the next |
| `AgentRuns.ExecuteAudits` | agentcore/guardrails/executor.py:209-237 | an execute call appends to its run's log exactly the entry its reply names |
| `AgentRuns.CallGrows` | agentcore/guardrails/executor.py:209-237 | the run's entries since the start grow by exactly that entry |
| `AgentRuns.TrajectoryTellsTheTruth` | agentcore/agent/loop.py:173-197 | from any reachable world and however a run ends, the effects its run sees are those seen before and the trajectory's executed steps, in order |
| `AgentRuns.OutcomeIsTheLastVerdict` | agentcore/agent/loop.py:215-232 | a run the model finishes is reported by the executor's last verdict during the run: pending, rejected, or, if it was executed or a duplicate, resolved or escalated by that action; only without any verdict does the model's word count; and only such runs are reported as resolved or escalated |
| `RecoveryTools.ToolsBuildToolActions` | recovery/tools.py:119-169 | every action a tool builds has one of the three names and its payment's key for that name, and costs nothing unless it is a refund |
| `RecoveryTools.RefundIsOfTheRecord` | recovery/tools.py:134-160 | at every moment and whatever the arguments, a refund costs and asks for the amount on the provider's record of the payment, under its key and for its customer, and raises exactly if there is no such record |
| `RecoveryTools.LinkIsOfTheArgument` | recovery/tools.py:118-131 | a link costs nothing and asks for the validated amount, under the payment's key and for its customer |
| `RecoveryTools.EscalationAsksNothing` | recovery/tools.py:161-171 | an escalation costs and asks nothing, under the payment's key and for its customer |
| `RecoveryTools.PaymentIsTold` | recovery/tools.py:86-90 | looking up a payment raises exactly if the provider cannot be reached, says so if there is none, and otherwise tells each of its fields |
| `RecoveryTools.OrderIsTold` | recovery/tools.py:92-96 | the same for an order |
| `RecoveryTools.HistoryIsTold` | recovery/tools.py:98-102 | the same for a customer's history |
| `RecoveryTools.KeysTellKindsApart` | recovery/tools.py:124-166 | on one payment equal keys mean equal kinds |
| `RecoveryTools.OneEffectPerPaymentAndKind` | recovery/tools.py:119-195 | over any calls that ask for tool actions: a payment's effects are at most one of each kind, three in all |
| `RecoveryCrash.EffectsPerDeath` | recovery/tools.py:119-195 | with calls that may die after any write: the effects of a kind exceed one, and all a payment's effects exceed three, by at most the deaths inside calls on that payment |
| `RecoveryCrash.BudgetOfThreeNeverRejects` | recovery/agent.py:20-26 | so where every call finishes a budget of three or more, such as the default five, never rejects |
| `RecoveryCrash.BudgetOutlastsDeaths` | recovery/agent.py:20-26 | wherever calls die, a budget of three actions and one more per death inside a call on the payment never rejects an action there |
| `RecoveryCrash.BudgetOutlastsExactly` | recovery/agent.py:20-26 | that bound is exact for a threshold and cap of zero or more: with at most d deaths no action is ever rejected for the budget if and only if it is at least 3 + d |
| `RefundRecords.EventsGrow` | recovery/tools.py:119-195 | wherever calls die: the store stays well formed, every record holds a tool action above the threshold, and what is on file stays on file under its id |
| `RefundRecords.RecordsAreRefunds` | recovery/tools.py:119-169 | with a threshold of zero or more every approval record is its payment's refund, so a payment has one at most |
| `RefundRecords.RefundWaitsAlone` | recovery/tools.py:119-169 | what waits for approval on a payment is its refund's record, if that is undecided, and nothing else |
| `Backing.ResultsAreBacked` | agentcore/guardrails/executor.py:146-163 | wherever calls die, no result is stored and nothing is audited as executed or duplicate without an effect under its key |
| `Pipeline.LedgerRepository.ForEvent` | recovery/ledger.py:28-34 | finds the event's row |
| `Pipeline.LedgerRepository.ProcessedDelivery` | recovery/ledger.py:36-50 | finds the first row that acted on the delivery; never for an empty id |
| `Pipeline.LedgerRepository.Record` | recovery/ledger.py:17-22 | appends one row and returns its id |
| `PipelineRuns.ForEventIsExact` | recovery/ledger.py:28-34 | no row is found exactly when no row has the event |
| `PipelineRuns.ProcessedDeliveryIsExact` | recovery/ledger.py:36-50 | no delivery is found exactly when the id is empty or no row acted on it |
| `Pipeline.RecoveryPipeline.Process` | recovery/pipeline.py:119-194 | one event goes to the row it has, to a duplicate row, or through one attempt to one row; the event is marked; a raising attempt is recorded as failed |
| `Pipeline.RecoveryPipeline.RouteAndAct` | recovery/pipeline.py:196-230 | an attempt enriches from the provider, routes, and acts by rule or by agent; None where the call raises |
| `Pipeline.RecoveryPipeline.RunRule` | recovery/pipeline.py:232-264 | a rule's action is carried out by the agent's own tool through the executor, or needs no effect |
| `Pipeline.RecoveryPipeline.RunAgent` | recovery/pipeline.py:266-297 | the agent path saves the trajectory and reports the run's action, last effect status, outcome, trajectory id and, if the run awaits approval, the newest undecided approval of the payment |
| `PipelineModel.OutcomeNamesTellApart` | agentcore/trajectory.py:16-24 | no two outcomes of an agent run are recorded alike |
| `Pipeline.RecoveryPipeline.BuildExecutor` | recovery/agent.py:29-49 | both paths get the same handlers, policy and store, on the payment's own run |
| `Pipeline.RecoveryPipeline.PendingIds` | recovery/pipeline.py:135-146 | the failed-payment events without a row, oldest first, up to the limit |
| `Pipeline.RecoveryPipeline.ProcessPending` | recovery/pipeline.py:128-149 | a drain processes exactly those, in order, and counts them |
| `PipelineActs.RuleDecides` | recovery/pipeline.py:152-264 | for a payment failure without a row that is no redelivery, whose provider finds the payment and does not fail on the history, with a stored rule that applies: the best such rule decides; its action, for the payment's customer, under its key, of the provider's amount, happens once exactly if the executor's guards pass and the handler returns, and otherwise nothing does; the row fails exactly if they pass and the handler raises, or there is nothing to refund; else it and the event's mark name the rule, its version and action and the status audited; no trajectory is saved |
| `PipelineActs.RuleNeedsNoModel` | recovery/pipeline.py:227-233 | and whatever the model would answer, and whenever its deadline were, the same happens |
| `PipelineActs.AgentTakesOver` | recovery/pipeline.py:227-297 | with no rule that applies the agent is run on the payment and the world is what it made of it; the row fails exactly if the run raised, and otherwise tells its outcome, action and status, names no rule, and names its trajectory, which is saved |
| `PipelineActs.OnlyProvidersAndHandlersRaise` | recovery/agent.py:52-93 | such a run raises only where the provider could not be reached or an effect handler raised, never for a name without a handler |
| `PipelineActs.FailedLookupsFail` | recovery/pipeline.py:196-215 | where the provider is unknown, or does not find the payment, or fails on it or on the history: a failed row and nothing else |
| `PipelineActs.AnsweredOrNot` | recovery/pipeline.py:196-215 | these and the events whose lookups succeed are all there are |
| `PipelineActs.OthersAreLeftAlone` | recovery/pipeline.py:156-163 | an event that is unknown, or no payment failure, is left alone |
| `PipelineActs.ContextIsOfTheEvent` | recovery/pipeline.py:202-217 | what rules see of an event, field by field, and nothing that is not known |
| `PipelineRuns.DrainTakesOldest` | recovery/pipeline.py:135-149 | a drain takes pending events oldest first, up to its limit, and leaves one only if it took its limit |
| `PipelineRuns.LedgerStaysSound` | recovery/pipeline.py:152-194 | over every run: at most one row per event, at most one acting row per identified delivery, and an acting row before every duplicate |
| `PipelineRuns.RedeliveryDoesNothing` | recovery/pipeline.py:173-181 | a delivery that was acted on causes no executor call and no change but its duplicate row |
| `PipelineRuns.ProcessingIsIdempotent` | recovery/pipeline.py:152-155 | processing again changes nothing and names the same row |
| `PipelineRuns.DrainSettlesAll` | recovery/pipeline.py:128-149 | a drain with at most `limit` pending events leaves none, and draining again does nothing |
| `PipelineRuns.DrainSettlesItsShare` | recovery/pipeline.py:128-149 | for any limit, an event is still pending exactly if the drain did not take it |
| `PipelineRuns.EffectsHappenOnce` | recovery/pipeline.py:152-297 | over every run, with any webhooks, answers, rules, approvals, re-processing and deaths: a payment on which no executor call was cut short sees at most one link, one refund and one escalation |
| `PipelineRuns.EffectsPerDeath` | recovery/pipeline.py:152-297 | with deaths inside executor calls too: on each payment the effects of one kind exceed one, and all effects exceed three, by at most the deaths inside calls on that payment |
| `PipelineRuns.BudgetNeverRejects` | recovery/agent.py:20-26 | over every run, a budget of three actions and one more per death inside an executor call on the payment never rejects an action there, whatever dies elsewhere |
| `RefundAmounts.EffectsAreQuoted` | recovery/tools.py:132-160 | over every run, with deaths anywhere: every effect, and every action that waits, is a free link or escalation, or a refund that cost and asked for the amount the provider's record of the payment had in some attempt |
| `RefundAmounts.RefundsAreQuotedAndApproved` | recovery/tools.py:132-160 | so each refund is of an amount the provider quoted, and one above the threshold was performed with the payment's record approved and not rejected since |
| `RefundAmounts.SpendIsRefunded` | recovery/tools.py:132-160 | on a payment whose calls all finished the recorded spend is what was refunded |
| `LedgerRecords.RowsNameTheirTrajectories` | recovery/pipeline.py:266-297 | over every run, each row of an agent run names a saved trajectory of its own, which says the row's action, outcome and status; no other row names one |
| `LedgerApprovals.AgentRowNamesItsApproval` | recovery/pipeline.py:277-282 | an agent's row that awaits approval is on a payment whose last executor call asked for its refund, which is on file and not approved; it names that record exactly if it is undecided; any other agent row names none |
| `LedgerApprovals.RuleRowNamesItsApproval` | recovery/pipeline.py:232-264 | a rule's row that awaits approval names the record of the refund it asked for; any other rule row names none |
| `LedgerApprovals.RowsNameTheirApprovals` | recovery/pipeline.py:232-297 | over every run, with deaths anywhere: a row that awaits approval is on a payment whose refund is on file, the approval a row names is that refund's record, and no other row names one |
| `LedgerClaims.AgentRowTellsTheTruth` | recovery/pipeline.py:266-297 | an agent's row that claims resolved or escalated has seen an effect of the kind it names on its payment, unless it has no status, and then no executor call was made |
| `LedgerClaims.NothingDoneIsResolved` | agentcore/agent/loop.py:215-232 | a run the model finishes at once is recorded as resolved with nothing asked of the executor |
| `LedgerClaims.RuleClaimHolds` | recovery/pipeline.py:70-82 | a rule's row that claims resolved, escalated or duplicate has seen an effect of its kind on its payment |
| `LedgerClaims.LedgerTellsTheTruth` | recovery/pipeline.py:232-297 | over every run, with deaths anywhere: every row that claims an effect, by rule or agent, now or as a duplicate, is on a payment that has seen an effect of that kind, but for an agent's row without any effect |
| `PipelineRuns.AttemptExplains` | recovery/pipeline.py:196-297 | an attempt's whole effect on the guarded world is a sequence of execute calls for tool actions |
| `PipelineRuns.RuleRowTellsTheTruth` | recovery/pipeline.py:70-82 | a rule's row claims resolved or escalated exactly when its attempt had one effect, of the rule's kind, under the payment's key; otherwise the world has seen no effect |
| `PipelineRuns.DistilledRefundIsUngated` | recovery/distiller.py:331-347 | a refund decided by a rule the distiller activated, of the event's amount, never waits for approval |
| `RateLimiter.RateLimiter.Allow` | recovery/playground.py:82-90 | on non-decreasing times the pruned queue answers as the full history does: yes exactly when fewer than `max_runs` allowed hits are within the window |
| `RateLimiter.RateLimiter.Prune` | recovery/playground.py:84-86 | pruning leaves exactly the recent hits |
| `RateLimiter.NoWindowOverflows` | recovery/playground.py:73-90 | no interval of the window's length holds more than `max_runs` allowed runs |

## Left out

- HTTP, webhooks' signature checks, the dashboard, the playground page, prompts and settings validation: interface code around the modelled core.
- Provider adapters and model backends: a provider is a lookup that may fail and effect handlers that may raise; a model's answers are an arbitrary function of the iteration and the history.
- Database sessions and JSON text: each committed call is atomic, tables are sequences or maps, JSON is a value. Results a handler returns are taken to be serialisable.
- Time: approval times, trajectory times and rule timestamps are left out or counted in observations. Approval ids are inputs that never repeat, and which of some approvals is the newest is an input.
- Floating point: costs, amounts and rates are reals, z is exactly 1.96, and the square root of a Wilson bound is any non-negative number whose square is the discriminant.
- Detail and error texts in audit entries, results, ledger rows and demotion reasons; in an agent's observations they are given per iteration.
- Aliasing of the records the in-memory store hands out: callers here get values.
- `intervals_overlap`, `percentile`, the report's series, cost, latency and retry sweep: aggregates over the records modelled here.
- The generator's draws, the ground truth and the customer simulator: only the ranges a case may have are modelled, any stream of such cases may come, and recovery is an arbitrary function of case, action and budget.
- `ToolRegistry` as an object, duplicate registration and the tool catalogue: the tools of a case are a map.
- Token counts, costs and trajectory serialisation; a saved trajectory is its steps, outcome and action.
- Rows of equal priority come in the order they were added, which the database does not promise.
- Several worker processes: the pipeline's lock makes processing serial within one.
- `LedgerApprovals.RowsNameTheirApprovals`: for providers that answer with the payment they were asked for; a row on any other payment is not followed.
- `LedgerClaims.LedgerTellsTheTruth`: for providers that answer with the payment they were asked for, likewise.
- `Meaning.DistillationPreservesMeaning`: distilled rules in the database one starts from are those earlier runs left, with the same agent and on the same hand-written rules.
- `RateLimiter.RateLimiter.Allow`: the limit is a natural number; a negative one would behave as 0.
