# Verified model of the recovery engine

This project models the recovery engine of the repository: the batch orchestrator
that drives payment events through seven pure policy engines, executes bounded
touches and writes every transition to a hash-chained audit log behind an atomic
claim gate; the baseline policy and the auditors it is compared with; the reports
computed from the log; the live streams that carry the log to clients; and two
small pieces of arithmetic and parsing. `dafny verify dfyconfig.toml` checks it.

How it is built:

- `Types`, `Classify`, `Rules`, `Engines`, `Policy`, `Execution`: the domain, the
  classifiers, the tunable rules, the engines and the simulated touches. `Hours`,
  `Signals`, `Events` say what they do on the clock and the raw signal, in literals.
- `Loop`: the control structure of the batch loop over an arbitrary deterministic
  machine; `Runner` supplies the machine the source runs, and `Orchestrator` is the
  loop itself over a mutable store, proved equal to `Loop.Process`.
- `Rows`, `Isolation`, `Grammar`, `Bounds`, `Quota`, `Forecast`, `Order`, `Invoices`,
  `Monotonicity`, `Naive`, `Baseline`, `Dominance`, `Locked`,
  `Compliance`: theorems about whole runs and about pairs of runs.
- `Chain`, `Anchor`, `Store`, `Protocol`, `Concurrency`: the hash chain, its anchor, the
  store, and many workers on one store with crashes and reopenings between any two
  operations.
- `Sorting`, `Metrics`, `Eligibility`, `Rates`, `Settlement`, `Replay`, `Sandbox`: the log's consumers.
- `Stream`, `Fanout`: the live stream to a client and the gateway's fan-out.
- `Generate`, `Rounding`, `Webhook`: batch scaling and the signature header.

Conventions. A `Task` is an event with the facts the loop reads off its signal
(`Classify.Prepare`). An `Env` holds the tunables, the clock and the draw. Theorems
hold for every draw, an arbitrary function of event id and attempt;
`Execution.SeededDraw` is the source's own generator, and every counterexample uses it. A
`Machine` gives the turn a task takes at an attempt; lemmas over `Machine` hold for
any policy that is `WellFormed`, and `Runner.MachineIsWellFormed` shows that the
source's policy is one. SHA-256 and the JSON encoder are arbitrary functions: digests
have 64 characters and distinct payload objects encode distinctly (`Chain.Sound`),
but nothing says that the hash is injective. Statements that need it end in "or two
different strings, each hashed in one of these logs, have the same digest" or "or a
string hashed in these logs has the all-zero digest".

Where the code and its documentation disagree, the model follows the code:

- `README.md:164` promises at most three outbound touches per customer. Unreachable
  voice, payment degradation and promises to pay never look at the cap. A customer ends
  up above it exactly when one of their events belongs to such a case and, from the
  touches foretold for it, is not recovered in time (`Forecast.CapIsExceededExactlyWhen`);
  `Quota.UnreachableVoicePassesTheCap` is an event that the shipped tunables and the
  source's generator call eight times.
- `go/rz/sandbox.go:30-32` says that locked violations are always 0. A revoked mandate
  that reaches the degradation engine with a low success rate is contacted;
  `Locked.MandateHitsArePredictable` gives the exact condition and
  `Locked.RevokedMandateIsTouched` an event. The do-not-call counter
  (`go/rz/sandbox.go:36`) is never raised at all.
- With the batch time unset the rows are stamped 1970-01-01T00:00Z, which is 05:30 in
  India: the auditor then flags every voice contact (`Locked.UnsetTimeFlagsEveryVoiceContact`).
- `README.md:159` promises at most three retries per invoice; the code counts the
  attempts of an event. An invoice gets exactly the sum of what its events are foretold
  to spend (`Invoices.RetriesAreForetold`), six in `Invoices.SharedInvoicePassesTheBudget`.
- `README.md:77-80` lists the touch cap before the retry budget and before the promise
  check; the code checks promise, budget, cap (`go/rz/engines.go:23-34`). The two orders
  touch the same customers at the same attempts; their rows differ exactly when an event
  runs into two of the limits at once (`Order.OrderShowsExactlyWhen`). With the shipped
  tunables three failed retries do: the code escalates, the documented order abandons
  (`Order.ThreeFailuresShowTheOrder`).
- `go/rz/compare.go:5-8` says that the real engine cannot commit the violations counted
  there. That holds of the retry flows; on any batch the number of violations is
  foretold, and positive exactly when some event offends
  (`Compliance.RealViolationsAreForetold`). Five of the eight calls above are violations
  (`Compliance.RealEngineViolates`).
- `README.md:169` and `go/rz/engines.go:185-188` send large promises to a supervisor, but
  `go/rz/statemachine.go:29-41` does not copy the amount, so the rule sees 0.
  `Policy.SupervisorIsMissedExactlyWhen` says for which events this matters;
  `Policy.LargePromiseIsContacted` is one.
- `go/rz/store.go:75-77` says that a claim is granted exactly once. An event claimed
  when the budget is exhausted, or just before a crash, leaves no row and can be claimed
  again after reopening (`Protocol.ClaimIsGrantedTwice`); what holds is that at most one
  claim ever executes anything (`Protocol.AtMostOnce`), and `Replay.ClaimedIdsAreLogged`
  says which claim has no row.
- `touchesSent` (`go/rz/metrics.go:69-71`) is not the number of touches: failed touches
  count twice (`Settlement.TouchesSentCountsFailuresTwice`). It is right exactly when no
  event fails its first touch (`Forecast.TouchesSentIsRightExactlyWhen`).
- `go/rz/generate.go:75` speaks of largest-remainder rounding; the code rounds each
  share and gives the rest to the last flow. The result is a largest-remainder
  apportionment for seventeen of every thirty totals and for 4 and 5
  (`Rounding.LargestRemainderExactlyWhen`), not for 2 (`Rounding.TwoEventsAreNotApportioned`).

## Model

| member | source | states |
|---|---|---|
| Classify.ClassifierRange | go/rz/classify.go:198-218 | only subscriptions, mandates and payment degradation can classify as fraud or revoked mandate; every other flow yields only its own buckets |
| Signals.CodeBucket | go/rz/classify.go:20-43 | each of the 22 codes, in any letter case, yields its bucket, and no other text any |
| Signals.BucketIsOfTheSignal | go/rz/classify.go:92-218 | for every event and bucket: the bucket is exactly the one that the signal's codes, words, numbers and flags call for, in the stated priority |
| Events.EventIsTouchedExactlyWhen | go/rz/runner.go:244-273 | at any attempt of any event the customer is touched exactly when the raw signal's keys, the clock and the limits say so |
| Events.EveryTouchIsBySignal | go/rz/runner.go:98-149 | in every run each step of each driven event was executed exactly then |
| Events.EveryRowIsOfItsEvent | go/rz/runner.go:84-96 | in every run, markers included, every row of delivery i carries the identity, amount and bucket of event i, and the batch time |
| Events.LockedSignalsInRuns | go/rz/engines.go:14-22 | in every run, under any tunables and draws, an event that signals fraud by code or words is suppressed, one with a revoked-mandate code escalated and a flagged call abandoned, in one turn that executes nothing |
| Events.CallsStopAtNine | go/rz/rules.go:195-205 | with the batch time set, an unflagged customer, reachable and below the limits or unreachable, is called exactly from 09:00.000 up to 20:59:59.999 in India |
| Events.IncentiveExactlyWhen | go/rz/engines.go:62-85 | the first reminder offers the incentive exactly when the signal's cart value reaches the threshold |
| Events.TruncatesTowardsZero | go/rz/runner.go:275-287 | JSON numbers are read as integers by truncation towards zero |
| Hours.QuietExactlyWhen | go/rz/rules.go:195-205 | the rule's hour and the auditor's own computation are both quiet exactly from 21:00 to 09:00 in India, by the milliseconds of the day |
| Execution.ComputeSeededRandom | go/rz/execution.go:25-34 | the loop over the id computes the generator's 32-bit value, which lies in [0, 1) |
| Rules.MandateRetrySequenceMs | go/rz/rules.go:90-101 | the retry sequence has one slot a day, at least one, at exact day offsets |
| Policy.TouchedExactlyWhen | go/rz/engines.go:14-224 | a customer is touched if and only if the flow's conditions hold, independently of the order in which the engine checks its rules |
| Policy.RuleFiresExactlyWhen | go/rz/engines.go:14-224 | which rule an engine names is fixed by conditions of which exactly one holds, so no order of checks is left open |
| Policy.EveryStepIsTraceable | go/rz/runner.go:98-149 | in every run, every driven event's decision row names the one rule that fires at its attempt and touch count, its condition explains what is done, and a touch followed exactly when the flow's conditions held |
| Rows.EveryStepSays | go/rz/runner.go:121-149 | in every run, every row of a driven event carries its decision's state, and the channel, note, rule and state of its flow's touch at that attempt; a touch recovers exactly when the draw is below the stated chance |
| Rows.EveryMarkerSays | go/rz/runner.go:58-78 | in every run a duplicate marker carries the event's identity, the suppression, and nothing of a touch |
| Rows.VoiceRowsAreDaytime | go/rz/rules.go:195-205 | with the batch time set, no voice row of any run is stamped between 21:00 and 09:00 in India |
| Rows.VoiceContactsAreFailedCalls | go/rz/sandbox.go:57-65 | the voice contacts that the auditor inspects in a run's log are its failed calls, one row each |
| Rows.SandboxCountsRows | go/rz/sandbox.go:134-139 | the sandbox's touch count is two rows per touch, one more per recovery, and one per hold outside promises |
| Policy.SupervisorIgnoresTheAmount | go/rz/statemachine.go:29-41 | the supervisor rule fires for every dated promise or for none, whatever the amount |
| Policy.SupervisorIsMissedExactlyWhen | go/rz/engines.go:185-188 | leaving the amount out changes a decision exactly for dated promises that were neither broken, missed nor flagged and whose amount lies on the other side of the threshold than 0 |
| Policy.LargePromiseIsContacted | go/rz/statemachine.go:29-41 | with the shipped tunables a promise of 25000 rupees for tomorrow is contacted, where the rule with the amount escalates |
| Runner.MachineIsWellFormed | go/rz/statemachine.go:24-97 | every turn writes rows of its own event at its own attempt, goes on only after executing a touch, and otherwise ends in a running-terminal state |
| Loop.TraceShape | go/rz/runner.go:98-119 | an event's trace is the turns of consecutive attempts; its end says exactly whether a decision, the budget or the 100-step guard stopped it |
| Loop.FirstClaimDrives | go/rz/runner.go:49-83 | an event is driven exactly when its id was not claimed before and occurs first here; every event is delivered unless the limit is hit |
| Orchestrator.Perform | go/rz/runner.go:116-215 | exactly the turn's rows are appended, decision row first, and the state and the executed flag are the turn's |
| Orchestrator.ExecuteTouch | go/rz/runner.go:111-123 | a touch can only be executed once its decision row is the last row of the log, and its result is the executor's |
| Orchestrator.DriveEvent | go/rz/runner.go:98-216 | the inner loop over mutable counters leaves exactly the trace's rows, touches, budget use, limit flag and escalation |
| Orchestrator.RunBatch | go/rz/runner.go:34-242 | log, claims, escapes and limit flag after a batch are exactly those of the run `Process` describes |
| Runner.TurnActsOnDecision | go/rz/execution.go:48-82 | the executor is never reached with an unknown flow, so its panic is unreachable |
| Isolation.CustomerIsolation | go/rz/runner.go:41-217 | within the budget, a customer's rows in the whole batch equal the rows of running that customer's events alone, from any earlier claims and counters |
| Isolation.InterleavingIsIrrelevant | go/rz/runner.go:49-217 | two interleavings of the same per-customer streams write the same rows for every customer |
| Grammar.TraceGrammar | go/rz/runner.go:102-216 | an event's rows are touch pairs at consecutive attempts, then one recovered touch or closing group, or a cut |
| Grammar.BatchGrammar | go/rz/runner.go:49-217 | in the log of any batch, every driven event's non-duplicate rows follow that grammar with the event's own end |
| Grammar.EventRowsAreItsTrace | go/rz/runner.go:54-78 | the non-duplicate rows of an id in a run are those of the one delivery that drove it; a claimed id has none |
| Grammar.TerminalIsFinal | go/rz/types.go:81-88 | once a row is terminal every later row of the event has the same state, which is the state the event ended in |
| Grammar.LastRowShowsTheEnd | go/rz/runner.go:287-293 | a finished event's last row shows the running-terminal state it finished in |
| Grammar.CutRowsStayOpen | go/rz/runner.go:102-107 | an event cut by budget or guard has no running-terminal row |
| Bounds.CountersCountExecutions | go/rz/runner.go:123-124 | a customer's counter grows by exactly the touches executed for them |
| Bounds.BudgetIsKept | go/rz/runner.go:104-108 | no run takes more steps than the batch budget |
| Bounds.GuardStopsAfterAHundred | go/rz/runner.go:100-103 | no event takes more than 100 steps, and the guard stops it after exactly that many |
| Bounds.CappedTrace | go/rz/runner.go:102-119 | cap minus touches decreases: a capped event stops at the cap, and a cap below the guard is never cut by it |
| Bounds.EnginesRespectTheCap | go/rz/engines.go:31-34 | the touch-capped engines execute nothing once the customer is at the cap |
| Bounds.TouchesAreCapped | go/rz/rules.go:45-47 | in a batch of touch-capped flows no customer is touched more often than the cap |
| Bounds.EveryEventFinishes | go/rz/runner.go:80-119 | such a batch, within its limit and with a cap below 100, delivers every event and finishes every fresh one |
| Quota.ExactExecutions | go/rz/runner.go:98-164 | for every draw an event is executed exactly as often as the smallest of its quota, its first successful attempt plus one, the guard and the budget, and recovers by a touch exactly when that attempt lies below the other three |
| Quota.EngineActsBelowQuota | go/rz/engines.go:14-203 | every flow's engine touches at exactly the attempts below one number, computed from the first turn |
| Quota.MandateRetriesAreSequenced | go/rz/rules.go:103-117 | a mandate is never retried outside its window; inside it at most as often as budget, cap, sequence length and days elapsed allow, and for every draw exactly as often as quota, first success, guard and budget say |
| Quota.CapIsPassedExactlyWhen | go/rz/rules.go:45-47 | one event takes a customer past the cap exactly when its case ignores the cap, may touch, and its first success, the guard and the budget all come after the touches left |
| Forecast.BatchIsForetold | go/rz/runner.go:41-217 | claims, touch counters, remaining budget and limit flag after any batch, from any book, are a closed fold over its events: quota, first success, guard and budget |
| Forecast.DeliveryIsForetold | go/rz/runner.go:49-108 | every delivery is driven, or suppressed, from the foretold book |
| Forecast.CapIsExceededExactlyWhen | go/rz/rules.go:45-47 | over any batch, within its limit or not, a customer who starts within the cap ends above it exactly when one of their events, read off the batch and from the foretold book, passes it |
| Forecast.TouchesSentIsRightExactlyWhen | go/rz/metrics.go:69-71 | touchesSent is the number of touches exactly when no event of the batch fails its first touch |
| Quota.UnreachableVoicePassesTheCap | go/rz/engines.go:152-154 | with the shipped tunables and the source's generator, the unreachable customer of event `t` is called eight times against a cap of three |
| Invoices.RetriesAreForetold | go/rz/runner.go:98-164 | the retries of an invoice over any batch are exactly the sum of what its events, read off the batch, are foretold to spend |
| Invoices.SharedInvoicePassesTheBudget | go/rz/engines.go:27-30 | with the shipped tunables and the source's generator, two events of one invoice are retried six times against a budget of three |
| Order.OrderMattersExactlyWhen | go/rz/engines.go:14-36 | the documented order of the retry checks decides differently exactly when no locked rule decides and at least two of touch cap, retry budget and promise hold; then neither order touches |
| Order.OrderShowsExactlyWhen | go/rz/runner.go:41-217 | on any batch both orders end with the same book and limit flag; their deliveries differ exactly when some event, read off the batch, reaches two limits at once |
| Order.ThreeFailuresShowTheOrder | go/rz/engines.go:27-34 | with the shipped tunables and the source's generator, an event with three failed retries ends escalated, and abandoned under the documented order |
| Monotonicity.DecisionsAreMonotone | go/rz/engines.go:14-203 | where the lower limits touch a customer the higher ones do too |
| Monotonicity.RaisingLimitsLosesNothing | go/rz/runner.go:98-164 | with at most one touch-capped event per customer and no limit hit, raising any of six limits keeps every recovery, at the same attempt, with the same rows |
| Monotonicity.RaisingLimitsImprovesMetrics | go/rz/sandbox.go:171-184 | then recovered count and recovered amount can only grow |
| Monotonicity.RecoveriesAreKeptExactlyWhen | go/rz/runner.go:98-164 | for any batch foretold to stay within both limits, a delivery's recovery is kept by the raised limits exactly when the touches foretold for its customer still leave room for its first success |
| Monotonicity.SharedCustomerLosesARecovery | go/rz/runner.go:124 | two touch-capped events of one customer for which, with the source's own generator, one more retry loses a recovery |
| Naive.DriveNaively | go/rz/naive.go:53-172 | the inner naive loop appends exactly the event's rows and collects exactly its touches, counted over the list so far |
| Naive.RunNaiveBatch | go/rz/naive.go:45-179 | the naive run's log and touch list are exactly those of the batch, with the clock's time when none is given |
| Baseline.EventTouchesAre | go/rz/naive.go:70-94 | a naive event is touched at attempts 0, 1, 2, ... up to its first success or ten, three days apart, each touch with the event's facts and the next count |
| Baseline.EventRowsAre | go/rz/naive.go:96-171 | it leaves one row per attempt with the executor's channel, and then the recovery once more or the parked row |
| Baseline.BatchRowsAre | go/rz/naive.go:53-172 | the rows of a naive batch are those of its events, in order, and no others |
| Baseline.SucceedsExactlyWhen | go/rz/execution.go:84-205 | an attempt succeeds exactly when the draw is below the stated chance of the event's reason or channel |
| Baseline.BatchTouchesAre | go/rz/naive.go:53-172 | every touch of a naive batch is some event's, in the order of events and attempts, and counts its customer's earlier touches |
| Baseline.NaiveViolationsAre | go/rz/compare.go:29-70 | the audit of the naive policy in closed form, for every batch, time and draw: six counters as sums over the events |
| Baseline.CapBreachesOf | go/rz/compare.go:52-55 | of a customer's touches in a counted list, exactly those beyond the cap are counted |
| Baseline.NaivePolicyCallsTheSilent | go/rz/compare.go:43-48 | at noon, with the source's generator, a customer flagged do-not-call is called eight times: eight breaches |
| Dominance.NaiveRecoversIff | go/rz/naive.go:70-171 | a naive event recovers exactly when one of ten blind attempts succeeds, at the first that does, and is parked otherwise |
| Dominance.RealRecoversFirst | go/rz/runner.go:122-163 | a real recovery by touch happens at the first successful attempt |
| Dominance.NaiveMatchesTouchRecovery | go/rz/naive.go:43-147 | the naive run recovers the same event at the same attempt exactly when that attempt is below ten |
| Dominance.CappedRecoveryIsByTouch | go/rz/engines.go:31-83 | touch-capped flows recover only by touching, and before the cap |
| Dominance.NaiveDominates | go/rz/naive.go:43-147 | with a cap of at most ten, every real recovery of a touch-capped flow is a naive recovery at the same attempt |
| Dominance.NaiveMetricsDominate | go/rz/compare.go:72-115 | on whole batches the naive recovered count and amount are at least the real ones |
| Locked.CountLockedViolations | go/rz/sandbox.go:44-98 | the auditor's counters are the numbers of matching rows by its own computation of the hour, and the do-not-call counter is 0 |
| Locked.LockedRulesNeverBudge | go/rz/sandbox.go:30-68 | for every batch, claims, counters and tunables the rows the run appends hold no fraud violation, and no quiet-hours violation when the batch time is set |
| Locked.UnsetTimeFlagsEveryVoiceContact | go/rz/sandbox.go:59-65 | with the batch time unset exactly the voice contacts are flagged |
| Locked.MandateHitsComeFromAlerts | go/rz/engines.go:121-136 | a revoked mandate is touched exactly when the batch drives a degradation event that alerts on one |
| Locked.MandateHitsArePredictable | go/rz/engines.go:121-136 | within the limit this can be read off the batch and the claims |
| Locked.RevokedMandateIsTouched | go/rz/engines.go:121-136 | a degradation event with a revoked mandate and a success rate of 0.5 is contacted under any tunables and any time |
| Locked.LockedTasksIgnoreTunables | go/rz/rules.go:12-14 | a locked event is driven alike under any tunables, touch history and draw, in one turn that executes nothing |
| Compliance.CountComplianceViolations | go/rz/compare.go:29-70 | each counter is the number of touches its rule forbids, the total the number of touches any rule forbids |
| Compliance.TotalCountsTouches | go/rz/compare.go:67-69 | the total is at least each counter, at most their sum and at most the number of touches |
| Compliance.RecordedCounters | go/rz/naive.go:72-77 | the engine's per-customer counters equal the naive way of counting earlier touches in a list |
| Compliance.RecordedTouchesSay | go/rz/naive.go:82-93 | every touch recorded of a real run carries the facts of a driven event and its count of touches |
| Compliance.AuditFindsExactly | go/rz/compare.go:29-70 | on every flow an executed touch violates exactly when it is beyond the retry budget or the touch cap, during a promise, or of a revoked mandate; on a touch-capped flow only budget and promise remain, on a retry flow nothing |
| Compliance.RealViolationsAreForetold | go/rz/compare.go:5-8 | the violations counted on the real engine's touches of any batch are the foretold ones, and some exist exactly when some event of the batch, from the foretold book, offends |
| Compliance.RealEngineViolates | go/rz/compare.go:5-8 | with the shipped tunables and the source's generator, five violations in a batch of one event |
| Compliance.RealEnginePassesTheAudit | go/rz/engines.go:14-60 | the recorded touches of any batch of retry flows contain no violation under any tunables |
| Chain.StablePayloadIsInjective | go/rz/chain.go:19-60 | the payload object determines all 17 fields, unset ones included |
| Chain.VerifyChain | go/rz/chain.go:100-118 | valid if and only if every row links and hashes right; otherwise the reported row is the first broken one |
| Chain.TruncationVerifies | go/rz/chain.go:102-118 | validity is prefix-closed |
| Chain.AppendVerifies | go/rz/chain.go:73-87 | appending to a valid chain gives a valid chain |
| Chain.HashCommits | go/rz/chain.go:68-71 | a shared digest means a shared row and predecessor, or a collision |
| Chain.TailCommits | go/rz/chain.go:102-118 | two verified logs with the same tail hash are equal, or a collision or genesis preimage among their own strings |
| Chain.HashesAreDistinct | go/rz/chain.go:102-118 | the hashes of a valid chain are distinct, modulo the same |
| Chain.EditIsReported | go/rz/chain.go:102-118 | editing any payload field of row k of a valid chain is reported at k, or the edit collides |
| Chain.HashEditIsReported | go/rz/chain.go:102-118 | changing a hash field of row k is reported at k |
| Chain.DeletionIsReported | go/rz/chain.go:102-118 | deleting interior row k is reported at k, modulo the same |
| Anchor.PublishAnchor | go/rz/anchor.go:64-83 | publishing records the tail under the root of the whole history and keeps the sink well rooted |
| Anchor.VerifyAnchor | go/rz/anchor.go:94-132 | consistent if and only if the tail is the anchored one and the history recomputes to its root; the reason names the failed check |
| Anchor.OnlyTheAnchoredLogPasses | go/rz/anchor.go:94-132 | the only log that passes chain and anchor is the anchored one, modulo broken hashes |
| Anchor.OnlyTheAnchorSeesTruncation | go/rz/anchor.go:94-112 | every truncation passes the chain and fails the anchor, modulo broken hashes |
| Anchor.RootsCommit | go/rz/anchor.go:64-83 | equal roots force equal histories of tails, or a root collision or genesis root |
| Anchor.LatestRootFixesTheHistory | go/rz/anchor.go:113-118 | two well-rooted sinks with the same latest root hold the same tails, modulo the same |
| Store.AuditStore.Append | go/rz/store.go:38-66 | appends the row linked to the last hash, and changes no claim |
| Store.AuditStore.Claim | go/rz/store.go:75-92 | true exactly for an id that is neither claimed nor logged; afterwards it is claimed |
| Store.AuditStore.Hydrate | go/rz/store.go:94-111 | the claims become exactly what was claimed or logged, once |
| Store.AuditStore.Clear | go/rz/store.go:113-124 | empties log and claims |
| Store.AppendedAllVerifies | go/rz/store.go:38-66 | every log a run leaves behind verifies if the one it started from did |
| Protocol.ReachKeeps | go/rz/store.go:39-111 | the protocol's invariant holds after every interleaving of workers, aborts, crashes and reopenings |
| Protocol.AtMostOnce | go/rz/runner.go:50-78 | all executions of an id come from one claim winner, who executes attempts 0, 1, 2, ... once each, and all of its run's once it is done |
| Protocol.ClaimIsGrantedTwice | go/rz/store.go:75-77 | a claim, a crash and a claim after reopening: two winners of one id, the first of which did nothing |
| Protocol.ExecutionsAreLogged | go/rz/runner.go:111-123 | whenever the process stops, every executed attempt has its own turn's decision row in the log |
| Protocol.ReachableLogsVerify | go/rz/store.go:39-66 | every reachable log verifies |
| Protocol.LogShowsOneRun | go/rz/runner.go:98-216 | a started event's rows in the shared log are a prefix of its one winner's sequential run, and all of it once the script is done |
| Protocol.LoggedIsNeverWonAgain | go/rz/store.go:94-111 | an id with a row in the log is never claimed again, across any crashes |
| Protocol.SoloRun | go/rz/runner.go:34-242 | a worker alone on a store ends with the log, claims, counters and budget of `Process`: the protocol interleaves the real loop |
| Concurrency.LockedRulesHoldConcurrently | go/rz/sandbox.go:30-68 | a log without fraud violations never gets one from any workers, tunables, crashes and reopenings; nor a quiet-hours violation if all batch times are set; nor a touched revoked mandate if no batch alerts on one |
| Concurrency.GrammarHoldsConcurrently | go/rz/runner.go:98-216 | in every reachable log a started event's rows are a prefix of rows the grammar accepts, all of them once its worker is through, and constant after a terminal one |
| Metrics.TerminalIsTheLast | go/rz/metrics.go:55-76 | the terminal map holds each event's last deciding row, duplicate markers skipped |
| Metrics.ScanLog | go/rz/metrics.go:49-76 | the first pass leaves each flow's events and touches, the terminal rows and the ids seen |
| Metrics.TallyTerminals | go/rz/metrics.go:78-100 | the second pass credits every terminal row once, whatever the order of the map |
| Sorting.SortByFlow | go/rz/metrics.go:122-124 | the result has the same rows in the lexicographic order of their flows' names |
| Sorting.KnownFlowsInOrder | go/rz/metrics.go:122-124 | the seven known flows come out in the alphabetical order of their names |
| Metrics.ListExceptions | go/rz/metrics.go:102-124 | the list holds each escalated or abandoned event's last terminal row exactly once, sorted by flow name |
| Metrics.ComputeMetrics | go/rz/metrics.go:48-169 | the result is the fold `MetricsOf` and the list is exact and sorted |
| Rates.MetricsRates | go/rz/metrics.go:131-138 | on any log, recovery rate times money at risk is the money recovered, cost times recoveries the touches sent; of nothing both are 0 |
| Rates.RunRates | go/rz/metrics.go:131-138 | on a run's log these are the money of its recovered events over the money of its finished ones, and its touch rows per recovered event |
| Rates.FlowEntryCounts | go/rz/metrics.go:78-100 | each flow's entry counts the events whose last terminal row is on that flow and in that state, the events first seen on it, and its touch rows |
| Rates.FlowMoney | go/rz/metrics.go:88-91 | on a run's log a flow's recovered amount is the money of its own recovered events |
| Rates.UnsetAmountsAddNothing | go/rz/metrics.go:80-84 | on a log without amounts both sums are 0 |
| Eligibility.ComputeEligibility | go/rz/adapter.go:84-128 | the result is the segmentation `EligibilityOf` |
| Rates.EligibilityRates | go/rz/adapter.go:107-118 | eligible rate times eligible events, and blended rate times events seen, are the recovered events |
| Eligibility.OutcomesPartitionEvents | go/rz/metrics.go:140-168 | recovered, escalated, abandoned and suppressed partition the events counted, which are among those seen |
| Eligibility.FlowsSumToTotals | go/rz/metrics.go:78-100 | every per-flow count and amount column sums to its total, whatever flows the log mentions |
| Eligibility.TouchesSentCoversKnownFlows | go/rz/metrics.go:126-129 | the touches column sums to all touch rows, and touchesSent to those of the seven known flows |
| Eligibility.RecoveredIsAtRisk | go/rz/metrics.go:131-134 | with non-negative amounts the recovered amount is at most the amount at risk and the rate is between 0 and 1 |
| Eligibility.EligibilityAgreesWithMetrics | go/rz/adapter.go:101-128 | both consumers count the same outcomes, blocked plus eligible are the events seen, and the eligible rate is at least the blended one |
| Settlement.TraceSettles | go/rz/metrics.go:72-74 | an event that finished terminally leaves exactly that state and amount behind; any other leaves none |
| Settlement.MetricsTellTheRun | go/rz/metrics.go:5 | the metrics of a run's rows count and sum exactly the events that ended so, and the escalated count is the length of the escape list |
| Settlement.EscapesAre | go/rz/runner.go:166-184 | the escape list holds exactly the escalated events, each with its id, flow, reason and amount |
| Settlement.RunsAddUp | go/rz/metrics.go:48-169 | on a log with a past, every outcome count and both amounts are those of the past plus those of the run |
| Settlement.TouchesSentCountsFailuresTwice | go/rz/metrics.go:69-71 | touchesSent is twice the executions minus the events recovered by a touch |
| Replay.ReportsIgnoreDuplicates | go/rz/metrics.go:57-63 | both reports equal themselves on the log without duplicate markers |
| Replay.ClaimedIdsAreLogged | go/rz/runner.go:54-83 | every id a run claims is logged, except exactly the event at which the exhausted budget stopped it |
| Replay.ClaimedBatchIsSuppressed | go/rz/runner.go:58-78 | a batch of claimed ids yields one marker per delivery and executes nothing |
| Replay.ReplayChangesNoReport | go/rz/runner.go:50-78 | after a run within its limit, redelivering its events in any selection, under any settings, before or after reopening, only adds markers and leaves both reports as they were |
| Sandbox.PolicyConfig.SetTunableField | go/rz/rules.go:24-29 | the current tunables become the applied copy |
| Sandbox.RunScenario | go/rz/sandbox.go:111-151 | every figure a scenario reports is that of its own run, which has no locked violation unless it alerts on a revoked mandate, and the defaults are restored |
| Sandbox.RunSandbox | go/rz/sandbox.go:160-214 | with the three named settings, metrics, touch count and violations of each scenario are those of its own run, as the baseline's metrics are of its, and the report claims that locked rules never budge exactly when no scenario alerts on a revoked mandate |
| Stream.StreamHub.Subscribe | go/rz/stream.go:31-46 | a fresh open channel is registered and the first subscription signalled |
| Stream.StreamHub.Unsubscribe | go/rz/stream.go:58-67 | only a registered channel is closed, once, so no send hits a closed one |
| Stream.StreamHub.BroadcastBytes | go/rz/stream.go:100-114 | every client is offered the payload once; a full queue drops it and nothing blocks |
| Stream.StreamHasNoGap | go/rz/streamserver.go:131-162 | a live client whose queue never overflowed was sent the log of the replay and then, live or queued, every row from some replayed row on, in order |
| Stream.RowsArriveOnceOrTwice | go/rz/streamserver.go:131-162 | with the queue drained every row has arrived, and exactly those between subscribing and replaying twice |
| Stream.EventHandler.Connect | go/rz/streamserver.go:131-132 | connecting is the feed's subscribe step |
| Stream.EventHandler.ReplayEntries | go/rz/streamserver.go:134-147 | the loop that writes out the log is the replay step |
| Stream.EventHandler.FollowOne | go/rz/streamserver.go:149-162 | a receive from the channel is the receive step |
| Stream.EventHandler.Leave | go/rz/streamserver.go:132 | the deferred unsubscribe is the disconnect step |
| Stream.BroadcastIsDelivery | go/rz/stream.go:69-114 | broadcasting the row just written, or a status, is the feed's delivery, whether the client listens, has left or is full |
| Fanout.AuditStreamService.Subscribe | gateway-ui/Services/AuditStreamService.cs:43-65 | a fresh id, and exactly the last 500 events published |
| Fanout.AuditStreamService.Enqueue | gateway-ui/Services/AuditStreamService.cs:85-96 | the trimmed buffer is the last 500 events published and the snapshot is the subscribers |
| Fanout.AuditStreamService.Publish | gateway-ui/Services/AuditStreamService.cs:85-108 | every handler gets exactly the event, once per subscription it has |
| Fanout.FanoutIsExact | gateway-ui/Services/AuditStreamService.cs:43-108 | for any interleaving a subscriber has seen the last 500 events before it joined and every later one until it left, in order, up to the one event whose handlers are still being called |
| Fanout.PublishIsThreeSteps | gateway-ui/Services/AuditStreamService.cs:85-108 | an undisturbed publish of the service is the lock, call and finish step of the interleaving model |
| Fanout.SubscribeIsJoin | gateway-ui/Services/AuditStreamService.cs:43-65 | subscribing a handler is the model's join step |
| Fanout.UnsubscribeIsLeave | gateway-ui/Services/AuditStreamService.cs:67-73 | unsubscribing is the leave step |
| Fanout.EnqueueIsLock | gateway-ui/Services/AuditStreamService.cs:85-96 | the locked part of publishing is the lock step, and the snapshot holds the handler exactly when its call is pending |
| Fanout.HandleIsCall | gateway-ui/Services/AuditStreamService.cs:97-108 | calling the handler is the call step, also after it unsubscribed |
| Generate.ScaleFlowCounts | go/rz/generate.go:73-102 | the counts are those of `CountOf`: non-negative, summing to the total, within 3 of the exact share, and exact for multiples of 60; clamping included |
| Rounding.LargestRemainderExactlyWhen | go/rz/generate.go:73-102 | the counts are a largest-remainder apportionment exactly for the totals 4, 5 and those with one of seventeen residues modulo 30 |
| Rounding.TwoEventsAreNotApportioned | go/rz/generate.go:88-102 | of two events both go to the last flow, whose exact share is 0.2 |
| Webhook.ParseSignatureHeader | go/rz/webhook.go:24-47 | the loops compute the parse of the header, with 64-bit wrap-around |
| Webhook.ParsesExactlyWhen | go/rz/webhook.go:24-47 | for every header: it yields time and signature exactly when, of the parts between the bars, the last that starts with `t=` has digits denoting that time in 64 bits and the last that starts with `s=` has that signature |
| Webhook.SplitCuts | go/rz/webhook.go:28 | the parts contain no separator and joined give the header back |
| Webhook.ParseInvertsPrint | go/rz/webhook.go:24-47 | parsing inverts the printer for every 64-bit time and every non-empty signature without a separator |
| Webhook.VerifyWebhook | go/rz/webhook.go:65-91 | accepts exactly a well-formed, fresh header with the body's HMAC, and otherwise names the first failed check |
| Webhook.EitherSpellingIsRead | go/rz/webhook.go:65-72 | the lower-case header is read unless it is missing or empty, then the capitalised one |
| Webhook.AHeaderIsParsed | go/rz/webhook.go:24-47 | the header `t=17, s=ab`, joined by a bar, parses to time 17 and signature ab |
| Webhook.FreshSignatureIsAccepted | go/rz/webhook.go:77-90 | a signed message is accepted exactly within 300 seconds either way, with an unaltered body (in HMAC) |

## Left out

- Texts: outcome strings, copy generation, exception summaries, tables and headlines; a row's `outcome` is the empty string in the model, and an escape is its event id, flow, reason and amount.
- Enumeration names: flows, rules, states and channels are constructors, not strings; timestamps are instants in milliseconds, so years outside 0-9999, which the auditor cannot parse back, are not distinguished.
- JSON encoding, SHA-256 and HMAC are abstract; that distinct payload objects encode distinctly is assumed in `Chain.Sound`.
- Floating-point rounding of probabilities, rates and shares: they are real numbers, shares exact quotients (the generator's draws are exact in the source).
- The wall clock is read once per run; 64-bit overflow of millisecond arithmetic is not modelled (it is in the webhook).
- Letter case is folded for ASCII only.
- I/O errors and partial writes of the log; the append of one line is atomic, and one store handle owns a log.
- Orchestrator.RunBatch: the text of the exception summary is not part of the result; a missing signal is the empty one.
- Metrics.ListExceptions: the text fields of the list, and the order within one flow, which the source leaves to the traversal.
- Protocol.AtMostOnce: `Clear` is not an operation of the concurrent system, and a worker's own state is taken as sequential.
- Fanout.AuditStreamService.Subscribe: handlers that throw, whose exceptions the service swallows, are not modelled.
- Stream.StreamHasNoGap: nothing is said about a client whose queue overflowed, and the status event sent when the log cannot be read is left out.
- Naive.RunNaiveBatch: requires known flows, because the executor panics on others.
- The reader of tunables files, the admin actions, roles, redaction, risk scores, LLM seams, the generator's random choices, HTTP plumbing and the gateway's pages.
