# Verification of the agent team workbench's control plane

A Dafny model of the parts of the workbench that keep durable state across
crashes, replays and concurrent callers, with proofs of what they promise:

- **Usage** (`CanonicalUsage`, `UsageCost`, `UsageLedger`): cumulative provider
  counters become per-Run deltas against a watermark anchor. The counters are
  nullable and checked against int64; the ledger is a state machine of terminal
  hooks that read, compute and commit at different times.
- **Layout migration** (`WorkspaceLayout`): the move of Agent directories into a
  workspace, driven by a frozen receipt and cut at any durable step.
- **Governed turns** (`TurnQuota`, `TurnSettlement`, `GovernedTurn`): admission, the
  phases 1..7 of a turn receipt, Plan commit or rejection, quota release or
  settlement, and replay.
- **Runner delivery** (`RunnerDelivery`): numbering, pending events,
  acknowledgements, resending after a reconnect, and offers.
- **Coordinator** (`Coordinator`): fencing of terminal hooks, bounded failure
  handling, the comment watermark.
- **Goals, Todos, claims and handoffs** (`Governance`, `GovernanceRuns`,
  `GovernanceCommands`, `GoalCancellation`, `SettlementKeys`).
- **Plans** (`PlanExecution`): submission, supersession, step execution, approval
  gates and budget failure of the Plans of one root task.
- **Session pool** (`SessionPool`): Create, Close, CloseSession, sweeps and Gateway
  restarts interleaved around a lock that is given up in the middle.
- **Parsers, search, history** (`PlanDecisions`, `ScopeSearch`, `History`).

`Wrappers`, `Text` and `Ordering` are shared helpers: optional values, white-space
trimming, and the order of strings.

`dafny verify dfyconfig.toml` checks everything.

## How the model is built

Objects whose methods update their fields are classes; each method carries out the
source's own steps and is proved to leave exactly the state a specification
function describes. What holds over whole runs is proved about those functions.
Each store transaction is one step, and a compare-and-swap commits only if what it
read is still stored.

Where a promise turned out not to hold on every input, the code is kept as it is
and the exact condition is proved:

- `CanonicalUsage.PaddedReferenceNeverMatches`: a session reference with outer white
  space never finds its own anchor again (`PaddedReferenceExample`).
- `GovernedTurn.ReplayCompletesExactly`: a replay ends a turn exactly when the
  dispatch phases already written still say what would be written now
  (`DriftExample`) and the settlement of its usage is not refused
  (`RefusedExample`); until its Plan is there, the Run also needs its live claim.
- `TurnSettlement.SettlesExactly`: a settlement is refused for good by an ended Run
  that cannot be frozen (`OverflowExample`), by a Run that comes after its
  reservation was closed, or by a closing over a Run without report whose price is
  unreadable or, where a cost is reserved, missing.
- `TurnSettlement.OrderFreeExactly`: settlements at different times give the ledger
  that one settlement gives exactly when all amounts that fit a reservation alone
  fit it together (`OrderExample`, `EarlySettlementsGoFirst`).
- `RunnerDelivery.ActiveRunLosesFraming`: an active Run loses its framing exactly when
  its last pending event is acknowledged before its terminal event is finalized
  (`UnfinalizedRunExample`), or after it was offered again under an earlier terminal
  marker (`ReofferedRunExample`).
- `Coordinator.WorkerReplaysAreNotFenced`: a Worker's hook acts again on a replay
  while no other Run is in charge, and so can lose another Worker's retry
  (`ReplayLosesTheRetry`, `ReplayExample`). Delivered twice in a row it acts twice
  exactly when it opened the recovery round, which the second delivery finds used up
  and blocks the task, or only took the control line back from a handoff
  (`SecondDeliveryActsExactly`, `BlockingReplayExample`).
- `GovernanceRuns.ResumesExactly` and `LostTransferStopsResume`: a Goal whose
  accepted handoff has lost its claim can be paused but not resumed
  (`LostTransferExample`).
- `GovernanceRuns.ConsistentExactly`: blocking before the start, and unblocking
  another task under a blocked root, leave the projection inconsistent
  (`BlockedDraftExample`, `UnblockedChildExample`).
- `GovernanceRuns.ReplayedControlExactly`: a replayed control receipt closes whatever
  turn is open on the Todo (`InterruptedTurnExample`).
- `PlanExecution.BarrierCheckMisses`: the check inside SubmitPlan lets a coordinated
  Plan finish over its Workers exactly when a finish stands between two dispatches
  (`BypassExample`). No caller submits such verbs for a coordinated task: clients are
  refused (`handlers_plans.go:41-45`) and what is submitted is a decoded decision, so
  no Plan of one ever does (`CoordinatedPlansAwaitWorkers`).
- `SettlementKeys.ReadBack`: the turns of a cancelled Goal survive a reload exactly
  when every number but the current turn's is a binary64 number, and the current turn
  is saved also under the number it reads back as (`CollapsedExample`,
  `CurrentTurnIsRestored`).
- `SessionPool.LostExactly`: a live workspace is lost exactly when a drop by an
  endpoint read before a Gateway restart forgets sessions of the new generation
  (`LostWorkspaceExample`), or when the response to its creation never arrives
  (`LostResponseExample`).
- `History.JoinSplitsExactly`: when prose is taken for a part of the trace
  (`MisleadingExample`).

## Assumptions

- Digests are compared as the values they are computed from, so they are injective.
- Ids, admission epochs and lease ids are fresh. A handoff's id is its place in the
  list of its Todo; a claim's version is the Todo's own generation.
- Time is a number passed to each step. Network and Gateway calls succeed, fail or
  are lost in any order.
- A number of JSON text is read as the nearest binary64 number with ties to even
  (IEEE 754), and a binary64 number outside int64 converts to the smallest int64,
  as on amd64.
- A Gateway's address and token identify its generation, and a new endpoint means
  the old process is gone.
- Store transactions of one root are isolated from each other; what several
  transactions read and write in between is modelled as separate steps.
- `Coordinator.FailuresDecrease` and `FailuresRunOut` deliver each Worker's hook once;
  `StartsArePaid` and `StartsRunOut` allow any number of repeated deliveries.
- Turn numbers fit int64, as their column does.
- A settlement is given, Run by Run, what freezing the Run's usage yields when its
  turn comes; `TurnSettlement.EvidenceOf` derives that from the usage hook's decision.

## Model

| member | source | states |
|---|---|---|
| `CanonicalUsage.CheckedSubNonNegative` | agent-team-workbench/internal/domain/canonical_usage.go:582-588 | The int64 subtraction succeeds exactly when 0 <= right <= left, and then is exact. |
| `CanonicalUsage.InputDeltaDecompositionValid` | agent-team-workbench/internal/application/canonical_usage.go:296-321 | Accepts every delta without a total; one with a total exactly when it obeys the decomposition rule of the canonical record, int64 overflow included. |
| `CanonicalUsage.RemoveUsageKind` | agent-team-workbench/internal/application/canonical_usage.go:323-331 | Removes one kind and nothing else, keeping the rest distinct. |
| `CanonicalUsage.CumulativeDelta` | agent-team-workbench/internal/application/canonical_usage.go:223-294 | The delta is the kind-by-kind subtraction; the resolved and unresolved lists are ascending and partition the five counted kinds by whether the delta knows them; each unresolved kind carries its own reason. |
| `CanonicalUsage.CanonicalizePerRun` | agent-team-workbench/internal/application/canonical_usage.go:57-74 | A verified per-Run report is carried over unchanged and sealing it cannot fail. |
| `CanonicalUsage.CanonicalizeProviderUsageV1` | agent-team-workbench/internal/application/canonical_usage.go:57-138 | For every report and anchor the call fails exactly when the decision refuses; otherwise the numbers are the decided ones and sealing cannot fail. |
| `CanonicalUsage.DeltaIsValid` | agent-team-workbench/internal/application/canonical_usage.go:277-321 | Every delta, whatever regressed or was unknown, passes the decomposition check of the record it is stored in. |
| `CanonicalUsage.ExactDecomposition` | agent-team-workbench/internal/application/canonical_usage.go:223-321 | Between two exact observations the total delta is resolved if and only if no component regressed, and then the component deltas add up to it. |
| `CanonicalUsage.SortAscends` | agent-team-workbench/internal/application/canonical_usage.go:290-293 | Sorting the collected entries of distinct kinds yields the strictly ascending list the record requires. |
| `CanonicalUsage.SessionStep` | agent-team-workbench/internal/application/canonical_usage.go:361-433 | One owner-matching Run stores the per-kind maximum of anchor and report, still belonging to the same session, and is charged the delta against the stored anchor. |
| `CanonicalUsage.SessionConservation` | agent-team-workbench/internal/application/canonical_usage.go:223-404 | Over any chain of Runs of a session, with reports missing or regressing per kind, the deltas of each non-total kind add up to the highest value observed minus the first; the input total never exceeds that; the final watermark is the highest value. |
| `CanonicalUsage.FreshSessionConservation` | agent-team-workbench/internal/application/canonical_usage.go:333-404 | The same, counted from zero, for a session whose first report opens it. |
| `CanonicalUsage.WatermarksNeverFall` | agent-team-workbench/internal/application/canonical_usage.go:384-404 | No Run of the session lowers a known watermark or makes it unknown. |
| `CanonicalUsage.PaddedReferenceNeverMatches` | agent-team-workbench/internal/application/canonical_usage.go:186-192 | The reference is stored trimmed but compared untrimmed: the next report of the same session can use the anchor if and only if the reference has no outer white space. |
| `CanonicalUsage.PaddedReferenceExample` | agent-team-workbench/internal/application/canonical_usage.go:186-192 | Two reports of a session whose reference ends with a blank: the first stores an anchor, the second cannot use it and nothing of it is charged. |
| `UsageCost.CheckedMultiply` | agent-team-workbench/internal/domain/cost.go:191-205 | The guarded product is refused exactly when it exceeds int64. |
| `UsageCost.SumProducts` | agent-team-workbench/internal/domain/cost.go:167-189 | The running sum succeeds exactly when the exact total fits int64, and then is the total. |
| `UsageCost.ComputeCostBuckets` | agent-team-workbench/internal/domain/cost.go:167-240 | The bucket cost is the exact price rounded half up, or an arithmetic failure exactly when the exact numerator overflows. |
| `UsageCost.ComputeCostMicroUSD` | agent-team-workbench/internal/domain/cost.go:72-150 | Agrees with the pricing decision on all valid counters and prices; a resolved amount is never negative. |
| `UsageCost.ResolvedCostIsForced` | agent-team-workbench/internal/domain/cost.go:72-150 | A resolved cost equals the rounded exact price of every token split that could explain the report: unknown counters are never guessed. |
| `UsageCost.UnequalSplitIsOpen` | agent-team-workbench/internal/domain/cost.go:100-150 | Refusing an incomplete split at unequal cache prices is necessary: two explanations with different prices exist. |
| `UsageLedger.StampCost` | agent-team-workbench/internal/application/canonical_usage_hook.go:224-256 | The cost stamped on a record is the one the pricing decision gives for its counters, or the same failure. |
| `UsageLedger.AppendKindUniqueSorted` | agent-team-workbench/internal/application/canonical_usage_hook.go:258-272 | Inserts a kind once and keeps the list ascending. |
| `UsageLedger.AbsentUsage` | agent-team-workbench/internal/application/canonical_usage_hook.go:193-222 | A Run without a report gets a record in which every counted kind is unresolved. |
| `UsageLedger.Ledger.UpdateAnchorCAS` | agent-team-workbench/internal/persistence/sqlstore/tasksessions.go:262-310 | Writes the anchor exactly when sequence, owner Run and owner sequence are still the stored ones; otherwise changes nothing. |
| `UsageLedger.Ledger.CanonicalizeRunUsageLocked` | agent-team-workbench/internal/application/canonical_usage_hook.go:91-171 | The hook's transaction commits Run and anchor together or nothing; it reports a freeze exactly for a terminal Run already frozen or frozen now. |
| `UsageLedger.DecisionMoves` | agent-team-workbench/internal/application/canonical_usage_hook.go:91-171 | A cumulative decision that brings no anchor charges nothing; one that does belongs to the owner and charges exactly what it moves the anchor. |
| `UsageLedger.FirstSight` | agent-team-workbench/internal/application/canonical_usage.go:194-221 | Without a usable baseline nothing is charged, and at most a first anchor is stored. |
| `UsageLedger.CommitMoves` | agent-team-workbench/internal/application/canonical_usage_hook.go:91-171 | However stale its read was, a commit that takes effect charges exactly the movement of the stored anchor. |
| `UsageLedger.CommitFreezes` | agent-team-workbench/internal/application/canonical_usage_hook.go:91-171 | It freezes its own unfrozen Run with the decided counters and leaves every other Run alone. |
| `UsageLedger.Reachable` | agent-team-workbench/internal/application/canonical_usage_hook.go:91-171 | Every interleaving of hooks with stale reads, ownership claims, sessions and replays keeps the ledger invariant. |
| `UsageLedger.LedgerConservation` | agent-team-workbench/internal/application/canonical_usage_hook.go:91-171 | In every reachable state the charges of a kind equal the movement of the stored anchor plus the closed movements of replaced sessions; for the input total they never exceed it; every Run is recorded at most once. |
| `UsageLedger.FrozenForever` | agent-team-workbench/internal/application/canonical_usage_hook.go:91-171 | A frozen Run's usage is the same in every later state. |
| `UsageLedger.OnlyTheOwnerIsCharged` | agent-team-workbench/internal/application/canonical_usage_hook.go:110-150 | A cumulative delta with any known counter is only ever frozen for the Run that owns the session row at that moment, against the stored anchor. |
| `WorkspaceLayout.FileSystem.Relocate` | agent-team-workbench/internal/agentconfig/workspace_layout.go:131-196 | The loop over the frozen bundles, cut at any durable step, ends in the layout, the remaining budget and the outcome of the step-by-step specification. |
| `WorkspaceLayout.FileSystem.MigrateWorkspaceLayout` | agent-team-workbench/internal/agentconfig/workspace_layout.go:46-196 | The call, cut at any durable step, ends in exactly the layout and the outcome of the step-by-step specification. |
| `WorkspaceLayout.FrozenInOrder` | agent-team-workbench/internal/agentconfig/workspace_layout.go:75-120 | The receipt freezes the bundles in ascending slug order. |
| `WorkspaceLayout.FreezeMeans` | agent-team-workbench/internal/agentconfig/workspace_layout.go:75-120 | Freezing succeeds exactly when every legacy bundle can be frozen, and records each with its digest. |
| `WorkspaceLayout.NothingLost` | agent-team-workbench/internal/agentconfig/workspace_layout.go:46-196 | For any calls by any workspaces, each cut at any durable step, every directory still exists with its content and nothing standing in a workspace was replaced. |
| `WorkspaceLayout.NoNewOverlap` | agent-team-workbench/internal/agentconfig/workspace_layout.go:46-196 | No call ever makes a directory stand in both places. |
| `WorkspaceLayout.MoveAllCompletes` | agent-team-workbench/internal/agentconfig/workspace_layout.go:131-190 | The move loop completes if and only if no bundle has an obstacle at its start. |
| `WorkspaceLayout.CompletesExactlyWhenReady` | agent-team-workbench/internal/agentconfig/workspace_layout.go:46-196 | An uninterrupted call completes if and only if the layout meets a readiness condition an operator can check beforehand. |
| `WorkspaceLayout.CutResume` | agent-team-workbench/internal/agentconfig/workspace_layout.go:131-196 | A resumption cut at any step either finished or can be resumed towards the same end. |
| `WorkspaceLayout.CrashesAreInvisible` | agent-team-workbench/internal/agentconfig/workspace_layout.go:46-196 | Any number of calls cut anywhere followed by one complete call end in the same state as one undisturbed call. |
| `WorkspaceLayout.CompletionIsFinal` | agent-team-workbench/internal/agentconfig/workspace_layout.go:46-196 | From every layout a call that goes through, started fresh or resumed, has moved every Agent to its home with its content unchanged and every frozen bundle with its digest; no later call, cut anywhere, changes anything. |
| `TurnQuota.QuotaBook.EnsureUsageReservations` | agent-team-workbench/internal/application/quota.go:256-330 | Reserves for the turn what each policy has left, kind by kind, in place. |
| `TurnQuota.QuotaBook.SettlePlanAbortQuota` | agent-team-workbench/internal/application/governance_plan_execution.go:506-606 | The two-pass compensation commits as a whole or changes nothing. |
| `TurnQuota.AdmissionNeverOversubscribes` | agent-team-workbench/internal/application/quota.go:272-330 | Admitting turns, repeatedly, never takes committed spend plus active reservations beyond a limit they were within, and never touches frozen rows. |
| `TurnQuota.ReserveAddsOwn` | agent-team-workbench/internal/application/quota.go:256-330 | Admission adds rows of its own turn only, one for every policy. |
| `TurnQuota.SpendPass` | agent-team-workbench/internal/application/governance_plan_execution.go:506-606 | The first pass fails exactly when a held cost cannot be priced; otherwise it adds spends of this turn within their reservations and leaves every other turn's spend alone. |
| `TurnQuota.ClosePass` | agent-team-workbench/internal/application/governance_plan_execution.go:506-606 | The second pass always succeeds and closes each active row of the turn with its recorded spend. |
| `TurnQuota.AbortSettles` | agent-team-workbench/internal/application/governance_plan_execution.go:506-606 | The compensation succeeds exactly when the evidence is there; afterwards committed + released = reserved for every row of the turn, other rows are untouched and no kind is used more than before. |
| `TurnSettlement.AppendTurnRunSpend` | agent-team-workbench/internal/application/quota_settlement.go:347-403 | The loop over the kinds records what one Run owes, or stops at a closed reservation, as specified. |
| `TurnSettlement.SettleGovernanceTurnQuotaLocked` | agent-team-workbench/internal/application/quota_settlement.go:106-345 | One settlement, its passes and its closing, ends in the book and the answer of the step-by-step specification; a refusal changes nothing. |
| `TurnSettlement.RunPass` | agent-team-workbench/internal/application/quota_settlement.go:347-403 | One Run's pass stops exactly at a payable kind whose reservation was closed without it; otherwise exactly its payable kinds gain an entry, within their reservations, and a cost without a price stays due. |
| `TurnSettlement.SettlesExactly` | agent-team-workbench/internal/application/quota_settlement.go:106-345 | A settlement is refused, closes the turn or leaves it open exactly under conditions on the reservations, the Runs and the caller; closed, every Run has an entry under every reservation. |
| `TurnSettlement.SettleKeeps` | agent-team-workbench/internal/application/quota_settlement.go:106-345 | Left open, a turn has only gained entries within its own reservations; closed, committed + released = reserved for each of its rows, no other row changed and no kind is used more than before. |
| `TurnSettlement.OpenStaysOpen` | agent-team-workbench/internal/application/quota_settlement.go:15-18 | Settling a turn that was left open again, on the same facts, records nothing twice. |
| `TurnSettlement.ClosedStaysClosed` | agent-team-workbench/internal/application/quota_settlement.go:310-337 | A closed turn is the same after any later settlement. |
| `TurnSettlement.FreezesExactly` | agent-team-workbench/internal/application/canonical_usage_hook.go:224-256 | A per-Run report keeps its Run from being settled if and only if the price input is unreadable or the cost exceeds int64, whatever the session. |
| `TurnSettlement.AbsenceCloses` | agent-team-workbench/internal/application/canonical_usage_hook.go:193-238 | A Run without a report is closed with no amounts, unless its price input is unreadable. |
| `TurnSettlement.OverflowExample` | agent-team-workbench/internal/application/canonical_usage_hook.go:252 | A Run whose cost exceeds int64 can never be frozen. |
| `TurnSettlement.RunsArePaid` | agent-team-workbench/internal/application/quota_settlement.go:148-210 | One settlement meets the claims on a reservation first come, first served, in the order of the Runs. |
| `TurnSettlement.OrderFreeExactly` | agent-team-workbench/internal/application/quota_settlement.go:148-150 | Every order of the Runs puts the same amounts on the ledger if and only if all amounts that fit the reservation alone fit it together. |
| `TurnSettlement.EarlySettlementsGoFirst` | agent-team-workbench/internal/application/quota_settlement.go:171-180 | A settlement while only some Runs had ended, and one when all had, pay the same Runs as one settlement over the early ones first. |
| `TurnSettlement.OrderExample` | agent-team-workbench/internal/application/quota_settlement.go:148-150 | Two Runs of six tokens each under ten: the one that ends first is paid. |
| `GovernedTurn.TurnStore.EnsureGovernancePlanAdmission` | agent-team-workbench/internal/application/governance_plan_execution.go:608-821 | The admission transaction commits header, Todo and reservations together or takes everything back. |
| `GovernedTurn.TurnStore.SettleGovernancePlanSubmissionFailure` | agent-team-workbench/internal/application/governance_plan_execution.go:425-504 | The rejection transaction blocks the Todo, closes the quota and records the rejected writeback together, or changes nothing. |
| `GovernedTurn.TurnStore.TransitionGovernanceTodoTurn` | agent-team-workbench/internal/application/governance_plan_execution.go:917-977 | Settles the Todo only for its newest turn. |
| `GovernedTurn.TurnStore.SettleGovernanceTurnQuota` | agent-team-workbench/internal/application/quota_settlement.go:51-62 | The settlement and phase 6 behind phase 5 commit together, or nothing changes. |
| `GovernedTurn.TurnStore.AppendQuotaPhaseIfReady` | agent-team-workbench/internal/application/governance_plan_execution.go:1023-1087 | With usage reservations the settlement decides about phase 6; without any policy the phase is appended at once. |
| `GovernedTurn.TurnStore.AdvanceSubmission` | agent-team-workbench/internal/application/governance_plan_execution.go:47-269 | Each transaction of a submission does exactly one step of the protocol, cut anywhere in between. |
| `GovernedTurn.TurnsStaySafe` | agent-team-workbench/internal/application/governance_plan_execution.go:47-269 | Under crashes at any boundary, resubmissions and any interleaving, every turn's phases stay a prefix of 1..7 with one decision digest, at most one Plan, phase 3 committed only with it and rejected only without; a rejected turn and one with phase 6 hold no active reservation. |
| `GovernedTurn.ReceiptMeans` | agent-team-workbench/internal/application/governance_plan_execution.go:391-499 | In every such state a turn's receipt tells exactly what happened to its Plan and its reservations, and no two source Runs share a turn. |
| `GovernedTurn.ClosedBalances` | agent-team-workbench/internal/application/governance_plan_execution.go:506-606 | The reservations of a rejected turn, and of one with phase 6, satisfy committed + released = reserved. |
| `GovernedTurn.NothingTakenBack` | agent-team-workbench/internal/application/governance_plan_execution.go:993-1021 | Headers, phases and Plans present at any point of a run are present, unchanged, at every later point. |
| `GovernedTurn.OtherDecisionChangesNothing` | agent-team-workbench/internal/application/governance_plan_execution.go:608-700 | Over whole runs: once a source Run has a header, advancing a submission of a different decision at any later point changes no row and ends that submission. |
| `GovernedTurn.FlightsCarryTheDecision` | agent-team-workbench/internal/application/governance_plan_execution.go:608-821 | Any submission past its first step carries the admitted decision. |
| `GovernedTurn.TurnNumbersAreConsecutive` | agent-team-workbench/internal/application/governance_plan_execution.go:711-811 | The Todo's last turn number grows by one exactly when a header is admitted for it, and no other step moves it. |
| `GovernedTurn.OlderTurnsDoNotMoveTheTodo` | agent-team-workbench/internal/application/governance_plan_execution.go:917-958 | Over whole runs: the Todo's last turn never falls, so a turn once overtaken can never move the Todo again. |
| `GovernedTurn.ReplayReachesPlan` | agent-team-workbench/internal/application/governance_plan_execution.go:47-269 | From any durable boundary, resubmitting the admitted decision reaches the Plan, committing it at most once. |
| `GovernedTurn.ReplayCompletesExactly` | agent-team-workbench/internal/application/governance_plan_execution.go:47-269 | The replayed turn is brought to its end if and only if the dispatch phases already written are the ones that would be written now and the settlement of its usage is not refused, stated by its reservations, the reports and prices of its Runs. |
| `GovernedTurn.DriftExample` | agent-team-workbench/internal/application/governance_plan_execution.go:47-269 | A turn cut after its dispatch was recorded, whose dispatched Run then fails to start: resubmitting the same decision leaves it running, however long it is tried. |
| `GovernedTurn.RefusedExample` | agent-team-workbench/internal/application/governance_plan_execution.go:1040-1045 | The submitting Run's cost exceeds int64: its submission, and every resubmission however long, stops at the settlement and the turn stays running, although nothing drifted. |
| `RunnerDelivery.Daemon.HandleOffer` | agent-team-workbench/cmd/runnerd/main.go:531-634 | Replies and registers the Run exactly as the offer rules say: identity, slots and repeated offers included. |
| `RunnerDelivery.Daemon.EmitEvent` | agent-team-workbench/cmd/runnerd/main.go:779-844 | Takes the next number of the Run and keeps the event pending; an event without framing is refused and changes nothing. |
| `RunnerDelivery.Daemon.HandleAck` | agent-team-workbench/cmd/runnerd/main.go:736-759 | Releases exactly the event the acknowledgement names in full. |
| `RunnerDelivery.Daemon.ResendPending` | agent-team-workbench/cmd/runnerd/main.go:846-865 | Sends pending events once each in order until a write fails; it completes exactly when the connection takes them all. |
| `RunnerDelivery.SortOrders` | agent-team-workbench/cmd/runnerd/main.go:846-865 | Sorting keeps the pending keys and orders them by Run and number. |
| `RunnerDelivery.DeliveryInvariant` | agent-team-workbench/cmd/runnerd/main.go:531-865 | In every reachable state the numbers 1..seqs of a Run split exactly into pending and acknowledged, only recorded events are acknowledged, no event is lost, and active Runs fit the slots. |
| `RunnerDelivery.ResendRestoresEverything` | agent-team-workbench/cmd/runnerd/main.go:846-865 | After one completed resend is delivered a de-duplicating receiver holds every event ever emitted. |
| `RunnerDelivery.ResendAscends` | agent-team-workbench/cmd/runnerd/main.go:846-865 | A resend is ascending within each Run. |
| `RunnerDelivery.OnlyExactAcksRelease` | agent-team-workbench/cmd/runnerd/main.go:736-759 | An event leaves the pending set only by an acknowledgement matching runner, Run, lease, fencing token, number and event id, and was recorded by the receiver. |
| `RunnerDelivery.FramingOutlivesPending` | agent-team-workbench/cmd/runnerd/main.go:761-777 | A Run's numbering and framing are dropped only after a terminal event with nothing left to acknowledge. |
| `RunnerDelivery.ActiveRunLosesFraming` | agent-team-workbench/cmd/runnerd/main.go:736-777 | Over whole histories: a step strips an active Run of its framing if and only if it acknowledges the Run's last pending event, and either the terminal event is not yet finalized or the Run was registered under an earlier terminal marker. |
| `RunnerDelivery.MarkerHasOneCause` | agent-team-workbench/cmd/runnerd/main.go:736-844 | In every reachable state the terminal marker of an active Run stands for exactly one of two reasons: its terminal event is written but not finalized, or its registration inherited the marker. |
| `RunnerDelivery.RegistrationHistory` | agent-team-workbench/cmd/runnerd/main.go:531-634 | What the state records of a Run's registration is what happened: its last registration found the marker standing or not, and a terminal event was or was not emitted since. |
| `RunnerDelivery.UnfinalizedRunExample` | agent-team-workbench/cmd/runnerd/main.go:801-844 | A concrete history with one offer only: the acknowledgement of the terminal event arrives before the event is finalized. |
| `RunnerDelivery.ReofferedRunExample` | agent-team-workbench/cmd/runnerd/main.go:531-777 | A concrete history in which a re-offered, active Run is stripped of its framing. |
| `RunnerDelivery.OldConnectionsAreFenced` | agent-team-workbench/cmd/runnerd/main.go:724-734 | Over whole histories: once a connection has been replaced, no command with its epoch is current at any later point. |
| `Coordinator.TaskCoordinator.HandleCoordinatorTerminal` | agent-team-workbench/internal/application/coordinator_engine.go:1175-1243 | Ends a Coordinator Run: retry with fallback, block, or hand on the success, field by field. |
| `Coordinator.TaskCoordinator.HandleCoordinatorSuccess` | agent-team-workbench/internal/application/coordinator_engine.go:1245-1502 | Accounts for a successful turn and moves the control line onward. |
| `Coordinator.TaskCoordinator.HandleCoordinatorWorkerTerminal` | agent-team-workbench/internal/application/coordinator_engine.go:1549-1732 | Ends a Worker Run: reschedule, open a recovery round, block, or wait. |
| `Coordinator.TaskCoordinator.StartCoordinatorTurn` | agent-team-workbench/internal/application/coordinator_engine.go:640-977 | Starts the next turn and advances the comment watermark with it. |
| `Coordinator.TaskCoordinator.ScheduleCoordinatorPlanRepair` | agent-team-workbench/internal/application/coordinator_plan_repair.go:236-392 | Schedules at most two repairs of a broken Plan, then blocks. |
| `Coordinator.EffectRelinquishes` | agent-team-workbench/internal/application/coordinator_engine.go:1194-1256 | A hook that had an effect has taken its Run out of charge. |
| `Coordinator.HooksActOnce` | agent-team-workbench/internal/application/coordinator_engine.go:1080-1150 | Delivering a governed Run's terminal hook any number of times, interleaved with other hooks, changes the control state at most once. |
| `Coordinator.WorkerReplaysAreNotFenced` | agent-team-workbench/internal/application/coordinator_engine.go:1549-1738 | For every ended Worker Run, succeeded, stopped or failed with any attempt and retryability: the exact condition under which a delivery of its hook, first or repeated, changes the control state. |
| `Coordinator.SecondDeliveryActsExactly` | agent-team-workbench/internal/application/coordinator_engine.go:1648-1697 | Two deliveries in a row act twice if and only if the first one opened the recovery round, and then the second blocks the task, or only took back the control line. |
| `Coordinator.BlockingReplayExample` | agent-team-workbench/internal/application/coordinator_engine.go:1648-1697 | A Worker fails three times; the last hook opens the recovery round, and the same hook delivered once more blocks the task. |
| `Coordinator.ReplayLosesTheRetry` | agent-team-workbench/internal/application/coordinator_engine.go:1549-1732 | A replay while another Worker's retry is due puts its own Run in that place; started under its old idempotency key, it starts nothing. |
| `Coordinator.ReplayExample` | agent-team-workbench/internal/application/coordinator_engine.go:1549-1732 | Two Workers fail, the first one's retry succeeds, and a replay of the first one's hook loses the second one's retry. |
| `Coordinator.FailuresDecrease` | agent-team-workbench/internal/application/coordinator_engine.go:1549-1732 | With every Worker hook delivered once, each failure-handling step lowers a measure over Worker attempts, recovery rounds, Coordinator failures and plan repairs. |
| `Coordinator.FailuresRunOut` | agent-team-workbench/internal/application/coordinator_plan_repair.go:236-392 | With every Worker hook delivered once, a failures-only run is no longer than its initial budget. |
| `Coordinator.StartsArePaid` | agent-team-workbench/internal/application/coordinator_engine.go:1549-1732 | However often hooks of ended Workers are delivered again, each Run a step starts is paid from a fixed number of retries and turns. |
| `Coordinator.StartsRunOut` | agent-team-workbench/internal/application/coordinator_plan_repair.go:236-392 | Under any replays of Worker hooks the number of Runs ever started without a success is bounded by the initial retries and turns. |
| `Coordinator.EachCommentReachesOneRun` | agent-team-workbench/internal/application/coordinator_engine.go:936-962 | Every comment up to the watermark was given to exactly one committed Coordinator Run. |
| `Coordinator.NeverWaitsOverUnread` | agent-team-workbench/internal/application/coordinator_engine.go:1751-1782 | No transition starts waiting for the user while a comment that demands an answer is unread. |
| `GovernanceCommands.GovernedLine.PauseGoal` | agent-team-workbench/internal/application/governance.go:722-790 | A pause commits waiting Goal and waiting Todo together, or refuses with nothing changed. |
| `GovernanceCommands.GovernedLine.LatestTransferredHandoff` | agent-team-workbench/internal/application/governance_handoff.go:178-205 | The loop returns the transfer of the highest target generation, and fails exactly when some transfer's target no longer resolves. |
| `GovernanceCommands.GovernedLine.ResumeCurrentTodo` | agent-team-workbench/internal/application/governance.go:952-1010 | The release, claim and renewal steps amount to the one-shot outcome: same owner kept, re-claimed two generations up, or pending. |
| `GovernanceCommands.GovernedLine.BlockCurrentGovernance` | agent-team-workbench/internal/application/governance.go:1040-1103 | Transition and release leave the Todo blocked and claim-free with the generation spent only if there was a claim; before the start and after the end nothing moves. |
| `GovernanceCommands.GovernedLine.ResumeCurrentGovernance` | agent-team-workbench/internal/application/governance.go:1108-1187 | The inverse: an unended Todo of a blocked Goal is pending and claim-free, and the Goal active. |
| `GovernanceCommands.GovernedLine.BlockCoordinator` | agent-team-workbench/internal/application/coordinator_engine.go:992-1068 | A blocked Coordinator has no current Run and no delegated checkpoint, and its Goal and root are blocked with it. |
| `GovernanceCommands.GovernedLine.BlockWorkItem` | agent-team-workbench/internal/application/service.go:1167-1210 | Blocking any task of the tree blocks the control line and the Goal in one transaction. |
| `GovernanceCommands.GovernedLine.UnblockWorkItem` | agent-team-workbench/internal/application/service.go:1296-1395 | Unblocking reopens Goal, Todo and Coordinator in one transaction. |
| `GovernanceCommands.GovernedLine.TransitionGovernanceTodoTurn` | agent-team-workbench/internal/application/governance_plan_execution.go:917-958 | Settles the Todo only for its newest running turn. |
| `GovernanceCommands.GovernedLine.AdmitGovernanceControlDecision` | agent-team-workbench/internal/application/governance_control_receipts.go:40-249 | A first decision claims, admits and closes one receipt under the next number; a known key is refused for another intent and otherwise replayed on the Todo as it stands. |
| `GovernanceCommands.GovernedLine.FindDecision` | agent-team-workbench/internal/application/governance_control_receipts.go:227-249 | Tells whether the admission key is known and whether the stored intent is the same, an omitted source Run matching any. |
| `GovernanceCommands.GovernedLine.ReplayGovernanceControlReceipt` | agent-team-workbench/internal/application/governance_control_receipts.go:475-527 | The Todo part of a replay: nothing for a pending Todo, closing for a running one, refusal otherwise. |
| `GovernanceCommands.GovernedLine.CloseControlReceiptTodo` | agent-team-workbench/internal/application/governance_control_receipts.go:422-473 | A running Todo is left claimed under the same generation, or pending and free one generation up. |
| `GovernanceCommands.GovernedLine.CreateHandoff` | agent-team-workbench/internal/application/governance_handoff.go:27-121 | A repeated client key is answered first and returns the original request; a new one is pinned to the live claim generation of its source. |
| `GovernanceCommands.GovernedLine.ActiveTransferredHandoff` | agent-team-workbench/internal/application/governance_handoff.go:215-245 | Returns the only transfer that matches the current claim; the refusals mean several matches or an unresolvable one. |
| `GovernanceCommands.GovernedLine.HandoffForCoordinatorStart` | agent-team-workbench/internal/application/governance_handoff.go:251-288 | In every sound state it returns a handoff if and only if that handoff controls the Coordinator. |
| `GovernanceCommands.GovernedLine.QueueHandoffContinuation` | agent-team-workbench/internal/application/governance_handoff.go:403-484 | A checkpoint may only be superseded by a handoff from its own target, and records the source's own current Run. |
| `GovernanceCommands.GovernedLine.AcceptHandoff` | agent-team-workbench/internal/application/governance_handoff.go:656-737 | Claim, handoff and checkpoint are committed together or not at all. |
| `GovernanceCommands.GovernedLine.ResolveHandoffTerminal` | agent-team-workbench/internal/application/governance_handoff.go:747-810 | Rejecting or cancelling closes a pending handoff; repeating it with the same reason changes nothing, with another one is refused. |
| `GovernanceCommands.TheActiveOneIsFound` | agent-team-workbench/internal/application/governance_handoff.go:215-245 | In every sound state the refusal for several matching transfers cannot occur, and an unresolvable match never hides an active one. |
| `GovernanceRuns.PlayIsSound` | agent-team-workbench/internal/application/governance.go:932-1256 | Every sequence of start, pause, resume, claim, release, renew, block, unblock, admit, settle, handoff, accept and cancel commands keeps claims, generations, turns and phases consistent. |
| `GovernanceRuns.TodoMoves` | agent-team-workbench/internal/persistence/sqlstore/governance.go:566-760 | No command lowers the claim generation, and a claim that ends, begins or changes owner always raises it. |
| `GovernanceRuns.TurnsAdvanceByOne` | agent-team-workbench/internal/application/governance_control_receipts.go:69-211 | Each command leaves the turns alone or is an admission on an active Goal whose Todo is not running, taking exactly the next number under a new key. |
| `GovernanceRuns.TurnsOfARun` | agent-team-workbench/internal/application/governance_control_receipts.go:69-211 | Over any interleaving of Plan and control admissions the headers are numbered 1, 2, 3, ... up to the Todo's watermark, with different keys, and are never taken back. |
| `GovernanceRuns.LifecycleIsNotATurn` | agent-team-workbench/internal/application/governance.go:1032-1039 | No sequence of lifecycle commands admits a turn or moves the watermark. |
| `GovernanceRuns.ReplayedControlExactly` | agent-team-workbench/internal/application/governance_control_receipts.go:475-527 | A replayed control decision admits no turn, and changes the line if and only if some turn is open on the Todo at that moment, which it then closes, whichever turn that is. |
| `GovernanceRuns.InterruptedTurnExample` | agent-team-workbench/internal/application/governance_control_receipts.go:422-527 | A concrete history: a Plan turn is running when an older control decision is replayed; it loses its claim and can no longer be settled. |
| `GovernanceRuns.BlockedGoalOwnsNothing` | agent-team-workbench/internal/application/governance.go:1871-1879 | In every reachable state a blocked Goal's current Todo is blocked and claim-free. |
| `GovernanceRuns.BlockThenUnblock` | agent-team-workbench/internal/application/governance.go:1040-1187 | Block then unblock of a task leaves an active Goal, a pending free Todo with its old watermark, and the generation raised exactly if a claim was cleared. |
| `GovernanceRuns.OneTransferPerGeneration` | agent-team-workbench/internal/application/governance_handoff.go:656-737 | In every reachable state accepted handoffs have pairwise different source and target generations. |
| `GovernanceRuns.AtMostOneActive` | agent-team-workbench/internal/application/governance_handoff.go:235-243 | At most one accepted handoff matches the current claim. |
| `GovernanceRuns.RivalsAreNeverAccepted` | agent-team-workbench/internal/application/governance_handoff.go:656-737 | Once one of two pending handoffs is accepted, no later command sequence accepts the other. |
| `GovernanceRuns.TransferMovesTheClaim` | agent-team-workbench/internal/persistence/sqlstore/governance.go:627-662 | An acceptance finds the source owning a live claim and leaves the target owning it one generation up, with status and watermark unchanged; the handoff then controls the Coordinator. |
| `GovernanceRuns.OldHandoffsNeverControl` | agent-team-workbench/internal/application/coordinator_engine.go:152-186 | After any block, no handoff that existed then controls the Coordinator in any later state. |
| `GovernanceRuns.ResumesExactly` | agent-team-workbench/internal/application/governance.go:952-985 | The exact condition under which a paused Goal resumes: every transfer's target still resolves, and a transfer, if there ever was one, is the one that holds the claim. |
| `GovernanceRuns.LostTransferStopsResume` | agent-team-workbench/internal/application/governance.go:956-962 | Once every accepted transfer has lost its claim, each later resume is refused until another handoff is accepted. |
| `GovernanceRuns.LostTransferExample` | agent-team-workbench/internal/application/governance.go:952-985 | The commands start, claim, create and accept a handoff, block, unblock and pause, from a fresh root: the Goal cannot be resumed at any time with any agents enabled. |
| `GovernanceRuns.PauseThenResume` | agent-team-workbench/internal/application/governance.go:722-790 | Pause then resume changes nothing but the Todo's status while its claim is live, keeps the owner otherwise, and frees the Todo only if the claim lapsed before any turn. |
| `GovernanceRuns.ConsistentExactly` | agent-team-workbench/internal/application/governance.go:1825-1896 | Each committed command keeps the Goal-side checks satisfied if and only if it is neither a block before the start nor an unblock of another task while the root is blocked. |
| `GovernanceRuns.BlockedDraftExample` | agent-team-workbench/internal/application/service.go:1167-1210 | Blocking the root of a draft Goal commits and leaves a blocked Coordinator under a draft Goal. |
| `GovernanceRuns.UnblockedChildExample` | agent-team-workbench/internal/application/service.go:1296-1395 | A concrete history in which unblocking a child leaves an active Goal under a blocked root. |
| `GoalCancellation.GoverningService.CancelRunDecision` | agent-team-workbench/internal/application/governance.go:460-477 | Every unended Run status gets its stop target by a legal edge, or stays while already stopping; only an interrupting one is forwarded as an interrupt. |
| `GoalCancellation.GoverningService.CancelGoal` | agent-team-workbench/internal/application/governance.go:479-690 | The transaction collects the turns to be settled, refuses foreign ones before anything is changed, sweeps every Todo, the open Plan, handoff, task, dispatch, Run and approval into the stated final state, and leaves the sorted turns with the Coordinator; refused, it changes nothing. |
| `GoalCancellation.CancelledIsAtRest` | agent-team-workbench/internal/application/governance.go:479-690 | After a cancel every Todo, handoff, task and dispatch has ended, every Run has ended or is stopping, no approval of a Run is pending, and cleared claims spent a generation. |
| `GoalCancellation.CancelledPlansEnd` | agent-team-workbench/internal/application/governance.go:576-600 | Whatever was submitted, approved and rejected before, after a cancel every Plan of the root has ended with no step and no gate left to do, and what was executed stays executed. |
| `GoalCancellation.EndedStaysAsItWas` | agent-team-workbench/internal/application/governance.go:792-800 | What had already ended keeps its outcome. |
| `GoalCancellation.SignalledExactly` | agent-team-workbench/internal/application/governance.go:650-672 | The runner is signalled for exactly the Runs that had not ended, as an interrupt exactly if one was under way. |
| `GoalCancellation.OwedTurnsAreRecoveredExactly` | agent-team-workbench/internal/application/coordinator_engine.go:296-312 | Across a restart the recovery loop reads back exactly the turns that owe a settlement if and only if the saved numbers are recoverable; there is a checkpoint exactly when some turn owes one. |
| `SettlementKeys.GoalSettlementTurnKeys` | agent-team-workbench/internal/application/governance.go:280-332 | Succeeds exactly when the Goal id is not blank and every key is valid and of this Goal, and lists exactly the current turn and the reserved ones, sorted. |
| `SettlementKeys.Decode` | agent-team-workbench/internal/application/governance.go:348-401 | Reads any checkpoint field, present or not, on top of the caller's own turn: the sorted list of exactly the named keys and that turn, or the first error. |
| `SettlementKeys.SortedUnique` | agent-team-workbench/internal/application/governance.go:403-426 | A set of keys has only one sorted list. |
| `SettlementKeys.RoundedIsBinary64` | agent-team-workbench/internal/application/canonical_usage_hook.go:41-61 | A JSON integer is read as a binary64 number. |
| `SettlementKeys.Binary64IsKept` | agent-team-workbench/internal/application/canonical_usage_hook.go:41-61 | A binary64 number is read as itself. |
| `SettlementKeys.EntryReadsBack` | agent-team-workbench/internal/application/governance.go:334-342 | One stored key reads back unchanged if and only if its number is a binary64 number within int64. |
| `SettlementKeys.ReadBack` | agent-team-workbench/internal/application/governance.go:334-401 | Reloaded and read back next to the current turn, the stored keys are recovered if and only if every number but the current turn's is a binary64 number and the current turn is stored, also under the number it reads back as; up to 2^53 they always are. |
| `SettlementKeys.RecoveredExactly` | agent-team-workbench/internal/application/coordinator_engine.go:300-312 | The decoded set equals the stored one under exactly that condition. |
| `SettlementKeys.CurrentTurnIsRestored` | agent-team-workbench/internal/application/coordinator_engine.go:300-312 | A current turn 2^53+1 stored next to 2^53 is recovered; stored alone it comes back as two turns. |
| `SettlementKeys.CollapsedExample` | agent-team-workbench/internal/application/governance.go:334-401 | Turns 2^53, 2^53+1 and the current 2^53+2 come back without the middle one. |
| `SessionPool.CodeWorkspaceService.FinishCreate` | agent-team-workbench/internal/application/code_workspace.go:182-191 | Only the last creation in flight closes the channel, and it is open until then. |
| `SessionPool.CodeWorkspaceService.DropStaleSessions` | agent-team-workbench/internal/application/code_workspace.go:345-354 | The loop over the sessions keeps exactly those of the given generation. |
| `SessionPool.CodeWorkspaceService.SweepMark` | agent-team-workbench/internal/application/code_workspace.go:226-246 | The loop drops other generations, marks what is due and takes on exactly that for deletion; without a reachable Gateway it only marks. |
| `SessionPool.CodeWorkspaceService.Publish` | agent-team-workbench/internal/application/code_workspace.go:325-343 | A closed or full pool takes no session. |
| `SessionPool.CodeWorkspaceService.CloseDrain` | agent-team-workbench/internal/application/code_workspace.go:138-143 | Every session is taken out and handed over for deletion. |
| `SessionPool.CreationsCounted` | agent-team-workbench/internal/application/code_workspace.go:169-191 | At every step createsDone is open exactly while a creation is in flight, so it is never closed twice. |
| `SessionPool.PoolStaysSound` | agent-team-workbench/internal/application/code_workspace.go:107-354 | Under any interleaving of Create, Close, CloseSession, requests, sweeps and Gateway restarts the sessions never exceed 32 and each workspace is held in one place. |
| `SessionPool.LostExactly` | agent-team-workbench/internal/application/code_workspace.go:209-508 | A step loses track of a live upstream workspace if and only if it drops sessions by an endpoint read before a restart while a newer, undeleted session is in the pool, or is a creation whose response is lost after the Gateway made the workspace. |
| `SessionPool.LooksStayOk` | agent-team-workbench/internal/application/code_workspace.go:616-689 | A request that found the Gateway to be another generation discards, however late, only a session of a generation gone by. |
| `SessionPool.NothingIsLost` | agent-team-workbench/internal/application/code_workspace.go:209-508 | If every drop acts on the serving generation and no creation's response is lost, every workspace stays tracked, in hand, attempted or dead under any interleaving. |
| `SessionPool.LostWorkspaceExample` | agent-team-workbench/internal/application/code_workspace.go:257-354 | A concrete interleaving of two creations and a restart that forgets a live workspace. |
| `SessionPool.LostResponseExample` | agent-team-workbench/internal/application/code_workspace.go:475-508 | A creation times out after the Gateway made its workspace: it lives on, tracked by nobody and never deleted. |
| `SessionPool.ClosedOnlyShrinks` | agent-team-workbench/internal/application/code_workspace.go:120-180 | After Close nothing is added and no creation begins. |
| `SessionPool.CloseDrainsForGood` | agent-team-workbench/internal/application/code_workspace.go:120-143 | A drained Close leaves no session behind, in every later state; one that saw createsDone leaves no creation either. |
| `SessionPool.NothingIsLeftBehind` | agent-team-workbench/internal/application/code_workspace.go:120-161 | From the start over any history that closes and drains the pool and stays free of the two losses: once what is in flight is through, every workspace ever made had a deletion attempted or died with its generation. |
| `PlanExecution.PlanService.ExecutePlanStepsFrom` | agent-team-workbench/internal/application/plan.go:640-865 | The execution loop, from any step with any gates, failures and waits, ends in the Plan and the started Runs of the step-by-step specification, or rolls back. |
| `PlanExecution.PlanService.DispatchHasBarrier` | agent-team-workbench/internal/application/plan.go:229-251 | The two loops accept exactly when the last dispatch has a wait behind it with no finish in between. |
| `PlanExecution.PlanService.SubmitPlan` | agent-team-workbench/internal/application/plan.go:316-370 | Supersession of a waiting Plan, creation and execution of the new one commit together or not at all; an active Plan refuses. |
| `PlanExecution.PlanService.ResolveApproval` | agent-team-workbench/internal/application/plan.go:978-1031 | A decision is recorded once; approved it resumes at its own step, rejected it fails the Plan there, and a refused one changes nothing. |
| `PlanExecution.PlanService.MaybeAdvancePlans` | agent-team-workbench/internal/application/plan.go:1444-1505 | Finds the open Plan if it is suspended at an executed defer or join. |
| `PlanExecution.ExecutionSettles` | agent-team-workbench/internal/application/plan.go:640-969 | A batch that commits never leaves an active Plan: it waits at a gate with everything behind it pending, waits at a barrier with everything behind it skipped, or has ended; the Runs started are those of its executed steps, in order. |
| `PlanExecution.DeskStaysSound` | agent-team-workbench/internal/application/plan.go:98-1432 | Every sequence of submissions, decisions, budget failures and cancels keeps Plans, gates and started Runs consistent. |
| `PlanExecution.OneRunPerStep` | agent-team-workbench/internal/application/plan.go:640-865 | In every reachable state each executed step that starts a Run has started exactly one, and no other step has. |
| `PlanExecution.OnlyTheNewestIsOpen` | agent-team-workbench/internal/application/plan.go:316-350 | In every reachable state no Plan is active, at most the newest is open, and an ended one has no pending step or gate. |
| `PlanExecution.NoDecisionIsLate` | agent-team-workbench/internal/application/plan.go:971-991 | In every reachable state an undecided gate belongs to the open Plan, which waits at that step. |
| `PlanExecution.EndedPlansStay` | agent-team-workbench/internal/domain/plan.go:23-43 | An ended Plan is the same in every later state. |
| `PlanExecution.FinishesOverWorkersExactly` | agent-team-workbench/internal/application/plan.go:640-882 | Over all histories, a Plan can finish by itself over dispatched Workers if and only if its verbs have a dispatch and reach a finish or their end before any wait. |
| `PlanExecution.BarrierCheckMisses` | agent-team-workbench/internal/application/plan.go:229-251 | The verbs that pass the check of a coordinated submission and still allow this are exactly those with a finish between two dispatches and no wait before it. |
| `PlanExecution.BypassExample` | agent-team-workbench/internal/application/plan.go:229-251 | Dispatch, finish, dispatch, defer: accepted for a coordinated task, it starts a Worker and finishes at once. |
| `PlanExecution.DecisionsNeverBypass` | agent-team-workbench/internal/application/plan_decisions.go:150-206 | Verbs decoded from a valid decision pass the check and never finish over Workers, in any history. |
| `PlanExecution.CoordinatedPlansAwaitWorkers` | agent-team-workbench/internal/application/plan_extract.go:78-90 | Over every history whose coordinated submissions are decoded decisions, no Plan of such a submission finishes by itself over dispatched Workers. |
| `PlanDecisions.Decoder.ScanUniqueJSONValue` | agent-team-workbench/internal/application/plan_decisions.go:282-326 | The recursive scan over the decoder consumes exactly what the scan of the remaining tokens consumes, and reports the same error. |
| `PlanDecisions.ScansOneValue` | agent-team-workbench/internal/application/plan_decisions.go:282-326 | On the tokens of any JSON value followed by anything, the scan consumes exactly that value or names the pointer of the first repeated member name in document order. |
| `PlanDecisions.RepeatsExactly` | agent-team-workbench/internal/application/plan_decisions.go:282-326 | There is such a name if and only if some object at some depth has two equal names. |
| `PlanDecisions.RejectDuplicateJSONKeys` | agent-team-workbench/internal/application/plan_decisions.go:267-280 | Accepts exactly one value with distinct names throughout and nothing behind it. |
| `PlanDecisions.EscapeRoundTrip` | agent-team-workbench/internal/application/plan_decisions.go:328-331 | Decoding as RFC 6901 section 4 prescribes undoes the escaping. |
| `PlanDecisions.PointerInjective` | agent-team-workbench/internal/application/plan_decisions.go:328-331 | Two different paths never share a pointer. |
| `PlanDecisions.ValidatePlanDecisionSemantics` | agent-team-workbench/internal/application/plan_decisions.go:165-206 | Accepts exactly the well-shaped decisions: knowledge only from earlier consultations, endings only at the end, dispatched work awaited; otherwise names the first step that does not fit. |
| `ScopeSearch.Expand` | agent-team-workbench/internal/application/governance_evidence.go:322-334 | One parent's same-workspace tasks are each queued once unless seen. |
| `ScopeSearch.WorkItemInGoalTree` | agent-team-workbench/internal/application/governance_evidence.go:308-336 | The search ends on any finite links, cycles included, and answers true if and only if the task is the root or reachable through same-workspace tasks; with failing lookups a true answer is still right. |
| `ScopeSearch.ClosedHoldsTree` | agent-team-workbench/internal/application/governance_evidence.go:317-335 | A set that holds the root and is closed under listing holds the whole tree. |
| `History.EstimateTokens` | agent-team-workbench/internal/application/conversation.go:30-40 | The counting loop gives one token a CJK character and one for every four others. |
| `History.JoinSplitsExactly` | agent-team-workbench/internal/application/conversation.go:344-353 | Splitting undoes joining if and only if the prose neither contains the marker, nor starts with the header line, nor is the bare header in front of a trace. |
| `History.MisleadingExample` | agent-team-workbench/internal/application/conversation.go:101-124 | A Run that answers with the bare header and calls one tool: its answer does not split into prose and trace. |
| `History.CompactionIsCheaper` | agent-team-workbench/internal/application/conversation.go:356-368 | Compacting an answer never raises its estimate. |
| `History.TraceStays` | agent-team-workbench/internal/application/conversation.go:356-368 | The trace stays at the end of a compacted answer, word for word up to outer white space. |
| `History.TraceSurvives` | agent-team-workbench/internal/application/conversation.go:344-368 | For every prose, misleading or not, and every trace, the compacted answer ends with that trace, trimmed. |
| `History.AgedAnswersKeepTheirTrace` | agent-team-workbench/internal/application/conversation.go:112-121 | A joined answer, compacted, still splits into its shortened prose and the same trace. |
| `History.ToolTraceSection` | agent-team-workbench/internal/application/conversation.go:178-194 | The trace lists the last twenty calls, one a line, behind the header and a count of the omitted ones. |
| `History.SectionIsTrace` | agent-team-workbench/internal/application/conversation.go:178-194 | Every such trace is one the splitter recognises, with nothing to trim. |
| `History.ConversationHistory` | agent-team-workbench/internal/application/conversation.go:101-124 | The loop over the Runs builds user and assistant messages, the answer joined to its trace. |
| `History.AgeingKeepsRolesAndTraces` | agent-team-workbench/internal/application/conversation.go:312-368 | Ageing a replayed conversation keeps every role, and an answer with tool calls still ends with its Run's whole trace. |
| `History.CompressHistoryDigest` | agent-team-workbench/internal/application/conversation.go:312-340 | The counting loops compact exactly the answers before the last four turns, and nothing when there are no more turns than that. |
| `History.DigestKeeps` | agent-team-workbench/internal/application/conversation.go:312-340 | Length, user messages and the last four turns are untouched; roles are kept if and only if every aged message was an assistant's. |
| `History.DigestIsCheaper` | agent-team-workbench/internal/application/conversation.go:312-340 | Ageing never raises the estimate of a history. |
| `History.PlanHistoryReplay` | agent-team-workbench/internal/application/conversation.go:297-306 | What is replayed fits the budget; the whole history is replayed exactly when it fits; nothing is replayed exactly when even the aged history does not fit. |

## Left out

- Event emission, activity, audit, notifier and log calls; SQL, HTTP, WebSocket, tickers, prompts and display text.
- Optimistic version numbers of Goals, Todos and handoffs inside one transaction: the step is atomic, so they always match there; a client's stale expected version is a refusal without effect.
- CrashesAreInvisible and CompletesExactlyWhenReady do not model the 1 MiB limit of `readWorkspaceLayoutReceipt`: a receipt of some hundreds of long slugs full of escaped characters is written but refused on resume.
- Symbolic links, file modes, the 64 MiB bundle limit, and the durability of a rename itself in the layout migration.
- The reservation of the turn count itself, which its admission commits at once; the settlement takes it as committed.
- The check that a settled Run belongs to the Goal's task tree, and the lookup of a turn's Runs: `TurnSettlement` is given the list, which names each Run once.
- EnsureGovernancePlanAdmission: does not model the fallback for headers written before they carried a decision digest, nor the renewal of a delegated claim inside the admission, because new headers always carry the digest and a renewal only moves the expiry.
- AdmitGovernanceControlDecision: does not model the quota and phase rows a receipt writes and its replay repairs; the turn, the claim and the Todo are modelled.
- ReplayGovernanceControlReceipt: covers the Todo part of a replay only, for the same reason.
- User actions on a Todo and the release and re-claim of an approved Plan dispatch, which combine the modelled claim steps.
- Rebuilding blocked governance rows for old roots, and roots without a Coordinator.
- Evaluation reports behind the acceptance of a root: `AcceptedLine` takes the finish gate as passed.
- The renewal of an active delegated Run's claim, which changes only the expiry.
- `deferCoordinatorForHostUnavailable` (`coordinator_engine.go:412-417`), which moves a Coordinator whose host is offline to waiting_retry without starting a Run; nothing but its status and due time changes.
- The progress counters of a Coordinator, which a repeated success of a Worker counts again.
- A Coordinator turn that starts while its terminal predecessor is still recorded as current; the model starts turns on a free control line.
- A bound on replans after a rejected evaluation: the source has none, and a rejection counts as an outside event.
- The order of live runner writes: an event is numbered under the lock and written after it, so only the resend batch is ordered.
- Multiplication overflow of a context window beyond 2^63 / 35 tokens, and text that is not valid UTF-8.
- The JSON grammar below the token stream and the schema validation of a decision; the scan is modelled on tokens.
- Collecting tool calls, user texts and assistant texts from run events; `History` starts from what one Run contributes.
- Plan submission checks that only refuse (limits, agents, join targets, source Runs, governance lineage), the replay of a Plan by its client key, timer wake-ups, and what a dispatched child contains.
- The calls that settle each turn inside or after a cancellation; `TurnSettlement` models the settlement of one turn.
- Authorization and directory checks of a code workspace: a Create may give up at any section.
