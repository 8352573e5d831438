# Verified models of the Samus automation core

This project models the parts of the Samus repository whose correctness depends
on more than one function or more than one call, and proves what they keep over
whole histories. `dafny verify dfyconfig.toml` checks all of it.

**Campaigns** (`backend/campaigns`). A campaign is a graph of nodes driven by a
persistent state machine. `CampaignModel` holds templates and the governance
tables, `CampaignGraphs` Kahn's algorithm and the ready set. `CampaignSemantics`
is the state machine: a run, the shared approvals queue and a ledger of
everything observable, moved by the lifecycle operations, by the steps of a
drive and by other parties deciding approvals. A node's dispatcher may answer
with any new context or any error. `CampaignKpis` folds KPI events.
`CampaignInvariants`, `CampaignGating`, `CampaignRefusals`, `CampaignCounting` and
`CampaignProgress` prove what holds in every history, `CampaignExamples` has
concrete histories that break what is documented, and `CampaignEngine` has the
executor and the orchestrator as classes whose methods are proved to follow the
state machine action by action.

**Fulfillment plans** (`recovery/fulfillment_worker_v2.py`). A plan sends
messages for its roots, and each finished step sends the steps it unlocks.
`FulfillmentProtocol` is the step relation over plan, messages in flight and
log, with redelivery, resume, re-planning and handlers that fail part-way;
`FulfillmentCompletion` treats histories that deliver every message once,
`FulfillmentRecovery` all histories that lose none, `FulfillmentCycles` the cycle
report; `FulfillmentWorkers` has the worker class.

**Integrity ledger** (`recovery/fillin_sample_integrity_ledger.py`).
`IntegrityLedgers` has the hash-chained, signed log over an arbitrary hash and
an arbitrary signature.

**Capital reconciliation** (`scripts/reconcile_capital_contributions.py`).
`CapitalReconciliation` allocates entry ids and folds rows; `MarkerText`
regenerates the text between two marker lines. Amounts are whole cents.

**Portfolio selection** (`backend/cash_engine`). `CampaignPortfolio` selects
production streams greedily under several limits.

**Quorum voting** (`recovery/fillin_sample_quorum_voter.py`). `QuorumVoting`
has weighted, risk-adjusted votes that feed back into reputations.

**Check-in sweep** (`scripts/checkin_send_helper.py`). `CheckinSweep` mails due
drafts from a queue file, a capped number per sweep.

`Digraph` (walks, cycles, what Kahn's algorithm leaves over) and `Ordering`
(stable sorting) are shared; `Basics` holds option and result types.

## Where the code and its documentation differ

The models follow the code. Each point below has lemmas in the table: one that
shows the failing input and, where the code keeps part of the promise, one that
says exactly when.

- A cancelled campaign is listed as terminal, but approving one of its requests
  moves it back to running (`CancelledRunsAgain`); nothing else does
  (`OnlyApprovalLeavesCancelled`).
- Rollback mode `halt` is documented to stop the run. It does exactly what
  leaving the node failed does (`HaltIsLeaveFailed`): the siblings of a failed
  halt node are still dispatched (`HaltDoesNotStopSiblings`).
- Rejecting an approval with a mismatched node id blocks whatever node was named
  (`StrayRejectionBreaksBuckets`). The bucket discipline survives if and only if
  the named node has a step record and has neither completed nor failed
  (`RejectKeepsBuckets`).
- The cycle report also names steps that merely repeat a dependency or depend on
  an unknown id, and what is downstream of them (`AcyclicPlanIsReported`). It is
  empty if and only if the plan is acyclic, knows all its dependencies and
  repeats none (`ReportEmptyExactly`).
- The ledger's health probe checks ten entries and calls every longer honest
  ledger broken unless the configured window is ten (`HealthIsRightExactly`,
  `HealthRejectsElevenHonestEntries`).
- The check trusts the first line of a window of the configured size, so cut off
  heads can go unnoticed. The last k lines of an honest ledger pass a check of m
  entries if and only if what is walked is the whole ledger or is as long as the
  configured window (`TailPassesExactly`). The check at boot therefore misses a
  cut exactly when at least a whole window is left (`BootMissesHeadCutExactly`),
  and a whole-file check misses a cut to exactly that window, which keeps the tip
  hash (`CutToWindowKeepsTip`, the exception to `TamperEvidence`).
- The initial contribution is documented to be always `C-2026-001`. After a run
  that saw only a later row it becomes number two (`InitialIdCanBeSecond`). It is
  number one exactly when nothing was allocated before it
  (`InitialIdIsFirstExactly`).
- A portfolio tick selects streams but runs, for each selected id, the last
  stream registered under it. With shared ids it can run a paid stream, at a
  cost, with no headroom at all (`SharedIdsOverspend`). It runs what it selected,
  under all limits, if and only if every eligible stream is the last of its id
  (`ActsOnSelectedExactly`), so always where ids are unique (`UniqueIdsSuffice`).
- The check-in sweep is documented as fail-soft per entry and idempotent. It
  aborts at a record that is no object, a time stamp without a zone, a path that
  is not text or a draft that exists but cannot be read, and before the queue is
  saved; saving may fail as well. The next sweep then mails the same letters
  again (`TearingHappens`, `TornSweepRepeats`). At-most-once holds exactly for
  sweeps that are not torn in this way (`CrashesExactly`, `SweepSettlesExactly`).

## Model

| member | source | states |
|---|---|---|
| CampaignModel.ResolveLevel | backend/campaigns/approval_gate.py:44-56 | The resolved level is at least as strict as the declared one, the node type's default and the vertical's override, and is one of the three. |
| CampaignModel.HighRiskIsAlwaysGated | backend/campaigns/registry.py:50-83 | No override can bring a high-risk or unclassified node type down to no approval. |
| CampaignGraphs.CampaignGraph.constructor | backend/campaigns/graph.py:88-96 | The edge lists built in place hold, for every node, exactly the edges into and out of it. |
| CampaignGraphs.CampaignGraph.Build | backend/campaigns/graph.py:88-113 | A graph object exists exactly for acyclic templates; otherwise exactly the nodes on or downstream of a cycle are reported. |
| CampaignGraphs.CampaignGraph.TopologicalOrder | backend/campaigns/graph.py:115-130 | Kahn's algorithm succeeds exactly on acyclic graphs, listing every node once with every edge going forward; otherwise it names exactly the nodes on or downstream of a cycle. |
| CampaignGraphs.CampaignGraph.InitialQueue | backend/campaigns/graph.py:117-118 | At the start each in-degree counts exactly the edges into the node and the queue holds exactly the nodes at zero. |
| CampaignGraphs.CampaignGraph.Retire | backend/campaigns/graph.py:123-126 | After a node is listed, each in-degree counts exactly the edges from unlisted nodes and the queue holds exactly the unlisted nodes at zero. |
| CampaignGraphs.CampaignGraph.Ready | backend/campaigns/graph.py:134-163 | The scan over declaration order returns the specified ready list. |
| CampaignGraphs.ReadyAmongMembers | backend/campaigns/graph.py:134-163 | A node is ready if and only if it is declared, neither completed nor excluded, and every incoming edge has a completed source and a true condition. |
| CampaignGraphs.CampaignGraph.Roots | backend/campaigns/graph.py:101-103 | The roots are exactly the nodes no edge ends in. |
| CampaignInvariants.PerformLands | backend/campaigns/executor.py:119-293 | Executing a schedulable node appends it to exactly the bucket its new status names, touches no other node, and changes the context only if the node completed. |
| CampaignInvariants.HistorySound | backend/campaigns/orchestrator.py:112-236 | In every history, mixed-up approvals included: lists are duplicate free, completed nodes are not failed, waiting nodes are in no other list, every node with a step record has all predecessors completed, and the pass in progress holds only schedulable nodes. |
| CampaignInvariants.RejectKeepsBuckets | backend/campaigns/orchestrator.py:217-229 | A rejection keeps the full bucket discipline if and only if its target has a step record and is neither completed nor failed, or there is no target. |
| CampaignExamples.StrayRejectionBreaksBuckets | backend/campaigns/orchestrator.py:217-229 | A legal history in which a rejection naming another node breaks a bucket discipline that held before it. |
| CampaignInvariants.HistoryBuckets | backend/campaigns/executor.py:151-293 | In every history with well-aimed rejections the four lists are pairwise disjoint, each member's step status matches its list, and all its predecessors are completed. |
| CampaignInvariants.SettleReportsCompletion | backend/campaigns/orchestrator.py:285-299 | Settling reports COMPLETED exactly when every template node is completed, and leaves a cancelled run alone. |
| CampaignGating.HistoryCausal | backend/campaigns/approval_gate.py:73-108 | In every history each ledger entry is justified by earlier ones and the approvals queue says approved only where the ledger shows request and decision. |
| CampaignGating.GatedDispatch | backend/campaigns/executor.py:132-147 | Every attempt on a node whose level is not none follows, after only its own failed attempts, a gate check that read an approval requested for that very node and approved before. |
| CampaignGating.HighRiskDispatchWasApproved | backend/campaigns/executor.py:125-147 | Every attempt on a high-risk or unclassified node was preceded by a request for that node and its approval. |
| CampaignGating.OneRequestPerNode | backend/campaigns/approval_gate.py:81-101 | Over any history at most one approval is requested per node. |
| CampaignGating.LifecycleChains | backend/campaigns/orchestrator.py:273-283 | Each lifecycle entry leaves the state the previous one entered; the last one entered the present state. |
| CampaignRefusals.DecisionsAreFinal | backend/common/approvals.py:338-347 | In every history each request is decided at most once, and the queue goes on saying what was decided. |
| CampaignRefusals.RefusalIsFinal | backend/campaigns/approval_gate.py:81-108 | In every history, mis-aimed rejections included: if a node's request was rejected or has expired, no attempt on that node was ever made under a gate. |
| CampaignRefusals.RefusedHighRiskNeverRuns | backend/campaigns/executor.py:125-147 | A high-risk or unclassified node whose request was refused is never dispatched, whatever is decided or resumed afterwards. |
| CampaignCounting.DispatchBound | backend/campaigns/executor.py:197-235 | Over any history a node succeeds at most once, and exactly if it is completed; it is tried at most its attempt limit; it is compensated at most once, and only if it failed. |
| CampaignCounting.HistoryTallied | backend/campaigns/orchestrator.py:158-178 | The invariant behind the bound: unscheduled nodes have no attempts, so finished ones are never tried again. |
| CampaignProgress.NoUnexplainedStall | backend/campaigns/graph.py:134-163 | When nothing is ready, every uncompleted node is reached, through uncompleted nodes only, from one that failed, is blocked, waits for approval, or has an incoming edge whose condition is false though its predecessors are completed. |
| CampaignProgress.EveryDriveIsExplained | backend/campaigns/orchestrator.py:153-184 | The same after every drive of every history. |
| CampaignProgress.PausedMeansFalseCondition | backend/campaigns/orchestrator.py:285-299 | A drive ends in PAUSED only over a false condition, so never on a template without conditions. |
| CampaignProgress.OnlyApprovalLeavesCancelled | backend/campaigns/orchestrator.py:208-215 | CANCELLED is left by approving a request and in no other way. |
| CampaignExamples.CancelledRunsAgain | backend/campaigns/orchestrator.py:208-215 | A legal history that reaches CANCELLED and, by an approval, goes on to RUNNING. |
| CampaignProgress.HaltIsLeaveFailed | backend/campaigns/executor.py:331-336 | Executing a node under rollback mode halt has the same effect as under mode none. |
| CampaignExamples.HaltDoesNotStopSiblings | backend/campaigns/orchestrator.py:172-178 | A legal history in which a halt node fails and its sibling of the same pass is dispatched after it and completes. |
| CampaignProgress.BarrenPassExhausts | backend/campaigns/orchestrator.py:172-178 | If a pass completed nothing, nothing is ready after it. |
| CampaignEngine.ApprovalQueue.Create | backend/campaigns/approval_gate.py:86-101 | A new pending row under an unused id carrying the node, or no row and no id. |
| CampaignEngine.ApprovalQueue.Decide | backend/campaigns/orchestrator.py:203-205 | Succeeds exactly on a pending row and changes that row only. |
| CampaignEngine.NodeExecutor.Execute | backend/campaigns/executor.py:119-147 | The in-place executor does exactly what the state machine's node step says, for the id the queue handed out and the outcomes the dispatcher produced. |
| CampaignEngine.NodeExecutor.AskForApproval | backend/campaigns/approval_gate.py:81-101 | A node without a recorded request gets one, under an id new to the queue or none, and waits. |
| CampaignEngine.NodeExecutor.PassGate | backend/campaigns/executor.py:132-147 | Reading the gate of a recorded request logs what the queue says now and answers just that. |
| CampaignEngine.NodeExecutor.RejectUnsafe | backend/campaigns/executor.py:151-177 | Blocks the node and logs the refusal; nothing is dispatched. |
| CampaignEngine.NodeExecutor.PauseForApproval | backend/campaigns/executor.py:179-195 | Lists the node as waiting, once, and changes nothing else of the run. |
| CampaignEngine.NodeExecutor.TryUntilDone | backend/campaigns/executor.py:212-222 | The retry loop stops at the first success, at the first error not worth retrying, or at the attempt limit, and not before; it logs every attempt. |
| CampaignEngine.NodeExecutor.RunDispatch | backend/campaigns/executor.py:197-235 | Clears the gates, tries, and finishes in success or failure as the last outcome says. |
| CampaignEngine.NodeExecutor.FinishSuccess | backend/campaigns/executor.py:237-267 | Lists the node as completed, takes it off the failed ones and installs the result's context. |
| CampaignEngine.NodeExecutor.FinishFailure | backend/campaigns/executor.py:269-293 | Marks the node failed and compensates exactly when the rollback mode says so and names a capability. |
| CampaignEngine.CampaignOrchestrator.CreateCampaign | backend/campaigns/orchestrator.py:63-108 | From defaults, given inputs and the two ids, a run is created exactly when every required input comes out present and not empty and the template is acyclic; the names complained about are exactly the missing ones. |
| CampaignEngine.CampaignOrchestrator.constructor | backend/campaigns/orchestrator.py:85-108 | A new run stands at the start of an empty history, in READY. |
| CampaignEngine.CampaignOrchestrator.OthersAct | backend/campaigns/orchestrator.py:124-126 | Decisions taken directly in the shared queue may come between any two steps; they extend the history by actions of others only and leave run, drive and pass alone. |
| CampaignEngine.CampaignOrchestrator.Transition | backend/campaigns/orchestrator.py:273-283 | Changes the state and logs the move from the old one. |
| CampaignEngine.CampaignOrchestrator.StartRun | backend/campaigns/orchestrator.py:112-119 | Refused in COMPLETED and CANCELLED without any change; otherwise a whole drive extends the history and nothing is ready at its end. |
| CampaignEngine.CampaignOrchestrator.AdvanceRun | backend/campaigns/orchestrator.py:121-142 | Refused outside the resumable states without any change; otherwise satisfied gates are lifted, a whole drive follows and nothing is ready at its end. |
| CampaignEngine.CampaignOrchestrator.ReconcileApprovals | backend/campaigns/orchestrator.py:144-151 | Removes exactly the waiting nodes whose own approval is given, keeping the order of the others. |
| CampaignEngine.CampaignOrchestrator.Drive | backend/campaigns/orchestrator.py:153-184 | The loop bound never cuts a drive short: it ends settled, with nothing ready. |
| CampaignEngine.CampaignOrchestrator.RunPasses | backend/campaigns/orchestrator.py:157-178 | The bounded loop of passes extends the history by drive steps and the actions of others, and ends with nothing ready. |
| CampaignEngine.CampaignOrchestrator.RunPass | backend/campaigns/orchestrator.py:159-178 | A pass completes at least one node or leaves nothing ready. |
| CampaignEngine.CampaignOrchestrator.RunNext | backend/campaigns/orchestrator.py:173-175 | Executing the next node of a pass lands it in exactly one bucket, after whatever others did meanwhile. |
| CampaignEngine.CampaignOrchestrator.DecideNode | backend/campaigns/orchestrator.py:188-229 | Succeeds exactly if the approval it is about is pending and the decision is intelligible; approving drives to a fixpoint, rejecting blocks and settles, failing changes nothing. |
| CampaignEngine.CampaignOrchestrator.BlockNode | backend/campaigns/orchestrator.py:218-225 | Blocks the named node, once, takes it off the waiting ones and marks its step record if it has one. |
| CampaignEngine.CampaignOrchestrator.SettleState | backend/campaigns/orchestrator.py:285-299 | Moves to the settled state and logs the move, except out of CANCELLED. |
| CampaignEngine.CampaignOrchestrator.CancelRun | backend/campaigns/orchestrator.py:231-236 | Moves to CANCELLED from any state and changes nothing else. |
| CampaignEngine.CampaignOrchestrator.Ingest | backend/campaigns/app.py:243-252 | A batch with an invalid event changes nothing that is kept; any other changes the KPIs, to the fold of its events, and nothing else. |
| CampaignKpis.KpiIsLastSetPlusAdded | backend/campaigns/kpi.py:87-104 | After a batch a KPI is the last value it was set to, or its value before, plus everything added since. |
| CampaignKpis.OtherKpisStay | backend/campaigns/kpi.py:97-102 | A KPI no event names keeps its value and does not appear if it was absent. |
| FulfillmentProtocol.NothingSentTooEarly | recovery/fulfillment_worker_v2.py:98-161 | Under any delivery, with redelivery, resume, re-planning with any plan, repeated ids and part-way failures: every step sent since the last planning was sent after each of its dependencies had finished since that planning. |
| FulfillmentProtocol.SelectMembers | recovery/fulfillment_worker_v2.py:158-165 | A handler dispatches exactly the steps its rule selects. |
| FulfillmentCompletion.OrderlyIsExact | recovery/fulfillment_worker_v2.py:111-120 | With each message delivered once, after every delivery a step has been sent at most once, exactly if its dependencies are done, and its message is in flight exactly until it is done. |
| FulfillmentCompletion.DispatchedOnceWhenUnlocked | recovery/fulfillment_worker_v2.py:158-161 | Each step is dispatched at most once, and has been exactly when its dependencies are done. |
| FulfillmentCompletion.DeliveriesRunOut | recovery/fulfillment_worker_v2.py:111-120 | An orderly history delivers at most as many messages as the plan has steps, and nothing is in flight once it has delivered that many: the queue does run empty. |
| FulfillmentRecovery.NothingLostIsLive | recovery/fulfillment_worker_v2.py:111-133 | The invariant behind both: a step that is free to go is done or has a message on its way, messages are sent only for steps whose dependencies have finished, and what has finished is done or about to be so again. |
| FulfillmentRecovery.QuietMeansExhausted | recovery/fulfillment_worker_v2.py:111-161 | In every history that loses no message - late, repeated or resumed ones, and handlers that fail part-way and are raised again, included: once nothing is in flight, the steps done are exactly those that no cycle and no unknown dependency holds back. |
| FulfillmentRecovery.AcyclicPlanCompletes | recovery/fulfillment_worker_v2.py:140-145 | When an acyclic plan with known dependencies that loses no message falls quiet, every step is done and the plan finalizes as complete; if each message was delivered once, each step was also dispatched exactly once. |
| FulfillmentCycles.ReportIsAboutCycles | recovery/fulfillment_worker_v2.py:167-180 | With duplicate-free, known dependencies the report's graph is the dependency graph. |
| FulfillmentCycles.ReportEmptyExactly | recovery/fulfillment_worker_v2.py:167-180 | The report is empty if and only if the plan is acyclic, all its dependencies are known and none is repeated. |
| FulfillmentCycles.AcyclicPlanIsReported | recovery/fulfillment_worker_v2.py:169-180 | A two-step acyclic plan in which one step repeats its dependency, and is reported. |
| FulfillmentCycles.ReportPredictsStall | recovery/fulfillment_worker_v2.py:135-145 | Without repeated dependencies the report names exactly the steps left undone by a quiet plan that lost no message, so finalizing says complete exactly when the report is empty. |
| FulfillmentWorkers.FulfillmentWorker.DetectCycles | recovery/fulfillment_worker_v2.py:167-180 | Whatever the order of the stack, the report names exactly the steps on or downstream of a cycle, a repeated or unknown dependency counting as a self-loop; it is empty exactly when the plan is acyclic and has neither. |
| FulfillmentWorkers.FulfillmentWorker.InitialStack | recovery/fulfillment_worker_v2.py:169-170 | At the start each count is the number of listed dependencies and the stack holds exactly the steps without any. |
| FulfillmentWorkers.FulfillmentWorker.Scan | recovery/fulfillment_worker_v2.py:175-179 | Scanning the plan for a popped step leaves every count right for it being finished and the stack holding exactly the unfinished steps at zero. |
| FulfillmentWorkers.FulfillmentWorker.Positive | recovery/fulfillment_worker_v2.py:180-180 | Lists exactly the steps whose count is not zero. |
| FulfillmentWorkers.FulfillmentWorker.ValidatePlan | recovery/fulfillment_worker_v2.py:135-138 | Reports the number of steps and exactly the steps on or downstream of a cycle; the report is empty under the same exact condition. |
| FulfillmentWorkers.FulfillmentWorker.DispatchSelected | recovery/fulfillment_worker_v2.py:158-161 | Sends the selected steps in plan order, all of them unless dispatching raises, and then exactly those before it raised. |
| FulfillmentWorkers.FulfillmentWorker.ExecuteStep | recovery/fulfillment_worker_v2.py:111-126 | The handler follows the protocol; it completes exactly when no exception strikes, and an exception is raised again exactly for a retryable step. |
| FulfillmentWorkers.FulfillmentWorker.FinishAndUnlock | recovery/fulfillment_worker_v2.py:114-120 | Marks the step done and sends what that unlocks; an exception leaves exactly the messages sent before it. |
| FulfillmentWorkers.FulfillmentWorker.UnlockAll | recovery/fulfillment_worker_v2.py:158-161 | Sends what the finished step unlocks; an exception, before any of the sends or after the last, leaves exactly the messages sent before it. |
| FulfillmentWorkers.FulfillmentWorker.FailStep | recovery/fulfillment_worker_v2.py:121-126 | Marks the step failed and uses up its message unless it is retryable. |
| FulfillmentWorkers.FulfillmentWorker.PlanExecution | recovery/fulfillment_worker_v2.py:98-108 | Whatever plan the message brings replaces the stored one; exactly its roots are sent, and their number is reported. |
| FulfillmentWorkers.FulfillmentWorker.ResumePlan | recovery/fulfillment_worker_v2.py:128-133 | Sends, and returns in plan order, exactly the pending steps whose dependencies are done. |
| FulfillmentWorkers.FulfillmentWorker.FinalizePlan | recovery/fulfillment_worker_v2.py:140-145 | Complete exactly when every step is done. |
| FulfillmentWorkers.FulfillmentWorker.MarkStepTo | recovery/fulfillment_worker_v2.py:189-193 | Changes the status of every step of that id and of no other. |
| IntegrityLedgers.VerifyMeans | recovery/fillin_sample_integrity_ledger.py:218-290 | A check passes exactly when its window holds no unreadable line, is linked from genesis (or from its own first entry in the one trusted case), and every entry is signed under its own or the previous period's key. |
| IntegrityLedgers.VerdictNamesFirstBreak | recovery/fillin_sample_integrity_ledger.py:240-285 | A broken verdict points at the first line that breaks the chain: everything before it is in order, and the number is that entry's own, or for an unreadable line one more than the last entry's. |
| IntegrityLedgers.SameTipSameSuffix | recovery/fillin_sample_integrity_ledger.py:104-106 | Two linked chains with the same tip agree from the tip backwards. |
| IntegrityLedgers.AnchoredTipIsUnique | recovery/fillin_sample_integrity_ledger.py:104-106 | A chain anchored at genesis is determined by its tip among all chains at least as long, wherever those start. |
| IntegrityLedgers.TamperEvidence | recovery/fillin_sample_integrity_ledger.py:218-290 | Of two logs that both pass a whole-file check and have the same tip, the shorter is a suffix of the longer; they are equal, and conversely, unless the shorter file has exactly the configured window's length. The hash must not collide or hit the genesis value on these very entries. Logs are compared by the six fields of an entry: further JSON fields of a line are neither signed nor hashed. |
| IntegrityLedgers.CutToWindowKeepsTip | recovery/fillin_sample_integrity_ledger.py:237-258 | The exception: an honest ledger cut to exactly its configured window passes the whole-file check with the same tip. |
| IntegrityLedgers.TailPassesExactly | recovery/fillin_sample_integrity_ledger.py:237-258 | For every m: the last k lines of an honest ledger pass a check of m entries exactly when the lines walked are the whole ledger or as many as the configured window. |
| IntegrityLedgers.BootMissesHeadCutExactly | recovery/fillin_sample_integrity_ledger.py:155-163 | The check at boot misses a cut-off head exactly when at least a whole window of lines is left. |
| IntegrityLedgers.HonestPassesExactly | recovery/fillin_sample_integrity_ledger.py:218-290 | An honest ledger passes a check of m entries exactly when m covers it (or is not positive) or is the configured window. |
| IntegrityLedgers.HealthIsRightExactly | recovery/fillin_sample_integrity_ledger.py:310-322 | The health probe accepts an honest ledger exactly when it has at most ten entries or the window is ten. |
| IntegrityLedgers.HealthRejectsElevenHonestEntries | recovery/fillin_sample_integrity_ledger.py:310-322 | An honest ledger of eleven entries the health probe calls broken. |
| IntegrityLedgers.IntegrityLedger.VerifyChain | recovery/fillin_sample_integrity_ledger.py:218-290 | The walk returns the specified verdict: count, or number and reason of the first break. |
| IntegrityLedgers.IntegrityLedger.Append | recovery/fillin_sample_integrity_ledger.py:186-216 | Appends one entry linked to the cached tip, signed under its period's key; an honest ledger with a true cached tip stays so. |
| IntegrityLedgers.IntegrityLedger.LoadTip | recovery/fillin_sample_integrity_ledger.py:165-184 | Rebuilds number and hash from the last line that is not blank; fails exactly if that line is unreadable. |
| IntegrityLedgers.IntegrityLedger.Open | recovery/fillin_sample_integrity_ledger.py:133-163 | Every honest file opens and gets exactly its live tip back; with verification at boot only a file that passes it opens. |
| CapitalReconciliation.FormatIdInjective | scripts/reconcile_capital_contributions.py:231-233 | Different numbers print as different entry ids, padding included. |
| CapitalReconciliation.AssembleEntries | scripts/reconcile_capital_contributions.py:139-275 | The loops return the specified entries and state. |
| CapitalReconciliation.FoldPreFormation | scripts/reconcile_capital_contributions.py:167-222 | The pre-formation batch becomes one entry of its total, and all its rows point to it. |
| CapitalReconciliation.AllocateRows | scripts/reconcile_capital_contributions.py:224-264 | Each post-formation row becomes an entry under its recorded id, or under the next number. |
| CapitalReconciliation.EntriesConserveMoney | scripts/reconcile_capital_contributions.py:155-266 | On every input the entries add up to what left the founder's account. |
| CapitalReconciliation.EntriesAreInOrder | scripts/reconcile_capital_contributions.py:266-266 | The entries come out ordered by date, then id, with none lost or repeated. |
| CapitalReconciliation.RerunIsIdempotent | scripts/reconcile_capital_contributions.py:139-275 | On every input, running again from the state just written gives the same entries and the same state. |
| CapitalReconciliation.RecordedIdChangesExactly | scripts/reconcile_capital_contributions.py:210-211 | A recorded id changes in a run exactly when its row now counts as pre-formation and it is not the initial entry's id, the one on file or else the next to be given out. |
| CapitalReconciliation.RunKeepsIds | scripts/reconcile_capital_contributions.py:226-233 | From a well-formed state that agrees with the rows, a run keeps both properties and every recorded id. |
| CapitalReconciliation.PostFormationIdsAreDistinct | scripts/reconcile_capital_contributions.py:226-233 | Distinct post-formation external ids get distinct entry ids, numbered below the next number and different from the initial entry's. |
| CapitalReconciliation.RecordedForever | scripts/reconcile_capital_contributions.py:149-154 | Over any number of runs on growing ledgers a recorded entry id never changes. |
| CapitalReconciliation.FreshStateIsGood | scripts/reconcile_capital_contributions.py:123-129 | A missing state file is a well-formed start. |
| CapitalReconciliation.InitialIdIsFirstExactly | scripts/reconcile_capital_contributions.py:167-171 | The initial entry is number one exactly if it was already, or is assigned with nothing allocated before. |
| CapitalReconciliation.InitialIdCanBeSecond | scripts/reconcile_capital_contributions.py:167-171 | Two rows and two runs after which the initial entry is number two. |
| MarkerText.ReplaceMeans | scripts/reconcile_capital_contributions.py:393-438 | Replacing succeeds exactly when both markers occur once, alone on their lines and in order, and then splices between them. |
| MarkerText.SpliceIsTextual | scripts/reconcile_capital_contributions.py:436-438 | On the text as a string the result is everything through the start line, the replacement, and everything from the end line on. |
| MarkerText.PutGet | scripts/reconcile_capital_contributions.py:393-438 | What was written is what is read back, and both sides of the region are untouched. |
| MarkerText.GetPut | scripts/reconcile_capital_contributions.py:393-438 | Writing back what is there changes nothing; between adjacent markers there is nothing to write back, and every replacement changes the text. |
| MarkerText.PutPut | scripts/reconcile_capital_contributions.py:393-438 | A second write succeeds exactly when the first contained no marker line of the region, and then the last write wins. |
| MarkerText.SeparateRegionsCommute | scripts/reconcile_capital_contributions.py:451-452 | Writes to separate regions succeed in both orders with the same text. |
| MarkerText.BothOrdersSucceedExactly | scripts/reconcile_capital_contributions.py:451-452 | With four different markers and clean replacements both orders succeed if and only if the regions are separate. |
| MarkerText.Apply | scripts/reconcile_capital_contributions.py:441-459 | Threads all replacements, reports whether the text changed, and ends a changed text with a newline. |
| MarkerText.SecondApplyIsQuiet | scripts/reconcile_capital_contributions.py:441-459 | Applying two separate, clean replacements a second time changes nothing, the final newline included. |
| CampaignPortfolio.SelectCampaigns | backend/cash_engine/campaign_portfolio.py:79-130 | The two loops compute the specified choice. |
| CampaignPortfolio.SelectionWithinLimits | backend/cash_engine/campaign_portfolio.py:111-129 | What is selected respects the ceiling, the monitoring budget, the spend ceiling, eligibility and tiers, and the running totals are the true sums. |
| CampaignPortfolio.SelectionIsMaximal | backend/cash_engine/campaign_portfolio.py:111-129 | With nonnegative costs, no eligible stream of an allowed tier that was passed over would still fit in the end. |
| CampaignPortfolio.EveryStreamIsListedOnce | backend/cash_engine/campaign_portfolio.py:98-130 | Selected plus skipped list every id exactly as often as it was offered. |
| CampaignPortfolio.SelectionIgnoresListingOrder | backend/cash_engine/campaign_portfolio.py:110-130 | With unique ids every listing order gives the same selection, the same totals and the same reasons. |
| CampaignPortfolio.RunPortfolio | backend/cash_engine/campaign_portfolio.py:140-218 | One tick selects under the derived limits and actuates, once each, the streams found under the selected ids, with a cap of their default scaled by the intensity, rounded, and at least one. What runs keeps to the count, and to budget and tiers if every eligible stream is the last of its id. |
| CampaignPortfolio.TargetIsCapped | backend/cash_engine/campaign_portfolio.py:153-178 | The count a tick aims at is never negative and never above the pace target or the affordable count. |
| CampaignPortfolio.ActuateAll | backend/cash_engine/campaign_portfolio.py:179-191 | For each selected stream the last one registered under its id is run once; a failed pass counts nothing and stops no other. |
| CampaignPortfolio.ActsOnSelectedExactly | backend/cash_engine/campaign_portfolio.py:179-183 | Under all limits a tick runs just what it selected, if and only if every eligible stream is the last registered under its id. |
| CampaignPortfolio.UniqueIdsSuffice | backend/cash_engine/campaign_portfolio.py:179-183 | Where ids are unique every eligible stream is the last of its id, so the exact condition holds. |
| CampaignPortfolio.SharedIdsOverspend | backend/cash_engine/campaign_portfolio.py:179-183 | Two streams under one id with which a tick without headroom selects the free one and runs the paid one at its cost. |
| CampaignPortfolio.TargetIsClamped | backend/cash_engine/campaign_portfolio.py:65-76 | The wanted count lies within capacity and never falls as the pace gets worse. |
| CampaignPortfolio.RoundIsNearest | backend/cash_engine/campaign_portfolio.py:184-184 | A scaled cap is rounded to the nearest whole number, to the even one of two. |
| CampaignPortfolio.CeilIsLeast | backend/cash_engine/campaign_portfolio.py:167-167 | The affordable count is the least whole number not below capacity times intensity. |
| CampaignPortfolio.TickIsSafe | backend/cash_engine/affordability.py:75-99 | Where every eligible stream is the last of its id, what a tick actuates is at most the pace target and the intensity cap, costs at most the headroom and nothing without any, and is only free under conserve and paid only under invest. |
| CampaignPortfolio.OutageIsCautious | backend/cash_engine/affordability.py:102-138 | Under the same condition on ids, when the financials cannot be read a tick actuates nothing paid, spends nothing and runs at most half the capacity, rounded up. |
| QuorumVoting.ApprovalAntitone | recovery/fillin_sample_quorum_voter.py:122-173 | For fixed voters, what is approved at some risk is approved at every lower one, with a score at least as high. |
| QuorumVoting.ScoreBounds | recovery/fillin_sample_quorum_voter.py:149-173 | The score lies between -1 and 1 and the threshold never exceeds 0.95. |
| QuorumVoting.ApprovalNeedsQuorum | recovery/fillin_sample_quorum_voter.py:124-144 | Nothing is approved unless the voters entitled to the action make a quorum. |
| QuorumVoting.QuorumIsTheShare | recovery/fillin_sample_quorum_voter.py:135-135 | The quorum is the configured share of the panel in whole voters, rounded down, and at least one. |
| QuorumVoting.ApprovalNeedsSupport | recovery/fillin_sample_quorum_voter.py:149-173 | Under a positive threshold nothing is approved without an entitled voter of positive weight whose confidence exceeds the risk. |
| QuorumVoting.ReputationsStayInBounds | recovery/fillin_sample_quorum_voter.py:175-187 | Over any sequence of votes every reputation stays between 0.1 and 2 and nothing else about the panel changes. |
| QuorumVoting.AntitoneAfterAnyVotes | recovery/fillin_sample_quorum_voter.py:122-187 | After any votes approval is still antitone in risk, negative risks included. |
| QuorumVoting.QuorumVoter.HoldVote | recovery/fillin_sample_quorum_voter.py:122-169 | The vote over the voter objects returns and logs the specified decision and leaves the specified reputations. |
| QuorumVoting.QuorumVoter.EligibleAgents | recovery/fillin_sample_quorum_voter.py:124-124 | The voter objects entitled to the action, in panel order. |
| QuorumVoting.QuorumVoter.Count | recovery/fillin_sample_quorum_voter.py:146-166 | The counting loop yields the weighted mean, the threshold test and one ballot per eligible voter. |
| QuorumVoting.QuorumVoter.UpdateReputations | recovery/fillin_sample_quorum_voter.py:175-187 | Each ballot that does not abstain adjusts the first voter of its name, in order. |
| QuorumVoting.QuorumVoter.AdjustFirst | recovery/fillin_sample_quorum_voter.py:179-187 | Exactly the first voter object of the ballot's name changes, and only in reputation. |
| CheckinSweep.SweepMeans | scripts/checkin_send_helper.py:117-185 | A sweep that trips over nothing mails exactly the first `cap` sendable entries in queue order, and every row's status follows from its own facts and the number of sendables before it. |
| CheckinSweep.CrashesExactly | scripts/checkin_send_helper.py:117-157 | A live sweep aborts exactly if it reaches a record that is no object, a time stamp it cannot compare, a path it cannot resolve, or, with room under the cap, a draft it cannot read; it has then mailed the first `cap` sendable entries before that row. |
| CheckinSweep.SweepSettlesExactly | scripts/checkin_send_helper.py:117-192 | A sweep keeps "nothing mailed twice, nothing mailed still pending" exactly when it is not torn: aborted, or unable to save the queue, with mail already out. |
| CheckinSweep.TornSweepRepeats | scripts/checkin_send_helper.py:117-192 | After a torn sweep the same sweep mails the same letters again. |
| CheckinSweep.TearingHappens | scripts/checkin_send_helper.py:117-192 | Each kind of abort, and the failing save, tears a concrete sweep. |
| CheckinSweep.AtMostOnce | scripts/checkin_send_helper.py:117-192 | Over any history of sweeps, enqueues and stops without a torn sweep each entry is mailed at most once, whatever the conditions of each sweep. |
| CheckinSweep.StopIsFinal | scripts/checkin_send_helper.py:117-120 | An entry that is no longer pending is never mailed again, torn sweeps included. |
| CheckinSweep.SweepIsCappedAndAddressed | scripts/checkin_send_helper.py:125-148 | Every sweep, torn ones included, mails at most `cap` letters, each to the address registered for its entry's customer with its draft's text; a disabled sweep or a rehearsal mails none. |
| CheckinSweep.CountersAddUp | scripts/checkin_send_helper.py:110-185 | In a live sweep that trips over nothing the four counters add up to the number of rows less the refused entries, which are counted nowhere. |
| CheckinSweep.DrainsInOrder | scripts/checkin_send_helper.py:143-148 | Under steady conditions that trip no sweep, m sweeps of the queue file mail exactly the first m * cap sendable entries, in queue order, and leave the others sendable. |
| CheckinSweep.DrainTime | scripts/checkin_send_helper.py:143-148 | Under the same conditions k sendable entries are all mailed, in queue order, within ceil(k / cap) sweeps. |
| CheckinSweep.ServedInTime | scripts/checkin_send_helper.py:143-148 | An entry that every sweep could serve, with fewer than m * cap pending entries ahead, is mailed within m sweeps, whatever is enqueued behind it, stopped, or changes for the others. |
| CheckinSweep.CheckinQueue.RunSweep | scripts/checkin_send_helper.py:92-204 | The program's loop changes file and outbox as specified, aborts included, and prints the specified counters and alert. |
| CheckinSweep.CheckinQueue.Turn | scripts/checkin_send_helper.py:117-185 | One turn of the loop mails, marks or counts as specified, and hands a letter over exactly when the entry counts as sent. |
| CheckinSweep.CheckinQueue.Load | scripts/checkin_send_helper.py:99-106 | Loading keeps exactly the lines that parse, objects or not, in order. |
| Digraph.LeftoverIsDownstreamOfCycle | backend/campaigns/graph.py:127-129 | What a predecessors-first listing leaves over, if each leftover vertex has a leftover predecessor, is exactly what lies on or downstream of a cycle. |
| Ordering.OrderedIsUnique | backend/cash_engine/campaign_portfolio.py:110-110 | Two ordered rearrangements of the same things are the same list if the order tells different things apart. |

## Left out

- Concurrency: each operation of a campaign, a worker or a sweep is one step; updates lost between two processes loading and saving the same record are not modelled.
- Crashes of the process between a send or dispatch and the following save; the interruptions the check-in sweep itself causes, and a failing save of its queue, are modelled.
- The campaign run store and the template files: a run is an object and its template never changes under it.
- Conditions of edges: an arbitrary total predicate over the context; the operator table and dotted paths are not spelled out.
- Dispatchers: a failed attempt leaves the run as it was and a success brings any new context; a result so malformed that applying it raises is excluded.
- Input mappings, artifacts, metrics, trace ids, hashes, timestamps and backoff sleeping of campaign nodes.
- The approvals service itself: expiry is a decision that may come at any time; a failed request that comes back without an id is no id, and the node may ask again; a request that got an id but was stored nowhere, which the code never asks again for, is one that expires at once; decisions reported but stored nowhere, and revoking an approval, are not modelled.
- `forbidden_capabilities` and `max_auto_severity`, which no code reads.
- Routing checks and KPI declarations of template loading; a template is required to have unique ids, at least one node and known edge endpoints, as loading guarantees.
- Fulfillment plans with repeated step ids or with steps that arrive already done; step records shared by reference between plan and message, here values of one sequence.
- FulfillmentWorkers.FulfillmentWorker.ExecuteStep: a redelivered message is a further copy, not counted as in flight; message visibility timeouts are not modelled.
- Cryptography and JSON: the hash is any function, without collisions and never the genesis value on the entries at hand where a theorem needs it; the signature is any function; a line is blank, unreadable or an entry; entries that parse to something other than an object are not modelled.
- KPI events as raw records: an event is a set, an addition or invalid; the metrics mirrored along the way.
- IntegrityLedgers.IntegrityLedger.Append: assumes that an entry reads back from its line as it was signed. The code fails that for payloads with keys that are not text, whose sorting changes on the way (`{9: 1, 10: 2}`), and for empty payloads that are no object, which read back as an empty object.
- IntegrityLedgers.TamperEvidence: says nothing of fields a line carries beyond the six of an entry; verification ignores them and queries return them.
- A rehearsal's counters: entries a dry sweep would send are counted nowhere; an aborted sweep prints none.
- Querying the ledger and its rendering in health reports.
- Bank rows lacking a timestamp or an external id, on which the reconciler raises; upper-casing beyond ASCII; stored next numbers below zero.
- Descriptions, notes and rendered tables of contributions; the marker text model covers how a rendered table is put into a document, as lines.
- CapitalReconciliation.EntriesConserveMoney: amounts are whole cents, so rounding of binary fractions is not modelled.
- Portfolio and voting numbers are exact reals, not IEEE doubles; the unbounded spend budget is the absence of one.
- CampaignPortfolio.RunPortfolio: eligibility checks, passes and their yields are parameters; the default portfolio and its funnel gate are left out.
- Voter panels in which one object appears twice; `recovery/governance_parliament.py`, a near copy of the voter.
- Parsing of drafts, whose subject and body are parameters; a queue file that cannot be decoded, which stops a sweep before it does anything; a mail backend that takes a letter and then raises or answers with no mapping, which the code marks as failed.
- Scoring, decay and clamp helpers, bandits, renderers, web, queue and mail plumbing: each would add only easy members or needs what is abstracted here.
