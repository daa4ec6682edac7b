# RepoPilot: verified model

A Dafny model of the parts of RepoPilot that decide what a repair run may do, with proofs of what
they guarantee over all inputs and all runs. `dafny verify dfyconfig.toml` checks everything.

* **Plans and waves** (`Paths`, `Dag`, `Plans`, `Scheduler`, `ScheduleLaws`, `Planning`): path
  normalisation, plan validation with its stack-based cycle check, work items, the sorted and
  width-limited wave builder, and the acceptance of first and repair plans.
* **The workflow** (`Transitions`, `Updates`, `History`, `WorkflowState`, `Workflow`,
  `HistoryLaws`, `OutcomeLaws`): a class whose methods follow the workflow body. At every `await` approval updates
  may arrive in any number, and the awaited activity may answer, raise, be cancelled, or still be
  pending when the observation stops. A ghost history records every event; `Run` ensures that the
  history is safe wherever the run stands; `HistoryLaws` and `OutcomeLaws` say what a safe history
  means.
* **A candidate attempt** (`Developer`, `Integration`, `CandidateAttempt`): from planned files to a
  patch proposal, and from proposals to the integration head. A commit is the tree it records; a
  cherry-pick is a three-way merge path by path.
* **Budget ledger and model gateway** (`Ledger`, `BudgetStores`, `LedgerLaws`, `Gateway`,
  `GatewayLaws`): the reserve, settle, release and unknown transactions, and any number of
  concurrent gateway calls.
* **Run creation** (`RunControl`, `RunControlLaws`): any number of concurrent, failing and retried `create` calls.
* **Workspace** (`Workspace`): the agent's staged edits, and the archives they start from.

Five things the code does that a reader might not expect, each with its exact condition:

* `normalize_relative_path` is not idempotent on values that hide a drive prefix behind a leading
  `.` component: `./C:x` is accepted, but its normal form `C:x` is refused. It is on all others.
* `integrate_patch` compares the touched paths with `git diff --name-only HEAD`, which lists tracked
  files only. Of the developers' proposals that apply, exactly those that create a file fail this
  comparison, so with the plain developer no plan that creates a file is ever carried out.
* A call can stay `RESERVED` for good. It does exactly when its caller dies anywhere between
  reserving the call and resolving it, or is cut off at one of these awaits: a reservation that was
  made but not answered; a settlement that was cancelled, before it took effect or when its cost
  would have had it refused; or a release, or the marking of a call that is still reserved, that was
  not carried out. After that no step of anyone changes the row.
* In run creation `STARTED` is lost exactly when a caller of the same key, for whom making the
  budget or starting the workflow raised, gets its late `FAILED` through.
* When an attempt of the integration activity is stopped after the head has moved, no retry can
  succeed: the proposal is refused as a conflict, and the candidate attempt ends.

`build_schedule` compares owners, paths and dependencies and looks for a cycle again; on items made
from the same plan those checks never fail.

## Model

| member | source | states |
|---|---|---|
| Paths.PlanPathExact | src/repopilot/services/scheduler.py:26-32 | A plan path is accepted exactly when walking it from the repository root ends below the root, and the answer is the names on the way |
| Paths.PlanPathNormalForm | src/repopilot/services/scheduler.py:26-32 | Normalising keeps the file a path denotes, and normalising again changes nothing |
| Paths.SameFileSameNormalForm | src/repopilot/services/scheduler.py:43-45 | Two accepted paths denote the same file if and only if their normal forms are equal, so the duplicate-owner check is exact |
| Paths.RelativeIsPlanPath | src/repopilot/tools/paths.py:15-27 | Whatever the tools' normaliser accepts, the plan normaliser accepts with the same answer and the same file |
| Paths.RelativeIdempotentExactly | src/repopilot/tools/paths.py:15-27 | The tools' normaliser is idempotent exactly when the first named component carries no drive prefix |
| Paths.HiddenDriveIsRefusedTheSecondTime | src/repopilot/tools/paths.py:18-24 | The concrete family on which it is not |
| Paths.DriveExactly | src/repopilot/tools/paths.py:8-18 | A drive prefix is one ASCII letter of either case and a colon |
| Paths.AllowedExactly | src/repopilot/tools/paths.py:30-35 | A value is allowed exactly when it and the whole allowlist are acceptable and some entry denotes the same file; the answer is its normal form |
| Policies.MoreFlagsMoreApprovals | src/repopilot/domain/policies.py:96-124 | More risk flags never lower the risk, and more risk never removes a manual stage; which stages a risk asks for is fixed by OutcomeLaws.ExecutionNeedsApprovals |
| Policies.RiskByFlag | src/repopilot/domain/policies.py:83-102 | The risk is high exactly with an authentication, migration or prompt-injection flag, medium exactly with one of the other four and none of these, and low exactly without flags |
| Policies.DependencyManifestPaths | src/repopilot/domain/policies.py:127-137 | The sorted set of manifest paths; non-empty exactly when some path is a manifest |
| Policies.ManifestByName | src/repopilot/domain/policies.py:127-137 | A file is a manifest exactly when its lower-case base name is one of the four fixed names, or starts with `requirements` and ends in `.txt` or `.in` |
| Dag.StuckHasCycle | src/repopilot/services/scheduler.py:65-75 | Nodes left over with nothing ready contain an actual cycle |
| Scheduler.ProcessAll | src/repopilot/services/scheduler.py:65-75 | Kahn's loop on a stack processes every node if and only if the graph has no cycle, in whatever order it visits them |
| Scheduler.ValidateChangePlan | src/repopilot/services/scheduler.py:35-75 | A plan is accepted exactly when it is well shaped and acyclic, and reported cyclic exactly when only a cycle is wrong |
| Scheduler.AddInferredRiskFlags | src/repopilot/services/scheduler.py:78-88 | The reported flags plus those that manifests, CI files and ten or more files make obvious; raises exactly on an unacceptable path |
| Scheduler.InferredByFlag | src/repopilot/services/scheduler.py:78-88 | The inferred flags one by one: a manifest, a file below `.github/workflows/`, ten or more files |
| Scheduler.MaterializeWorkItems | src/repopilot/services/scheduler.py:91-120 | Succeeds exactly on valid plans, with the items the plan determines |
| Plans.OwnershipIsDisjoint | src/repopilot/services/scheduler.py:42-50 | Different work items of a valid plan own disjoint sets of files |
| Plans.MaterializedItemsMatch | src/repopilot/services/scheduler.py:91-120 | The items made from a valid plan agree with it in owners, write paths and dependencies |
| Plans.ItemsAreCanonical | src/repopilot/services/scheduler.py:91-120 | Reordering files and reordering or repeating edges changes neither validity nor the items |
| Scheduler.TakeWaves | src/repopilot/services/scheduler.py:186-202 | The sorted loop takes exactly the greedy waves, and processes everything if and only if there is no cycle |
| Scheduler.BuildSchedule | src/repopilot/services/scheduler.py:123-203 | Succeeds exactly for a width of 1 to 4, a valid plan that deletes no required interface, and matching items; the result is the greedy schedule |
| ScheduleLaws.ScheduleIsSound | src/repopilot/services/scheduler.py:171-203 | The waves partition the items, hold 1 to `width` distinct items each, and every edge leads to a strictly later wave |
| ScheduleLaws.MaterializedPlansSchedule | src/repopilot/activities/planning.py:335-341 | Scheduling the items made from a plan succeeds if and only if the plan is valid and deletes no required interface |
| ScheduleLaws.ScheduleIsCanonical | src/repopilot/services/scheduler.py:123-203 | Neither the order of files, edges and items nor repeated edges decide whether there is a schedule or which one |
| ScheduleLaws.NarrowWavesHoldAllReady | src/repopilot/services/scheduler.py:186-199 | A wave with room to spare holds every item whose upstreams are all in earlier waves |
| ScheduleLaws.WavesAreIncreasing | src/repopilot/services/scheduler.py:186-199 | The items of a wave come in increasing order of their ids: a proper prefix first, otherwise by the first character that differs |
| ScheduleLaws.FullWavesTakeTheFirst | src/repopilot/services/scheduler.py:186-199 | An item that is ready but left out of a wave comes after every item of the wave in that order |
| Ordering.StrLtExactly | src/repopilot/services/scheduler.py:186-199 | The order used for sorting is exactly that one |
| ScheduleLaws.PlanWaveBound | src/repopilot/services/scheduler.py:186-199 | There is a longest dependency chain, and with L items in it, n items and width m the schedule has at least L and at most L + (n - L) / m waves |
| ScheduleLaws.PlanIsNearOptimal | src/repopilot/services/scheduler.py:186-199 | The schedule has at most 2 - 1/m times the waves of any other schedule of the same width |
| Dag.GreedyCost | src/repopilot/services/scheduler.py:186-199 | Some dependency chain pays for all idle places of the schedule |
| Planning.PlanChange | src/repopilot/activities/planning.py:264-347 | A model plan is accepted exactly when it is valid, in repair scope with a reason and at most three new paths, on existing targets, and schedulable; the result is determined by it |
| Planning.ItemsSayThePlan | src/repopilot/activities/planning.py:335-347 | Every item of an accepted result has the kind and attempt its request calls for, and the write paths, read paths, dependencies and owner that the plan's files and edges give it, sorted |
| Planning.RepairStaysInScope | src/repopilot/activities/planning.py:266-290 | An accepted repair stays within the allowed paths and at most three declared ones, and declaring any gives at least medium risk |
| Planning.ReportedRiskCoversPaths | src/repopilot/activities/planning.py:264-265 | The reported risk is at least what the model's flags and the touched paths call for |
| Transitions.TerminalIsLast | src/repopilot/workflows/transitions.py:67-85 | On a legal path a terminal status is last, and only `FINALIZING` leads to it |
| Transitions.ReachedFrom | src/repopilot/workflows/transitions.py:20-85 | From which statuses each status can be reached |
| Transitions.TableBoundsNothing | src/repopilot/workflows/transitions.py:20-53 | For every n the table allows a path of more than n statuses from `QUEUED` |
| Workflow.CodeRepairWorkflow.SubmitApproval | src/repopilot/workflows/code_repair.py:727-735 | An update is accepted exactly when it is valid for the current status and new, and only then recorded |
| Workflow.CodeRepairWorkflow.WaitForApproval | src/repopilot/workflows/code_repair.py:762-771 | A wait ends with a pending decision of its own kind, which is used up; nothing but updates happened meanwhile |
| Workflow.CodeRepairWorkflow.Transition | src/repopilot/workflows/code_repair.py:773-778 | A valid transition is recorded before its projection is awaited; an invalid one raises and changes nothing |
| Workflow.CodeRepairWorkflow.Finalize | src/repopilot/workflows/code_repair.py:780-845 | Finalizing never falls through; if it returns, the run has the outcome's status |
| Workflow.CodeRepairWorkflow.Run | src/repopilot/workflows/code_repair.py:131-500 | Wherever a run stands its history is safe; a run that returns has the terminal status it returns; with activities answering and no cancellation every run returns, unless it stands at a gate nobody has answered, and then it succeeds exactly when its last attempt was approved and no gate refused, is rejected exactly when a gate or the review refused, and fails only when a stage raised or both repair rounds were used up by unapproved attempts |
| Workflow.CodeRepairWorkflow.Prepare | src/repopilot/workflows/code_repair.py:231-322 | The first execution is entered with every gate of the highest risk so far passed, the scope approved, the sealed tests valid or waived, and the loop's variables describing the plan |
| Workflow.CodeRepairWorkflow.RepairRound | src/repopilot/workflows/code_repair.py:361-460 | Each repair round raises the counter by one and enters execution with every gate of the highest risk so far passed, its scope approved, and items of kind repair for the next attempt |
| Workflow.CodeRepairWorkflow.RunCandidateAttempt | src/repopilot/workflows/code_repair.py:541-717 | An attempt that is reported approved has its own diff, passed verification and accepting review on record |
| HistoryLaws.TransitionLaw | src/repopilot/workflows/transitions.py:67-85 | In every history each transition made is valid, terminal statuses are entered from `FINALIZING` and kept, and the only one refused is finalizing after a terminal status |
| HistoryLaws.RunIsBounded | src/repopilot/workflows/code_repair.py:254-361 | No run makes more than 28 transitions, 3 attempts, 3 test designs and 2 repair rounds |
| HistoryLaws.SubmittedOnce | src/repopilot/workflows/updates.py:51-52 | No approval id is ever applied twice |
| HistoryLaws.DecisionsAreFresh | src/repopilot/workflows/code_repair.py:762-771 | A decision that passes a gate was submitted during that very wait, and no other gate ever uses it |
| HistoryLaws.LateRequirementsStay | src/repopilot/workflows/code_repair.py:762-771 | The rules for histories admit a second requirements decision in one wait, which stays pending after the run has moved on; whether a run takes that course depends on when updates arrive |
| HistoryLaws.LateRequirementsAreNotUsed | src/repopilot/workflows/code_repair.py:762-771 | Once the baseline has been reached, no requirements decision is ever used again |
| HistoryLaws.RiskOnlyRises | src/repopilot/workflows/code_repair.py:422-427 | The effective risk is never below the input risk or any planned risk so far |
| HistoryLaws.GateLaw | src/repopilot/workflows/code_repair.py:425-460 | Whenever execution starts, every plan or execution stage that is manual at any risk seen so far has been approved since the current planning began |
| HistoryLaws.ScopeLaw | src/repopilot/workflows/code_repair.py:397-460 | Under the risk-based policy no plan leaving the first plan's paths is executed without a plan approval of its own |
| HistoryLaws.RepairPlanLaw | src/repopilot/activities/planning.py:267-290 | Every path of a repair plan was in the first plan or declared as an expansion; an expansion names at most three paths and comes with at least medium risk |
| HistoryLaws.ScopeGrowth | src/repopilot/workflows/code_repair.py:454-459 | Over a run the paths it may touch grow by at most three for each repair round |
| HistoryLaws.RoundGrowth | src/repopilot/workflows/code_repair.py:454-459 | From the start of a repair round to any point before the next, at most three paths are new |
| HistoryLaws.SuccessLaw | src/repopilot/workflows/code_repair.py:462-476 | A run succeeds only after an attempt that passed verification and review, an approved delivery gate where that is manual, and a report since that attempt that names its three results |
| HistoryLaws.DeliveryLaw | src/repopilot/workflows/code_repair.py:319-476 | What succeeds was executed, attempted, diffed, verified and reviewed in this order, with no planning and no other execution or attempt in between, and every plan or execution stage that is manual at any risk the run has seen was approved for that very plan |
| HistoryLaws.RejectionIsFinal | src/repopilot/workflows/code_repair.py:242-346 | After a refused gate or a declined review the run only finalizes, as rejected or cancelled; nothing is planned, attempted or judged any more and no success is reported |
| OutcomeLaws.OutcomeLaw | src/repopilot/workflows/code_repair.py:473-500 | Every terminal status has its reason in the history and in the report before it: an approved attempt, a refusal, a raised stage or used-up rounds, a cancellation |
| OutcomeLaws.ApprovedIsKept | src/repopilot/workflows/code_repair.py:337-338 | After an approved attempt there is no further round, plan, attempt or judgement, only delivery or the end |
| OutcomeLaws.RoundsFollowFailures | src/repopilot/workflows/code_repair.py:337-362 | A repair round begins only after an attempt that failed verification or whose review asks for changes |
| OutcomeLaws.ExecutionNeedsApprovals | src/repopilot/domain/policies.py:105-124 | Execution starts with a plan approval since the latest planning exactly when the custom setting says so or, by risk, any risk seen is medium or high; and with an execution approval exactly when the setting says so or any risk seen is high |
| OutcomeLaws.SuccessNeedsDelivery | src/repopilot/workflows/code_repair.py:462-476 | A run succeeds with a delivery approval exactly when the input switches automatic delivery off, or is silent and the custom setting asks for one |
| OutcomeLaws.WaitsOnlyWhenAsked | src/repopilot/workflows/code_repair.py:234-317 | A run waits for a plan, execution or delivery decision only when one is asked for |
| OutcomeLaws.SealedTestsLaw | src/repopilot/workflows/code_repair.py:249-304 | Nothing is executed unless the last design of the sealed tests is valid or its use was waived |
| OutcomeLaws.WaiversAreLastResort | src/repopilot/workflows/code_repair.py:283-304 | A waiver is asked for only after an invalid design that did not run, showed no mismatch, or was the last one allowed |
| OutcomeLaws.RevisionsFollowMismatches | src/repopilot/workflows/code_repair.py:283-292 | Tests are designed again only with feedback enabled and after a design that ran and mismatched |
| OutcomeLaws.DecisionsAreJustified | src/repopilot/workflows/updates.py:61-72 | A used rejection or test waiver has a reason that is not blank, and approved requirements have a criterion |
| Developer.CheckPlanned | src/repopilot/activities/developer.py:322-335 | The planned files are accepted exactly when they are this item's, cover its allowlist exactly, and touch manifests only if allowed |
| Developer.DevelopPatch | src/repopilot/activities/developer.py:307-479 | A patch results exactly when the planned files are the item's and cover its allowlist, the files it may see are text and within the context limits, and the design edits each planned path once, as planned, on a fitting target, changing its lines and within the size limits; it turns the lines of each planned file into those of its edit's content, and touches nothing else |
| Developer.ReadVisibleFiles | src/repopilot/activities/developer.py:482-506 | The requested files are read exactly when each is text of at most 1 MiB and together they hold at most 4 MiB; the answer gives the text of each, or that it is missing |
| Developer.VisibleExactly | src/repopilot/activities/developer.py:338-341 | The files shown to the model are those the item may read or write, in normal form |
| Developer.DevelopPatchWithAgent | src/repopilot/activities/developer.py:88-304 | Whatever the agent did, a patch results exactly when the workspace can be loaded, it changed, each change is as planned, readable and changes lines, and the size limit is kept; it turns the lines of each file that changed in the workspace into those it has there, and touches nothing else |
| Developer.BuildPatch | src/repopilot/activities/developer.py:538-570 | A patch is refused exactly when some edit leaves its file's lines as they are or the text is too large; otherwise each change has the lines of the source before and those of the edit's content after, all with the source's kind of line end, and lacks the side that a creation or deletion lacks |
| Developer.OwnPatchText | src/repopilot/activities/developer.py:573-581 | A text is its own patch text exactly when it has one kind of line end and ends in it |
| Developer.ChangeSaysTheEdit | src/repopilot/activities/developer.py:543-581 | An edit gives a change exactly when its content has other lines than the source, and what the two sides of the change then are |
| Developer.WrittenAsIs | src/repopilot/activities/developer.py:573-581 | A content comes out of a patch unchanged exactly when it has the source's kind of line end only and ends in it |
| Workspace.ArchiveWorkspaceBackend.FinalEdits | src/repopilot/tools/archive_workspace.py:189-210 | Reported exactly when the allowlist is acceptable, covers every change and every change is text; sorted, distinct, rightly tagged, and replaying the edits gives the current tree |
| Workspace.ArchiveWorkspaceBackend.WriteFile | src/repopilot/tools/archive_workspace.py:114-118 | A write happens exactly when its path is on the allowlist, and at the normal form of that path |
| Workspace.ArchiveWorkspaceBackend.DeleteFile | src/repopilot/tools/archive_workspace.py:120-127 | A delete happens exactly when its path is on the allowlist and the file exists |
| Workspace.ReplayGivesCurrent | src/repopilot/tools/archive_workspace.py:189-210 | Edits that describe every change rebuild the current tree from the original |
| Workspace.SessionStaysInside | src/repopilot/tools/archive_workspace.py:114-127 | After any writes and deletes nothing outside the allowlist has changed, and every change can be reported |
| Workspace.Load | src/repopilot/tools/archive_workspace.py:219-238 | Loading succeeds exactly when all names are acceptable, the kept paths are distinct and the limits are kept, with the contents of what was kept |
| Workspace.HiddenExactly | src/repopilot/tools/archive_workspace.py:226-227 | Exactly the paths below `.repopilot/` and `.git/` are left out |
| Workspace.RoundTripsExactly | src/repopilot/tools/archive_workspace.py:219-249 | Packing and then loading gives the same tree if and only if every path is visible and its own normal form and the limits are kept |
| Integration.RepositoryService.IntegratePatch | src/repopilot/infrastructure/git/repository_service.py:350-507 | The head moves by one commit to the three-way merge exactly when all checks pass, the merge is clean and not empty, and the attempt gets that far; the answer is positive exactly when it also gets to its end |
| Integration.RepositoryService.IntegrateWithRetries | src/repopilot/workflows/code_repair.py:622-633 | Over all attempts the head moves at most once, and the answer is positive exactly when the attempt that moved it got to its end |
| Integration.ReintegrationIsRefused | src/repopilot/infrastructure/git/repository_service.py:456-467 | An integrated proposal is refused when it comes again |
| Integration.CreatingIsRefused | src/repopilot/infrastructure/git/repository_service.py:420-423 | Of the developers' proposals that apply, exactly those that create a file fail the comparison of changed and touched paths |
| Integration.CreatedFileIsRefused | src/repopilot/infrastructure/git/repository_service.py:420-423 | The smallest proposal that creates a file applies and is integrated into no head |
| Integration.PatchAppliesExactly | src/repopilot/activities/developer.py:538-581 | With patches as whole files, a developer's patch applies exactly when each created path is free and every file it changes or deletes has one kind of line end and ends in it |
| Integration.AgentPatchRebuilds | src/repopilot/activities/developer.py:268-282 | Applying the agent's patch to the tree it started from gives its workspace exactly when each changed file has the line ends of its source and ends in one |
| Integration.AcceptedWithoutConflict | src/repopilot/infrastructure/git/repository_service.py:456-470 | A proposal that passes its checks, on paths unchanged since its input, is accepted and overlays the head with its changes |
| Integration.OnlyParsingPython | src/repopilot/infrastructure/git/repository_service.py:425-438 | No developer's proposal brings a Python file into the head that does not decode and parse |
| Integration.WaveOrderDoesNotMatter | src/repopilot/workflows/code_repair.py:622-633 | A wave gets through exactly when each proposal passes its own checks, in whatever order it is integrated, and every order gives the input overlaid with all edits |
| CandidateAttempt.WaveIsOneWave | src/repopilot/workflows/code_repair.py:592-633 | The proposals of a wave change disjoint files, because the plan gives each item files of its own |
| CandidateAttempt.RunsAreConfluent | src/repopilot/workflows/code_repair.py:592-633 | The same for the waves of a run: the outcome of integrating any of them is the same in every order |
| CandidateAttempt.Upstream | src/repopilot/workflows/code_repair.py:571-574 | The upstream results of an item, in the order of its dependencies, with no lookup missing |
| CandidateAttempt.AcceptedInItsWave | src/repopilot/workflows/code_repair.py:616-633 | Inside a wave a proposal is accepted exactly when it passes its own checks, whatever of the wave is already integrated |
| CandidateAttempt.IntegrateWave | src/repopilot/workflows/code_repair.py:622-633 | The head is the input with the proposals integrated in order, as far as the wave got; it stops only at a proposal that fails its own checks, a stopped service or a lost result, and a conflict comes only from a lost result |
| CandidateAttempt.RunWaves | src/repopilot/workflows/code_repair.py:562-633 | An attempt that gets through integrated every item exactly once and left the start overlaid with every edit; a conflict comes only from a lost result; and with the plain developer no plan that creates a file gets through |
| CandidateAttempt.AttemptIsDeterminate | src/repopilot/workflows/code_repair.py:562-633 | The final tree depends only on what was integrated, not on the order |
| CandidateAttempt.AcceptedPlansCanRun | src/repopilot/activities/planning.py:335-347 | What the planning activity returns meets everything the attempt relies on |
| BudgetStores.BudgetStore.CreateBudget | src/repopilot/infrastructure/db/model_budget.py:32-57 | Refuses limits that are not positive, leaves an existing budget as it is, and otherwise opens an empty one |
| BudgetStores.BudgetStore.Reserve | src/repopilot/infrastructure/db/model_budget.py:59-124 | A known key is answered with its call and no second reservation; a new one is refused when cost or calls run out, and otherwise call and counters are written together |
| BudgetStores.BudgetStore.Settle | src/repopilot/infrastructure/db/model_budget.py:126-146 | Only a reserved call settles, at no more than its reservation, which moves from reserved to spent; any refusal leaves both rows as they were |
| BudgetStores.BudgetStore.Release | src/repopilot/infrastructure/db/model_budget.py:148-158 | A reserved call is released and its reservation taken off the budget; any other call stays as it is |
| BudgetStores.BudgetStore.MarkUnknown | src/repopilot/infrastructure/db/model_budget.py:160-169 | A reserved call becomes unknown and its reservation stays on the budget; any other call stays as it is |
| Ledger.SettleKeeps | src/repopilot/infrastructure/db/model_budget.py:126-146 | Settling keeps the ledger balanced, never trips the negative-count check, and succeeds exactly on a reserved call within its reservation |
| Ledger.ReleaseKeeps | src/repopilot/infrastructure/db/model_budget.py:148-158 | Releasing keeps the ledger balanced and never trips the negative-count check |
| Ledger.ReserveKeeps | src/repopilot/infrastructure/db/model_budget.py:59-124 | Reserving keeps the ledger balanced and within its limits |
| LedgerLaws.LedgerBalances | src/repopilot/infrastructure/db/model_budget.py:59-169 | After any transactions the reserved counters are the sum and count over `RESERVED` and `UNKNOWN` calls and the spent ones over `SETTLED` calls |
| LedgerLaws.LimitsAreKept | src/repopilot/infrastructure/db/model_budget.py:89-93 | What the calls of a run have spent and hold never exceeds its cost and call limits |
| LedgerLaws.GrantedExactly | src/repopilot/infrastructure/db/model_budget.py:68-124 | A reservation is created exactly when its key and id are new and the calls of the run leave room for it |
| LedgerLaws.ReserveThenRelease | src/repopilot/infrastructure/db/model_budget.py:148-158 | Releasing what was just reserved restores the budget but for its version |
| LedgerLaws.ApplyAdvances | src/repopilot/infrastructure/db/model_budget.py:126-169 | A call leaves `RESERVED` once and for all, and spending is never taken back |
| LedgerLaws.UsageMatchesBudget | src/repopilot/infrastructure/db/model_budget.py:171-195 | The reported cost is the spent amount and the reported calls are all calls of the run; another tenant sees zeros |
| LedgerLaws.SettlingAddsUsage | src/repopilot/infrastructure/db/model_budget.py:171-195 | Settling a call adds exactly its tokens and cost to the report of its own run and tenant, and nothing to any other |
| LedgerLaws.EndingAddsNoUsage | src/repopilot/infrastructure/db/model_budget.py:171-195 | Marking a reserved call unknown adds one unknown call, and releasing it adds nothing |
| LedgerLaws.ReservingAddsACall | src/repopilot/infrastructure/db/model_budget.py:171-195 | A granted reservation adds one call and no usage |
| Gateway.AtMostOnce | src/repopilot/services/model_gateway.py:179-215 | However calls interleave, fail and are cancelled, no two provider calls are for the same logical call, and each was made by the creator of its reservation |
| Gateway.OnlyTheCreatorCalls | src/repopilot/services/model_gateway.py:182-191 | A replayed or refused caller never calls the provider |
| GatewayLaws.ReservationDecides | src/repopilot/services/model_gateway.py:182-191 | An answered reservation leads to the provider exactly when it can be granted, to a replay error exactly when the key is taken, and to a refusal otherwise, with nothing written |
| Gateway.OutcomeMatchesLedger | src/repopilot/services/model_gateway.py:192-232 | Each way a call can end says in which status the ledger has it |
| GatewayLaws.AnswerDecides | src/repopilot/services/model_gateway.py:192-232 | Once the store has answered, the provider's answer alone fixes the row of the call and the caller's outcome, whatever others did in between: unknown and cancelled completions keep their reservation as `UNKNOWN`, failures are released, completions are settled with their usage if it fits and are `UNKNOWN` if not |
| GatewayLaws.FirstServed | src/repopilot/services/model_gateway.py:192-232 | What that does to the budgets: a failure takes the reservation off, a fitting completion turns it into its cost, anything else leaves every budget as it is |
| GatewayLaws.LostSettlementIsMarked | src/repopilot/services/model_gateway.py:224-232 | A settlement that raised is followed by a marking: the call ends settled if it had taken effect, and unknown if not |
| Gateway.ReservedHasAnOwner | src/repopilot/services/model_gateway.py:192-232 | A call stays `RESERVED` only while its caller is at work or after an await of that caller was lost |
| GatewayLaws.OnlyTheOwnerMoves | src/repopilot/services/model_gateway.py:179-232 | Only its own caller ever changes the row of a call |
| GatewayLaws.StrandsExactly | src/repopilot/services/model_gateway.py:182-232 | In every reachable state, a step leaves a caller done and its call `RESERVED` if and only if it is that caller's death while the call is reserved and unresolved, or cuts it off at one of the listed awaits |
| GatewayLaws.StrandedForGood | src/repopilot/services/model_gateway.py:182-232 | Such a call stays as it is under every continuation |
| GatewayLaws.StrandedRuns | src/repopilot/services/model_gateway.py:182-232 | Over whole runs a caller's call ends so if and only if one of those steps happened |
| GatewayLaws.ReservedExactly | src/repopilot/services/model_gateway.py:182-232 | In every reachable state a call is `RESERVED` if and only if its caller is alive and at work between reserving and resolving it, or it was left so |
| Gateway.HistoryAdvances | src/repopilot/infrastructure/db/model_budget.py:126-169 | Over every run statuses move from `RESERVED` to one final status and limits never change |
| Gateway.GatewayConserves | src/repopilot/infrastructure/db/model_budget.py:59-169 | The ledger balances in every state of every run |
| GatewayLaws.OverCostKeepsReservation | src/repopilot/services/model_gateway.py:217-232 | A response dearer than its reservation ends as `UNKNOWN` with its reservation kept, whatever other callers do between the refused settlement and the marking |
| Gateway.FailureGivesBack | src/repopilot/services/model_gateway.py:207-209 | A definite provider failure gives the whole reservation back and touches no other call |
| GatewayLaws.CancelledSettlementStaysReserved | src/repopilot/services/model_gateway.py:224-232 | A run in which a cancelled settlement leaves its call reserved, whatever happens afterwards |
| GatewayLaws.FailedSettlementStaysReserved | src/repopilot/services/model_gateway.py:224-232 | So does a failed settlement whose marking is lost as well |
| GatewayLaws.DeadCallerStrandsItsCall | src/repopilot/services/model_gateway.py:182-193 | So does the death of any caller that is about to call the provider or awaits it, in every reachable state |
| RunControl.OneStartPerSlot | src/repopilot/infrastructure/temporal/client.py:38-47 | At most one workflow ever starts per tenant and key |
| RunControl.AcceptedBodiesAgree | src/repopilot/infrastructure/run_control.py:256-290 | All request bodies accepted under one key are the same |
| RunControlLaws.ReadDecides | src/repopilot/infrastructure/run_control.py:279-290 | Reading a bound key answers a conflict exactly for another request than the bound one, the existing run exactly for the same request once started, and goes on otherwise |
| RunControlLaws.InsertDecides | src/repopilot/infrastructure/run_control.py:262-277 | Inserting binds a free key to this very request and leaves a bound one alone |
| RunControlLaws.AnswersDecide | src/repopilot/infrastructure/run_control.py:73-118 | What each further answered await writes and what follows: the artifact, the budget unless there is one, the workflow unless there is one, `STARTED` with the reply that the run was created, or `FAILED` with the reply that the service is unavailable |
| RunControlLaws.UnansweredAwaits | src/repopilot/infrastructure/run_control.py:91-113 | An await that does not answer ends its caller with an exception, except that an exception of the budget or the start leads to writing `FAILED` |
| RunControl.StartedWorkflowIsReady | src/repopilot/infrastructure/run_control.py:73-113 | A started workflow has its request artifact and a budget with exactly that request's limits |
| RunControl.StartedIsTrue | src/repopilot/infrastructure/run_control.py:70-118 | `STARTED` and every successful reply mean that the workflow was started |
| RunControl.BindingsLast | src/repopilot/infrastructure/run_control.py:264-277 | A bound key keeps its request hash and run |
| RunControl.RetryHeals | src/repopilot/infrastructure/run_control.py:61-118 | Whatever failed before, a retry of the accepted request that meets no further failure answers and leaves the key `STARTED` with its workflow |
| RunControl.LateFailureOverwrites | src/repopilot/infrastructure/run_control.py:107-113 | For every key there is a run in which `FAILED` overwrites `STARTED` after a caller was told the run exists |
| RunControlLaws.StartedSurvivesExactly | src/repopilot/infrastructure/run_control.py:91-113 | A step takes `STARTED` from a key if and only if a failed caller of that key gets its `FAILED` through |
| RunControlLaws.FailingEnteredExactly | src/repopilot/infrastructure/run_control.py:91-112 | A caller turns to writing `FAILED` if and only if making the budget or starting the workflow raised |
| RunControlLaws.StartedStaysExactly | src/repopilot/infrastructure/run_control.py:91-113 | Over every continuation a started key stays `STARTED` if and only if no such `FAILED` gets through |

## Left out

- Identifiers are modelled by their canonical text, so comparing them as text is comparing them.
- Plan texts, plan ids and run ids inside work items are omitted; risk flags are a set, which is how the code uses them.
- Lower-casing of manifest names covers the Latin letters only.
- The workflow's references are opaque numbers, its `patched` markers and agent switches are constants of a run, and retries, timeouts and replay of activities are part of an activity's free outcome; only the integration activity's retries are modelled, because it is not idempotent.
- CandidateAttempt.RunWaves: does not promise that nothing conflicts when a result of the integration activity was lost, because its retry then does; without a lost result nothing conflicts.
- Attempts of the integration activity follow one another; one that runs on after its time limit, or that dies in the middle of a cherry-pick, is not modelled.
- The attempt inside the workflow class is a row of awaits; what those activities do is the subject of the developer, integration and attempt modules.
- Artifact scope checks, seeds, prompts, trajectories, the final report's other fields and the projections carry no decision the model needs.
- Integration.PatchAppliesExactly: says when a patch fits the whole file, because patches are whole files before and after here; `git apply` and `git cherry-pick` work hunk by hunk and may accept files that differ elsewhere; git's quoting of unusual file names is not modelled.
- Whether a rendered patch is too large or unsafe, and whether a Python file parses, are free inputs. Exported symbols are left out.
- File names that hold a backslash, which the archive readers turn into a slash, are not modelled in the developer's context.
- UTF-8 is any pair of functions that lose nothing; text that cannot be encoded is not modelled.
- BudgetStores.BudgetStore.Reserve: with two calls under one key, which the unique column forbids, the reply may name either; the contract fixes it when keys are unique.
- Concurrent gateway and `create` calls are value state machines rather than classes, because what matters is how their steps interleave.
- A transaction is one step; isolation levels below that are not modelled.
- Providers, models, work item ids, artifact ids and timestamps of ledger rows are omitted.
- The name-based run id of section 5.5 of RFC 9562 and the request hash are injective functions.
- Docker sandboxes, dependency layers, object storage, HTTP routes, the command line and configuration are not part of this model.
- Wall-time and sandbox budgets are validated but not enforced in the code shown.
