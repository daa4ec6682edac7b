/**
 The repair workflow. Between two `await`s nothing else runs; at an `await` approval updates may
 arrive in any number, and the awaited activity may answer, raise, be cancelled, or not answer
 before the observation ends (`Suspended`). A method returns where the run stands then, so what
 is ensured about histories holds for every prefix of every run.
 */
module Workflow {
  import opened Outcomes
  import opened Ordering
  import opened Paths
  import opened Policies
  import opened Plans
  import opened Transitions
  import opened Updates
  import opened History
  import P = Planning
  import opened WorkflowState
  import L = OutcomeLaws

  /** How control leaves a block: normally, by an exception, by `return`, or not at all yet. */
  datatype Flow<+T> = Next(value: T) | Raised | CancelRaised | Suspended | Returned(status: RunStatus) {
    predicate IsFailure() { !Next? }

    function PropagateFailure<U>(): Flow<U>
      requires !Next?
    {
      match this
      case Raised => Raised
      case CancelRaised => CancelRaised
      case Suspended => Suspended
      case Returned(status) => Returned(status)
    }

    function Extract(): T
      requires Next?
    {
      value
    }
  }

  type Unit = ()

  class CodeRepairWorkflow {
    const config: RunConfig

    /** In a calm run every activity answers and nobody cancels; approvals may still stay away. */
    const calm: bool

    var status: RunStatus
    var processedApprovalIds: set<string>
    var approvals: map<ApprovalKind, ApprovalRequest>
    var repairRounds: nat
    var patchRef: Option<Ref>
    var verificationRef: Option<Ref>
    var reviewRef: Option<Ref>

    ghost var trace: Trace
    ghost var steps: seq<Summary>
    ghost var seen: Summary

    /** The history is faithfully recorded, and the fields are what it says they are. */
    ghost predicate Valid()
      reads this
    {
      && Faithful(config, trace, steps) && seen == steps[|trace|] && Inv(config, seen)
      && status == seen.status && approvals == seen.pending && processedApprovalIds == seen.processed
      && repairRounds == seen.counts.rounds
      && patchRef == seen.results.patch && verificationRef == seen.results.verification
      && reviewRef == seen.results.review
    }

    constructor (config: RunConfig, calm: bool)
      ensures Valid() && this.config == config && this.calm == calm && trace == [] && seen == Initial(config)
    {
      this.config, this.calm := config, calm;
      status, processedApprovalIds, approvals, repairRounds := Queued, {}, map[], 0;
      patchRef, verificationRef, reviewRef := None, None, None;
      trace, steps, seen := [], [Initial(config)], Initial(config);
    }

    /** The run stands at a gate for which no decision has come. */
    ghost predicate Unanswered()
      reads this
    {
      exists kind :: status == WaitStatus(kind) && kind !in approvals
    }

    /**
     A rejection is finalized before anything can raise, and a run that returns has a reason for its
     outcome. A calm run stops only at an unanswered gate, and raises only before its attempt is
     approved, for `run` to turn that into an outcome.
     */
    ghost predicate Progresses<T>(flow: Flow<T>)
      reads this
    {
      && (flow.Raised? && TurnedDown(seen) ==> status.Finalizing? || Terminal(status))
      && (flow.Returned? ==> Terminal(status) && flow.status == status && Ended(seen, status))
      && (calm ==>
            match flow
            case CancelRaised => false
            case Raised => !status.Finalizing? && !Terminal(status) && !Approved(seen.results.attempt)
            case Suspended => Unanswered()
            case _ => true)
    }

    // -------------------------------------------------------------- recording

    ghost method Record(e: Event)
      requires Faithful(config, trace, steps) && seen == steps[|trace|] && Allowed(config, seen, e)
      modifies this`trace, this`steps, this`seen
      ensures trace == old(trace) + [e] && seen == After(old(seen), e)
      ensures Faithful(config, trace, steps) && seen == steps[|trace|]
    {
      FaithfulExtends(config, trace, steps, e);
      seen := After(seen, e);
      trace, steps := trace + [e], steps + [seen];
    }

    // -------------------------------------------------------------- updates and awaits

    /** `submit_approval` */
    method SubmitApproval(request: ApprovalRequest) returns (accepted: bool)
      requires Valid()
      modifies this
      ensures Valid() && OnlyUpdates(old(seen), seen)
      ensures accepted <==> ValidApproval(request, old(status), old(processedApprovalIds))
      ensures trace == if accepted then old(trace) + [Submitted(request)] else old(trace)
    {
      accepted := ValidApproval(request, status, processedApprovalIds);
      if accepted {
        processedApprovalIds := processedApprovalIds + {request.id};
        approvals := approvals[request.kind := request];
        Record(Submitted(request));
      }
    }

    method Interleave()
      requires Valid()
      modifies this
      ensures Valid() && OnlyUpdates(old(seen), seen)
    {
      var n: nat := *;
      while n > 0
        invariant Valid() && OnlyUpdates(old(seen), seen)
      {
        var request: ApprovalRequest := *;
        var _ := SubmitApproval(request);
        n := n - 1;
      }
    }

    /** Await an activity: updates arrive, then it answers, raises, is cancelled, or is pending. */
    method Await() returns (flow: Flow<Unit>)
      requires Valid()
      modifies this
      ensures Valid() && OnlyUpdates(old(seen), seen)
      ensures !flow.Returned? && (calm ==> flow.Next?)
    {
      Interleave();
      if
      case true => flow := Next(());
      case !calm => flow := Raised;
      case !calm => flow := CancelRaised;
      case !calm => flow := Suspended;
    }

    // -------------------------------------------------------------- transitions and waits

    /** `_transition`: check, set, then await the projection. */
    method Transition(to: RunStatus) returns (flow: Flow<Unit>)
      requires Valid()
      requires if ValidTransition(status, to) then MayMove(config, seen, to) else Allowed(config, seen, Refused(to))
      modifies this
      ensures Valid() && !flow.Returned?
      ensures ValidTransition(old(status), to) ==> OnlyUpdates(After(old(seen), Moved(to)), seen)
      ensures !ValidTransition(old(status), to) ==> flow.Raised? && seen == old(seen)
      ensures calm && ValidTransition(old(status), to) ==> flow.Next?
    {
      if !ValidTransition(status, to) {
        Record(Refused(to));
        return Raised;
      }
      status := to;
      Record(Moved(to));
      flow := Await();
    }

    /** A move between two working stages. */
    method MoveTo(to: RunStatus) returns (flow: Flow<Unit>)
      requires Valid() && Clear(seen) && ValidTransition(status, to) && Working(to) && !to.Executing?
      requires to.Replanning? ==> seen.counts.attempts == seen.counts.rounds
      requires to.DesigningTests? ==> seen.design.None? && seen.counts.attempts == 0
      requires !Approved(seen.results.attempt)
      requires seen.counts.moves < MAX_MOVES - 2
      modifies this
      ensures Valid() && !flow.Returned?
      ensures OnlyUpdates(After(old(seen), Moved(to)), seen)
      ensures Progresses(flow)
    {
      MayMoveForward(config, seen, to);
      flow := Transition(to);
    }

    /** `_wait_for_approval`: the decision popped was submitted during this very wait. */
    method WaitForApproval(kind: ApprovalKind) returns (flow: Flow<ApprovalRequest>)
      requires Valid() && ValidTransition(status, WaitStatus(kind)) && MayMove(config, seen, WaitStatus(kind))
      modifies this
      ensures Valid() && !flow.Returned?
      ensures flow.Next? ==> flow.value.kind == kind && OnlyLate(seen)
      ensures flow.Next? ==> OnlyUpdates(After(After(old(seen), Moved(WaitStatus(kind))), Consumed(flow.value)), seen)
      ensures Progresses(flow)
    {
      var moved := Transition(WaitStatus(kind));
      if !moved.Next? {
        return moved.PropagateFailure();
      }
      Interleave();
      if
      case kind in approvals =>
        ghost var before := seen;
        var request := PopDecision(kind);
        UpdatesThenConsumed(After(old(seen), Moved(WaitStatus(kind))), before, request);
        return Next(request);
      case !calm =>
        return CancelRaised;
      case !calm || kind !in approvals =>
        return Suspended;
    }

    method PopDecision(kind: ApprovalKind) returns (request: ApprovalRequest)
      requires Valid() && kind in approvals && status == WaitStatus(kind)
      modifies this
      ensures Valid() && OnlyLate(seen)
      ensures request.kind == kind && seen == After(old(seen), Consumed(request))
    {
      request := approvals[kind];
      approvals := approvals - {kind};
      Record(Consumed(request));
    }

    /** A gate: nothing when it is automatic; otherwise wait, and finalize on a rejection. */
    method PassGate(kind: ApprovalKind, mode: ApprovalMode) returns (flow: Flow<Unit>)
      requires Valid() && Clear(seen) && !kind.Requirements?
      requires mode.Manual? ==> ValidTransition(status, WaitStatus(kind)) && seen.counts.moves < MAX_MOVES - 2
      requires mode.Manual? ==> GateDue(config, seen, WaitStatus(kind))
      requires Approved(seen.results.attempt) ==> kind.DeliveryGate?
      modifies this
      ensures Valid()
      ensures flow.Returned? ==> Terminal(status) && flow.status == status
      ensures flow.Next? ==> Clear(seen)
      ensures flow.Next? ==> if mode.Manual? then PassedGate(kind, old(seen), seen) else seen == old(seen)
      ensures Progresses(flow)
    {
      if mode.Manual? {
        MayMoveForward(config, seen, WaitStatus(kind));
        var approval :- WaitForApproval(kind);
        Decided(kind, old(seen), approval, seen);
        if approval.decision.Reject? {
          flow := Finalize(Rejected, Some(ApprovalRejected));
          return;
        }
      }
      return Next(());
    }

    // -------------------------------------------------------------- finalize

    /** `_finalize`: it never falls through; it returns the outcome, or raises, or is pending. */
    method Finalize<T>(outcome: RunStatus, error: Option<RunError>) returns (flow: Flow<T>)
      requires Valid() && Terminal(outcome)
      requires !Terminal(status) ==> OutcomeDue(config, seen, outcome, error) && (TurnedDown(seen) ==> GivesUp(outcome))
      requires outcome.Succeeded? ==> SuccessReady(config, seen)
      modifies this
      ensures Valid() && !flow.Next? && (status.Finalizing? || Terminal(status))
      ensures flow.Returned? ==> flow.status == outcome == status
      ensures flow.Returned? ==> seen.results.report.Some? && seen.results.report.value.status == outcome
      ensures flow.Returned? ==> seen.results.report.value.error == error
      ensures calm && !Terminal(old(status)) ==> flow.Returned?
      ensures SameFindings(old(seen), seen)
    {
      if !status.Finalizing? {
        if ValidTransition(status, Finalizing) {
          MayFinish(config, seen, Finalizing);
        }
        var _ :- Transition(Finalizing);
      }
      var _ :- Cleanup();
      var _ :- Cleanup();
      flow := Conclude(outcome, error);
    }

    /** A cleanup that raises only leaves a warning; so may its cancellation. */
    method Cleanup() returns (flow: Flow<Unit>)
      requires Valid()
      modifies this
      ensures Valid() && OnlyUpdates(old(seen), seen) && !flow.Returned? && (calm ==> flow.Next?)
    {
      flow := Await();
      if flow.Raised? {
        flow := Next(());
      } else if flow.CancelRaised? {
        var swallowed: bool := *;
        if swallowed {
          flow := Next(());
        }
      }
    }

    method FileReport(outcome: RunStatus, error: Option<RunError>) returns (flow: Flow<Unit>)
      requires Valid() && status.Finalizing? && OutcomeDue(config, seen, outcome, error)
      requires outcome.Succeeded? ==> SuccessReady(config, seen)
      modifies this
      ensures Valid() && !flow.Returned? && (calm ==> flow.Next?)
      ensures var r := old(seen.results);
              OnlyUpdates(After(old(seen), Reported(outcome, r.patch, r.verification, r.review, error)), seen)
    {
      Record(Reported(outcome, patchRef, verificationRef, reviewRef, error));
      flow := Await();
    }

    /** The final report, then the outcome. */
    method Conclude<T>(outcome: RunStatus, error: Option<RunError>) returns (flow: Flow<T>)
      requires Valid() && Terminal(outcome) && status.Finalizing?
      requires OutcomeDue(config, seen, outcome, error) && (TurnedDown(seen) ==> GivesUp(outcome))
      requires outcome.Succeeded? ==> SuccessReady(config, seen)
      modifies this
      ensures Valid() && !flow.Next? && (status.Finalizing? || Terminal(status))
      ensures flow.Returned? ==> flow.status == outcome == status
      ensures flow.Returned? ==> seen.results.report.Some? && seen.results.report.value.status == outcome
      ensures flow.Returned? ==> seen.results.report.value.error == error
      ensures calm ==> flow.Returned?
      ensures SameFindings(old(seen), seen)
    {
      var _ :- FileReport(outcome, error);
      FiledNow(config, old(seen), outcome, error, seen);
      MayFinish(config, seen, outcome);
      var _ :- Transition(outcome);
      return Returned(outcome);
    }

    // -------------------------------------------------------------- the run

    /**
     `run`: the body, and what is done when it raises. Wherever the run stands at the end of the
     observation, its history is safe; a run that returns has reached the terminal status it returns;
     a calm run always does, unless it stands at a gate that nobody has answered, and then it succeeds
     exactly when its last attempt was approved and no gate refused, is rejected exactly when it was
     turned down, and fails only when a stage raised or both repair rounds are used up.
     */
    method Run() returns (flow: Flow<Unit>)
      requires Valid() && trace == [] && seen == Initial(config)
      modifies this
      ensures Valid() && !flow.Next?
      ensures Safe(config, trace) && seen == Summarize(config, trace)
      ensures flow.Returned? ==> Terminal(status) && flow.status == status
      ensures calm ==> flow.Returned? || (flow.Suspended? && Unanswered())
      ensures calm && flow.Returned? ==>
                && (status.Succeeded? <==> L.ApprovedAtLast(trace) && !L.GateRefused(trace))
                && (status.Rejected? <==> L.GateRefused(trace) || L.ReviewDeclined(trace))
                && (status.Failed? ==> L.OutOfRounds(trace) || L.StageRaised(trace)) && !status.Cancelled?
    {
      flow := Await();
      if flow.Next? {
        flow := Body();
        if flow.CancelRaised? {
          flow := Finalize(Cancelled, Some(WorkflowCancelled));
        } else if flow.Raised? && !status.Finalizing? {
          var cancelled: bool := *;
          if cancelled && !calm {
            flow := Finalize(Cancelled, Some(WorkflowCancelled));
          } else {
            flow := Finalize(Failed, Some(StageFailed));
          }
        }
      }
      FaithfulIsSafe(config, trace, steps);
      L.OutcomeMeaning(config, trace);
      L.ExhaustionMeans(config, trace);
      L.RaisingMeans(config, trace);
    }

    /** The body of the `try`: every path ends in `_finalize`, an exception, or a pending await. */
    method Body() returns (flow: Flow<Unit>)
      requires Valid() && Fresh(config, seen) && seen.counts.moves == 0 && status.Queued?
      modifies this
      ensures Valid() && !flow.Next?
      ensures flow.Returned? ==> Terminal(status) && flow.status == status
      ensures Progresses(flow)
    {
      var _ :- Intake();
      var plan :- FirstPlan();
      var stages := StagesAt(config, HigherRisk(config.riskLevel, plan.riskLevel));
      var _ :- Prepare(plan, stages);
      var _ :- RepairLoop(plan);
      DeliveryIgnoresRisk(config, HigherRisk(config.riskLevel, plan.riskLevel), seen.scope.maxRisk);
      flow := Deliver(stages);
    }

    // -------------------------------------------------------------- up to the first plan

    /** Ingest, requirements gate, scan, dependencies and baseline, up to the first planning. */
    method Intake() returns (flow: Flow<Unit>)
      requires Valid() && Fresh(config, seen) && seen.counts.moves == 0 && status.Queued?
      modifies this
      ensures Valid()
      ensures flow.Returned? ==> Terminal(status) && flow.status == status
      ensures flow.Next? ==> status.Planning? && Fresh(config, seen) && seen.counts.moves <= 4
      ensures Progresses(flow)
    {
      var _ :- MoveTo(Ingesting);
      var _ :- Await();
      var needsApproval: bool := *;
      var hasTaskSpec: bool := *;
      if needsApproval {
        var _ :- ApproveRequirements();
        hasTaskSpec := true;
      }
      if !hasTaskSpec {
        return Raised;
      }
      flow := Baseline();
    }

    method ApproveRequirements() returns (flow: Flow<Unit>)
      requires Valid() && Fresh(config, seen) && seen.counts.moves == 1 && status.Ingesting?
      modifies this
      ensures Valid()
      ensures flow.Returned? ==> Terminal(status) && flow.status == status
      ensures flow.Next? ==> status.WaitingRequirementsApproval? && Fresh(config, seen) && seen.counts.moves == 2
      ensures Progresses(flow)
    {
      MayMoveForward(config, seen, WaitingRequirementsApproval);
      var approval :- WaitForApproval(Requirements);
      if approval.decision.Reject? {
        flow := Finalize(Rejected, Some(ApprovalRejected));
        return;
      }
      flow := Await();
    }

    method Baseline() returns (flow: Flow<Unit>)
      requires Valid() && Fresh(config, seen) && seen.counts.moves <= 2
      requires status.Ingesting? || status.WaitingRequirementsApproval?
      modifies this
      ensures Valid() && !flow.Returned?
      ensures flow.Next? ==> status.Planning? && Fresh(config, seen) && seen.counts.moves <= 4
      ensures Progresses(flow)
    {
      var _ :- Await();
      var _ :- Await();
      var _ :- MoveTo(Baselining);
      flow := RunBaseline();
    }

    method RunBaseline() returns (flow: Flow<Unit>)
      requires Valid() && status.Baselining? && Fresh(config, seen) && seen.counts.moves <= 3
      modifies this
      ensures Valid() && !flow.Returned?
      ensures flow.Next? ==> status.Planning? && Fresh(config, seen) && seen.counts.moves <= 4
      ensures Progresses(flow)
    {
      var _ :- Await();
      flow := MoveTo(RunStatus.Planning);
    }

    /** One planning activity: the model answers with any plan, and the activity judges it. */
    method AwaitPlan(request: P.PlanRequest) returns (flow: Flow<P.PlanChangeResult>)
      requires Valid() && status.Planning?
      modifies this
      ensures Valid() && OnlyUpdates(old(seen), seen) && !flow.Returned?
      ensures flow.Next? ==> PlannedFor(request, flow.value)
      ensures Progresses(flow)
    {
      var _ :- Await();
      var modelPlan: ChangePlan := *;
      var result := P.PlanChange(request, modelPlan);
      if result.Err? {
        return Raised;
      }
      AcceptedPlan(request, modelPlan, result.value);
      return Next(result.value);
    }

    /** A plan on record and, where that is enabled, on the blackboard. */
    method KeepPlan(repair: bool, plan: P.PlanChangeResult) returns (flow: Flow<Unit>)
      requires Valid() && PlanAllowed(config, seen, PlanEvent(repair, plan))
      modifies this
      ensures Valid() && !flow.Returned?
      ensures OnlyUpdates(After(old(seen), PlanEvent(repair, plan)), seen)
      ensures Progresses(flow)
    {
      PlanKeepsInv(config, seen, repair, plan);
      Record(PlanEvent(repair, plan));
      if config.blackboardEnabled {
        flow := Await();
      } else {
        flow := Next(());
      }
    }

    method FirstPlan() returns (flow: Flow<P.PlanChangeResult>)
      requires Valid() && Fresh(config, seen) && seen.counts.moves <= 4 && status.Planning?
      modifies this
      ensures Valid() && !flow.Returned?
      ensures flow.Next? ==> status.Planning? && FirstPlanned(config, seen, flow.value) && seen.counts.moves <= 4
      ensures Progresses(flow)
    {
      var plan :- AwaitPlan(P.PlanRequest(1, false, [], false, []));
      EmptyElements(plan.scopeExpansionPaths);
      var _ :- KeepPlan(false, plan);
      return Next(plan);
    }

    // -------------------------------------------------------------- up to the first execution

    /** From the first plan to the first execution: its gate, the sealed tests, the execution gate. */
    method Prepare(plan: P.PlanChangeResult, stages: StagePolicy) returns (flow: Flow<Unit>)
      requires Valid() && status.Planning? && FirstPlanned(config, seen, plan) && seen.counts.moves <= 4
      requires stages == StagesAt(config, seen.scope.maxRisk)
      modifies this
      ensures Valid()
      ensures flow.Returned? ==> Terminal(status) && flow.status == status
      ensures flow.Next? ==> RoundReady(config, seen, plan.riskLevel, RawPathsOf(plan))
      ensures flow.Next? ==> GatesPassed(config, seen) && ScopeApproved(config, seen)
      ensures Progresses(flow)
    {
      ghost var planned := seen;
      var _ :- PassFirstGates(plan, stages);
      ghost var passed := seen;
      var _ :- EnterExecution();
      FirstRoundReady(config, planned, passed, seen, plan);
      return Next(());
    }

    method PassFirstGates(plan: P.PlanChangeResult, stages: StagePolicy) returns (flow: Flow<Unit>)
      requires Valid() && status.Planning? && FirstPlanned(config, seen, plan) && seen.counts.moves <= 4
      requires stages == StagesAt(config, seen.scope.maxRisk)
      modifies this
      ensures Valid()
      ensures flow.Returned? ==> Terminal(status) && flow.status == status
      ensures flow.Next? ==> FirstGatesPassed(config, old(seen), seen)
      ensures Progresses(flow)
    {
      var _ :- PassGate(PlanGate, stages.plan);
      var _ :- DesignTests();
      flow := PassGate(ExecutionGate, stages.execution);
    }

    /** Design sealed tests, revise at most twice, and ask for a waiver when they stay invalid. */
    method DesignTests() returns (flow: Flow<Unit>)
      requires Valid() && Clear(seen) && seen.counts.designs == 0 && seen.counts.moves <= 5
      requires status.Planning? || status.WaitingPlanApproval?
      requires seen.design.None? && seen.counts.attempts == 0 && seen.results.attempt == NO_ATTEMPT
      modifies this
      ensures Valid()
      ensures flow.Returned? ==> Terminal(status) && flow.status == status
      ensures flow.Next? ==> (status.DesigningTests? || status.WaitingTestApproval?) && Clear(seen)
      ensures flow.Next? ==> TestsDesigned(old(seen), seen)
      ensures Progresses(flow)
    {
      var _ :- MoveTo(DesigningTests);
      var valid :- DesignLoop();
      if valid {
        return Next(());
      }
      flow := PassGate(TestGate, Manual);
    }

    /** The design attempts: whether one was valid before they ran out or could not be revised. */
    method DesignLoop() returns (flow: Flow<bool>)
      requires Valid() && status.DesigningTests? && seen.counts.designs == 0 && seen.design.None?
      modifies this
      ensures Valid() && !flow.Returned? && status.DesigningTests?
      ensures SameButDesigns(old(seen), seen)
      ensures flow.Next? ==> if flow.value then TestsReady(seen) else NeedsWaiver(config, seen)
      ensures Progresses(flow)
    {
      var maxAttempts := if config.qaFeedbackEnabled then MAX_DESIGNS else 1;
      for attempt := 1 to maxAttempts + 1
        invariant Valid() && status.DesigningTests? && seen.counts.designs == attempt - 1
        invariant SameButDesigns(old(seen), seen)
        invariant if attempt == 1 then seen.design.None? else seen.design.Some? && Revisable(seen.design.value)
      {
        var verdict :- DesignOnce();
        if verdict.valid {
          return Next(true);
        }
        if !(config.qaFeedbackEnabled && attempt < maxAttempts && verdict.runnable && verdict.mismatches > 0) {
          return Next(false);
        }
      }
      return Next(false);
    }

    /** One design of the sealed tests and its check on the base revision. */
    method DesignOnce() returns (flow: Flow<TestVerdict>)
      requires Valid() && status.DesigningTests? && seen.counts.designs < MaxDesigns(config)
      requires seen.design.Some? ==> Revisable(seen.design.value)
      modifies this
      ensures Valid() && !flow.Returned?
      ensures OnlyUpdates(if flow.Next? then After(old(seen), Designed(flow.value)) else old(seen), seen)
      ensures Progresses(flow)
    {
      var _ :- Await();
      var _ :- Await();
      var verdict: TestVerdict := *;
      Record(Designed(verdict));
      return Next(verdict);
    }

    /** Enter execution once every gate of the current plan is passed. */
    method EnterExecution() returns (flow: Flow<Unit>)
      requires Valid() && Clear(seen) && ValidTransition(status, Executing) && seen.scope.planned
      requires GatesPassed(config, seen) && seen.counts.moves < MAX_MOVES - 2
      requires seen.counts.attempts == seen.counts.rounds && TestsReady(seen) && !Approved(seen.results.attempt)
      modifies this
      ensures Valid() && !flow.Returned?
      ensures OnlyUpdates(After(old(seen), Moved(Executing)), seen)
      ensures Progresses(flow)
    {
      MayExecute(config, seen);
      flow := Transition(Executing);
    }

    // -------------------------------------------------------------- one candidate attempt

    /** `_run_candidate_attempt` */
    method RunCandidateAttempt(plan: P.PlanChangeResult) returns (flow: Flow<AttemptResult>)
      requires Valid() && AttemptReady(seen)
      modifies this
      ensures Valid() && !flow.Returned?
      ensures flow.Next? ==> AttemptMade(old(seen), seen) && Judged(seen, flow.value)
      ensures Progresses(flow)
    {
      var _ :- Develop(plan);
      var passed :- Verify(plan);
      if !passed {
        return Next(AttemptResult(false, None));
      }
      var decision :- Review();
      return Next(AttemptResult(true, Some(decision)));
    }

    method Develop(plan: P.PlanChangeResult) returns (flow: Flow<Unit>)
      requires Valid() && AttemptReady(seen)
      modifies this
      ensures Valid() && !flow.Returned?
      ensures flow.Next? ==> status.Verifying? && Developed(old(seen), seen)
      ensures Progresses(flow)
    {
      Record(Attempted);
      var _ :- DevelopWaves(plan.waves);
      flow := MoveTo(Verifying);
    }

    /** Contexts and proposals of a wave together, its integrations one by one. */
    method DevelopWaves(waves: seq<seq<string>>) returns (flow: Flow<Unit>)
      requires Valid() && status.Executing?
      modifies this
      ensures Valid() && !flow.Returned? && OnlyUpdates(old(seen), seen)
      ensures Progresses(flow)
    {
      for w := 0 to |waves|
        invariant Valid() && OnlyUpdates(old(seen), seen)
      {
        var _ :- Await();
        var _ :- Await();
        for i := 0 to |waves[w]|
          invariant Valid() && OnlyUpdates(old(seen), seen)
        {
          var _ :- Await();
        }
      }
      return Next(());
    }

    /** Export, prepare dependencies again if a manifest changed, diff, verify. */
    method Verify(plan: P.PlanChangeResult) returns (flow: Flow<bool>)
      requires Valid() && status.Verifying? && seen.results.attempt == NO_ATTEMPT
      requires seen.counts.attempts == seen.counts.rounds + 1
      modifies this
      ensures Valid() && !flow.Returned?
      ensures flow.Next? ==> VerifiedBy(old(seen), seen, flow.value)
      ensures Progresses(flow)
    {
      var _ :- Export(plan);
      var _ :- BuildDiff();
      flow := VerifyCandidate();
    }

    method Export(plan: P.PlanChangeResult) returns (flow: Flow<Unit>)
      requires Valid() && status.Verifying?
      modifies this
      ensures Valid() && !flow.Returned? && OnlyUpdates(old(seen), seen)
      ensures Progresses(flow)
    {
      var _ :- Await();
      var changed := ManifestsChanged(RawPathsOf(plan));
      if changed {
        var _ :- Await();
        var _ :- Await();
      }
      return Next(());
    }

    method ManifestsChanged(paths: seq<string>) returns (changed: bool)
      ensures changed <==> AnyManifest(paths)
    {
      var manifests := DependencyManifestPaths(paths);
      return manifests != [];
    }

    method BuildDiff() returns (flow: Flow<Unit>)
      requires Valid() && status.Verifying? && seen.results.attempt == NO_ATTEMPT
      requires seen.counts.attempts == seen.counts.rounds + 1
      modifies this
      ensures Valid() && !flow.Returned?
      ensures flow.Next? ==> patchRef.Some? && OnlyUpdates(After(old(seen), Diffed(patchRef.value)), seen)
      ensures Progresses(flow)
    {
      var _ :- Await();
      var diff: Ref := *;
      patchRef := Some(diff);
      Record(Diffed(diff));
      return Next(());
    }

    method VerifyCandidate() returns (flow: Flow<bool>)
      requires Valid() && status.Verifying? && seen.results.attempt == NO_ATTEMPT.(patch := seen.results.attempt.patch)
      requires seen.results.attempt.patch.Some?
      modifies this
      ensures Valid() && !flow.Returned?
      ensures flow.Next? ==> verificationRef.Some?
      ensures flow.Next? ==> OnlyUpdates(After(old(seen), Verified(verificationRef.value, flow.value)), seen)
      ensures Progresses(flow)
    {
      var _ :- Await();
      var report: Ref := *;
      var passed: bool := *;
      verificationRef := Some(report);
      Record(Verified(report, passed));
      return Next(passed);
    }

    method Review() returns (flow: Flow<ReviewDecision>)
      requires Valid() && status.Verifying? && seen.counts.moves < MAX_MOVES - 2
      requires PassedVerification(seen.results)
      modifies this
      ensures Valid() && !flow.Returned?
      ensures flow.Next? ==> ReviewedBy(old(seen), seen, flow.value)
      ensures Progresses(flow)
    {
      var _ :- MoveTo(Reviewing);
      flow := AwaitReview();
    }

    method AwaitReview() returns (flow: Flow<ReviewDecision>)
      requires Valid() && status.Reviewing? && PassedVerification(seen.results)
      modifies this
      ensures Valid() && !flow.Returned?
      ensures flow.Next? ==> reviewRef.Some? && OnlyUpdates(After(old(seen), Reviewed(reviewRef.value, flow.value)), seen)
      ensures Progresses(flow)
    {
      var _ :- Await();
      var review: Ref := *;
      var decision: ReviewDecision := *;
      reviewRef := Some(review);
      Record(Reviewed(review, decision));
      return Next(decision);
    }

    // -------------------------------------------------------------- repair rounds

    /** Attempts and repair rounds, until a candidate is approved. */
    method RepairLoop(firstPlan: P.PlanChangeResult) returns (flow: Flow<Unit>)
      requires Valid() && RoundReady(config, seen, firstPlan.riskLevel, RawPathsOf(firstPlan))
      modifies this
      ensures Valid()
      ensures flow.Returned? ==> Terminal(status) && flow.status == status
      ensures flow.Next? ==> CandidateApproved(seen)
      ensures Progresses(flow)
    {
      var plan := firstPlan;
      var originalAllowedPaths := RawPathsOf(plan);
      var highestPlannedRisk := plan.riskLevel;
      while true
        invariant Valid() && RoundReady(config, seen, highestPlannedRisk, originalAllowedPaths)
        decreases MAX_ROUNDS - repairRounds
      {
        var approved :- AttemptAndJudge(plan);
        if approved {
          return Next(());
        }
        var round :- RepairRound(originalAllowedPaths, highestPlannedRisk);
        plan, highestPlannedRisk, originalAllowedPaths := round.0, round.1, round.2;
      }
    }

    /** A repair round up to its execution: the new plan, the highest risk, the allowed paths. */
    method RepairRound(allowedPaths: seq<string>, highestPlannedRisk: RiskLevel)
      returns (flow: Flow<(P.PlanChangeResult, RiskLevel, seq<string>)>)
      requires Valid() && RoundDue(config, seen, highestPlannedRisk, allowedPaths) && repairRounds < MAX_ROUNDS
      modifies this
      ensures Valid()
      ensures flow.Returned? ==> Terminal(status) && flow.status == status
      ensures flow.Next? ==> RoundReady(config, seen, flow.value.1, flow.value.2)
      ensures flow.Next? ==> GatesPassed(config, seen) && ScopeApproved(config, seen)
      ensures flow.Next? ==> repairRounds == old(repairRounds) + 1 && RepairItems(flow.value.0, repairRounds + 1)
      ensures Progresses(flow)
    {
      var _ :- StartRound();
      ghost var begun := seen;
      var replanned :- Replan(allowedPaths, highestPlannedRisk);
      ghost var planned := seen;
      var _ :- EnterExecution();
      RoundIsReady(config, old(seen), begun, planned, seen, highestPlannedRisk, allowedPaths, replanned);
      return Next((replanned.0, replanned.1, GrowAllowed(allowedPaths, replanned.0)));
    }

    /** One attempt: approved, or another round, or the end of the run. */
    method AttemptAndJudge(plan: P.PlanChangeResult) returns (flow: Flow<bool>)
      requires Valid() && AttemptReady(seen)
      modifies this
      ensures Valid()
      ensures flow.Returned? ==> Terminal(status) && flow.status == status
      ensures flow.Next? ==> AttemptMade(old(seen), seen) && (status.Verifying? || status.Reviewing?)
      ensures flow.Next? ==> if flow.value then CandidateApproved(seen) else repairRounds < MAX_ROUNDS && Unapproved(seen.results.attempt)
      ensures Progresses(flow)
    {
      var attempt :- RunCandidateAttempt(plan);
      if attempt.passed && attempt.decision == Some(Accept) {
        return Next(true);
      }
      if attempt.decision == Some(Decline) {
        flow := Finalize(Rejected, Some(ReviewRejected));
        return;
      }
      if repairRounds >= MAX_ROUNDS {
        flow := Finalize(Failed, Some(if attempt.passed then ReviewRejected else VerificationFailed));
        return;
      }
      return Next(false);
    }

    /** Count the round, move to replanning, look at the candidate again, move to planning. */
    method StartRound() returns (flow: Flow<Unit>)
      requires Valid() && (status.Verifying? || status.Reviewing?)
      requires repairRounds < MAX_ROUNDS && seen.counts.moves <= 11 + 7 * seen.counts.rounds
      requires seen.scope.planned && seen.counts.repairs == seen.counts.rounds && seen.counts.attempts == seen.counts.rounds + 1
      requires !TurnedDown(seen) && Unapproved(seen.results.attempt)
      modifies this
      ensures Valid() && !flow.Returned?
      ensures flow.Next? ==> status.Planning? && RoundOpened(old(seen), seen)
      ensures Progresses(flow)
    {
      var _ :- OpenRound();
      ghost var counted := seen;
      var _ :- MoveTo(Replanning);
      ghost var moved := seen;
      flow := LookAgain();
      if flow.Next? {
        OpenedInSteps(old(seen), counted, moved, seen);
      }
    }

    /** Look at the candidate again, then plan. */
    method LookAgain() returns (flow: Flow<Unit>)
      requires Valid() && status.Replanning? && seen.counts.moves < MAX_MOVES - 2
      modifies this
      ensures Valid() && !flow.Returned?
      ensures flow.Next? ==> OnlyUpdates(After(old(seen), Moved(RunStatus.Planning)), seen)
      ensures Progresses(flow)
    {
      var _ :- Investigate();
      flow := MoveTo(RunStatus.Planning);
    }

    method OpenRound() returns (flow: Flow<Unit>)
      requires Valid() && (status.Verifying? || status.Reviewing?) && repairRounds < MAX_ROUNDS && !TurnedDown(seen) && Unapproved(seen.results.attempt)
      requires seen.scope.planned && seen.counts.repairs == seen.counts.rounds
      modifies this
      ensures Valid() && !flow.Returned?
      ensures OnlyUpdates(After(old(seen), RoundStarted), seen)
      ensures Progresses(flow)
    {
      repairRounds := repairRounds + 1;
      Record(RoundStarted);
      if config.blackboardEnabled {
        flow := Await();
      } else {
        flow := Next(());
      }
    }

    method Investigate() returns (flow: Flow<Unit>)
      requires Valid() && status.Replanning?
      modifies this
      ensures Valid() && !flow.Returned? && OnlyUpdates(old(seen), seen)
      ensures Progresses(flow)
    {
      var _ :- Await();
      if config.investigatorEnabled {
        var _ :- Await();
        if config.blackboardEnabled {
          var _ :- Await();
        }
      }
      return Next(());
    }

    /** The repair plan, judged against the paths allowed so far, and its gates. */
    method Replan(allowedPaths: seq<string>, highestPlannedRisk: RiskLevel)
      returns (flow: Flow<(P.PlanChangeResult, RiskLevel)>)
      requires Valid() && status.Planning? && ReplanReady(config, seen, highestPlannedRisk, allowedPaths)
      modifies this
      ensures Valid()
      ensures flow.Returned? ==> Terminal(status) && flow.status == status
      ensures flow.Next? ==> Replanned(config, old(seen), seen, highestPlannedRisk, flow.value)
      ensures Progresses(flow)
    {
      var plan :- RepairPlan(allowedPaths);
      var highest := HigherRisk(highestPlannedRisk, plan.riskLevel);
      var _ :- PassRepairGates(StagesAt(config, HigherRisk(config.riskLevel, highest)));
      return Next((plan, highest));
    }

    method PassRepairGates(stages: StagePolicy) returns (flow: Flow<Unit>)
      requires Valid() && status.Planning? && Clear(seen) && seen.counts.moves < MAX_MOVES - 3
      requires stages == StagesAt(config, seen.scope.maxRisk)
      modifies this
      ensures Valid()
      ensures flow.Returned? ==> Terminal(status) && flow.status == status
      ensures flow.Next? ==> RepairGatesPassed(stages, old(seen), seen)
      ensures Progresses(flow)
    {
      var _ :- PassGate(PlanGate, stages.plan);
      flow := PassGate(ExecutionGate, stages.execution);
    }

    method RepairPlan(allowedPaths: seq<string>) returns (flow: Flow<P.PlanChangeResult>)
      requires Valid() && status.Planning? && seen.scope.planned && seen.counts.repairs < seen.counts.rounds
      requires P.NormalSet(allowedPaths) == seen.scope.allowed
      modifies this
      ensures Valid() && !flow.Returned?
      ensures flow.Next? ==> OnlyUpdates(After(old(seen), PlanEvent(true, flow.value)), seen)
      ensures flow.Next? ==> P.NormalSet(flow.value.scopeExpansionPaths) == ExpansionOf(flow.value)
      ensures flow.Next? ==> RepairItems(flow.value, repairRounds + 1)
      ensures Progresses(flow)
    {
      var archive: seq<string> := *;
      var plan :- AwaitPlan(P.PlanRequest(repairRounds + 1, true, allowedPaths, config.scopeExpansionEnabled, archive));
      var _ :- KeepPlan(true, plan);
      return Next(plan);
    }

    // -------------------------------------------------------------- delivery

    /** The delivery gate, then success. */
    method Deliver(stages: StagePolicy) returns (flow: Flow<Unit>)
      requires Valid() && CandidateApproved(seen)
      requires stages.delivery == StagesAt(config, seen.scope.maxRisk).delivery
      modifies this
      ensures Valid() && !flow.Next?
      ensures flow.Returned? ==> Terminal(status) && flow.status == status
      ensures Progresses(flow)
    {
      var _ :- PassGate(DeliveryGate, stages.delivery);
      flow := Finalize(Succeeded, None);
    }
  }
}
