/**
 What is true of a run at its awaits: the invariant, what each stage of the run has established,
 and when the next move is allowed.
 */
module WorkflowState {
  import opened Outcomes
  import opened Ordering
  import opened Paths
  import opened Policies
  import opened Plans
  import opened Transitions
  import opened Updates
  import opened History
  import P = Planning

  /** `s'` is `s` after nothing but approval updates. */
  ghost predicate OnlyUpdates(s: Summary, s': Summary) {
    && s'.status == s.status && s'.gates == s.gates && s'.scope == s.scope
    && s'.counts == s.counts && s'.results == s.results && s'.design == s.design
  }

  /** A status in which the workflow itself is at work, not waiting for a decision. */
  predicate Working(status: RunStatus) {
    && !status.WaitingRequirementsApproval? && !status.WaitingPlanApproval? && !status.WaitingExecutionApproval?
    && !status.WaitingTestApproval? && !status.WaitingDeliveryApproval? && !status.Finalizing? && !Terminal(status)
  }

  /** Nothing is pending but, possibly, a requirements decision that came too late. */
  ghost predicate OnlyLate(s: Summary) {
    forall kind :: kind in s.pending ==> kind.Requirements?
  }

  /** Nothing is pending that matters, and nothing was turned down. */
  ghost predicate Clear(s: Summary) {
    OnlyLate(s) && !TurnedDown(s)
  }

  /** Decisions are filed under their kind and wait only for the current gate, or came too late. */
  ghost predicate PendingTidy(s: Summary) {
    && (forall kind :: kind in s.pending ==> s.pending[kind].kind == kind)
    && (Working(s.status) ==> OnlyLate(s) && !s.gates.rejected)
    && (Declined(s.results.attempt) ==> s.status.Reviewing? || s.status.Finalizing? || Terminal(s.status))
    && (forall kind :: kind in s.pending && !s.status.Finalizing? && !Terminal(s.status) ==>
          kind.Requirements? || s.status == WaitStatus(kind))
  }

  /** Paths beyond the first plan were declared, and declaring them raised the risk. */
  ghost predicate ScopeTidy(s: Scope) {
    && (s.allowed <= s.firstPaths || s.maxRisk.Rank() >= 1)
    && (s.expansion != {} ==> s.maxRisk.Rank() >= 1)
    && s.paths <= s.allowed + s.expansion
  }

  /** Nothing has been planned yet. */
  ghost predicate Fresh(config: RunConfig, s: Summary) {
    && s.gates == NO_GATES && s.scope == Initial(config).scope
    && s.counts == Counts(0, 0, 0, 0, s.counts.moves) && s.results == Initial(config).results && s.design.None?
  }

  ghost predicate SuccessReady(config: RunConfig, s: Summary) {
    && Delivered(config, s)
    && Reports(s.results.attempt, s.results.patch, s.results.verification, s.results.review)
  }

  /** What holds at every await of every run. */
  ghost predicate Inv(config: RunConfig, s: Summary) {
    && PendingTidy(s) && (s.status.Queued? || s.status.Ingesting? ==> s.pending == map[])
    && (s.status.Finalizing? ==> s.counts.moves < MAX_MOVES)
    && (!s.status.Finalizing? && !Terminal(s.status) ==> s.counts.moves < MAX_MOVES - 1)
    && (Approved(s.results.attempt) ==>
          s.status.Reviewing? || s.status.WaitingDeliveryApproval? || s.status.Finalizing? || Terminal(s.status))
    && (s.status.Executing? || s.counts.attempts > 0 ==> TestsReady(s)) && (s.status.DesigningTests? ==> s.counts.attempts == 0)
    && (s.scope.planned ==> ScopeTidy(s.scope))
    && s.counts.moves <= MAX_MOVES && s.counts.attempts <= MAX_ATTEMPTS
    && s.counts.rounds <= MAX_ROUNDS && s.counts.designs <= MAX_DESIGNS
  }

  lemma UpdatesThenConsumed(s0: Summary, s1: Summary, r: ApprovalRequest)
    requires OnlyUpdates(s0, s1)
    ensures OnlyUpdates(After(s0, Consumed(r)), After(s1, Consumed(r)))
  {
  }

  /** The move is allowed and keeps the invariant. */
  ghost predicate MayMove(config: RunConfig, s: Summary, to: RunStatus) {
    Allowed(config, s, Moved(to)) && Inv(config, After(s, Moved(to)))
  }

  /** The items of a repair say so, and for which attempt they are. */
  ghost predicate RepairItems(plan: P.PlanChangeResult, attempt: nat) {
    forall item :: item in plan.workItems ==> item.kind.Repair? && item.attempt == attempt
  }

  /** What the workflow knows about a planning result: it was accepted for its request. */
  ghost predicate PlannedFor(request: P.PlanRequest, plan: P.PlanChangeResult) {
    if request.feedback then
      && PathsOf(plan) <= P.NormalSet(request.allowedRepairPaths) + ExpansionOf(plan)
      && |ExpansionOf(plan)| <= P.MAX_EXPANSION
      && (ExpansionOf(plan) != {} ==> request.allowScopeExpansion && plan.riskLevel.Rank() >= 1)
      && P.NormalSet(plan.scopeExpansionPaths) == ExpansionOf(plan) && RepairItems(plan, request.attempt)
    else plan.scopeExpansionPaths == []
  }

  ghost function PathsOf(plan: P.PlanChangeResult): set<string> {
    NormalPaths(plan.plannedFiles)
  }

  ghost function ExpansionOf(plan: P.PlanChangeResult): set<string> {
    Elements(plan.scopeExpansionPaths)
  }

  ghost function PlanEvent(repair: bool, plan: P.PlanChangeResult): Event {
    Planned(repair, PathsOf(plan), plan.riskLevel, ExpansionOf(plan))
  }

  lemma PlanKeepsInv(config: RunConfig, s: Summary, repair: bool, plan: P.PlanChangeResult)
    requires Inv(config, s) && PlanAllowed(config, s, PlanEvent(repair, plan))
    ensures Inv(config, After(s, PlanEvent(repair, plan)))
  {
  }

  lemma AcceptedPlan(request: P.PlanRequest, modelPlan: ChangePlan, plan: P.PlanChangeResult)
    requires P.Acceptable(request, modelPlan) && P.IsResult(request, modelPlan, plan)
    ensures PlannedFor(request, plan)
  {
    if request.feedback {
      P.RepairStaysInScope(request, modelPlan, plan);
      forall item | item in plan.workItems ensures item.kind.Repair? && item.attempt == request.attempt {
        P.ItemsSayThePlan(request, modelPlan, plan, item);
      }
      SortSetFacts(P.Extra(request, modelPlan));
    } else {
      SortSetFacts({});
      EmptyElements(plan.scopeExpansionPaths);
    }
  }

  /** Right after the first plan. */
  ghost predicate FirstPlanned(config: RunConfig, s: Summary, plan: P.PlanChangeResult) {
    && s.scope == Scope(true, HigherRisk(config.riskLevel, plan.riskLevel), PathsOf(plan), PathsOf(plan), PathsOf(plan), {})
    && s.counts == Counts(0, 0, 0, 0, s.counts.moves)
    && s.gates == NO_GATES && s.results == Initial(config).results && s.design.None?
  }

  ghost function Opened(g: Gates, kind: ApprovalKind): Gates {
    match kind
    case PlanGate => g.(plan := true)
    case ExecutionGate => g.(execution := true)
    case TestGate => g.(test := true)
    case DeliveryGate => g.(delivery := true)
    case _ => g
  }

  ghost predicate PassedGate(kind: ApprovalKind, s: Summary, s': Summary) {
    && s'.status == WaitStatus(kind) && s'.gates == Opened(s.gates, kind)
    && s'.scope == s.scope && s'.results == s.results && s'.counts == s.counts.(moves := s.counts.moves + 1)
    && s'.design == s.design
  }

  ghost predicate SameButDesigns(s: Summary, s': Summary) {
    && s'.gates == s.gates && s'.scope == s.scope && s'.results == s.results
    && s'.counts == s.counts.(designs := s'.counts.designs)
  }

  /** Test design costs one or two moves and opens no gate but its own. */
  ghost predicate TestsDesigned(s: Summary, s': Summary) {
    && s'.gates == s.gates.(test := s'.gates.test) && s'.scope == s.scope && s'.results == s.results && TestsReady(s')
    && s'.counts == s.counts.(moves := s'.counts.moves, designs := s'.counts.designs)
    && s'.counts.moves <= s.counts.moves + 2
  }

  /** The gates of the first plan are passed; nothing has been executed yet. */
  ghost predicate FirstGatesPassed(config: RunConfig, s: Summary, s': Summary) {
    && Clear(s') && ValidTransition(s'.status, Executing) && GatesPassed(config, s')
    && TestsReady(s') && s'.scope == s.scope && s'.results == s.results && s'.counts.moves <= s.counts.moves + 4
    && s'.counts == s.counts.(moves := s'.counts.moves, designs := s'.counts.designs)
  }

  /** The gates of a repair plan are passed, at one move each. */
  ghost predicate RepairGatesPassed(stages: StagePolicy, s: Summary, s': Summary) {
    && Clear(s') && ValidTransition(s'.status, Executing) && s'.scope == s.scope && s'.results == s.results
    && (stages.plan.Manual? ==> s'.gates.plan) && (stages.execution.Manual? ==> s'.gates.execution)
    && s'.counts == s.counts.(moves := s'.counts.moves) && s'.counts.moves <= s.counts.moves + 2
  }

  function RawPathsOf(plan: P.PlanChangeResult): seq<string> {
    seq(|plan.plannedFiles|, i requires 0 <= i < |plan.plannedFiles| => plan.plannedFiles[i].path)
  }

  /** An attempt may start: one per round, and early enough to end the run in time. */
  ghost predicate AttemptReady(s: Summary) {
    && s.status.Executing? && Clear(s)
    && s.counts.attempts == s.counts.rounds && s.counts.moves <= 9 + 7 * s.counts.rounds
  }

  ghost predicate Developed(s: Summary, s': Summary) {
    && s'.gates == s.gates && s'.scope == s.scope && s'.results == s.results.(attempt := NO_ATTEMPT, report := None)
    && s'.counts == s.counts.(attempts := s.counts.attempts + 1, moves := s.counts.moves + 1)
  }

  ghost predicate PassedVerification(r: Results) {
    && r.attempt.patch.Some? && r.patch == r.attempt.patch
    && r.attempt.verification.Some? && r.verification == Some(r.attempt.verification.value.0)
    && r.attempt.verification.value.1 && r.attempt.review.None?
  }

  ghost predicate VerifiedBy(s: Summary, s': Summary, passed: bool) {
    && s'.status == s.status && s'.gates == s.gates && s'.scope == s.scope && s'.counts == s.counts
    && s'.results.attempt.verification.Some? && s'.results.attempt.verification.value.1 == passed
    && s'.results.attempt.review.None? && (passed ==> PassedVerification(s'.results))
  }

  ghost predicate ReviewedBy(s: Summary, s': Summary, decision: ReviewDecision) {
    && s'.status.Reviewing? && s'.gates == s.gates && s'.scope == s.scope
    && s'.counts == s.counts.(moves := s.counts.moves + 1)
    && s'.results.attempt.verification.Some? && s'.results.attempt.verification.value.1
    && s'.results.attempt.review.Some? && s'.results.attempt.review.value.1 == decision
    && (decision.Accept? ==> ApprovedNow(s'.results))
  }

  /** The latest results are those of the current attempt, which was approved. */
  ghost predicate ApprovedNow(r: Results) {
    Approved(r.attempt) && Reports(r.attempt, r.patch, r.verification, r.review)
  }

  ghost predicate AttemptMade(s: Summary, s': Summary) {
    && s'.gates == s.gates && s'.scope == s.scope
    && s'.counts == s.counts.(attempts := s.counts.attempts + 1, moves := s'.counts.moves)
    && s'.counts.moves <= s.counts.moves + 2
  }

  datatype AttemptResult = AttemptResult(passed: bool, decision: Option<ReviewDecision>)

  /** The result is the one on record. */
  ghost predicate Judged(s: Summary, result: AttemptResult) {
    && (s.status.Reviewing? || (s.status.Verifying? && !result.passed)) && (result.passed <==> result.decision.Some?)
    && s.results.attempt.verification.Some? && s.results.attempt.verification.value.1 == result.passed
    && (if result.decision.None? then s.results.attempt.review.None?
        else s.results.attempt.review.Some? && s.results.attempt.review.value.1 == result.decision.value)
    && (result.passed && result.decision == Some(Accept) ==> s.status.Reviewing? && ApprovedNow(s.results))
  }

  /** The head of the repair loop: what the loop's variables stand for. */
  ghost predicate RoundReady(config: RunConfig, s: Summary, highest: RiskLevel, allowed: seq<string>) {
    && AttemptReady(s) && s.scope.planned && s.counts.repairs == s.counts.rounds
    && HigherRisk(config.riskLevel, highest) == s.scope.maxRisk
    && P.NormalSet(allowed) == s.scope.allowed
  }

  /** After an attempt that calls for a repair round. */
  ghost predicate RoundDue(config: RunConfig, s: Summary, highest: RiskLevel, allowed: seq<string>) {
    && (s.status.Verifying? || s.status.Reviewing?) && s.scope.planned && Unapproved(s.results.attempt)
    && s.counts.repairs == s.counts.rounds && s.counts.attempts == s.counts.rounds + 1
    && s.counts.moves <= 11 + 7 * s.counts.rounds
    && HigherRisk(config.riskLevel, highest) == s.scope.maxRisk
    && P.NormalSet(allowed) == s.scope.allowed
  }

  ghost predicate RoundOpened(s: Summary, s': Summary) {
    && s'.scope == s.scope && s'.results == s.results && s'.gates == s.gates.(plan := false, execution := false)
    && s'.counts == s.counts.(rounds := s.counts.rounds + 1, moves := s.counts.moves + 2)
  }

  ghost predicate ReplanReady(config: RunConfig, s: Summary, highest: RiskLevel, allowed: seq<string>) {
    && s.scope.planned && s.counts.repairs < s.counts.rounds && s.counts.moves <= 6 + 7 * s.counts.rounds
    && HigherRisk(config.riskLevel, highest) == s.scope.maxRisk
    && P.NormalSet(allowed) == s.scope.allowed
  }

  ghost predicate Replanned(config: RunConfig, s: Summary, s': Summary, highest: RiskLevel, result: (P.PlanChangeResult, RiskLevel)) {
    && Clear(s') && ValidTransition(s'.status, Executing) && GatesPassed(config, s') && s'.results == s.results
    && s'.scope == ScopeAfter(s.scope, PlanEvent(true, result.0))
    && result.1 == HigherRisk(highest, result.0.riskLevel) && RepairItems(result.0, s.counts.rounds + 1)
    && s'.counts == s.counts.(repairs := s.counts.repairs + 1, moves := s'.counts.moves)
    && s'.counts.moves <= s.counts.moves + 2
    && P.NormalSet(result.0.scopeExpansionPaths) == ExpansionOf(result.0)
  }

  /** The loop ended with an approved candidate, early enough to deliver it. */
  ghost predicate CandidateApproved(s: Summary) {
    && s.status.Reviewing? && Clear(s) && ApprovedNow(s.results)
    && s.counts.attempts == s.counts.rounds + 1 && s.counts.moves < MAX_MOVES - 2
  }

  /** What decides about the outcome is as it was. */
  ghost predicate SameFindings(s: Summary, s': Summary) {
    && s'.gates == s.gates && s'.results.attempt == s.results.attempt
    && s'.counts == s.counts.(moves := s'.counts.moves)
  }

  /** The run was finalized because a stage raised. */
  ghost predicate RaisedAtLast(s: Summary) {
    s.results.report.Some? && s.results.report.value.status.Failed? && s.results.report.value.error == Some(StageFailed)
  }

  /** How the body of a run ends, when it does: approved and delivered, turned down, or out of rounds. */
  ghost predicate Ended(s: Summary, outcome: RunStatus) {
    match outcome
    case Succeeded => Approved(s.results.attempt) && !TurnedDown(s)
    case Rejected => TurnedDown(s)
    case Failed => Exhausted(s) && !TurnedDown(s)
    case _ => false
  }

  lemma DeliveryIgnoresRisk(config: RunConfig, a: RiskLevel, b: RiskLevel)
    ensures StagesAt(config, a).delivery == StagesAt(config, b).delivery
  {
  }

  /** `original_allowed_paths` after a round: the declared expansion joins it. */
  function GrowAllowed(allowed: seq<string>, plan: P.PlanChangeResult): seq<string> {
    if plan.scopeExpansionPaths == [] then allowed
    else SortSet((set p | p in allowed) + (set p | p in plan.scopeExpansionPaths))
  }

  lemma GrownAllowed(allowed: seq<string>, plan: P.PlanChangeResult)
    requires P.NormalSet(plan.scopeExpansionPaths) == ExpansionOf(plan)
    ensures P.NormalSet(GrowAllowed(allowed, plan)) == P.NormalSet(allowed) + ExpansionOf(plan)
  {
    var union := (set p | p in allowed) + (set p | p in plan.scopeExpansionPaths);
    SortSetFacts(union);
    EmptyElements(plan.scopeExpansionPaths);
    if plan.scopeExpansionPaths != [] {
      forall p ensures p in SortSet(union) <==> p in allowed || p in plan.scopeExpansionPaths {
        assert p in Elements(SortSet(union)) <==> p in union;
      }
    }
  }

  lemma HighestOfThree(a: RiskLevel, b: RiskLevel, c: RiskLevel)
    ensures HigherRisk(a, HigherRisk(b, c)) == HigherRisk(HigherRisk(a, b), c)
  {
  }

  lemma RoundCounts(config: RunConfig, due: Summary, begun: Summary, planned: Summary, s: Summary,
                    highest: RiskLevel, allowed: seq<string>, replanned: (P.PlanChangeResult, RiskLevel))
    requires RoundDue(config, due, highest, allowed) && RoundOpened(due, begun)
    requires Replanned(config, begun, planned, highest, replanned)
    requires OnlyUpdates(After(planned, Moved(Executing)), s) && Inv(config, s)
    ensures AttemptReady(s) && s.counts.repairs == s.counts.rounds == due.counts.rounds + 1
  {
    assert s.status.Executing? && Working(s.status);
  }

  lemma RoundScope(config: RunConfig, due: Summary, begun: Summary, planned: Summary, s: Summary,
                   highest: RiskLevel, allowed: seq<string>, replanned: (P.PlanChangeResult, RiskLevel))
    requires RoundDue(config, due, highest, allowed) && RoundOpened(due, begun)
    requires Replanned(config, begun, planned, highest, replanned)
    requires OnlyUpdates(After(planned, Moved(Executing)), s)
    ensures s.scope.planned && HigherRisk(config.riskLevel, replanned.1) == s.scope.maxRisk
    ensures P.NormalSet(GrowAllowed(allowed, replanned.0)) == s.scope.allowed
  {
    GrownAllowed(allowed, replanned.0);
    HighestOfThree(config.riskLevel, highest, replanned.0.riskLevel);
  }

  lemma GatesStay(config: RunConfig, planned: Summary, s: Summary)
    requires Inv(config, s) && s.scope.planned && GatesPassed(config, planned)
    requires OnlyUpdates(After(planned, Moved(Executing)), s)
    ensures GatesPassed(config, s) && ScopeApproved(config, s)
  {
    assert s.scope.maxRisk == planned.scope.maxRisk && s.gates == planned.gates;
    assert s.scope.paths <= s.scope.firstPaths || s.scope.maxRisk.Rank() >= 1;
  }

  /** A repair round that got to execution leaves the loop's variables true of the run. */
  lemma RoundIsReady(config: RunConfig, due: Summary, begun: Summary, planned: Summary, s: Summary,
                     highest: RiskLevel, allowed: seq<string>, replanned: (P.PlanChangeResult, RiskLevel))
    requires RoundDue(config, due, highest, allowed) && RoundOpened(due, begun)
    requires Replanned(config, begun, planned, highest, replanned)
    requires OnlyUpdates(After(planned, Moved(Executing)), s) && Inv(config, s)
    ensures RoundReady(config, s, replanned.1, GrowAllowed(allowed, replanned.0))
    ensures GatesPassed(config, s) && ScopeApproved(config, s)
    ensures s.counts.rounds == due.counts.rounds + 1
  {
    RoundCounts(config, due, begun, planned, s, highest, allowed, replanned);
    RoundScope(config, due, begun, planned, s, highest, allowed, replanned);
    GatesStay(config, planned, s);
  }

  lemma RawPathsNormal(plan: P.PlanChangeResult)
    ensures P.NormalSet(RawPathsOf(plan)) == PathsOf(plan)
  {
    var raw := RawPathsOf(plan);
    forall f | f in plan.plannedFiles ensures f.path in raw {
      var i :| 0 <= i < |plan.plannedFiles| && plan.plannedFiles[i] == f;
      assert raw[i] == f.path;
    }
    forall p | p in raw ensures exists f :: f in plan.plannedFiles && f.path == p {
      var i :| 0 <= i < |raw| && raw[i] == p;
      assert plan.plannedFiles[i] in plan.plannedFiles;
    }
  }

  /** The first execution leaves the loop's variables true of the run. */
  lemma FirstRoundReady(config: RunConfig, planned: Summary, passed: Summary, s: Summary, plan: P.PlanChangeResult)
    requires FirstPlanned(config, planned, plan) && planned.counts.moves <= 4 && FirstGatesPassed(config, planned, passed)
    requires OnlyUpdates(After(passed, Moved(Executing)), s) && Inv(config, s)
    ensures RoundReady(config, s, plan.riskLevel, RawPathsOf(plan))
    ensures GatesPassed(config, s) && ScopeApproved(config, s)
  {
    RawPathsNormal(plan);
    assert Working(s.status);
  }

  /** Moving forward, except to execution. */
  lemma MayMoveForward(config: RunConfig, s: Summary, to: RunStatus)
    requires Inv(config, s) && Clear(s) && ValidTransition(s.status, to)
    requires !to.Executing? && !to.Finalizing? && !Terminal(to)
    requires to.WaitingRequirementsApproval? ==> s.pending == map[]
    requires to.Ingesting? ==> s.pending == map[]
    requires to.Replanning? ==> s.counts.attempts == s.counts.rounds
    requires Approved(s.results.attempt) ==> to.WaitingDeliveryApproval?
    requires to.DesigningTests? ==> s.design.None? && s.counts.attempts == 0
    requires GateDue(config, s, to)
    requires s.counts.moves < MAX_MOVES - 2
    ensures MayMove(config, s, to)
  {
  }

  lemma MayExecute(config: RunConfig, s: Summary)
    requires Inv(config, s) && Clear(s) && ValidTransition(s.status, Executing)
    requires s.scope.planned && GatesPassed(config, s) && s.counts.moves < MAX_MOVES - 2
    requires s.counts.attempts == s.counts.rounds && TestsReady(s) && !Approved(s.results.attempt)
    ensures MayMove(config, s, Executing)
  {
    var stages := StagesAt(config, s.scope.maxRisk);
    assert s.scope.paths <= s.scope.firstPaths || s.scope.maxRisk.Rank() >= 1;
  }

  /** Any live run may start to finalize; once finalizing, it may take its outcome. */
  lemma MayFinish(config: RunConfig, s: Summary, to: RunStatus)
    requires Inv(config, s) && ValidTransition(s.status, to) && (to.Finalizing? || s.status.Finalizing?)
    requires Terminal(to) ==> FiledAs(config, s, to)
    requires to.Succeeded? ==> Filed(s.results)
    requires TurnedDown(s) ==> GivesUp(to)
    ensures MayMove(config, s, to)
  {
  }

  /** Filing the report is what the outcome then needs. */
  lemma FiledNow(config: RunConfig, s: Summary, outcome: RunStatus, error: Option<RunError>, s': Summary)
    requires OutcomeDue(config, s, outcome, error) && (outcome.Succeeded? ==> SuccessReady(config, s))
    requires OnlyUpdates(After(s, Reported(outcome, s.results.patch, s.results.verification, s.results.review, error)), s')
    ensures FiledAs(config, s', outcome) && (outcome.Succeeded? ==> Filed(s'.results)) && TurnedDown(s') == TurnedDown(s)
  {
  }

  lemma OpenedInSteps(due: Summary, counted: Summary, moved: Summary, s: Summary)
    requires OnlyUpdates(After(due, RoundStarted), counted)
    requires OnlyUpdates(After(counted, Moved(Replanning)), moved) && OnlyUpdates(After(moved, Moved(RunStatus.Planning)), s)
    ensures RoundOpened(due, s)
  {
  }

  /** A decision passes its gate, or refuses it. */
  lemma Decided(kind: ApprovalKind, s: Summary, r: ApprovalRequest, s': Summary)
    requires r.kind == kind && !TurnedDown(s)
    requires OnlyUpdates(After(After(s, Moved(WaitStatus(kind))), Consumed(r)), s')
    ensures if r.decision.Approve? then PassedGate(kind, s, s') && !TurnedDown(s') else s'.gates.rejected
  {
  }
}
