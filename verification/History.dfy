/**
 The history of a run: what happened, in order, and which next events are acceptable. The
 workflow records every event; the results below are about every history it can record, and so
 about every prefix of every run.
 */
module History {
  import opened Outcomes
  import opened Ordering
  import opened Policies
  import opened Transitions
  import opened Updates
  import P = Planning

  type Ref = nat

  /** The part of the workflow input that decides its course. */
  datatype RunConfig = RunConfig(
    riskLevel: RiskLevel, approvalPolicy: ApprovalPolicy, autoApproveLowRisk: Option<bool>,
    scopeExpansionEnabled: bool, investigatorEnabled: bool, blackboardEnabled: bool, qaFeedbackEnabled: bool)

  datatype ReviewDecision = Accept | RequestChanges | Decline

  /** What checking a design of the sealed tests on the base revision found. */
  datatype TestVerdict = TestVerdict(valid: bool, runnable: bool, mismatches: nat)

  /** The error a run is finalized with; all errors that a stage raised are one. */
  datatype RunError = ApprovalRejected | ReviewRejected | VerificationFailed | WorkflowCancelled | StageFailed

  datatype Event =
    | Moved(to: RunStatus)
    | Refused(to: RunStatus)
    | Submitted(request: ApprovalRequest)
    | Consumed(request: ApprovalRequest)
    | Planned(repair: bool, paths: set<string>, risk: RiskLevel, expansion: set<string>)
    | Designed(verdict: TestVerdict)
    | Attempted
    | RoundStarted
    | Diffed(ref: Ref)
    | Verified(ref: Ref, passed: bool)
    | Reviewed(ref: Ref, decision: ReviewDecision)
    | Reported(status: RunStatus, patch: Option<Ref>, verification: Option<Ref>, review: Option<Ref>, error: Option<RunError>)

  type Trace = seq<Event>

  /** What one candidate attempt has produced so far. */
  datatype Attempt = Attempt(patch: Option<Ref>, verification: Option<(Ref, bool)>, review: Option<(Ref, ReviewDecision)>)

  const NO_ATTEMPT := Attempt(None, None, None)

  /** Which gates have been passed: plan and execution since planning began, the others ever; and whether one was refused. */
  datatype Gates = Gates(plan: bool, execution: bool, test: bool, delivery: bool, rejected: bool)

  const NO_GATES := Gates(false, false, false, false, false)

  /** The highest risk so far, the first plan's paths, the paths a repair may use, the current plan. */
  datatype Scope = Scope(
    planned: bool, maxRisk: RiskLevel, firstPaths: set<string>, allowed: set<string>,
    paths: set<string>, expansion: set<string>)

  datatype Counts = Counts(rounds: nat, repairs: nat, attempts: nat, designs: nat, moves: nat)

  /** A final report, as it was filed. */
  datatype Report = Report(
    status: RunStatus, patch: Option<Ref>, verification: Option<Ref>, review: Option<Ref>, error: Option<RunError>)

  /** The current attempt, the latest result of each kind from any attempt, and the report since it began. */
  datatype Results = Results(
    attempt: Attempt, patch: Option<Ref>, verification: Option<Ref>, review: Option<Ref>, report: Option<Report>)

  datatype Summary = Summary(
    status: RunStatus, pending: map<ApprovalKind, ApprovalRequest>, processed: set<string>,
    gates: Gates, scope: Scope, counts: Counts, results: Results, design: Option<TestVerdict>)

  ghost function Initial(config: RunConfig): Summary {
    Summary(Queued, map[], {}, NO_GATES,
            Scope(false, config.riskLevel, {}, {}, {}, {}), Counts(0, 0, 0, 0, 0), Results(NO_ATTEMPT, None, None, None, None), None)
  }

  ghost function PendingAfter(pending: map<ApprovalKind, ApprovalRequest>, e: Event): map<ApprovalKind, ApprovalRequest> {
    match e
    case Submitted(r) => pending[r.kind := r]
    case Consumed(r) => pending - {r.kind}
    case _ => pending
  }

  ghost function GatesAfter(g: Gates, e: Event): Gates {
    match e
    case Moved(to) => if to.Planning? then g.(plan := false, execution := false) else g
    case Consumed(r) =>
      if r.decision.Reject? then g.(rejected := true)
      else (match r.kind
            case PlanGate => g.(plan := true)
            case ExecutionGate => g.(execution := true)
            case TestGate => g.(test := true)
            case DeliveryGate => g.(delivery := true)
            case _ => g)
    case _ => g
  }

  ghost function ScopeAfter(s: Scope, e: Event): Scope {
    match e
    case Planned(repair, paths, risk, expansion) =>
      Scope(true, HigherRisk(s.maxRisk, risk), if repair then s.firstPaths else paths,
            if repair then s.allowed else paths, paths, expansion)
    case Moved(to) => if to.Executing? then s.(allowed := s.allowed + s.expansion) else s
    case _ => s
  }

  ghost function CountsAfter(c: Counts, e: Event): Counts {
    match e
    case Moved(_) => c.(moves := c.moves + 1)
    case Planned(repair, _, _, _) => if repair then c.(repairs := c.repairs + 1) else c
    case Designed(_) => c.(designs := c.designs + 1)
    case Attempted => c.(attempts := c.attempts + 1)
    case RoundStarted => c.(rounds := c.rounds + 1)
    case _ => c
  }

  ghost function ResultsAfter(r: Results, e: Event): Results {
    match e
    case Attempted => r.(attempt := NO_ATTEMPT, report := None)
    case Diffed(ref) => r.(patch := Some(ref), attempt := r.attempt.(patch := Some(ref)))
    case Verified(ref, passed) =>
      r.(verification := Some(ref), attempt := r.attempt.(verification := Some((ref, passed))))
    case Reviewed(ref, decision) => r.(review := Some(ref), attempt := r.attempt.(review := Some((ref, decision))))
    case Reported(status, patch, verification, review, error) =>
      r.(report := Some(Report(status, patch, verification, review, error)))
    case _ => r
  }

  /** How an event changes the summary of a history. */
  ghost function After(s: Summary, e: Event): Summary {
    Summary(if e.Moved? then e.to else s.status, PendingAfter(s.pending, e),
            if e.Submitted? then s.processed + {e.request.id} else s.processed,
            GatesAfter(s.gates, e), ScopeAfter(s.scope, e), CountsAfter(s.counts, e), ResultsAfter(s.results, e),
            if e.Designed? then Some(e.verdict) else s.design)
  }

  ghost function Summarize(config: RunConfig, t: Trace): Summary {
    if t == [] then Initial(config) else After(Summarize(config, t[..|t| - 1]), t[|t| - 1])
  }

  // ---------------------------------------------------------------- the rules

  const MAX_ROUNDS := 2
  const MAX_ATTEMPTS := 3
  const MAX_DESIGNS := 3
  const MAX_MOVES := 28

  /** `_resolve_approval_stages`, at a given risk. */
  function StagesAt(config: RunConfig, risk: RiskLevel): StagePolicy {
    var stages := ResolveApprovalPolicy(risk, config.approvalPolicy);
    match config.autoApproveLowRisk
    case None => stages
    case Some(auto) => stages.(delivery := if auto then Automatic else Manual)
  }

  /** Every manual stage at the highest risk so far has been approved since planning began. */
  ghost predicate GatesPassed(config: RunConfig, s: Summary) {
    var stages := StagesAt(config, s.scope.maxRisk);
    && (stages.plan.Manual? ==> s.gates.plan)
    && (stages.execution.Manual? ==> s.gates.execution)
  }

  /** Under the risk-based policy, leaving the first plan's paths takes a plan approval. */
  ghost predicate ScopeApproved(config: RunConfig, s: Summary) {
    config.approvalPolicy.RiskBased? && !(s.scope.paths <= s.scope.firstPaths) ==> s.gates.plan
  }

  /** The attempt passed verification and review. */
  ghost predicate Approved(a: Attempt) {
    && a.patch.Some? && a.verification.Some? && a.review.Some?
    && a.verification.value.1 && a.review.value.1.Accept?
  }

  /** The last attempt is this round's and was approved, so was the delivery where that is manual, and nothing was rejected. */
  ghost predicate Delivered(config: RunConfig, s: Summary) {
    && Approved(s.results.attempt) && s.counts.attempts == s.counts.rounds + 1 && !s.gates.rejected
    && (StagesAt(config, s.scope.maxRisk).delivery.Manual? ==> s.gates.delivery)
  }

  /** A report names the three results of one attempt. */
  ghost predicate Reports(a: Attempt, patch: Option<Ref>, verification: Option<Ref>, review: Option<Ref>) {
    && a.patch.Some? && patch == a.patch
    && a.verification.Some? && verification == Some(a.verification.value.0)
    && a.review.Some? && review == Some(a.review.value.0)
  }

  /** The review refused the attempt for good. */
  predicate Declined(a: Attempt) {
    a.review.Some? && a.review.value.1.Decline?
  }

  /** A gate was refused, or the review was. */
  ghost predicate TurnedDown(s: Summary) {
    s.gates.rejected || Declined(s.results.attempt)
  }

  /** An attempt that was judged, and neither approved nor declined: it calls for another round. */
  predicate Unapproved(a: Attempt) {
    && a.verification.Some?
    && (if a.verification.value.1 then a.review.Some? && a.review.value.1.RequestChanges? else a.review.None?)
  }

  /** The last attempt of the last round was not approved. */
  ghost predicate Exhausted(s: Summary) {
    s.counts.rounds == MAX_ROUNDS && s.counts.attempts == s.counts.rounds + 1 && Unapproved(s.results.attempt)
  }

  /** When a run may end so, and with which error. */
  ghost predicate OutcomeDue(config: RunConfig, s: Summary, outcome: RunStatus, error: Option<RunError>) {
    match outcome
    case Succeeded => error.None? && Delivered(config, s)
    case Rejected => (error == Some(ApprovalRejected) && s.gates.rejected) || (error == Some(ReviewRejected) && Declined(s.results.attempt))
    case Failed =>
      || error == Some(StageFailed)
      || (Exhausted(s) && error == Some(if s.results.attempt.verification.value.1 then ReviewRejected else VerificationFailed))
    case Cancelled => error == Some(WorkflowCancelled)
    case _ => false
  }

  /** The latest report is of that outcome, with a reason for it. */
  ghost predicate FiledAs(config: RunConfig, s: Summary, outcome: RunStatus) {
    && s.results.report.Some? && s.results.report.value.status == outcome
    && OutcomeDue(config, s, outcome, s.results.report.value.error)
  }

  /** The latest report is one of success, about the current attempt. */
  ghost predicate Filed(r: Results) {
    && r.report.Some? && r.report.value.status.Succeeded?
    && Reports(r.attempt, r.report.value.patch, r.report.value.verification, r.report.value.review)
  }

  ghost predicate NothingPendingFor(pending: map<ApprovalKind, ApprovalRequest>, to: RunStatus) {
    forall kind :: kind in pending ==> WaitStatus(kind) != to
  }

  /** Where a run may go after that. */
  predicate GivesUp(to: RunStatus) {
    to.Finalizing? || to.Rejected? || to.Cancelled?
  }

  function MaxDesigns(config: RunConfig): nat {
    if config.qaFeedbackEnabled then MAX_DESIGNS else 1
  }

  /** The tests ran, and failed to tell the base revision from a repaired one: the design can be revised. */
  predicate Revisable(v: TestVerdict) {
    !v.valid && v.runnable && v.mismatches > 0
  }

  /** The last design can be neither used nor revised. */
  ghost predicate NeedsWaiver(config: RunConfig, s: Summary) {
    s.design.Some? && !s.design.value.valid && (s.counts.designs == MaxDesigns(config) || !Revisable(s.design.value))
  }

  /** The sealed tests are valid, or their use was waived. */
  ghost predicate TestsReady(s: Summary) {
    s.design.Some? && (s.design.value.valid || s.gates.test)
  }

  /** A decision is asked for only where one is needed. */
  ghost predicate GateDue(config: RunConfig, s: Summary, to: RunStatus) {
    var stages := StagesAt(config, s.scope.maxRisk);
    match to
    case WaitingPlanApproval => stages.plan.Manual?
    case WaitingExecutionApproval => stages.execution.Manual?
    case WaitingTestApproval => NeedsWaiver(config, s)
    case WaitingDeliveryApproval => stages.delivery.Manual? && Approved(s.results.attempt)
    case _ => true
  }

  ghost predicate MoveAllowed(config: RunConfig, s: Summary, to: RunStatus) {
    && ValidTransition(s.status, to) && s.counts.moves < MAX_MOVES
    && NothingPendingFor(s.pending, to)
    && (TurnedDown(s) ==> GivesUp(to))
    && (Approved(s.results.attempt) ==> to.WaitingDeliveryApproval? || to.Finalizing? || Terminal(to))
    && (to.Replanning? || to.Executing? ==> s.counts.attempts == s.counts.rounds)
    && (to.Executing? ==> s.scope.planned && GatesPassed(config, s) && ScopeApproved(config, s) && TestsReady(s))
    && (to.DesigningTests? ==> s.design.None? && s.counts.attempts == 0)
    && GateDue(config, s, to)
    && (Terminal(to) ==> FiledAs(config, s, to)) && (to.Succeeded? ==> Filed(s.results))
  }

  ghost predicate PlanAllowed(config: RunConfig, s: Summary, e: Event)
    requires e.Planned?
  {
    && s.status.Planning?
    && if e.repair then
         && s.scope.planned && s.counts.repairs < s.counts.rounds && e.paths <= s.scope.allowed + e.expansion
         && |e.expansion| <= P.MAX_EXPANSION
         && (e.expansion != {} ==> e.risk.Rank() >= 1 && config.scopeExpansionEnabled)
       else !s.scope.planned && e.expansion == {}
  }

  /** Which event may follow a history. */
  ghost predicate Allowed(config: RunConfig, s: Summary, e: Event) {
    match e
    case Moved(to) => MoveAllowed(config, s, to)
    case Refused(to) => Terminal(s.status) && to.Finalizing?
    case Submitted(r) => ValidApproval(r, s.status, s.processed)
    case Consumed(r) => r.kind in s.pending && s.pending[r.kind] == r && s.status == WaitStatus(r.kind)
    case Planned(_, _, _, _) => PlanAllowed(config, s, e)
    case Designed(_) =>
      && s.status.DesigningTests? && s.counts.designs < MaxDesigns(config)
      && (s.design.Some? ==> Revisable(s.design.value))
    case Attempted => s.status.Executing? && s.counts.attempts < MAX_ATTEMPTS && s.counts.attempts == s.counts.rounds
    case RoundStarted =>
      && (s.status.Verifying? || s.status.Reviewing?) && !TurnedDown(s) && Unapproved(s.results.attempt)
      && s.counts.rounds < MAX_ROUNDS && s.scope.planned && s.counts.repairs == s.counts.rounds
    case Diffed(_) => s.status.Verifying? && s.counts.attempts == s.counts.rounds + 1 && s.results.attempt == NO_ATTEMPT
    case Verified(_, _) => s.status.Verifying? && s.results.attempt.patch.Some? && s.results.attempt.verification.None?
    case Reviewed(_, _) =>
      && s.status.Reviewing? && s.results.attempt.verification.Some? && s.results.attempt.verification.value.1
      && s.results.attempt.review.None?
    case Reported(status, patch, verification, review, error) =>
      && OutcomeDue(config, s, status, error)
      && patch == s.results.patch && verification == s.results.verification && review == s.results.review
      && (status.Succeeded? ==> Reports(s.results.attempt, patch, verification, review))
  }

  /** Event `i` was allowed by what came before it. */
  ghost predicate EventAllowed(config: RunConfig, t: Trace, i: nat) {
    i < |t| && Allowed(config, Summarize(config, t[..i]), t[i])
  }

  /** Every event of the history was allowed by what came before it. */
  ghost predicate Safe(config: RunConfig, t: Trace) {
    forall i :: 0 <= i < |t| ==> EventAllowed(config, t, i)
  }

  /** The summaries along a history, one more than there are events. */
  ghost predicate Faithful(config: RunConfig, t: Trace, steps: seq<Summary>) {
    && |steps| == |t| + 1 && steps[0] == Initial(config)
    && forall i {:trigger t[i]} :: 0 <= i < |t| ==> Allowed(config, steps[i], t[i]) && steps[i + 1] == After(steps[i], t[i])
  }

  lemma FaithfulExtends(config: RunConfig, t: Trace, steps: seq<Summary>, e: Event)
    requires Faithful(config, t, steps) && Allowed(config, steps[|t|], e)
    ensures Faithful(config, t + [e], steps + [After(steps[|t|], e)])
  {
    var t', steps' := t + [e], steps + [After(steps[|t|], e)];
    forall i | 0 <= i < |t'| ensures Allowed(config, steps'[i], t'[i]) && steps'[i + 1] == After(steps'[i], t'[i]) {
      if i < |t| {
        assert t'[i] == t[i];
      }
    }
  }

  lemma {:induction false} FaithfulSummaries(config: RunConfig, t: Trace, steps: seq<Summary>, k: nat)
    requires Faithful(config, t, steps) && k <= |t|
    ensures Summarize(config, t[..k]) == steps[k]
  {
    if k > 0 {
      FaithfulSummaries(config, t, steps, k - 1);
      assert t[..k][..k - 1] == t[..k - 1];
      assert t[k - 1] == t[..k][k - 1];
    }
  }

  /** A run's record is a safe history, and its summaries are those of the history. */
  lemma FaithfulIsSafe(config: RunConfig, t: Trace, steps: seq<Summary>)
    requires Faithful(config, t, steps)
    ensures Safe(config, t) && Summarize(config, t) == steps[|t|]
  {
    forall i | 0 <= i < |t| ensures EventAllowed(config, t, i) {
      FaithfulSummaries(config, t, steps, i);
      assert Allowed(config, steps[i], t[i]);
    }
    FaithfulSummaries(config, t, steps, |t|);
    assert t[..|t|] == t;
  }
}
