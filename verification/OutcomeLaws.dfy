/** How runs end and why, which decisions they wait for, and what those decisions say: over every safe history. */
module OutcomeLaws {
  import opened Outcomes
  import opened Policies
  import opened Texts
  import opened Transitions
  import opened Updates
  import opened History
  import opened HistoryLaws

  // ---------------------------------------------------------------- judgements

  /** Event `j` belongs to the last attempt. */
  ghost predicate Current(t: Trace, j: nat) {
    j < |t| && forall k :: j < k < |t| ==> !t[k].Attempted?
  }

  ghost predicate VerifiedAs(t: Trace, j: nat, passed: bool) {
    Current(t, j) && t[j].Verified? && t[j].passed == passed
  }

  ghost predicate ReviewedAs(t: Trace, j: nat, decision: ReviewDecision) {
    Current(t, j) && t[j].Reviewed? && t[j].decision == decision
  }

  /** The last attempt passed verification and was accepted in review. */
  ghost predicate ApprovedAtLast(t: Trace) {
    (exists v: nat :: VerifiedAs(t, v, true)) && (exists r: nat :: ReviewedAs(t, r, Accept))
  }

  /** The last attempt failed verification, or its review asks for changes. */
  ghost predicate UnapprovedAtLast(t: Trace) {
    (exists v: nat :: VerifiedAs(t, v, false)) || (exists r: nat :: ReviewedAs(t, r, RequestChanges))
  }

  ghost predicate RefusedAt(t: Trace, i: nat) {
    i < |t| && t[i].Consumed? && t[i].request.decision.Reject?
  }

  ghost predicate GateRefused(t: Trace) {
    exists i: nat :: RefusedAt(t, i)
  }

  ghost predicate DeclinedAt(t: Trace, i: nat) {
    i < |t| && t[i].Reviewed? && t[i].decision.Decline?
  }

  ghost predicate ReviewDeclined(t: Trace) {
    exists i: nat :: DeclinedAt(t, i)
  }

  ghost predicate ReportedAs(t: Trace, j: nat, outcome: RunStatus, error: Option<RunError>) {
    j < |t| && t[j].Reported? && t[j].status == outcome && t[j].error == error
  }

  lemma {:induction false} VerificationStays(config: RunConfig, t: Trace, v: nat, n: nat)
    requires Safe(config, t) && v < n <= |t| && t[v].Verified? && forall k :: v < k < n ==> !t[k].Attempted?
    ensures var a := Before(config, t, n).results.attempt;
            a.patch.Some? && a.verification == Some((t[v].ref, t[v].passed))
  {
    StepAt(config, t, n - 1);
    AllowedAt(config, t, n - 1);
    if v < n - 1 {
      VerificationStays(config, t, v, n - 1);
    }
  }

  lemma {:induction false} ReviewStays(config: RunConfig, t: Trace, r: nat, n: nat)
    requires Safe(config, t) && r < n <= |t| && t[r].Reviewed? && forall k :: r < k < n ==> !t[k].Attempted?
    ensures var a := Before(config, t, n).results.attempt;
            a.verification.Some? && a.verification.value.1 && a.review == Some((t[r].ref, t[r].decision))
  {
    StepAt(config, t, n - 1);
    AllowedAt(config, t, n - 1);
    if r < n - 1 {
      ReviewStays(config, t, r, n - 1);
    }
  }

  lemma Whole(config: RunConfig, t: Trace)
    ensures Before(config, t, |t|) == Summarize(config, t)
  {
    assert t[..|t|] == t;
  }

  /** The verification on record is that of the last attempt. */
  lemma VerificationMeans(config: RunConfig, t: Trace, passed: bool)
    requires Safe(config, t)
    ensures var a := Summarize(config, t).results.attempt;
            (a.verification.Some? && a.verification.value.1 == passed) <==> exists v: nat :: VerifiedAs(t, v, passed)
  {
    Whole(config, t);
    var a := Summarize(config, t).results.attempt;
    if v: nat :| VerifiedAs(t, v, passed) {
      VerificationStays(config, t, v, |t|);
    }
    if a.verification.Some? && a.verification.value.1 == passed {
      AttemptSources(config, t, |t|);
      var v :| 0 <= v < |t| && t[v] == Verified(a.verification.value.0, passed) && forall k :: v < k < |t| ==> !t[k].Attempted?;
      assert VerifiedAs(t, v, passed);
    }
  }

  lemma ReviewMeans(config: RunConfig, t: Trace, decision: ReviewDecision)
    requires Safe(config, t)
    ensures var a := Summarize(config, t).results.attempt;
            (a.review.Some? && a.review.value.1 == decision) <==> exists r: nat :: ReviewedAs(t, r, decision)
  {
    Whole(config, t);
    var a := Summarize(config, t).results.attempt;
    if r: nat :| ReviewedAs(t, r, decision) {
      ReviewStays(config, t, r, |t|);
    }
    if a.review.Some? && a.review.value.1 == decision {
      AttemptSources(config, t, |t|);
      var r :| 0 <= r < |t| && t[r] == Reviewed(a.review.value.0, decision) && forall k :: r < k < |t| ==> !t[k].Attempted?;
      assert ReviewedAs(t, r, decision);
    }
  }

  /** A judgement needs what it judges. */
  lemma {:induction false} JudgedInOrder(config: RunConfig, t: Trace, n: nat)
    requires Safe(config, t) && n <= |t|
    ensures var a := Before(config, t, n).results.attempt;
            (a.verification.Some? ==> a.patch.Some?) && (a.review.Some? ==> a.verification.Some? && a.verification.value.1)
  {
    if n > 0 {
      StepAt(config, t, n - 1);
      AllowedAt(config, t, n - 1);
      JudgedInOrder(config, t, n - 1);
    }
  }

  lemma {:induction false} RefusalMeans(config: RunConfig, t: Trace, n: nat)
    requires n <= |t|
    ensures Before(config, t, n).gates.rejected <==> exists i: nat :: i < n && RefusedAt(t, i)
  {
    if n > 0 {
      StepAt(config, t, n - 1);
      RefusalMeans(config, t, n - 1);
      assert Before(config, t, n).gates == GatesAfter(Before(config, t, n - 1).gates, t[n - 1]);
      assert RefusedAt(t, n - 1) <==> t[n - 1].Consumed? && t[n - 1].request.decision.Reject?;
    }
  }

  lemma DeclineMeans(config: RunConfig, t: Trace)
    requires Safe(config, t)
    ensures Declined(Summarize(config, t).results.attempt) <==> ReviewDeclined(t)
  {
    ReviewMeans(config, t, Decline);
    if i: nat :| DeclinedAt(t, i) {
      Whole(config, t);
      RejectionStays(config, t, i, |t|);
    }
    if r: nat :| ReviewedAs(t, r, Decline) {
      assert DeclinedAt(t, r);
    }
  }

  /** What the summary of a history says about its last attempt, and about refusals, in terms of the events. */
  lemma OutcomeMeaning(config: RunConfig, t: Trace)
    requires Safe(config, t)
    ensures var s := Summarize(config, t);
            && (Approved(s.results.attempt) <==> ApprovedAtLast(t))
            && (Unapproved(s.results.attempt) <==> UnapprovedAtLast(t))
            && (s.gates.rejected <==> GateRefused(t)) && (Declined(s.results.attempt) <==> ReviewDeclined(t))
            && s.counts.rounds == Count(t, IsRound) && s.counts.attempts == Count(t, IsAttempt)
  {
    Whole(config, t);
    VerificationMeans(config, t, true);
    VerificationMeans(config, t, false);
    ReviewMeans(config, t, Accept);
    ReviewMeans(config, t, RequestChanges);
    JudgedInOrder(config, t, |t|);
    RefusalMeans(config, t, |t|);
    DeclineMeans(config, t);
    CountsAreCounts(config, t);
  }

  // ---------------------------------------------------------------- outcomes

  /** Both repair rounds are used, and the third attempt was not approved. */
  ghost predicate OutOfRounds(t: Trace) {
    Count(t, IsRound) == 2 && Count(t, IsAttempt) == 3 && UnapprovedAtLast(t)
  }

  lemma ExhaustionMeans(config: RunConfig, t: Trace)
    requires Safe(config, t)
    ensures Exhausted(Summarize(config, t)) <==> OutOfRounds(t)
  {
    OutcomeMeaning(config, t);
  }

  /** A failure was reported because a stage raised. */
  ghost predicate StageRaised(t: Trace) {
    exists j: nat :: ReportedAs(t, j, Failed, Some(StageFailed))
  }

  lemma RaisingMeans(config: RunConfig, t: Trace)
    requires Safe(config, t)
    ensures var r := Summarize(config, t).results.report;
            r.Some? && r.value.status.Failed? && r.value.error == Some(StageFailed) ==> StageRaised(t)
  {
    Whole(config, t);
    ReportSource(config, t, |t|);
    var r := Summarize(config, t).results.report;
    if r.Some? && r.value.status.Failed? && r.value.error == Some(StageFailed) {
      var j :| 0 <= j < |t| && t[j] == ReportOf(r.value) && forall k :: j < k < |t| ==> !t[k].Attempted?;
      assert ReportedAs(t, j, Failed, Some(StageFailed));
    }
  }

  /**
   Why a run ends as it does: succeeded when its last attempt was approved and no gate refused;
   rejected only after a refusal; failed only when a stage raised or the rounds were used up;
   cancelled only for a cancellation; and each time the report filed before says so.
   */
  lemma OutcomeLaw(config: RunConfig, t: Trace, i: nat)
    requires Safe(config, t) && i < |t| && t[i].Moved? && Terminal(t[i].to)
    ensures exists j: nat, error :: j < i && ReportedAs(t, j, t[i].to, error)
    ensures t[i].to.Succeeded? ==> ApprovedAtLast(t[..i]) && !GateRefused(t[..i])
    ensures t[i].to.Rejected? ==> GateRefused(t[..i]) || ReviewDeclined(t[..i])
    ensures t[i].to.Failed? ==> OutOfRounds(t[..i]) || StageRaised(t[..i])
    ensures t[i].to.Cancelled? ==> exists j: nat :: j < i && ReportedAs(t, j, Cancelled, Some(WorkflowCancelled))
    ensures t[i].to.Failed? ==> !GateRefused(t[..i]) && !ReviewDeclined(t[..i])
  {
    AllowedAt(config, t, i);
    PrefixSafe(config, t, i);
    OutcomeMeaning(config, t[..i]);
    ExhaustionMeans(config, t[..i]);
    RaisingMeans(config, t[..i]);
    var s := Before(config, t, i);
    var report := s.results.report.value;
    ReportSource(config, t, i);
    var j :| 0 <= j < i && t[j] == ReportOf(report) && forall k :: j < k < i ==> !t[k].Attempted?;
    assert ReportedAs(t, j, t[i].to, report.error);
  }

  /** Where a run with an approved attempt can stand. */
  predicate BeingDelivered(status: RunStatus) {
    status.Reviewing? || status.WaitingDeliveryApproval? || status.Finalizing? || Terminal(status)
  }

  lemma {:induction false} ApprovedIsDelivered(config: RunConfig, t: Trace, n: nat)
    requires Safe(config, t) && n <= |t|
    ensures Approved(Before(config, t, n).results.attempt) ==> BeingDelivered(Before(config, t, n).status)
  {
    if n > 0 {
      StepAt(config, t, n - 1);
      AllowedAt(config, t, n - 1);
      JudgedInOrder(config, t, n - 1);
      ApprovedIsDelivered(config, t, n - 1);
    }
  }

  /** An approved attempt is never worked over: no round, plan, attempt or judgement follows it, only delivery or the end. */
  lemma ApprovedIsKept(config: RunConfig, t: Trace, i: nat)
    requires Safe(config, t) && i < |t| && ApprovedAtLast(t[..i])
    ensures !t[i].RoundStarted? && !t[i].Planned? && !t[i].Attempted? && !t[i].Diffed? && !t[i].Verified? && !t[i].Reviewed?
    ensures t[i].Moved? ==> t[i].to.WaitingDeliveryApproval? || t[i].to.Finalizing? || Terminal(t[i].to)
  {
    AllowedAt(config, t, i);
    PrefixSafe(config, t, i);
    OutcomeMeaning(config, t[..i]);
    ApprovedIsDelivered(config, t, i);
  }

  /** A repair round begins only when the last attempt was judged, and neither approved nor declined. */
  lemma RoundsFollowFailures(config: RunConfig, t: Trace, i: nat)
    requires Safe(config, t) && i < |t| && t[i].RoundStarted?
    ensures UnapprovedAtLast(t[..i]) && !ApprovedAtLast(t[..i]) && !ReviewDeclined(t[..i]) && !GateRefused(t[..i])
  {
    AllowedAt(config, t, i);
    PrefixSafe(config, t, i);
    OutcomeMeaning(config, t[..i]);
  }

  // ---------------------------------------------------------------- which decisions are asked for

  /** A plan approval is asked for: the custom setting says so or, by risk, any risk seen is medium or high. */
  ghost predicate PlanAsked(config: RunConfig, t: Trace, i: nat) {
    match config.approvalPolicy
    case Custom(stages) => stages.plan.Manual?
    case RiskBased => RiskSeen(config, t, i, Medium) || RiskSeen(config, t, i, High)
  }

  /** An execution approval is asked for: the custom setting says so or, by risk, any risk seen is high. */
  ghost predicate ExecutionAsked(config: RunConfig, t: Trace, i: nat) {
    match config.approvalPolicy
    case Custom(stages) => stages.execution.Manual?
    case RiskBased => RiskSeen(config, t, i, High)
  }

  /** A delivery approval is asked for: the input says so or, where it is silent, the custom setting. */
  predicate DeliveryAsked(config: RunConfig) {
    match config.autoApproveLowRisk
    case Some(auto) => !auto
    case None => config.approvalPolicy.Custom? && config.approvalPolicy.stages.delivery.Manual?
  }

  lemma {:induction false} MaxRiskIsSeen(config: RunConfig, t: Trace, n: nat)
    requires n <= |t|
    ensures RiskSeen(config, t, n, Before(config, t, n).scope.maxRisk)
  {
    if n > 0 {
      StepAt(config, t, n - 1);
      MaxRiskIsSeen(config, t, n - 1);
      assert Before(config, t, n).scope == ScopeAfter(Before(config, t, n - 1).scope, t[n - 1]);
    }
  }

  lemma SeenIsBelowMax(config: RunConfig, t: Trace, n: nat, risk: RiskLevel)
    requires n <= |t| && RiskSeen(config, t, n, risk)
    ensures risk.Rank() <= Before(config, t, n).scope.maxRisk.Rank()
  {
    RiskOnlyRises(config, t, n);
  }

  /** The stages the workflow resolves, by name. */
  lemma StagesByName(config: RunConfig, t: Trace, n: nat)
    requires n <= |t|
    ensures var stages := StagesAt(config, Before(config, t, n).scope.maxRisk);
            && (stages.plan.Manual? <==> PlanAsked(config, t, n)) && (stages.execution.Manual? <==> ExecutionAsked(config, t, n))
            && (stages.delivery.Manual? <==> DeliveryAsked(config))
  {
    MaxRiskIsSeen(config, t, n);
    if RiskSeen(config, t, n, Medium) {
      SeenIsBelowMax(config, t, n, Medium);
    }
    if RiskSeen(config, t, n, High) {
      SeenIsBelowMax(config, t, n, High);
    }
  }

  lemma {:induction false} EnteredAt(config: RunConfig, t: Trace, n: nat) returns (m: nat)
    requires n <= |t| && !Before(config, t, n).status.Queued?
    ensures m < n && t[m] == Moved(Before(config, t, n).status)
  {
    StepAt(config, t, n - 1);
    if t[n - 1].Moved? {
      m := n - 1;
    } else {
      m := EnteredAt(config, t, n - 1);
    }
  }

  /** A run waits for a decision only when it is asked for. */
  lemma WaitsOnlyWhenAsked(config: RunConfig, t: Trace, i: nat)
    requires Safe(config, t) && i < |t|
    ensures t[i] == Moved(WaitingPlanApproval) ==> PlanAsked(config, t, i)
    ensures t[i] == Moved(WaitingExecutionApproval) ==> ExecutionAsked(config, t, i)
    ensures t[i] == Moved(WaitingDeliveryApproval) ==> DeliveryAsked(config) && ApprovedAtLast(t[..i])
  {
    AllowedAt(config, t, i);
    StagesByName(config, t, i);
    PrefixSafe(config, t, i);
    OutcomeMeaning(config, t[..i]);
  }

  /** A decision that was used had been asked for. */
  lemma ConsumedWasAsked(config: RunConfig, t: Trace, j: nat, i: nat)
    requires Safe(config, t) && j < i <= |t| && t[j].Consumed?
    ensures t[j].request.kind.PlanGate? ==> PlanAsked(config, t, i)
    ensures t[j].request.kind.ExecutionGate? ==> ExecutionAsked(config, t, i)
    ensures t[j].request.kind.DeliveryGate? ==> DeliveryAsked(config)
  {
    AllowedAt(config, t, j);
    var m := EnteredAt(config, t, j);
    WaitsOnlyWhenAsked(config, t, m);
    SeenEarlier(config, t, m, i, Medium);
    SeenEarlier(config, t, m, i, High);
  }

  lemma SeenEarlier(config: RunConfig, t: Trace, m: nat, i: nat, risk: RiskLevel)
    requires m <= i <= |t|
    ensures RiskSeen(config, t, m, risk) ==> RiskSeen(config, t, i, risk)
  {
  }

  /**
   Gate safety by name: execution starts with a plan approval since the latest planning exactly when
   one is asked for, and with an execution approval exactly when one is.
   */
  lemma ExecutionNeedsApprovals(config: RunConfig, t: Trace, i: nat)
    requires Safe(config, t) && i < |t| && t[i] == Moved(Executing)
    ensures ApprovedSincePlanning(t, i, PlanGate) <==> PlanAsked(config, t, i)
    ensures ApprovedSincePlanning(t, i, ExecutionGate) <==> ExecutionAsked(config, t, i)
  {
    AllowedAt(config, t, i);
    GateFlags(config, t, i);
    StagesByName(config, t, i);
    if ApprovedSincePlanning(t, i, PlanGate) {
      var j :| 0 <= j < i && t[j].Consumed? && t[j].request.kind == PlanGate;
      ConsumedWasAsked(config, t, j, i);
    }
    if ApprovedSincePlanning(t, i, ExecutionGate) {
      var j :| 0 <= j < i && t[j].Consumed? && t[j].request.kind == ExecutionGate;
      ConsumedWasAsked(config, t, j, i);
    }
  }

  ghost predicate DeliveryApproved(t: Trace, i: nat, j: nat) {
    j < i <= |t| && t[j].Consumed? && t[j].request.kind.DeliveryGate? && t[j].request.decision.Approve?
  }

  /** A run succeeds with a delivery approval exactly when one is asked for. */
  lemma SuccessNeedsDelivery(config: RunConfig, t: Trace, i: nat)
    requires Safe(config, t) && i < |t| && t[i] == Moved(Succeeded)
    ensures (exists j: nat :: DeliveryApproved(t, i, j)) <==> DeliveryAsked(config)
  {
    AllowedAt(config, t, i);
    StagesByName(config, t, i);
    DeliveryFlag(config, t, i);
    if DeliveryAsked(config) {
      var j :| 0 <= j < i && t[j].Consumed? && t[j].request.kind.DeliveryGate? && t[j].request.decision.Approve?;
      assert DeliveryApproved(t, i, j);
    }
    if j: nat :| DeliveryApproved(t, i, j) {
      ConsumedWasAsked(config, t, j, i);
    }
  }

  // ---------------------------------------------------------------- sealed tests

  /** The last design before `i`. */
  ghost predicate LastDesign(t: Trace, i: nat, d: nat) {
    d < i <= |t| && t[d].Designed? && forall k :: d < k < i ==> !t[k].Designed?
  }

  lemma {:induction false} DesignSource(config: RunConfig, t: Trace, n: nat) returns (d: nat)
    requires n <= |t| && Before(config, t, n).design.Some?
    ensures LastDesign(t, n, d) && t[d].verdict == Before(config, t, n).design.value
  {
    StepAt(config, t, n - 1);
    if t[n - 1].Designed? {
      d := n - 1;
    } else {
      d := DesignSource(config, t, n - 1);
    }
  }

  ghost predicate WaivedAt(t: Trace, i: nat, j: nat) {
    j < i <= |t| && t[j].Consumed? && t[j].request.kind.TestGate? && t[j].request.decision.Approve?
  }

  lemma {:induction false} WaiverSource(config: RunConfig, t: Trace, n: nat) returns (j: nat)
    requires n <= |t| && Before(config, t, n).gates.test
    ensures WaivedAt(t, n, j)
  {
    StepAt(config, t, n - 1);
    assert Before(config, t, n).gates == GatesAfter(Before(config, t, n - 1).gates, t[n - 1]);
    if WaivedAt(t, n, n - 1) {
      j := n - 1;
    } else {
      j := WaiverSource(config, t, n - 1);
    }
  }

  /** Nothing is executed without sealed tests that are valid on the base revision, or a waiver. */
  lemma SealedTestsLaw(config: RunConfig, t: Trace, i: nat) returns (d: nat)
    requires Safe(config, t) && i < |t| && t[i] == Moved(Executing)
    ensures LastDesign(t, i, d) && (t[d].verdict.valid || exists j: nat :: WaivedAt(t, i, j))
  {
    AllowedAt(config, t, i);
    d := DesignSource(config, t, i);
    if !t[d].verdict.valid {
      var _ := WaiverSource(config, t, i);
    }
  }

  lemma {:induction false} DesignsCounted(config: RunConfig, t: Trace, n: nat)
    requires Safe(config, t) && n <= |t|
    ensures Before(config, t, n).counts.designs == Count(t[..n], IsDesign)
  {
    PrefixSafe(config, t, n);
    CountsAreCounts(config, t[..n]);
  }

  /**
   A waiver is asked for only when the last design is invalid and cannot be revised: the tests did
   not run, or ran without a mismatch to learn from, or no design is left.
   */
  lemma WaiversAreLastResort(config: RunConfig, t: Trace, i: nat) returns (d: nat)
    requires Safe(config, t) && i < |t| && t[i] == Moved(WaitingTestApproval)
    ensures LastDesign(t, i, d) && !t[d].verdict.valid
    ensures !t[d].verdict.runnable || t[d].verdict.mismatches == 0
            || Count(t[..i], IsDesign) == if config.qaFeedbackEnabled then 3 else 1
  {
    AllowedAt(config, t, i);
    d := DesignSource(config, t, i);
    DesignsCounted(config, t, i);
  }

  /** Tests are designed again only with feedback enabled, after a design that ran and mismatched. */
  lemma RevisionsFollowMismatches(config: RunConfig, t: Trace, d: nat, i: nat)
    requires Safe(config, t) && i < |t| && LastDesign(t, i, d) && t[i].Designed?
    ensures config.qaFeedbackEnabled && !t[d].verdict.valid && t[d].verdict.runnable && t[d].verdict.mismatches > 0
  {
    AllowedAt(config, t, i);
    DesignKept(config, t, d, i);
    DesignsCounted(config, t, i);
  }

  lemma {:induction false} DesignKept(config: RunConfig, t: Trace, d: nat, n: nat)
    requires LastDesign(t, n, d)
    ensures Before(config, t, n).design == Some(t[d].verdict) && Before(config, t, n).counts.designs > 0
  {
    StepAt(config, t, n - 1);
    if d < n - 1 {
      DesignKept(config, t, d, n - 1);
    }
  }

  // ---------------------------------------------------------------- what decisions say

  /**
   A decision that is used gives its reasons: a rejection and a waived test carry a reason that is
   not blank, and approved requirements at least one criterion.
   */
  lemma DecisionsAreJustified(config: RunConfig, t: Trace, i: nat)
    requires Safe(config, t) && i < |t| && t[i].Consumed?
    ensures t[i].request.decision.Reject? || t[i].request.kind.TestGate? ==> !Blank(t[i].request.reason)
    ensures t[i].request.decision.Approve? && t[i].request.kind.Requirements? ==>
              t[i].request.criteria.Some? && |t[i].request.criteria.value| > 0
  {
    var j := ConsumedSource(config, t, i);
    AllowedAt(config, t, j);
  }
}
