/** What every safe history means, event by event. The workflow's histories are all safe. */
module HistoryLaws {
  import opened Outcomes
  import Dag
  import opened Policies
  import opened Transitions
  import opened Updates
  import opened History
  import P = Planning

  ghost function Before(config: RunConfig, t: Trace, i: nat): Summary
    requires i <= |t|
  {
    Summarize(config, t[..i])
  }

  lemma StepAt(config: RunConfig, t: Trace, i: nat)
    requires i < |t|
    ensures Before(config, t, i + 1) == After(Before(config, t, i), t[i])
  {
    assert t[..i + 1][..i] == t[..i];
  }

  lemma AllowedAt(config: RunConfig, t: Trace, i: nat)
    requires Safe(config, t) && i < |t|
    ensures Allowed(config, Before(config, t, i), t[i])
  {
    assert EventAllowed(config, t, i);
  }

  // ---------------------------------------------------------------- transitions

  lemma {:induction false} TerminalStays(config: RunConfig, t: Trace, i: nat, j: nat)
    requires Safe(config, t) && i <= j <= |t| && Terminal(Before(config, t, i).status)
    ensures Before(config, t, j).status == Before(config, t, i).status
    ensures forall k :: i <= k < j ==> !t[k].Moved?
    decreases j - i
  {
    if i < j {
      StepAt(config, t, i);
      AllowedAt(config, t, i);
      TerminalStays(config, t, i + 1, j);
    }
  }

  /**
   Every transition the run makes is in the table; a terminal status is entered from `Finalizing`
   and kept; the only transition ever refused is finalizing again after a terminal status.
   */
  lemma TransitionLaw(config: RunConfig, t: Trace, i: nat)
    requires Safe(config, t) && i < |t|
    ensures t[i].Moved? ==> ValidTransition(Before(config, t, i).status, t[i].to)
    ensures t[i].Moved? && Terminal(t[i].to) ==> Before(config, t, i).status.Finalizing?
    ensures t[i].Moved? && Terminal(t[i].to) ==> forall k :: i < k < |t| ==> !t[k].Moved?
    ensures t[i].Refused? ==> t[i].to.Finalizing? && Terminal(Before(config, t, i).status)
  {
    StepAt(config, t, i);
    AllowedAt(config, t, i);
    if t[i].Moved? && Terminal(t[i].to) {
      TerminalStays(config, t, i + 1, |t|);
    }
  }

  // ---------------------------------------------------------------- counting

  ghost function Count(t: Trace, counted: Event -> bool): nat {
    if t == [] then 0 else Count(t[..|t| - 1], counted) + if counted(t[|t| - 1]) then 1 else 0
  }

  ghost const IsMove: Event -> bool := (e: Event) => e.Moved?
  ghost const IsAttempt: Event -> bool := (e: Event) => e.Attempted?
  ghost const IsDesign: Event -> bool := (e: Event) => e.Designed?
  ghost const IsRound: Event -> bool := (e: Event) => e.RoundStarted?

  lemma {:induction false} CountsAreCounts(config: RunConfig, t: Trace)
    requires Safe(config, t)
    ensures var c := Summarize(config, t).counts;
            && c.moves == Count(t, IsMove) && c.attempts == Count(t, IsAttempt)
            && c.designs == Count(t, IsDesign) && c.rounds == Count(t, IsRound)
            && c.moves <= MAX_MOVES && c.attempts <= MAX_ATTEMPTS && c.designs <= MAX_DESIGNS && c.rounds <= MAX_ROUNDS
  {
    if t != [] {
      var n := |t| - 1;
      PrefixSafe(config, t, n);
      CountsAreCounts(config, t[..n]);
      StepAt(config, t, n);
      AllowedAt(config, t, n);
      assert t[..n + 1] == t;
    }
  }

  lemma PrefixSafe(config: RunConfig, t: Trace, n: nat)
    requires Safe(config, t) && n <= |t|
    ensures Safe(config, t[..n])
  {
    forall i | 0 <= i < n ensures EventAllowed(config, t[..n], i) {
      assert t[..n][..i] == t[..i] && EventAllowed(config, t, i);
    }
  }

  /** No run makes more than 28 transitions, 3 attempts, 3 test designs and 2 repair rounds. */
  lemma RunIsBounded(config: RunConfig, t: Trace)
    requires Safe(config, t)
    ensures Count(t, IsMove) <= 28 && Count(t, IsAttempt) <= 3 && Count(t, IsDesign) <= 3 && Count(t, IsRound) <= 2
  {
    CountsAreCounts(config, t);
  }

  // ---------------------------------------------------------------- approvals

  /** `t[j]` submitted the decision, during the wait that is still on after the first `n` events. */
  ghost predicate SubmittedAt(t: Trace, n: nat, j: nat, r: ApprovalRequest) {
    && j < n <= |t| && t[j] == Submitted(r)
    && forall k :: j < k < n ==> !t[k].Moved? && !(t[k].Consumed? && t[k].request.kind == r.kind)
  }

  /** One step of a wait: what is pending at the gate was just submitted, or was pending there. */
  lemma PendingAt(config: RunConfig, t: Trace, i: nat, kind: ApprovalKind)
    requires Safe(config, t) && i < |t|
    requires kind in Before(config, t, i + 1).pending && Before(config, t, i + 1).status == WaitStatus(kind)
    ensures var s, r := Before(config, t, i), Before(config, t, i + 1).pending[kind];
            t[i] != Submitted(r) ==>
              && kind in s.pending && s.pending[kind] == r && s.status == WaitStatus(kind)
              && !t[i].Moved? && !t[i].Consumed?
  {
    StepAt(config, t, i);
    AllowedAt(config, t, i);
  }

  lemma SubmittedStill(t: Trace, m: nat, n: nat, r: ApprovalRequest)
    requires n == m + 1 <= |t| && !t[m].Moved? && !(t[m].Consumed? && t[m].request.kind == r.kind)
    requires exists j: nat :: SubmittedAt(t, m, j, r)
    ensures exists j: nat :: SubmittedAt(t, n, j, r)
  {
    var j: nat :| SubmittedAt(t, m, j, r);
    assert SubmittedAt(t, n, j, r);
  }

  /** A decision pending at its gate was submitted since that gate was reached. */
  lemma {:induction false} PendingSource(config: RunConfig, t: Trace, n: nat, kind: ApprovalKind)
    requires Safe(config, t) && n <= |t|
    requires kind in Before(config, t, n).pending && Before(config, t, n).status == WaitStatus(kind)
    ensures exists j: nat :: SubmittedAt(t, n, j, Before(config, t, n).pending[kind])
  {
    if n > 0 {
      PendingAt(config, t, n - 1, kind);
      var r := Before(config, t, n).pending[kind];
      if t[n - 1] == Submitted(r) {
        assert SubmittedAt(t, n, n - 1, r);
      } else {
        PendingSource(config, t, n - 1, kind);
        SubmittedStill(t, n - 1, n, r);
      }
    }
  }

  lemma {:induction false} ProcessedMeans(config: RunConfig, t: Trace, n: nat, id: string)
    requires n <= |t|
    ensures id in Before(config, t, n).processed <==> exists j :: 0 <= j < n && t[j].Submitted? && t[j].request.id == id
  {
    if n > 0 {
      var s, e := Before(config, t, n - 1), t[n - 1];
      StepAt(config, t, n - 1);
      ProcessedMeans(config, t, n - 1, id);
      assert id in After(s, e).processed <==> id in s.processed || (e.Submitted? && e.request.id == id);
    }
  }

  /** No approval id is ever accepted twice. */
  lemma SubmittedOnce(config: RunConfig, t: Trace, j: nat, k: nat)
    requires Safe(config, t) && j < k < |t| && t[j].Submitted? && t[k].Submitted?
    ensures t[j].request.id != t[k].request.id
  {
    ProcessedMeans(config, t, k, t[k].request.id);
    AllowedAt(config, t, k);
  }

  lemma ConsumedSource(config: RunConfig, t: Trace, i: nat) returns (j: nat)
    requires Safe(config, t) && i < |t| && t[i].Consumed?
    ensures SubmittedAt(t, i, j, t[i].request)
  {
    AllowedAt(config, t, i);
    PendingSource(config, t, i, t[i].request.kind);
    j :| SubmittedAt(t, i, j, t[i].request);
  }

  /**
   Approval freshness: a decision that passes a gate was submitted during that very wait, and no
   other gate ever uses it.
   */
  lemma DecisionsAreFresh(config: RunConfig, t: Trace, i: nat)
    requires Safe(config, t) && i < |t| && t[i].Consumed?
    ensures exists j: nat :: SubmittedAt(t, i, j, t[i].request)
    ensures forall k :: i < k < |t| && t[k].Consumed? ==> t[k].request.id != t[i].request.id
  {
    var j := ConsumedSource(config, t, i);
    forall k | i < k < |t| && t[k].Consumed? ensures t[k].request.id != t[i].request.id {
      var j' := ConsumedSource(config, t, k);
      if j < j' {
        SubmittedOnce(config, t, j, j');
      } else if j' < j {
        SubmittedOnce(config, t, j', j);
      }
    }
  }

  /** A status from which requirements can still be approved. */
  predicate BeforeBaseline(status: RunStatus) {
    status.Queued? || status.Ingesting? || status.WaitingRequirementsApproval?
  }

  lemma {:induction false} BaselineIsPassed(config: RunConfig, t: Trace, i: nat, j: nat)
    requires Safe(config, t) && i <= j <= |t| && !BeforeBaseline(Before(config, t, i).status)
    ensures !BeforeBaseline(Before(config, t, j).status)
    decreases j - i
  {
    if i < j {
      StepAt(config, t, i);
      AllowedAt(config, t, i);
      BaselineIsPassed(config, t, i + 1, j);
    }
  }

  /** A requirements decision that comes too late to be used is never used. */
  lemma LateRequirementsAreNotUsed(config: RunConfig, t: Trace, i: nat, j: nat)
    requires Safe(config, t) && i <= j < |t| && !BeforeBaseline(Before(config, t, i).status)
    ensures !(t[j].Consumed? && t[j].request.kind.Requirements?)
  {
    BaselineIsPassed(config, t, i, j);
    AllowedAt(config, t, j);
  }

  lemma SafeMore(config: RunConfig, t: Trace, e: Event)
    requires Safe(config, t) && Allowed(config, Summarize(config, t), e)
    ensures Safe(config, t + [e]) && Summarize(config, t + [e]) == After(Summarize(config, t), e)
  {
    var t' := t + [e];
    assert t'[..|t|] == t;
    forall i | 0 <= i < |t'| ensures EventAllowed(config, t', i) {
      if i < |t| {
        assert EventAllowed(config, t, i) && t'[..i] == t[..i];
      }
    }
  }

  lemma RequirementsAwaited(config: RunConfig, t: Trace)
    requires t == [Moved(Ingesting), Moved(WaitingRequirementsApproval)]
    ensures Safe(config, t)
    ensures Summarize(config, t) == Initial(config).(status := WaitingRequirementsApproval, counts := Counts(0, 0, 0, 0, 2))
  {
    assert Safe(config, []);
    SafeMore(config, [], t[0]);
    SafeMore(config, [t[0]], t[1]);
    assert t == [t[0]] + [t[1]];
  }

  lemma RequirementsUsed(config: RunConfig, t: Trace, first: ApprovalRequest)
    requires first.kind.Requirements? && first.decision.Approve? && ValidApproval(first, WaitingRequirementsApproval, {})
    requires Safe(config, t)
    requires Summarize(config, t) == Initial(config).(status := WaitingRequirementsApproval, counts := Counts(0, 0, 0, 0, 2))
    ensures Safe(config, t + [Submitted(first)] + [Consumed(first)])
    ensures Summarize(config, t + [Submitted(first)] + [Consumed(first)]) ==
              Summarize(config, t).(processed := {first.id})
  {
    SafeMore(config, t, Submitted(first));
    SafeMore(config, t + [Submitted(first)], Consumed(first));
    assert map[Requirements := first] - {Requirements} == map[];
  }

  /** The rules admit a second requirements decision in one wait, which stays pending when the run moves on. */
  lemma LateRequirementsStay(config: RunConfig, first: ApprovalRequest, second: ApprovalRequest)
    requires first.kind.Requirements? && first.decision.Approve? && second.kind.Requirements? && first.id != second.id
    requires ValidApproval(first, WaitingRequirementsApproval, {}) && ValidApproval(second, WaitingRequirementsApproval, {first.id})
    ensures var t := [Moved(Ingesting), Moved(WaitingRequirementsApproval), Submitted(first), Consumed(first),
                      Submitted(second), Moved(Baselining)];
            Safe(config, t) && Requirements in Summarize(config, t).pending && Summarize(config, t).status.Baselining?
  {
    var t2 := [Moved(Ingesting), Moved(WaitingRequirementsApproval)];
    RequirementsAwaited(config, t2);
    RequirementsUsed(config, t2, first);
    var t4 := t2 + [Submitted(first)] + [Consumed(first)];
    SafeMore(config, t4, Submitted(second));
    SafeMore(config, t4 + [Submitted(second)], Moved(Baselining));
    assert t4 + [Submitted(second)] + [Moved(Baselining)] ==
           [Moved(Ingesting), Moved(WaitingRequirementsApproval), Submitted(first), Consumed(first), Submitted(second), Moved(Baselining)];
  }

  // ---------------------------------------------------------------- rejections

  /** A gate was refused, or the review declined the attempt. */
  ghost predicate TurnedDownAt(t: Trace, i: nat) {
    i < |t| && ((t[i].Consumed? && t[i].request.decision.Reject?) || (t[i].Reviewed? && t[i].decision.Decline?))
  }

  /** The run still stands where it was turned down, or has given up. */
  lemma {:induction false} RejectionStays(config: RunConfig, t: Trace, i: nat, j: nat)
    requires Safe(config, t) && TurnedDownAt(t, i) && i < j <= |t|
    ensures var s := Before(config, t, j);
            if t[i].Consumed? then s.gates.rejected && (s.status == WaitStatus(t[i].request.kind) || GivesUp(s.status))
            else Declined(s.results.attempt) && (s.status.Reviewing? || GivesUp(s.status))
  {
    StepAt(config, t, j - 1);
    AllowedAt(config, t, j - 1);
    if i < j - 1 {
      RejectionStays(config, t, i, j - 1);
    }
  }

  /**
   A rejection is final, a gate's or the review's: after it the run only finalizes, as rejected or
   cancelled. Nothing is planned, designed, attempted or judged any more, and no success is reported.
   */
  lemma RejectionIsFinal(config: RunConfig, t: Trace, i: nat, k: nat)
    requires Safe(config, t) && TurnedDownAt(t, i) && i < k < |t|
    ensures t[k].Moved? ==> t[k].to.Finalizing? || t[k].to.Rejected? || t[k].to.Cancelled?
    ensures !t[k].Planned? && !t[k].Designed? && !t[k].Attempted? && !t[k].RoundStarted?
    ensures !t[k].Diffed? && !t[k].Verified? && !t[k].Reviewed?
    ensures t[k].Reported? ==> !t[k].status.Succeeded?
  {
    RejectionStays(config, t, i, k);
    AllowedAt(config, t, k);
  }

  // ---------------------------------------------------------------- gates

  /** An approval of `kind` since planning last began, seen from the first `n` events. */
  ghost predicate ApprovedSincePlanning(t: Trace, n: nat, kind: ApprovalKind) {
    n <= |t| && exists j ::
      && 0 <= j < n && t[j].Consumed? && t[j].request.kind == kind && t[j].request.decision.Approve?
      && forall k :: j < k < n ==> t[k] != Moved(Planning)
  }

  lemma ApprovalStep(t: Trace, n: nat, kind: ApprovalKind)
    requires 0 < n <= |t|
    ensures ApprovedSincePlanning(t, n - 1, kind) && t[n - 1] != Moved(Planning) ==> ApprovedSincePlanning(t, n, kind)
    ensures t[n - 1].Consumed? && t[n - 1].request.kind == kind && t[n - 1].request.decision.Approve? ==>
              ApprovedSincePlanning(t, n, kind)
  {
    if ApprovedSincePlanning(t, n - 1, kind) && t[n - 1] != Moved(Planning) {
      var j :| && 0 <= j < n - 1 && t[j].Consumed? && t[j].request.kind == kind && t[j].request.decision.Approve?
               && forall k :: j < k < n - 1 ==> t[k] != Moved(Planning);
      assert forall k :: j < k < n ==> t[k] != Moved(Planning);
    }
  }

  lemma {:induction false} GateFlags(config: RunConfig, t: Trace, n: nat)
    requires n <= |t|
    ensures Before(config, t, n).gates.plan ==> ApprovedSincePlanning(t, n, PlanGate)
    ensures Before(config, t, n).gates.execution ==> ApprovedSincePlanning(t, n, ExecutionGate)
  {
    if n > 0 {
      StepAt(config, t, n - 1);
      GateFlags(config, t, n - 1);
      ApprovalStep(t, n, PlanGate);
      ApprovalStep(t, n, ExecutionGate);
      assert Before(config, t, n).gates == GatesAfter(Before(config, t, n - 1).gates, t[n - 1]);
    }
  }

  lemma {:induction false} RiskOnlyRises(config: RunConfig, t: Trace, n: nat)
    requires n <= |t|
    ensures config.riskLevel.Rank() <= Before(config, t, n).scope.maxRisk.Rank()
    ensures forall j :: 0 <= j < n && t[j].Planned? ==> t[j].risk.Rank() <= Before(config, t, n).scope.maxRisk.Rank()
  {
    if n > 0 {
      StepAt(config, t, n - 1);
      RiskOnlyRises(config, t, n - 1);
    }
  }

  lemma StricterWithRisk(config: RunConfig, a: RiskLevel, b: RiskLevel)
    requires a.Rank() <= b.Rank()
    ensures AtLeastAsStrict(StagesAt(config, a), StagesAt(config, b))
  {
  }

  /** A risk the run has been given or has planned at, before event `i`. */
  ghost predicate RiskSeen(config: RunConfig, t: Trace, i: nat, risk: RiskLevel) {
    i <= |t| && (risk == config.riskLevel || exists j :: 0 <= j < i && t[j].Planned? && t[j].risk == risk)
  }

  /**
   Gate safety: whenever execution starts, every stage that is manual at any risk seen so far has
   been approved since the current planning began.
   */
  lemma GateLaw(config: RunConfig, t: Trace, i: nat, risk: RiskLevel)
    requires Safe(config, t) && i < |t| && t[i] == Moved(Executing) && RiskSeen(config, t, i, risk)
    ensures StagesAt(config, risk).plan.Manual? ==> ApprovedSincePlanning(t, i, PlanGate)
    ensures StagesAt(config, risk).execution.Manual? ==> ApprovedSincePlanning(t, i, ExecutionGate)
  {
    var s := Before(config, t, i);
    AllowedAt(config, t, i);
    GateFlags(config, t, i);
    RiskOnlyRises(config, t, i);
    StricterWithRisk(config, risk, s.scope.maxRisk);
  }

  // ---------------------------------------------------------------- scope

  /** A first plan is made once, and sets the first paths; nothing else does. */
  lemma FirstPlanAt(config: RunConfig, t: Trace, i: nat)
    requires Safe(config, t) && i < |t|
    ensures var s, s' := Before(config, t, i).scope, Before(config, t, i + 1).scope;
            if t[i].Planned? && !t[i].repair then !s.planned && s'.planned && s'.firstPaths == t[i].paths
            else s'.firstPaths == s.firstPaths && (s.planned ==> s'.planned)
  {
    StepAt(config, t, i);
    AllowedAt(config, t, i);
  }

  lemma {:induction false} FirstPlanIsKept(config: RunConfig, t: Trace, n: nat)
    requires Safe(config, t) && n <= |t|
    ensures forall j :: 0 <= j < n && t[j].Planned? && !t[j].repair ==>
              Before(config, t, n).scope.planned && Before(config, t, n).scope.firstPaths == t[j].paths
  {
    if n > 0 {
      FirstPlanAt(config, t, n - 1);
      FirstPlanIsKept(config, t, n - 1);
    }
  }

  lemma {:induction false} LastPlanIsCurrent(config: RunConfig, t: Trace, j: nat, n: nat)
    requires j < n <= |t| && t[j].Planned?
    requires forall k :: j < k < n ==> !t[k].Planned?
    ensures Before(config, t, n).scope.paths == t[j].paths && Before(config, t, n).scope.expansion == t[j].expansion
  {
    StepAt(config, t, n - 1);
    if j < n - 1 {
      LastPlanIsCurrent(config, t, j, n - 1);
    }
  }

  /**
   Scope control: under the risk-based policy no plan that leaves the first plan's paths is
   executed without a plan approval of its own.
   */
  lemma ScopeLaw(config: RunConfig, t: Trace, first: nat, plan: nat, i: nat)
    requires Safe(config, t) && config.approvalPolicy.RiskBased?
    requires first <= plan < i < |t| && t[i] == Moved(Executing)
    requires t[first].Planned? && !t[first].repair
    requires t[plan].Planned? && forall k :: plan < k < i ==> !t[k].Planned?
    requires !(t[plan].paths <= t[first].paths)
    ensures ApprovedSincePlanning(t, i, PlanGate)
  {
    AllowedAt(config, t, i);
    FirstPlanIsKept(config, t, i);
    LastPlanIsCurrent(config, t, plan, i);
    GateFlags(config, t, i);
  }

  lemma UnionSize<T>(a: set<T>, b: set<T>)
    ensures |a + b| <= |a| + |b|
  {
    assert a + b == a + (b - a);
    assert |b - a| <= |b| by {
      assert b == (b - a) + (b * a);
    }
  }

  /** The paths in use come from the first plan and at most three more for each repair planned. */
  ghost predicate ScopeBounded(config: RunConfig, s: Summary) {
    && s.counts.repairs <= s.counts.rounds
    && |s.scope.allowed + s.scope.expansion| <= |s.scope.firstPaths| + P.MAX_EXPANSION * s.counts.repairs
    && s.scope.paths <= s.scope.allowed + s.scope.expansion
    && s.scope.firstPaths <= s.scope.allowed
    && (!s.scope.planned ==> s.scope == Initial(config).scope && s.counts.repairs == 0)
  }

  lemma PlanStaysBounded(config: RunConfig, s: Summary, e: Event)
    requires e.Planned? && PlanAllowed(config, s, e) && ScopeBounded(config, s)
    ensures ScopeBounded(config, After(s, e))
  {
    UnionSize(s.scope.allowed, e.expansion);
    Dag.SubsetCardinality(s.scope.allowed, s.scope.allowed + s.scope.expansion);
    assert e.paths + {} == e.paths;
  }

  lemma StaysBounded(config: RunConfig, s: Summary, e: Event)
    requires Allowed(config, s, e) && ScopeBounded(config, s)
    ensures ScopeBounded(config, After(s, e))
  {
    if e.Planned? {
      PlanStaysBounded(config, s, e);
    } else if e == Moved(Executing) {
      assert s.scope.allowed + s.scope.expansion + s.scope.expansion == s.scope.allowed + s.scope.expansion;
    }
  }

  lemma BoundedAt(config: RunConfig, t: Trace, i: nat)
    requires Safe(config, t) && i < |t| && ScopeBounded(config, Before(config, t, i))
    ensures ScopeBounded(config, Before(config, t, i + 1))
  {
    StepAt(config, t, i);
    AllowedAt(config, t, i);
    StaysBounded(config, Before(config, t, i), t[i]);
  }

  lemma {:induction false} AlwaysBounded(config: RunConfig, t: Trace, n: nat)
    requires Safe(config, t) && n <= |t|
    ensures ScopeBounded(config, Before(config, t, n))
  {
    if n > 0 {
      AlwaysBounded(config, t, n - 1);
      BoundedAt(config, t, n - 1);
    }
  }

  /** The paths a run may touch grow by at most three in each repair round. */
  lemma ScopeGrowth(config: RunConfig, t: Trace)
    requires Safe(config, t)
    ensures var s := Summarize(config, t);
            s.scope.paths <= s.scope.allowed + s.scope.expansion
            && |s.scope.allowed + s.scope.expansion| <= |s.scope.firstPaths| + 3 * Count(t, IsRound)
  {
    assert t[..|t|] == t;
    AlwaysBounded(config, t, |t|);
    CountsAreCounts(config, t);
  }

  /** The paths in use, or that the current plan declares for use. */
  ghost function InScope(config: RunConfig, t: Trace, n: nat): set<string>
    requires n <= |t|
  {
    Before(config, t, n).scope.allowed + Before(config, t, n).scope.expansion
  }

  /** Since a round began at `i`: nothing planned and nothing new, or one plan with its expansion. */
  ghost predicate GrownSince(config: RunConfig, t: Trace, i: nat, n: nat)
    requires i <= n <= |t|
  {
    var s, s' := Before(config, t, i), Before(config, t, n);
    && s'.scope.planned && s'.counts.rounds == s.counts.rounds + 1
    && if s'.counts.repairs == s.counts.repairs then InScope(config, t, n) == InScope(config, t, i)
       else && s'.counts.repairs == s.counts.repairs + 1 && |s'.scope.expansion| <= P.MAX_EXPANSION
            && InScope(config, t, n) <= InScope(config, t, i) + s'.scope.expansion
  }

  lemma RoundBegins(config: RunConfig, t: Trace, i: nat)
    requires Safe(config, t) && i < |t| && t[i].RoundStarted?
    ensures GrownSince(config, t, i, i + 1)
    ensures Before(config, t, i).counts.repairs == Before(config, t, i).counts.rounds
  {
    StepAt(config, t, i);
    AllowedAt(config, t, i);
  }

  lemma GrowsOn(config: RunConfig, t: Trace, i: nat, n: nat)
    requires Safe(config, t) && i < n < |t| && t[i].RoundStarted? && !t[n].RoundStarted?
    requires GrownSince(config, t, i, n) && Before(config, t, i).counts.repairs == Before(config, t, i).counts.rounds
    ensures GrownSince(config, t, i, n + 1)
  {
    StepAt(config, t, n);
    AllowedAt(config, t, n);
    var s, s' := Before(config, t, n).scope, Before(config, t, n + 1).scope;
    if t[n].Planned? {
      assert s'.allowed == s.allowed;
    } else if t[n] == Moved(Executing) {
      assert s'.allowed + s'.expansion == s.allowed + s.expansion;
    }
  }

  lemma {:induction false} GrownInRound(config: RunConfig, t: Trace, i: nat, n: nat)
    requires Safe(config, t) && i < n <= |t| && t[i].RoundStarted?
    requires forall k :: i < k < n ==> !t[k].RoundStarted?
    ensures GrownSince(config, t, i, n)
  {
    RoundBegins(config, t, i);
    if i + 1 < n {
      GrownInRound(config, t, i, n - 1);
      GrowsOn(config, t, i, n - 1);
    }
  }

  /** In each repair round, from its start to any point before the next, at most three paths are new. */
  lemma RoundGrowth(config: RunConfig, t: Trace, i: nat, n: nat)
    requires Safe(config, t) && i < n <= |t| && t[i].RoundStarted?
    requires forall k :: i < k < n ==> !t[k].RoundStarted?
    ensures |InScope(config, t, n) - InScope(config, t, i)| <= 3
  {
    GrownInRound(config, t, i, n);
    var added := InScope(config, t, n) - InScope(config, t, i);
    if Before(config, t, n).counts.repairs != Before(config, t, i).counts.repairs {
      Dag.SubsetCardinality(added, Before(config, t, n).scope.expansion);
    } else {
      assert added == {};
    }
  }

  /** The first plan had `path`, or the repair planned at `j` declared it as an expansion. */
  ghost predicate DeclaredAt(t: Trace, j: nat, path: string) {
    j < |t| && t[j].Planned? && path in (if t[j].repair then t[j].expansion else t[j].paths)
  }

  ghost predicate DeclaredBefore(t: Trace, n: nat, path: string) {
    n <= |t| && exists j: nat :: j < n && DeclaredAt(t, j, path)
  }

  lemma AllowedAtStep(config: RunConfig, t: Trace, i: nat, path: string)
    requires Safe(config, t) && i < |t|
    ensures var s, s' := Before(config, t, i).scope, Before(config, t, i + 1).scope;
            path in s'.allowed + s'.expansion ==> path in s.allowed + s.expansion || DeclaredAt(t, i, path)
  {
    StepAt(config, t, i);
    AllowedAt(config, t, i);
  }

  lemma {:induction false} PathOrigin(config: RunConfig, t: Trace, n: nat, path: string)
    requires Safe(config, t) && n <= |t|
    ensures path in Before(config, t, n).scope.allowed + Before(config, t, n).scope.expansion ==> DeclaredBefore(t, n, path)
  {
    if n > 0 {
      AllowedAtStep(config, t, n - 1, path);
      PathOrigin(config, t, n - 1, path);
      if DeclaredBefore(t, n - 1, path) {
        var j: nat :| j < n - 1 && DeclaredAt(t, j, path);
        assert j < n && DeclaredAt(t, j, path);
      }
    }
  }

  /**
   Every repair plan stays in scope: each of its paths was in the first plan or was declared as an
   expansion, by itself or before; a declared expansion names at most three paths and comes with at
   least medium risk.
   */
  lemma RepairPlanLaw(config: RunConfig, t: Trace, i: nat)
    requires Safe(config, t) && i < |t| && t[i].Planned? && t[i].repair
    ensures forall path :: path in t[i].paths ==> DeclaredBefore(t, i + 1, path)
    ensures |t[i].expansion| <= 3
    ensures t[i].expansion != {} ==> t[i].risk.Rank() >= Medium.Rank() && config.scopeExpansionEnabled
  {
    AllowedAt(config, t, i);
    forall path | path in t[i].paths ensures DeclaredBefore(t, i + 1, path) {
      PathOrigin(config, t, i, path);
      if path in t[i].expansion {
        assert DeclaredAt(t, i, path);
      } else {
        var j: nat :| j < i && DeclaredAt(t, j, path);
        assert j < i + 1 && DeclaredAt(t, j, path);
      }
    }
  }

  // ---------------------------------------------------------------- success

  /** The results on record for the current attempt were produced by it. */
  ghost predicate FromLastAttempt(t: Trace, n: nat, e: Event) {
    n <= |t| && exists j :: 0 <= j < n && t[j] == e && forall k :: j < k < n ==> !t[k].Attempted?
  }

  /** A result of the current attempt was just produced, or was there before and is still current. */
  lemma AttemptAt(config: RunConfig, t: Trace, i: nat)
    requires i < |t|
    ensures var a, a' := Before(config, t, i).results.attempt, Before(config, t, i + 1).results.attempt;
            && (a'.patch.Some? && t[i] != Diffed(a'.patch.value) ==> a'.patch == a.patch && !t[i].Attempted?)
            && (a'.verification.Some? && t[i] != Verified(a'.verification.value.0, a'.verification.value.1) ==>
                  a'.verification == a.verification && !t[i].Attempted?)
            && (a'.review.Some? && t[i] != Reviewed(a'.review.value.0, a'.review.value.1) ==>
                  a'.review == a.review && !t[i].Attempted?)
  {
    StepAt(config, t, i);
  }

  ghost function ReportOf(r: Report): Event {
    Reported(r.status, r.patch, r.verification, r.review, r.error)
  }

  lemma ReportAt(config: RunConfig, t: Trace, i: nat)
    requires i < |t|
    ensures var r, r' := Before(config, t, i).results.report, Before(config, t, i + 1).results.report;
            r'.Some? && t[i] != ReportOf(r'.value) ==> r' == r && !t[i].Attempted?
  {
    StepAt(config, t, i);
  }

  /** The report on record was filed since the last attempt began. */
  lemma {:induction false} ReportSource(config: RunConfig, t: Trace, n: nat)
    requires n <= |t|
    ensures var r := Before(config, t, n).results.report;
            r.Some? ==> FromLastAttempt(t, n, ReportOf(r.value))
  {
    if n > 0 {
      ReportAt(config, t, n - 1);
      ReportSource(config, t, n - 1);
      var r := Before(config, t, n).results.report;
      if r.Some? {
        Carry(t, n, ReportOf(r.value));
      }
    }
  }

  lemma {:induction false} AttemptSources(config: RunConfig, t: Trace, n: nat)
    requires n <= |t|
    ensures var a := Before(config, t, n).results.attempt;
            && (a.patch.Some? ==> FromLastAttempt(t, n, Diffed(a.patch.value)))
            && (a.verification.Some? ==> FromLastAttempt(t, n, Verified(a.verification.value.0, a.verification.value.1)))
            && (a.review.Some? ==> FromLastAttempt(t, n, Reviewed(a.review.value.0, a.review.value.1)))
  {
    if n > 0 {
      AttemptAt(config, t, n - 1);
      AttemptSources(config, t, n - 1);
      var a := Before(config, t, n).results.attempt;
      if a.patch.Some? {
        Carry(t, n, Diffed(a.patch.value));
      }
      if a.verification.Some? {
        Carry(t, n, Verified(a.verification.value.0, a.verification.value.1));
      }
      if a.review.Some? {
        Carry(t, n, Reviewed(a.review.value.0, a.review.value.1));
      }
    }
  }

  lemma Carry(t: Trace, n: nat, e: Event)
    requires 0 < n <= |t|
    ensures t[n - 1] == e ==> FromLastAttempt(t, n, e)
    ensures FromLastAttempt(t, n - 1, e) && !t[n - 1].Attempted? ==> FromLastAttempt(t, n, e)
  {
    if FromLastAttempt(t, n - 1, e) && !t[n - 1].Attempted? {
      var j :| 0 <= j < n - 1 && t[j] == e && forall k :: j < k < n - 1 ==> !t[k].Attempted?;
      assert t[j] == e && forall k :: j < k < n ==> !t[k].Attempted?;
    }
  }

  lemma {:induction false} DeliveryFlag(config: RunConfig, t: Trace, n: nat)
    requires n <= |t|
    ensures Before(config, t, n).gates.delivery ==>
              exists j :: 0 <= j < n && t[j].Consumed? && t[j].request.kind.DeliveryGate? && t[j].request.decision.Approve?
  {
    if n > 0 {
      StepAt(config, t, n - 1);
      DeliveryFlag(config, t, n - 1);
    }
  }

  /** A success report about attempt `a`, with its three results. */
  ghost function SuccessReport(a: Attempt): Event
    requires a.verification.Some? && a.review.Some?
  {
    Reported(Succeeded, a.patch, Some(a.verification.value.0), Some(a.review.value.0), None)
  }

  /**
   What success means: the last attempt passed verification and was accepted in review, a manual
   delivery gate was approved, and the report filed since that attempt names its three results.
   */
  lemma SuccessLaw(config: RunConfig, t: Trace, i: nat)
    requires Safe(config, t) && i < |t|
    requires t[i] == Moved(Succeeded) || (t[i].Reported? && t[i].status.Succeeded?)
    ensures var a := Before(config, t, i).results.attempt;
            && a.patch.Some? && a.verification.Some? && a.review.Some?
            && FromLastAttempt(t, i, Diffed(a.patch.value))
            && FromLastAttempt(t, i, Verified(a.verification.value.0, true))
            && FromLastAttempt(t, i, Reviewed(a.review.value.0, Accept))
            && (if t[i].Reported? then t[i] == SuccessReport(a) else FromLastAttempt(t, i, SuccessReport(a)))
    ensures StagesAt(config, config.riskLevel).delivery.Manual? ==>
      exists j :: 0 <= j < i && t[j].Consumed? && t[j].request.kind.DeliveryGate? && t[j].request.decision.Approve?
  {
    AllowedAt(config, t, i);
    AttemptSources(config, t, i);
    ReportSource(config, t, i);
    DeliveryFlag(config, t, i);
  }

  // ---------------------------------------------------------------- from execution to success

  lemma {:induction false} LastAttempt(config: RunConfig, t: Trace, n: nat) returns (a: nat)
    requires Safe(config, t) && n <= |t| && Before(config, t, n).counts.attempts > 0
    ensures a < n && t[a].Attempted? && forall k :: a < k < n ==> !t[k].Attempted?
  {
    StepAt(config, t, n - 1);
    if t[n - 1].Attempted? {
      a := n - 1;
    } else {
      a := LastAttempt(config, t, n - 1);
    }
  }

  /** Execution began with a move, and nothing was planned since. */
  lemma {:induction false} ExecutionStart(config: RunConfig, t: Trace, n: nat) returns (e: nat)
    requires Safe(config, t) && n <= |t| && Before(config, t, n).status.Executing?
    ensures e < n && t[e] == Moved(Executing) && forall k :: e < k < n ==> !t[k].Moved? && !t[k].Planned?
  {
    StepAt(config, t, n - 1);
    AllowedAt(config, t, n - 1);
    if t[n - 1].Moved? {
      e := n - 1;
    } else {
      e := ExecutionStart(config, t, n - 1);
    }
  }

  /** A status that a run passes from execution to success. */
  predicate Underway(status: RunStatus) {
    || status.Executing? || status.Verifying? || status.Reviewing? || status.WaitingDeliveryApproval?
    || status.Finalizing? || Terminal(status)
  }

  /** Nothing at `k` leads back to planning or into another execution. */
  ghost predicate Onward(t: Trace, k: nat) {
    k < |t| && t[k] != Moved(Executing) && t[k] != Moved(Planning) && !t[k].Planned?
  }

  /** What one event may do while an attempt is under way. */
  lemma SinceStep(config: RunConfig, t: Trace, k: nat)
    requires Safe(config, t) && k < |t| && !t[k].Attempted?
    ensures var s, s' := Before(config, t, k), Before(config, t, k + 1);
            && s'.counts.attempts == s.counts.attempts && s.counts.rounds <= s'.counts.rounds
            && (s.counts.attempts == s.counts.rounds + 1 && Underway(s.status) ==> Underway(s'.status) && Onward(t, k))
  {
    StepAt(config, t, k);
    AllowedAt(config, t, k);
  }

  lemma AttemptBegins(config: RunConfig, t: Trace, a: nat)
    requires Safe(config, t) && a < |t| && t[a].Attempted?
    ensures var s, s' := Before(config, t, a), Before(config, t, a + 1);
            && s.counts.attempts == s.counts.rounds == s'.counts.rounds && s'.counts.attempts == s.counts.attempts + 1
            && s'.status.Executing?
  {
    StepAt(config, t, a);
    AllowedAt(config, t, a);
  }

  /** While the attempt is still this round's, the run has gone neither back nor into another execution. */
  lemma {:induction false} SinceAttempt(config: RunConfig, t: Trace, a: nat, n: nat)
    requires Safe(config, t) && a < n <= |t| && t[a].Attempted? && forall k :: a < k < n ==> !t[k].Attempted?
    ensures var c, c' := Before(config, t, a).counts, Before(config, t, n).counts;
            && c.attempts == c.rounds && c'.attempts == c.attempts + 1 && c.rounds <= c'.rounds
            && (c'.rounds == c.rounds ==>
                  Underway(Before(config, t, n).status) && forall k :: a < k < n ==> Onward(t, k))
  {
    AttemptBegins(config, t, a);
    if a < n - 1 {
      SinceAttempt(config, t, a, n - 1);
      SinceStep(config, t, n - 1);
    }
  }

  /** What an attempt has produced stays until the next one. */
  lemma {:induction false} ResultsStay(config: RunConfig, t: Trace, i: nat, j: nat)
    requires i <= j <= |t| && forall k :: i <= k < j ==> !t[k].Attempted?
    ensures var a, a' := Before(config, t, i).results.attempt, Before(config, t, j).results.attempt;
            (a.patch.Some? ==> a'.patch.Some?) && (a.verification.Some? ==> a'.verification.Some?)
  {
    if i < j {
      ResultsStay(config, t, i, j - 1);
      StepAt(config, t, j - 1);
    }
  }

  /** The diff comes before its verification, and the verification before its review. */
  lemma ResultsInOrder(config: RunConfig, t: Trace, a: nat, d: nat, v: nat, r: nat, i: nat)
    requires Safe(config, t) && i <= |t| && a < d < i && a < v < i && a < r < i
    requires forall k :: a < k < i ==> !t[k].Attempted?
    requires t[d].Diffed? && t[v].Verified? && t[r].Reviewed?
    ensures d < v < r
  {
    AllowedAt(config, t, d);
    AllowedAt(config, t, v);
    AllowedAt(config, t, r);
    if v < d {
      ResultsStay(config, t, v, d);
    }
    if r < v {
      ResultsStay(config, t, r, v);
    }
  }

  /** The place of an event of the last attempt: after that attempt. */
  lemma PlaceOf(t: Trace, a: nat, n: nat, e: Event) returns (j: nat)
    requires a < n && FromLastAttempt(t, n, e) && t[a].Attempted? && !e.Attempted?
    ensures a < j < n <= |t| && t[j] == e
  {
    j :| 0 <= j < n && t[j] == e && forall k :: j < k < n ==> !t[k].Attempted?;
  }

  /** The last execution, attempt, diff, verification and review before a success. */
  datatype Passage = Passage(execution: nat, attempt: nat, diff: nat, verification: nat, review: nat)

  /** One execution, one attempt, and its results, in this order, with nothing going back in between. */
  ghost predicate Leads(t: Trace, c: Passage, i: nat) {
    && c.execution < c.attempt < c.diff < c.verification < c.review < i < |t|
    && t[c.execution] == Moved(Executing) && t[c.attempt].Attempted? && t[c.diff].Diffed?
    && t[c.verification].Verified? && t[c.verification].passed && t[c.review].Reviewed? && t[c.review].decision.Accept?
    && (forall k :: c.execution < k < c.attempt ==> !t[k].Moved?)
    && (forall k :: c.attempt < k < i ==> !t[k].Attempted?)
    && (forall k :: c.execution < k < i ==> Onward(t, k))
  }

  /** The attempt behind a success, and the execution it belongs to. */
  lemma SuccessAttempt(config: RunConfig, t: Trace, i: nat) returns (e: nat, a: nat)
    requires Safe(config, t) && i < |t|
    requires t[i] == Moved(Succeeded) || (t[i].Reported? && t[i].status.Succeeded?)
    ensures e < a < i && t[e] == Moved(Executing) && t[a].Attempted?
    ensures forall k :: e < k < a ==> !t[k].Moved?
    ensures forall k :: a < k < i ==> !t[k].Attempted?
    ensures forall k :: e < k < i ==> Onward(t, k)
  {
    AllowedAt(config, t, i);
    a := LastAttempt(config, t, i);
    SinceAttempt(config, t, a, i);
    AllowedAt(config, t, a);
    e := ExecutionStart(config, t, a);
  }

  lemma SuccessPassage(config: RunConfig, t: Trace, i: nat) returns (c: Passage)
    requires Safe(config, t) && i < |t|
    requires t[i] == Moved(Succeeded) || (t[i].Reported? && t[i].status.Succeeded?)
    ensures Leads(t, c, i)
    ensures var results := Before(config, t, i).results.attempt;
            && results.patch == Some(t[c.diff].ref) && results.verification == Some((t[c.verification].ref, true))
            && results.review == Some((t[c.review].ref, Accept))
  {
    var e, a := SuccessAttempt(config, t, i);
    var results := SuccessResults(config, t, i);
    var d := PlaceOf(t, a, i, Diffed(results.patch.value));
    var v := PlaceOf(t, a, i, Verified(results.verification.value.0, true));
    var r := PlaceOf(t, a, i, Reviewed(results.review.value.0, Accept));
    ResultsInOrder(config, t, a, d, v, r, i);
    c := Passage(e, a, d, v, r);
  }

  lemma SuccessResults(config: RunConfig, t: Trace, i: nat) returns (results: Attempt)
    requires Safe(config, t) && i < |t|
    requires t[i] == Moved(Succeeded) || (t[i].Reported? && t[i].status.Succeeded?)
    ensures results == Before(config, t, i).results.attempt
    ensures results.patch.Some? && FromLastAttempt(t, i, Diffed(results.patch.value))
    ensures results.verification.Some? && results.verification.value.1
    ensures FromLastAttempt(t, i, Verified(results.verification.value.0, true))
    ensures results.review.Some? && results.review.value.1.Accept? && FromLastAttempt(t, i, Reviewed(results.review.value.0, Accept))
  {
    results := Before(config, t, i).results.attempt;
    SuccessLaw(config, t, i);
    AllowedAt(config, t, i);
  }

  /** Approvals still count when nothing has been planned since. */
  lemma StillApproved(t: Trace, e: nat, i: nat, kind: ApprovalKind)
    requires e <= i <= |t| && ApprovedSincePlanning(t, e, kind) && forall k :: e <= k < i ==> t[k] != Moved(Planning)
    ensures ApprovedSincePlanning(t, i, kind)
  {
    var j :| && 0 <= j < e && t[j].Consumed? && t[j].request.kind == kind && t[j].request.decision.Approve?
             && forall k :: j < k < e ==> t[k] != Moved(Planning);
    assert forall k :: j < k < i ==> t[k] != Moved(Planning);
  }

  /**
   Delivery safety: what succeeds was executed once, under the current plan, and judged in that very
   execution; and every plan or execution stage that is manual at any risk the run has ever seen was
   approved for that plan.
   */
  lemma DeliveryLaw(config: RunConfig, t: Trace, i: nat, risk: RiskLevel) returns (c: Passage)
    requires Safe(config, t) && i < |t| && RiskSeen(config, t, i, risk)
    requires t[i] == Moved(Succeeded) || (t[i].Reported? && t[i].status.Succeeded?)
    ensures Leads(t, c, i)
    ensures StagesAt(config, risk).plan.Manual? ==> ApprovedSincePlanning(t, i, PlanGate)
    ensures StagesAt(config, risk).execution.Manual? ==> ApprovedSincePlanning(t, i, ExecutionGate)
  {
    c := SuccessPassage(config, t, i);
    var e := c.execution;
    assert RiskSeen(config, t, e, risk) by {
      if j :| 0 <= j < i && t[j].Planned? && t[j].risk == risk {
        assert e < j ==> Onward(t, j);
      }
    }
    GateLaw(config, t, e, risk);
    forall k | e <= k < i ensures t[k] != Moved(Planning) {
      assert e < k ==> Onward(t, k);
    }
    if StagesAt(config, risk).plan.Manual? {
      StillApproved(t, e, i, PlanGate);
    }
    if StagesAt(config, risk).execution.Manual? {
      StillApproved(t, e, i, ExecutionGate);
    }
  }
}
