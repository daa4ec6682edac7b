/** The run states and the transitions between them. */
module Transitions {

  datatype RunStatus =
    | Queued
    | Ingesting
    | WaitingRequirementsApproval
    | Baselining
    | Planning
    | WaitingPlanApproval
    | DesigningTests
    | WaitingExecutionApproval
    | WaitingTestApproval
    | Executing
    | Verifying
    | Reviewing
    | Replanning
    | WaitingDeliveryApproval
    | Finalizing
    | Succeeded
    | Rejected
    | Failed
    | Cancelled

  predicate Terminal(s: RunStatus) {
    s.Succeeded? || s.Rejected? || s.Failed? || s.Cancelled?
  }

  /** The forward edges; leaving early for `Finalizing` and ending a run are separate rules. */
  predicate ForwardEdge(current: RunStatus, next: RunStatus) {
    match current
    case Queued => next.Ingesting?
    case Ingesting => next.WaitingRequirementsApproval? || next.Baselining?
    case WaitingRequirementsApproval => next.Baselining?
    case Baselining => next.WaitingTestApproval? || next.Planning?
    case WaitingTestApproval => next.Planning? || next.WaitingExecutionApproval? || next.Executing?
    case Planning =>
      next.WaitingPlanApproval? || next.DesigningTests? || next.Executing? || next.WaitingExecutionApproval?
    case WaitingPlanApproval => next.DesigningTests? || next.Executing? || next.WaitingExecutionApproval?
    case DesigningTests => next.WaitingExecutionApproval? || next.WaitingTestApproval? || next.Executing?
    case WaitingExecutionApproval => next.Executing?
    case Executing => next.Verifying? || next.Replanning?
    case Replanning => next.Planning?
    case Verifying => next.Replanning? || next.Reviewing? || next.Executing?
    case Reviewing => next.Replanning? || next.WaitingDeliveryApproval? || next.Executing?
    case WaitingDeliveryApproval => next.Finalizing?
    case _ => false
  }

  /** `validate_transition` does not raise. */
  predicate ValidTransition(current: RunStatus, next: RunStatus) {
    if Terminal(current) then false
    else if next.Finalizing? then !current.Finalizing?
    else if current.Finalizing? then Terminal(next)
    else ForwardEdge(current, next)
  }

  /** The table read the other way: from where each status can be reached. */
  lemma ReachedFrom(current: RunStatus, next: RunStatus)
    ensures ValidTransition(current, next) <==>
              match next
              case Queued => false
              case Ingesting => current.Queued?
              case WaitingRequirementsApproval => current.Ingesting?
              case Baselining => current.Ingesting? || current.WaitingRequirementsApproval?
              case Planning => current.Baselining? || current.WaitingTestApproval? || current.Replanning?
              case WaitingPlanApproval => current.Planning?
              case DesigningTests => current.Planning? || current.WaitingPlanApproval?
              case WaitingTestApproval => current.Baselining? || current.DesigningTests?
              case WaitingExecutionApproval =>
                current.Planning? || current.WaitingPlanApproval? || current.DesigningTests? || current.WaitingTestApproval?
              case Executing =>
                || current.Planning? || current.WaitingPlanApproval? || current.DesigningTests?
                || current.WaitingTestApproval? || current.WaitingExecutionApproval? || current.Verifying? || current.Reviewing?
              case Verifying => current.Executing?
              case Reviewing => current.Verifying?
              case Replanning => current.Executing? || current.Verifying? || current.Reviewing?
              case WaitingDeliveryApproval => current.Reviewing?
              case Finalizing => !current.Finalizing? && !Terminal(current)
              case _ => current.Finalizing?
  {
  }

  ghost predicate Legal(path: seq<RunStatus>) {
    forall i, j :: 0 <= i && j == i + 1 && j < |path| ==> ValidTransition(path[i], path[j])
  }

  /** On a legal path a terminal status is the last one, and only `Finalizing` leads to it. */
  lemma TerminalIsLast(path: seq<RunStatus>, i: nat)
    requires Legal(path) && i < |path| && Terminal(path[i])
    ensures i == |path| - 1
    ensures i > 0 ==> path[i - 1].Finalizing?
  {
    var h, j := i - 1, i + 1;
    assert j < |path| ==> ValidTransition(path[i], path[j]);
    assert h >= 0 ==> ValidTransition(path[h], path[i]);
  }

  /** A path from `Queued` that repairs `rounds` times. */
  function Repairing(rounds: nat): (path: seq<RunStatus>)
    ensures |path| == 4 + 4 * rounds && path[0].Queued? && path[|path| - 1].Planning?
  {
    if rounds == 0 then [Queued, Ingesting, Baselining, Planning]
    else Repairing(rounds - 1) + [Executing, Verifying, Replanning, Planning]
  }

  lemma {:induction false} RepairingIsLegal(rounds: nat)
    ensures Legal(Repairing(rounds))
  {
    if rounds > 0 {
      RepairingIsLegal(rounds - 1);
      var before, path := Repairing(rounds - 1), Repairing(rounds);
      forall i, j | 0 <= i && j == i + 1 && j < |path| ensures ValidTransition(path[i], path[j]) {
        assert j < |before| ==> ValidTransition(before[i], before[j]);
      }
    }
  }

  /** The table alone bounds nothing: legal runs from `Queued` can be as long as one likes. */
  lemma TableBoundsNothing(n: nat)
    ensures exists path: seq<RunStatus> :: Legal(path) && |path| > n && path[0].Queued?
  {
    RepairingIsLegal(n);
    assert |Repairing(n)| > n;
  }
}

/** Approval updates: what may be decided, and when. */
module Updates {
  import opened Outcomes
  import opened Texts
  import opened Transitions

  datatype ApprovalKind = Requirements | PlanGate | ExecutionGate | TestGate | DeliveryGate

  datatype Decision = Approve | Reject

  datatype ApprovalRequest = ApprovalRequest(
    id: string, kind: ApprovalKind, decision: Decision, reason: string, criteria: Option<seq<string>>)

  /** The one status in which each kind of decision is expected. */
  function WaitStatus(kind: ApprovalKind): RunStatus {
    match kind
    case Requirements => WaitingRequirementsApproval
    case PlanGate => WaitingPlanApproval
    case ExecutionGate => WaitingExecutionApproval
    case TestGate => WaitingTestApproval
    case DeliveryGate => WaitingDeliveryApproval
  }

  /** `validate_approval` does not raise. */
  predicate ValidApproval(request: ApprovalRequest, status: RunStatus, processed: set<string>) {
    && request.id !in processed
    && status == WaitStatus(request.kind)
    && (request.decision.Reject? ==> !Blank(request.reason))
    && (request.kind.Requirements? && request.decision.Approve? ==>
          request.criteria.Some? && request.criteria.value != [])
    && (request.kind.TestGate? && request.decision.Approve? ==> !Blank(request.reason))
  }
}
