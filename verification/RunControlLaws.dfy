/** When the status `STARTED` of a key survives, over every continuation of every run. */
module RunControlLaws {
  import opened Fates
  import opened Outcomes
  import opened Ledger
  import opened LedgerLaws
  import opened RunControl

  ghost function RunFrom(names: Names, s: State, steps: seq<Step>): State {
    if steps == [] then s else Next(names, RunFrom(names, s, steps[..|steps| - 1]), steps[|steps| - 1])
  }

  lemma {:induction false} RunFromReachable(names: Names, s: State, steps: seq<Step>)
    requires Reachable(names, s)
    ensures Reachable(names, RunFrom(names, s, steps))
  {
    if steps != [] {
      RunFromReachable(names, s, steps[..|steps| - 1]);
      NextReachable(names, RunFrom(names, s, steps[..|steps| - 1]), steps[|steps| - 1]);
    }
  }

  predicate IsStarted(s: State, slot: Slot) {
    slot in s.rows && s.rows[slot].status.Started?
  }

  /** A caller of the key that had failed carries out its `FAILED`. */
  predicate Overwrites(s: State, step: Step, slot: Slot) {
    && step.Await? && step.caller in s.callers && step.fate.Carried()
    && s.callers[step.caller].slot == slot && s.callers[step.caller].phase.Failing?
  }

  /** In one step `STARTED` is lost exactly when such a `FAILED` is written. */
  lemma StartedSurvivesExactly(names: Names, s: State, step: Step, slot: Slot)
    requires names.Injective() && Reachable(names, s) && IsStarted(s, slot)
    ensures IsStarted(Next(names, s, step), slot) <==> !Overwrites(s, step, slot)
  {
    if step.Await? && step.caller in s.callers {
      RowAfterAwait(names, s, step.caller, step.fate, slot);
    }
  }

  lemma RowAfterAwait(names: Names, s: State, i: nat, fate: Fate, slot: Slot)
    requires i in s.callers && IsStarted(s, slot)
    ensures IsStarted(AwaitStep(names, s, i, fate), slot) <==> !Overwrites(s, Await(i, fate), slot)
  {
  }

  /** A caller turns to writing `FAILED` exactly when making the budget or starting the workflow raised. */
  lemma FailingEnteredExactly(names: Names, s: State, step: Step, i: nat)
    requires names.Injective() && Reachable(names, s) && i in s.callers && !s.callers[i].phase.Failing?
    ensures i in Next(names, s, step).callers
    ensures Next(names, s, step).callers[i].phase.Failing? <==>
              && step.Await? && step.caller == i && step.fate.Lost?
              && (s.callers[i].phase.Budgeting? || s.callers[i].phase.Starting?)
  {
    LimitsArePositive(names, s, i);
  }

  lemma LimitsArePositive(names: Names, s: State, i: nat)
    requires names.Injective() && Reachable(names, s) && i in s.callers
    ensures s.callers[i].request.maxCost > 0 && s.callers[i].request.maxCalls > 0
  {
    ReachableInv(names, s);
    assert CallerOkAt(names, s, i);
  }

  /** Step `k` of a continuation writes `FAILED` over the key. */
  ghost predicate OverwrittenAt(names: Names, s: State, steps: seq<Step>, slot: Slot, k: nat) {
    k < |steps| && Overwrites(RunFrom(names, s, steps[..k]), steps[k], slot)
  }

  ghost predicate StartedAt(names: Names, s: State, steps: seq<Step>, slot: Slot, n: nat) {
    n <= |steps| && IsStarted(RunFrom(names, s, steps[..n]), slot)
  }

  /** The key reads `STARTED` all along a continuation. */
  ghost predicate StaysStarted(names: Names, s: State, steps: seq<Step>, slot: Slot) {
    forall n {:trigger StartedAt(names, s, steps, slot, n)} :: 0 <= n <= |steps| ==> StartedAt(names, s, steps, slot, n)
  }

  lemma StartedAtPrefix(names: Names, s: State, steps: seq<Step>, slot: Slot, m: nat, n: nat)
    requires n <= m <= |steps|
    ensures StartedAt(names, s, steps[..m], slot, n) <==> StartedAt(names, s, steps, slot, n)
  {
    assert steps[..m][..n] == steps[..n];
  }

  lemma StaysPrefix(names: Names, s: State, steps: seq<Step>, slot: Slot)
    requires steps != []
    ensures StaysStarted(names, s, steps, slot) <==>
              StaysStarted(names, s, steps[..|steps| - 1], slot) && IsStarted(RunFrom(names, s, steps), slot)
  {
    var m := |steps| - 1;
    assert StartedAt(names, s, steps, slot, |steps|) <==> IsStarted(RunFrom(names, s, steps), slot) by {
      assert steps[..|steps|] == steps;
    }
    forall n | 0 <= n <= m
      ensures StartedAt(names, s, steps[..m], slot, n) <==> StartedAt(names, s, steps, slot, n)
    {
      StartedAtPrefix(names, s, steps, slot, m, n);
    }
  }

  lemma OverwrittenPrefix(names: Names, s: State, steps: seq<Step>, slot: Slot)
    requires steps != []
    ensures var n := |steps| - 1;
            (exists k: nat :: OverwrittenAt(names, s, steps, slot, k)) <==>
              (exists k: nat :: OverwrittenAt(names, s, steps[..n], slot, k))
              || Overwrites(RunFrom(names, s, steps[..n]), steps[n], slot)
  {
    var n := |steps| - 1;
    if k: nat :| OverwrittenAt(names, s, steps, slot, k) {
      if k < n {
        assert steps[..n][..k] == steps[..k];
        assert OverwrittenAt(names, s, steps[..n], slot, k);
      }
    }
    if k: nat :| OverwrittenAt(names, s, steps[..n], slot, k) {
      assert steps[..n][..k] == steps[..k];
      assert OverwrittenAt(names, s, steps, slot, k);
    }
    assert Overwrites(RunFrom(names, s, steps[..n]), steps[n], slot) <==> OverwrittenAt(names, s, steps, slot, n);
  }

  /**
   Over every continuation: a key that reads `STARTED` goes on doing so if and only if no caller
   of it that had failed gets its `FAILED` through.
   */
  lemma {:induction false} StartedStaysExactly(names: Names, s: State, steps: seq<Step>, slot: Slot)
    requires names.Injective() && Reachable(names, s) && IsStarted(s, slot)
    ensures StaysStarted(names, s, steps, slot) <==> !exists k: nat :: OverwrittenAt(names, s, steps, slot, k)
  {
    if steps == [] {
      assert steps[..0] == [];
    } else {
      var n := |steps| - 1;
      var before := RunFrom(names, s, steps[..n]);
      StartedStaysExactly(names, s, steps[..n], slot);
      StaysPrefix(names, s, steps, slot);
      OverwrittenPrefix(names, s, steps, slot);
      RunFromReachable(names, s, steps[..n]);
      if StaysStarted(names, s, steps[..n], slot) {
        assert StartedAt(names, s, steps[..n], slot, n) && steps[..n][..n] == steps[..n];
        StartedSurvivesExactly(names, before, steps[n], slot);
      }
    }
  }

  /**
   What reading the row of a key leads to: another request than the one it is bound to is a
   conflict; the same request is answered with the run if that was started, and carried on if not.
   */
  lemma ReadDecides(names: Names, s: State, i: nat, bound: Request)
    requires names.Injective() && Reachable(names, s) && i in s.callers && s.callers[i].phase.Selecting?
    requires s.callers[i].slot in s.rows && s.rows[s.callers[i].slot].hash == names.hashOf(bound)
    ensures var c, s' := s.callers[i], Next(names, s, Await(i, Replied));
            && s' == s.(callers := s'.callers) && i in s'.callers
            && s'.callers[i].phase ==
                 (if c.request != bound then Done(Conflict)
                  else if s.rows[c.slot].status.Started? then Done(Existing(names.runOf(c.slot)))
                  else Storing)
  {
    ReachableInv(names, s);
    assert RowOk(names, s, s.callers[i].slot);
  }

  /** Inserting binds a free key to this very request, and leaves a bound one alone. */
  lemma InsertDecides(names: Names, s: State, i: nat)
    requires names.Injective() && Reachable(names, s) && i in s.callers && s.callers[i].phase.Inserting?
    ensures var c, s' := s.callers[i], Next(names, s, Await(i, Replied));
            && i in s'.callers && s'.callers[i].phase.Selecting? && c.slot in s'.rows
            && s'.rows == (if c.slot in s.rows then s.rows
                           else s.rows[c.slot := Row(names.hashOf(c.request), names.runOf(c.slot), Pending, None)])
  {
  }

  /** What an answered await writes, and where it leaves its caller, once the key is bound. */
  lemma AnswersDecide(names: Names, s: State, i: nat)
    requires names.Injective() && Reachable(names, s) && i in s.callers
    ensures var c, s' := s.callers[i], Next(names, s, Await(i, Replied));
            var stored, id := Artifact(c.slot.tenant, names.runOf(c.slot), c.request), (c.slot.tenant, names.runOf(c.slot));
            i in s'.callers &&
            match c.phase
            case Storing => s'.artifacts == s.artifacts + {stored} && s'.rows == s.rows && s'.callers[i].phase.Budgeting?
            case Budgeting =>
              && names.runOf(c.slot) in s'.tables.budgets && s'.tables.calls == s.tables.calls && s'.rows == s.rows
              && (names.runOf(c.slot) !in s.tables.budgets ==>
                    s'.tables.budgets == s.tables.budgets[names.runOf(c.slot) :=
                      Budget(c.slot.tenant, c.request.maxCost, c.request.maxCalls, 0, 0, 0, 0, 1)])
              && (names.runOf(c.slot) in s.tables.budgets ==> s'.tables == s.tables)
              && s'.callers[i].phase.Starting?
            case Starting =>
              && id in s'.workflows && (id !in s.workflows ==> s'.workflows == s.workflows[id := stored] && s'.started == s.started + [id])
              && (id in s.workflows ==> s'.workflows == s.workflows && s'.started == s.started)
              && s'.rows == s.rows && s'.callers[i].phase.Confirming?
            case Confirming =>
              && s'.rows == s.rows[c.slot := Row(names.hashOf(c.request), names.runOf(c.slot), Started, Some(stored))]
              && s'.callers[i].phase == Done(Created(names.runOf(c.slot)))
            case Failing =>
              && s'.rows == s.rows[c.slot := Row(names.hashOf(c.request), names.runOf(c.slot), RowStatus.Failed, Some(stored))]
              && s'.callers[i].phase == Done(Unavailable)
            case Done(reply) => s' == s
            case _ => true
  {
    ReachableInv(names, s);
    assert CallerOkAt(names, s, i);
    if s.callers[i].slot in s.rows {
      assert RowOk(names, s, s.callers[i].slot);
    }
    if s.callers[i].phase.Done? {
      assert s.callers[i := s.callers[i]] == s.callers;
    }
  }

  /** An await that does not answer ends its caller with an exception, unless it has a handler. */
  lemma UnansweredAwaits(names: Names, s: State, i: nat, fate: Fate)
    requires i in s.callers && !fate.Replied? && !s.callers[i].phase.Done?
    ensures var phase := Next(names, s, Await(i, fate)).callers[i].phase;
            phase == if fate.Lost? && (s.callers[i].phase.Budgeting? || s.callers[i].phase.Starting?) then Failing else Done(Raised)
  {
  }
}
