/** When a call stays reserved although its caller is done, and what others can do to a call. */
module GatewayLaws {
  import opened Fates
  import opened Outcomes
  import opened Ledger
  import opened LedgerLaws
  import opened Gateway

  ghost function RunFrom(s: State, steps: seq<Step>): State {
    if steps == [] then s else Next(RunFrom(s, steps[..|steps| - 1]), steps[|steps| - 1])
  }

  lemma NextReachable(s: State, step: Step)
    requires Reachable(s)
    ensures Reachable(Next(s, step))
  {
    var steps :| s == RunSteps(steps);
    assert (steps + [step])[..|steps|] == steps;
    assert Next(s, step) == RunSteps(steps + [step]);
  }

  lemma {:induction false} RunFromReachable(s: State, steps: seq<Step>)
    requires Reachable(s)
    ensures Reachable(RunFrom(s, steps))
  {
    if steps != [] {
      RunFromReachable(s, steps[..|steps| - 1]);
      NextReachable(RunFrom(s, steps[..|steps| - 1]), steps[|steps| - 1]);
    }
  }

  // ---------------------------------------------------------------- a call and its caller

  /** The row of the call that caller `i` reserved. */
  function OwnCall(s: State, i: nat): Option<Call> {
    if i in s.callers && Owns(s, i) && s.callers[i].context.call in s.tables.calls
    then Some(s.tables.calls[s.callers[i].context.call]) else None
  }

  /** Whose step it is, if it is a caller's. */
  function Stepper(step: Step): Option<nat> {
    match step
    case CreateBudget(_, _, _, _) => None
    case Arrive(i, _, _) => Some(i)
    case AwaitStore(i, _) => Some(i)
    case Invoke(i) => Some(i)
    case Answered(i, _) => Some(i)
    case Die(i) => Some(i)
  }

  /** A transaction on one call leaves the rows of the others. */
  lemma AwaitedIsLocal(t: Tables, c: Caller, fate: Fate, id: Id)
    requires id in t.calls && (id == c.context.call ==> c.phase.Done?)
    ensures var t' := Awaited(t, c, fate).0;
            id in t'.calls && t'.calls[id] == t.calls[id]
  {
  }

  lemma ReserveIsLocal(t: Tables, c: Context, key: string, id: Id)
    requires id in t.calls
    ensures var t' := ReserveTx(t, c, key).0;
            id in t'.calls && t'.calls[id] == t.calls[id] && (t'.calls != t.calls ==> c.call != id)
  {
  }

  /** A store step of another caller does not touch a call that is reserved for someone. */
  lemma OthersKeepCall(s: State, i: nat, j: nat, fate: Fate)
    requires Reachable(s) && i in s.callers && j in s.callers && i != j && Owns(s, j)
    ensures var s' := StoreStep(s, i, fate);
            j in s'.callers && s'.callers[j] == s.callers[j] && OwnCall(s', j) == OwnCall(s, j) && OwnCall(s, j).Some?
  {
    ReachableCaller(s, i);
    ReachableCaller(s, j);
    var c, id := s.callers[i], s.callers[j].context.call;
    assert c.context.call == id ==> Outside(c.phase);
    if c.phase.Reserving? {
      ReserveIsLocal(s.tables, c.context, c.key, id);
    } else {
      AwaitedIsLocal(s.tables, c, fate, id);
    }
  }

  /** Only its own caller ever changes the row of a call. */
  lemma OnlyTheOwnerMoves(s: State, step: Step, j: nat)
    requires Reachable(s) && j in s.callers && Owns(s, j) && Stepper(step) != Some(j)
    ensures j in Next(s, step).callers && Next(s, step).callers[j] == s.callers[j]
    ensures OwnCall(Next(s, step), j) == OwnCall(s, j) && OwnCall(s, j).Some?
  {
    ReachableCaller(s, j);
    if step.AwaitStore? && step.caller in s.callers {
      OthersKeepCall(s, step.caller, j, step.fate);
    }
  }

  /** A caller that is done never moves again, and so the row of its call never changes. */
  lemma DoneIsForGood(s: State, step: Step, j: nat)
    requires Reachable(s) && j in s.callers && Owns(s, j) && s.callers[j].phase.Done?
    ensures j in Next(s, step).callers && Next(s, step).callers[j] == s.callers[j]
    ensures OwnCall(Next(s, step), j) == OwnCall(s, j) && OwnCall(s, j).Some?
  {
    ReachableCaller(s, j);
    if Stepper(step) != Some(j) {
      OnlyTheOwnerMoves(s, step, j);
    } else {
      assert Next(s, step).tables == s.tables && Next(s, step).owner == s.owner;
      assert s.callers[j := s.callers[j].(phase := s.callers[j].phase)] == s.callers;
    }
  }

  // ---------------------------------------------------------------- stranded calls

  /** The caller is done, and the call it reserved is still `Reserved`. */
  ghost predicate Stranded(s: State, i: nat) {
    i in s.callers && s.callers[i].phase.Done? && OwnCall(s, i).Some? && OwnCall(s, i).value.status.Reserved?
  }

  /** The phases of a caller at work on a call that it has reserved and not yet resolved. */
  predicate AtWork(phase: Phase) {
    phase.Calling? || phase.Waiting? || phase.Settling? || phase.Marking? || phase.Releasing?
  }

  ghost predicate StillReserved(s: State, i: nat) {
    OwnCall(s, i).Some? && OwnCall(s, i).value.status.Reserved?
  }

  /**
   The awaits that strand a call: a reservation that was made but not reported; a settlement cut
   off by a cancellation before it took effect, or that could not take effect; and a marking or a
   release that was not carried out.
   */
  ghost predicate StrandsAtStore(s: State, i: nat, fate: Fate)
    requires i in s.callers
  {
    var c := s.callers[i];
    match c.phase
    case Reserving => !fate.Replied? && fate.Carried() && Grantable(s.tables, c.context, c.key)
    case Settling(usage, _) => fate.Interrupted? && (!fate.committed || usage.cost > c.context.reservation)
    case Marking(_) => !fate.Carried() && StillReserved(s, i)
    case Releasing => !fate.Carried()
    case _ => false
  }

  /** The steps that strand a call: those awaits, and the death of a caller at work on a reserved call. */
  ghost predicate Strands(s: State, i: nat, step: Step) {
    && Stepper(step) == Some(i) && i in s.callers
    && match step
       case AwaitStore(_, fate) => StrandsAtStore(s, i, fate)
       case Die(_) => AtWork(s.callers[i].phase) && (s.callers[i].phase.Marking? ==> StillReserved(s, i))
       case _ => false
  }

  lemma ReserveStrands(s: State, i: nat, fate: Fate)
    requires Reachable(s) && i in s.callers && s.callers[i].phase.Reserving?
    ensures Stranded(ReserveStep(s, i, fate), i) <==> Strands(s, i, AwaitStore(i, fate))
  {
    var c := s.callers[i];
    ReachableCaller(s, i);
    GrantedInReach(s, i);
    if Grantable(s.tables, c.context, c.key) {
      assert c.context.call in Inserted(s.tables, c.context, c.key).calls;
    }
  }

  lemma GrantedInReach(s: State, i: nat)
    requires Reachable(s) && i in s.callers
    ensures var c := s.callers[i];
            var tx := ReserveTx(s.tables, c.context, c.key);
            && (tx.1 == Ok(Reservation(c.context.call, Reserved, true)) <==> Grantable(s.tables, c.context, c.key))
            && tx.0 == if Grantable(s.tables, c.context, c.key) then Inserted(s.tables, c.context, c.key) else s.tables
  {
    ReachableInv(s);
    GrantedExactly(s.tables, s.callers[i].context, s.callers[i].key);
  }

  lemma SettleStrands(s: State, i: nat, fate: Fate)
    requires Reachable(s) && i in s.callers && s.callers[i].phase.Settling?
    ensures Stranded(StoreStep(s, i, fate), i) <==> Strands(s, i, AwaitStore(i, fate))
  {
    var c := s.callers[i];
    ReachableCaller(s, i);
    ReachableInv(s);
    SettleKeeps(s.tables, c.context.call, c.phase.usage);
    SettleLeaves(s.tables, c.context.call, c.phase.usage);
  }

  /** What a settlement leaves in the row. */
  lemma SettleLeaves(t: Tables, call: Id, usage: Usage)
    requires call in t.calls && t.calls[call].status.Reserved?
    ensures var (t', r) := SettleTx(t, call, usage);
            call in t'.calls && (t'.calls[call].status.Reserved? <==> r.Err?)
  {
  }

  lemma MarkStrands(s: State, i: nat, fate: Fate)
    requires Reachable(s) && i in s.callers && s.callers[i].phase.Marking?
    ensures Stranded(StoreStep(s, i, fate), i) <==> Strands(s, i, AwaitStore(i, fate))
  {
    ReachableCaller(s, i);
  }

  lemma ReleaseStrands(s: State, i: nat, fate: Fate)
    requires Reachable(s) && i in s.callers && s.callers[i].phase.Releasing?
    ensures Stranded(StoreStep(s, i, fate), i) <==> Strands(s, i, AwaitStore(i, fate))
  {
    ReachableCaller(s, i);
    ReachableInv(s);
    ReleaseKeeps(s.tables, s.callers[i].context.call);
  }

  lemma DeathStrands(s: State, i: nat)
    requires Reachable(s) && i in s.callers
    requires !Stranded(s, i)
    ensures Stranded(Next(s, Die(i)), i) <==> Strands(s, i, Die(i))
  {
    ReachableCaller(s, i);
  }

  /** Exactly those steps strand a call; no other step of anyone does. */
  lemma StrandsExactly(s: State, i: nat, step: Step)
    requires Reachable(s) && !Stranded(s, i)
    ensures Stranded(Next(s, step), i) <==> Strands(s, i, step)
  {
    if i in s.callers {
      ReachableCaller(s, i);
    }
    if i in s.callers && Stepper(step) != Some(i) && Owns(s, i) {
      OnlyTheOwnerMoves(s, step, i);
    } else if i in s.callers && Stepper(step) != Some(i) {
      OthersGiveNothing(s, step, i);
    } else if i in s.callers && step.AwaitStore? {
      match s.callers[i].phase
      case Reserving => ReserveStrands(s, i, step.fate);
      case Settling(_, _) => SettleStrands(s, i, step.fate);
      case Marking(_) => MarkStrands(s, i, step.fate);
      case Releasing => ReleaseStrands(s, i, step.fate);
      case _ => assert Next(s, step) == s;
    } else if i in s.callers && step.Die? {
      DeathStrands(s, i);
    }
  }

  /** Nobody else's step gives a caller a reservation. */
  lemma OthersGiveNothing(s: State, step: Step, i: nat)
    requires Reachable(s) && i in s.callers && !Owns(s, i) && Stepper(step) != Some(i)
    ensures i in Next(s, step).callers && !Owns(Next(s, step), i)
  {
  }

  /** A stranded call stays so, whatever anyone does afterwards: it is reserved for good. */
  lemma {:induction false} StrandedForGood(s: State, steps: seq<Step>, i: nat)
    requires Reachable(s) && Stranded(s, i)
    ensures Stranded(RunFrom(s, steps), i) && OwnCall(RunFrom(s, steps), i) == OwnCall(s, i)
  {
    if steps != [] {
      var before := steps[..|steps| - 1];
      StrandedForGood(s, before, i);
      RunFromReachable(s, before);
      DoneIsForGood(RunFrom(s, before), steps[|steps| - 1], i);
    }
  }

  /** Step `k` of a run strands the call of caller `i`. */
  ghost predicate StrandedAt(steps: seq<Step>, i: nat, k: nat) {
    k < |steps| && Strands(RunSteps(steps[..k]), i, steps[k])
  }

  lemma StrandedAtPrefix(steps: seq<Step>, i: nat, n: nat, k: nat)
    requires k < n <= |steps|
    ensures StrandedAt(steps[..n], i, k) <==> StrandedAt(steps, i, k)
  {
    assert steps[..n][..k] == steps[..k];
  }

  /** One step more: stranded before, or by this very step. */
  lemma StrandedOrNow(s: State, i: nat, step: Step)
    requires Reachable(s)
    ensures Stranded(Next(s, step), i) <==> Stranded(s, i) || Strands(s, i, step)
  {
    if Stranded(s, i) {
      DoneIsForGood(s, step, i);
    } else {
      StrandsExactly(s, i, step);
    }
  }

  /** Over whole runs: a caller's call ends stranded if and only if one of those steps happened. */
  lemma {:induction false} StrandedRuns(steps: seq<Step>, i: nat)
    ensures Stranded(RunSteps(steps), i) <==> exists k: nat :: StrandedAt(steps, i, k)
  {
    if steps != [] {
      var n := |steps| - 1;
      var s := RunSteps(steps[..n]);
      StrandedRuns(steps[..n], i);
      assert Reachable(s) && RunSteps(steps) == Next(s, steps[n]);
      StrandedOrNow(s, i, steps[n]);
      SomeStep(steps, i, n);
    }
  }

  lemma SomeStep(steps: seq<Step>, i: nat, n: nat)
    requires |steps| == n + 1
    ensures (exists k: nat :: StrandedAt(steps, i, k)) <==>
              (exists k: nat :: StrandedAt(steps[..n], i, k)) || Strands(RunSteps(steps[..n]), i, steps[n])
  {
    if k: nat :| StrandedAt(steps, i, k) {
      if k < n {
        StrandedAtPrefix(steps, i, n, k);
      }
    }
    if k: nat :| StrandedAt(steps[..n], i, k) {
      StrandedAtPrefix(steps, i, n, k);
    }
    assert Strands(RunSteps(steps[..n]), i, steps[n]) <==> StrandedAt(steps, i, n);
  }

  /**
   Every reserved call of every state belongs to a caller that is alive and at work on it, or is
   stranded: its caller was cut off or died at one of the steps above.
   */
  lemma ReservedExactly(s: State, id: Id)
    requires Reachable(s) && id in s.tables.calls
    ensures id in s.owner && s.owner[id] in s.callers
    ensures s.tables.calls[id].status.Reserved? <==>
              || Stranded(s, s.owner[id])
              || var phase := s.callers[s.owner[id]].phase;
                 AtWork(phase) && (phase.Marking? ==> !SettledUnheard(phase.cause, s.tables.calls[id]))
  {
    ReachableInv(s);
    assert id in s.owner && OwnerTied(s, id);
    ReachableCaller(s, s.owner[id]);
  }

  const ONE_CALL := Context("call", "tenant", "run", 5)
  const ONE_USAGE := Usage(1, 1, 3)
  const BEFORE_SETTLING := [
    CreateBudget("run", "tenant", 10, 1), Arrive(0, ONE_CALL, "key"), AwaitStore(0, Replied),
    Invoke(0), Answered(0, Completed(ONE_USAGE))]

  lemma ReachesSettling()
    ensures var s := RunSteps(BEFORE_SETTLING);
            && s.callers == map[0 := Caller(ONE_CALL, "key", Settling(ONE_USAGE, true))]
            && s.tables.calls == map["call" := Call("key", "tenant", "run", Reserved, 5, None)] && s.owner == map["call" := 0]
  {
    var steps := BEFORE_SETTLING;
    assert steps[..4][..3] == steps[..3] && steps[..3][..2] == steps[..2] && steps[..2][..1] == steps[..1];
    assert RunSteps(steps[..1]) == Next(START, steps[0]);
    var s2 := RunSteps(steps[..2]);
    assert s2.tables == Tables(map["run" := Budget("tenant", 10, 1, 0, 0, 0, 0, 1)], map[]);
    assert s2.callers == map[0 := Caller(ONE_CALL, "key", Reserving)];
    assert RunSteps(steps[..3]) == ReserveStep(s2, 0, Replied);
    assert ReserveTx(s2.tables, ONE_CALL, "key").0 == Inserted(s2.tables, ONE_CALL, "key");
    assert RunSteps(steps[..4]).callers == map[0 := Caller(ONE_CALL, "key", Waiting)];
  }

  /** A run in which a cancelled settlement strands a call, whatever happens afterwards. */
  lemma CancelledSettlementStaysReserved(after: seq<Step>)
    ensures var s := RunSteps(BEFORE_SETTLING + [AwaitStore(0, Interrupted(false))]);
            Reachable(s) && Stranded(RunFrom(s, after), 0)
  {
    ReachesSettling();
    var steps := BEFORE_SETTLING + [AwaitStore(0, Interrupted(false))];
    assert steps[..5] == BEFORE_SETTLING;
    assert Strands(RunSteps(BEFORE_SETTLING), 0, steps[5]);
    StrandedOrNow(RunSteps(BEFORE_SETTLING), 0, steps[5]);
    StrandedForGood(RunSteps(steps), after, 0);
  }

  /** So does a failed one, when the marking that should follow is lost as well. */
  lemma FailedSettlementStaysReserved(after: seq<Step>)
    ensures var s := RunSteps(BEFORE_SETTLING + [AwaitStore(0, Lost(false)), AwaitStore(0, Lost(false))]);
            Reachable(s) && Stranded(RunFrom(s, after), 0)
  {
    ReachesSettling();
    var failed := BEFORE_SETTLING + [AwaitStore(0, Lost(false))];
    var steps := BEFORE_SETTLING + [AwaitStore(0, Lost(false)), AwaitStore(0, Lost(false))];
    assert failed[..5] == BEFORE_SETTLING && steps[..6] == failed;
    var s := RunSteps(failed);
    assert s.callers == map[0 := Caller(ONE_CALL, "key", Marking(NotSettled(ONE_USAGE)))];
    assert Strands(s, 0, steps[6]);
    StrandedOrNow(s, 0, steps[6]);
    StrandedForGood(RunSteps(steps), after, 0);
  }

  /** So does the death of any caller that is about to call the provider, or awaits it. */
  lemma DeadCallerStrandsItsCall(s: State, i: nat, after: seq<Step>)
    requires Reachable(s) && i in s.callers && (s.callers[i].phase.Calling? || s.callers[i].phase.Waiting?)
    ensures Stranded(RunFrom(Next(s, Die(i)), after), i)
  {
    StrandedOrNow(s, i, Die(i));
    NextReachable(s, Die(i));
    StrandedForGood(Next(s, Die(i)), after, i);
  }

  // ---------------------------------------------------------------- over-cost settlements

  lemma OverCostIsRefused(t: Tables, id: Id, usage: Usage)
    requires id in t.calls && usage.cost > t.calls[id].reserved
    ensures SettleTx(t, id, usage).0 == t && SettleTx(t, id, usage).1.Err?
  {
  }

  /** The steps are of other callers, or create budgets. */
  ghost predicate ByOthers(steps: seq<Step>, i: nat) {
    forall k :: 0 <= k < |steps| ==> Stepper(steps[k]) != Some(i)
  }

  lemma {:induction false} OthersLeave(s: State, steps: seq<Step>, i: nat)
    requires Reachable(s) && i in s.callers && Owns(s, i) && ByOthers(steps, i)
    ensures var s' := RunFrom(s, steps);
            i in s'.callers && s'.callers[i] == s.callers[i] && OwnCall(s', i) == OwnCall(s, i) && OwnCall(s, i).Some?
  {
    ReachableCaller(s, i);
    if steps != [] {
      var before := steps[..|steps| - 1];
      OthersLeave(s, before, i);
      RunFromReachable(s, before);
      OnlyTheOwnerMoves(RunFrom(s, before), steps[|steps| - 1], i);
    }
  }

  /** The first of the two: an over-cost settlement changes no table. */
  lemma OverCostIsToBeMarked(s: State, i: nat, usage: Usage, valid: bool)
    requires Reachable(s) && i in s.callers && s.callers[i].phase == Settling(usage, valid)
    requires usage.cost > s.callers[i].context.reservation
    ensures var s1 := Next(s, AwaitStore(i, Replied));
            && s1.tables == s.tables && s1.owner == s.owner
            && s1.callers == s.callers[i := s.callers[i].(phase := Marking(NotSettled(usage)))]
  {
    ReachableCaller(s, i);
    OverCostIsRefused(s.tables, s.callers[i].context.call, usage);
  }

  /**
   A response that cost more than was reserved ends as `Unknown` and keeps its reservation, whatever
   the other callers do between the refused settlement and the marking.
   */
  lemma OverCostKeepsReservation(s: State, i: nat, usage: Usage, valid: bool, others: seq<Step>)
    requires Reachable(s) && i in s.callers && s.callers[i].phase == Settling(usage, valid)
    requires usage.cost > s.callers[i].context.reservation && ByOthers(others, i)
    ensures var s1 := Next(s, AwaitStore(i, Replied));
            var s2 := RunFrom(s1, others);
            var s3 := Next(s2, AwaitStore(i, Replied));
            && s1.tables == s.tables && s3.tables.budgets == s2.tables.budgets
            && i in s3.callers && s3.callers[i].phase == Done(RaisedUnknown(NotSettled(usage)))
            && OwnCall(s, i).Some? && OwnCall(s3, i) == Some(OwnCall(s, i).value.(status := Unknown))
  {
    var s1 := Next(s, AwaitStore(i, Replied));
    ReachableCaller(s, i);
    OverCostIsToBeMarked(s, i, usage, valid);
    NextReachable(s, AwaitStore(i, Replied));
    OthersLeave(s1, others, i);
    MarkedUnknown(RunFrom(s1, others), i, NotSettled(usage));
  }

  lemma MarkedUnknown(s: State, i: nat, cause: Cause)
    requires i in s.callers && s.callers[i].phase == Marking(cause)
    requires OwnCall(s, i).Some? && OwnCall(s, i).value.status.Reserved?
    ensures var s' := Next(s, AwaitStore(i, Replied));
            && s'.tables.budgets == s.tables.budgets
            && i in s'.callers && s'.callers[i].phase == Done(RaisedUnknown(cause))
            && OwnCall(s', i) == Some(OwnCall(s, i).value.(status := Unknown))
  {
  }

  // ---------------------------------------------------------------- from the answer to the ledger

  /** What the row of a call ends as, given what the provider did. */
  function FinalRow(call: Call, a: Answer): Call
  {
    match a
    case CallCancelled => call.(status := Unknown)
    case CompletionUnknown => call.(status := Unknown)
    case Failed => call.(status := Released)
    case Completed(usage) => if usage.cost <= call.reserved then call.(status := Settled, usage := Some(usage)) else call.(status := Unknown)
    case OutputInvalid(usage) => if usage.cost <= call.reserved then call.(status := Settled, usage := Some(usage)) else call.(status := Unknown)
  }

  /** What the caller is told, given what the provider did and what could be reserved for it. */
  predicate FinalOutcome(o: Outcome, a: Answer, reservation: int) {
    match a
    case CallCancelled => o.RaisedUnknown? && o.cause.WasCancelled?
    case CompletionUnknown => o.RaisedUnknown? && o.cause.WasUnknown?
    case Failed => o.RaisedFailed?
    case Completed(usage) => if usage.cost <= reservation then o == Returned(usage) else o == RaisedUnknown(NotSettled(usage))
    case OutputInvalid(usage) => if usage.cost <= reservation then o == RaisedInvalid(usage) else o == RaisedUnknown(NotSettled(usage))
  }

  /** The answered awaits on the store, with steps of others before each of them. */
  ghost function Served(s: State, i: nat, before: seq<Step>): State {
    Next(RunFrom(s, before), AwaitStore(i, Replied))
  }

  lemma ServedReachable(s: State, i: nat, before: seq<Step>)
    requires Reachable(s)
    ensures Reachable(RunFrom(s, before)) && Reachable(Served(s, i, before))
  {
    RunFromReachable(s, before);
    NextReachable(RunFrom(s, before), AwaitStore(i, Replied));
  }

  /** The call's budget is charged with what it cost, in place of what was reserved for it, and no other budget changes. */
  ghost predicate ChargedFor(t: Tables, t': Tables, c: Context, usage: Usage) {
    && c.call in t.calls
    && var run := t.calls[c.call].run;
       && run in t.budgets
       && var b := t.budgets[run];
          t'.budgets == t.budgets[run :=
            b.(spent := b.spent + usage.cost, settledCalls := b.settledCalls + 1,
               reserved := b.reserved - c.reservation, reservedCalls := b.reservedCalls - 1, version := b.version + 1)]
  }

  /** A settlement that is answered: it settles what fits the reservation, and leaves the rest to be marked. */
  lemma SettleServed(s: State, i: nat, usage: Usage, valid: bool)
    requires Reachable(s) && i in s.callers && s.callers[i].phase == Settling(usage, valid)
    ensures var s', fits := Next(s, AwaitStore(i, Replied)), usage.cost <= s.callers[i].context.reservation;
            && i in s'.callers && Owns(s', i) && OwnCall(s, i).Some?
            && s'.callers[i].phase == (if !fits then Marking(NotSettled(usage)) else if valid then Done(Returned(usage)) else Done(RaisedInvalid(usage)))
            && OwnCall(s', i) == Some(if fits then OwnCall(s, i).value.(status := Settled, usage := Some(usage)) else OwnCall(s, i).value)
            && (if fits then ChargedFor(s.tables, s'.tables, s.callers[i].context, usage) else s'.tables == s.tables)
  {
    ReachableCaller(s, i);
    ReachableInv(s);
    SettleKeeps(s.tables, s.callers[i].context.call, usage);
    if usage.cost > s.callers[i].context.reservation {
      OverCostIsRefused(s.tables, s.callers[i].context.call, usage);
    } else {
      SettleSettles(s.tables, s.callers[i].context, usage);
    }
  }

  lemma SettleSettles(t: Tables, c: Context, usage: Usage)
    requires c.call in t.calls && t.calls[c.call].reserved == c.reservation && SettleTx(t, c.call, usage).1.Ok?
    ensures SettleTx(t, c.call, usage).0.calls == t.calls[c.call := t.calls[c.call].(status := Settled, usage := Some(usage))]
    ensures ChargedFor(t, SettleTx(t, c.call, usage).0, c, usage)
  {
  }

  /** A marking that is answered. */
  lemma MarkServed(s: State, i: nat, cause: Cause)
    requires Reachable(s) && i in s.callers && s.callers[i].phase == Marking(cause)
    requires OwnCall(s, i).Some? && OwnCall(s, i).value.status.Reserved?
    ensures var s' := Next(s, AwaitStore(i, Replied));
            && s'.tables.budgets == s.tables.budgets && i in s'.callers && Owns(s', i)
            && s'.callers[i].phase == Done(RaisedUnknown(cause)) && OwnCall(s', i) == Some(OwnCall(s, i).value.(status := Unknown))
  {
    MarkedUnknown(s, i, cause);
  }

  lemma ReleaseServed(s: State, i: nat)
    requires Reachable(s) && i in s.callers && s.callers[i].phase.Releasing?
    ensures var s' := Next(s, AwaitStore(i, Replied));
            && i in s'.callers && Owns(s', i) && OwnCall(s, i).Some? && s'.callers[i].phase == Done(RaisedFailed)
            && OwnCall(s', i) == Some(OwnCall(s, i).value.(status := Released))
            && GivenBack(s.tables, s'.tables, s.callers[i].context)
  {
    ReachableCaller(s, i);
    FailureGivesBack(s, i);
  }

  /** Others leave a caller at work as it is, with its row. */
  lemma Undisturbed(s: State, i: nat, others: seq<Step>)
    requires Reachable(s) && i in s.callers && Owns(s, i) && ByOthers(others, i)
    ensures var s' := RunFrom(s, others);
            && Reachable(s') && i in s'.callers && s'.callers[i] == s.callers[i] && Owns(s', i)
            && OwnCall(s', i) == OwnCall(s, i) && OwnCall(s, i).Some?
  {
    OthersLeave(s, others, i);
    RunFromReachable(s, others);
  }

  /** A caller that is done stays done, and its row stays, through any further store step. */
  lemma DoneStays(s: State, i: nat, others: seq<Step>)
    requires Reachable(s) && i in s.callers && Owns(s, i) && s.callers[i].phase.Done? && ByOthers(others, i)
    ensures var s' := Served(s, i, others);
            i in s'.callers && s'.callers[i] == s.callers[i] && OwnCall(s', i) == OwnCall(s, i)
  {
    Undisturbed(s, i, others);
    DoneIsForGood(RunFrom(s, others), AwaitStore(i, Replied), i);
  }

  /** The call as it was when the provider answered. */
  lemma WaitingRow(s: State, i: nat)
    requires Reachable(s) && i in s.callers && s.callers[i].phase.Waiting?
    ensures Owns(s, i) && OwnCall(s, i).Some? && OwnCall(s, i).value.status.Reserved?
    ensures OwnCall(s, i).value.reserved == s.callers[i].context.reservation
  {
    ReachableCaller(s, i);
  }

  /** What a first answered await does, by the provider's answer; only an over-cost answer needs a second. */
  lemma FirstServed(s: State, i: nat, a: Answer, others: seq<Step>)
    requires Reachable(s) && i in s.callers && s.callers[i].phase.Waiting? && ByOthers(others, i)
    ensures var s1 := Next(s, Answered(i, a));
            var s2 := RunFrom(s1, others);
            var s3 := Served(s1, i, others);
            && Reachable(s1) && Reachable(s3) && i in s3.callers && Owns(s3, i) && OwnCall(s, i).Some?
            && s3.callers[i].context == s.callers[i].context
            && (s3.callers[i].phase.Done? ==>
                  && OwnCall(s3, i) == Some(FinalRow(OwnCall(s, i).value, a))
                  && FinalOutcome(s3.callers[i].phase.outcome, a, s.callers[i].context.reservation))
            && (if a.Completed? || a.OutputInvalid? then
                  if a.usage.cost > s.callers[i].context.reservation
                  then s3.callers[i].phase == Marking(NotSettled(a.usage)) && OwnCall(s3, i) == OwnCall(s, i) && s3.tables == s2.tables
                  else s3.callers[i].phase.Done? && ChargedFor(s2.tables, s3.tables, s.callers[i].context, a.usage)
                else
                  && s3.callers[i].phase.Done?
                  && (if a.Failed? then GivenBack(s2.tables, s3.tables, s.callers[i].context) else s3.tables.budgets == s2.tables.budgets))
  {
    WaitingRow(s, i);
    var s1 := Next(s, Answered(i, a));
    NextReachable(s, Answered(i, a));
    Undisturbed(s1, i, others);
    ServedReachable(s1, i, others);
    var s2 := RunFrom(s1, others);
    match a
    case CallCancelled => MarkServed(s2, i, WasCancelled);
    case CompletionUnknown => MarkServed(s2, i, WasUnknown);
    case Failed => ReleaseServed(s2, i);
    case Completed(usage) => SettleServed(s2, i, usage, true);
    case OutputInvalid(usage) => SettleServed(s2, i, usage, false);
  }

  /**
   From the provider's answer to the ledger: once the store has answered its caller, whatever other
   callers did in between, the row of the call and the caller's outcome are fixed by the answer. An
   unknown or cancelled completion keeps its reservation, a failure gives it back, a completion is
   settled when it fits its reservation and is unknown when it does not.
   */
  lemma AnswerDecides(s: State, i: nat, a: Answer, others: seq<Step>, more: seq<Step>)
    requires Reachable(s) && i in s.callers && s.callers[i].phase.Waiting? && ByOthers(others, i) && ByOthers(more, i)
    ensures var s' := Served(Served(Next(s, Answered(i, a)), i, others), i, more);
            && OwnCall(s, i).Some? && i in s'.callers && s'.callers[i].phase.Done?
            && OwnCall(s', i) == Some(FinalRow(OwnCall(s, i).value, a))
            && FinalOutcome(s'.callers[i].phase.outcome, a, s.callers[i].context.reservation)
  {
    WaitingRow(s, i);
    FirstServed(s, i, a, others);
    var s3 := Served(Next(s, Answered(i, a)), i, others);
    if s3.callers[i].phase.Done? {
      DoneStays(s3, i, more);
    } else {
      Undisturbed(s3, i, more);
      MarkServed(RunFrom(s3, more), i, NotSettled(a.usage));
    }
  }

  /** A settlement that raised is followed by a marking, whether or not it had taken effect. */
  lemma LostSettlementIsMarked(s: State, i: nat, committed: bool, others: seq<Step>)
    requires Reachable(s) && i in s.callers && s.callers[i].phase.Settling? && ByOthers(others, i)
    ensures var usage, s' := s.callers[i].phase.usage, Served(Next(s, AwaitStore(i, Lost(committed))), i, others);
            && OwnCall(s, i).Some? && i in s'.callers && s'.callers[i].phase == Done(RaisedUnknown(NotSettled(usage)))
            && OwnCall(s', i) ==
                 Some(if committed && usage.cost <= s.callers[i].context.reservation
                      then OwnCall(s, i).value.(status := Settled, usage := Some(usage))
                      else OwnCall(s, i).value.(status := Unknown))
  {
    var usage, s1 := s.callers[i].phase.usage, Next(s, AwaitStore(i, Lost(committed)));
    ReachableCaller(s, i);
    SettleServed(s, i, usage, s.callers[i].phase.valid);
    NextReachable(s, AwaitStore(i, Lost(committed)));
    assert s1.callers[i].phase == Marking(NotSettled(usage)) && Owns(s1, i);
    Undisturbed(s1, i, others);
    var s2 := RunFrom(s1, others);
    if OwnCall(s2, i).value.status.Reserved? {
      MarkServed(s2, i, NotSettled(usage));
    }
  }

  // ---------------------------------------------------------------- from the call to the provider

  /**
   What an answered reservation leads to: a call of one's own exactly when it can be granted; a
   replay when somebody holds the key in the same run; a refusal otherwise.
   */
  lemma ReservationDecides(s: State, i: nat)
    requires Reachable(s) && i in s.callers && s.callers[i].phase.Reserving?
    ensures var c, s' := s.callers[i], Next(s, AwaitStore(i, Replied));
            && i in s'.callers && s'.invoked == s.invoked
            && (s'.callers[i].phase.Calling? <==> Grantable(s.tables, c.context, c.key))
            && (s'.callers[i].phase == Done(RaisedReplay) <==>
                  c.context.run in s.tables.budgets && s.tables.budgets[c.context.run].tenant == c.context.tenant && HasKey(s.tables, c.key))
            && (s'.callers[i].phase.Calling? || (s'.callers[i].phase.Done? && s'.tables == s.tables))
  {
    GrantedInReach(s, i);
  }

  /** The provider is called by a caller that has its reservation, and then only once. */
  lemma CallingInvokes(s: State, i: nat)
    requires Reachable(s) && i in s.callers
    ensures s.callers[i].phase.Calling? ==>
              Next(s, Invoke(i)).invoked == s.invoked + [i] && Next(s, Invoke(i)).callers[i].phase.Waiting? && i !in s.invoked
    ensures !s.callers[i].phase.Calling? ==> Next(s, Invoke(i)) == s
  {
    ReachableCaller(s, i);
  }
}
