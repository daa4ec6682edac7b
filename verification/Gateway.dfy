/**
 The budgeted model gateway: any number of `generate` calls at once, each moving one await at a
 time, over the shared ledger.
 */
module Gateway {
  import opened Fates
  import opened Outcomes
  import opened Ledger
  import opened LedgerLaws

  /** What the provider's coroutine does. */
  datatype Answer = Completed(usage: Usage) | OutputInvalid(usage: Usage) | CallCancelled | CompletionUnknown | Failed

  datatype Cause = WasCancelled | WasUnknown | NotSettled(usage: Usage)

  datatype Outcome =
    | Returned(usage: Usage)
    | RaisedInvalid(usage: Usage)
    | RaisedUnknown(cause: Cause)
    | RaisedFailed
    | RaisedReplay
    | RaisedRefused(error: LedgerError)
    | Abandoned

  /** Where a caller stands: about to make the step its phase names, or done. */
  datatype Phase =
    | Reserving
    | Calling
    | Waiting
    | Settling(usage: Usage, valid: bool)
    | Marking(cause: Cause)
    | Releasing
    | Done(outcome: Outcome)

  datatype Caller = Caller(context: Context, key: string, phase: Phase)

  /** `owner` and `invoked` only remember who made each reservation and who called the provider. */
  datatype State = State(tables: Tables, callers: map<nat, Caller>, owner: map<Id, nat>, invoked: seq<nat>)

  /** `Die` is the end of a caller together with its process, wherever it stands: no handler runs. */
  datatype Step =
    | CreateBudget(run: Id, tenant: Id, maxCost: int, maxCalls: int)
    | Arrive(caller: nat, context: Context, key: string)
    | AwaitStore(caller: nat, fate: Fate)
    | Invoke(caller: nat)
    | Answered(caller: nat, answer: Answer)
    | Die(caller: nat)

  const START := State(EMPTY, map[], map[], [])

  // ---------------------------------------------------------------- steps

  /** The tables after a transaction, given what became of the await on it. */
  function Kept<T>(t: Tables, tx: Committed<T>, fate: Fate): Tables {
    if fate.Carried() then tx.0 else t
  }

  function AfterReserve(r: Result<Reservation, LedgerError>, fate: Fate): Phase {
    if !fate.Replied? then Done(Abandoned)
    else match r
      case Ok(reservation) => if reservation.created then Calling else Done(RaisedReplay)
      case Err(error) => Done(RaisedRefused(error))
  }

  /** `_settle_or_mark_unknown`: an exception leads to `mark_unknown`, a cancellation does not. */
  function AfterSettle(r: Result<(), LedgerError>, usage: Usage, valid: bool, fate: Fate): Phase {
    if fate.Interrupted? then Done(Abandoned)
    else if fate.Replied? && r.Ok? then Done(if valid then Returned(usage) else RaisedInvalid(usage))
    else Marking(NotSettled(usage))
  }

  function AfterLast(r: Result<(), LedgerError>, outcome: Outcome, fate: Fate): Phase {
    if !fate.Replied? then Done(Abandoned)
    else match r
      case Ok(_) => Done(outcome)
      case Err(error) => Done(RaisedRefused(error))
  }

  function AfterAnswer(a: Answer): Phase {
    match a
    case Completed(usage) => Settling(usage, true)
    case OutputInvalid(usage) => Settling(usage, false)
    case CallCancelled => Marking(WasCancelled)
    case CompletionUnknown => Marking(WasUnknown)
    case Failed => Releasing
  }

  ghost function ReserveStep(s: State, i: nat, fate: Fate): State
    requires i in s.callers
  {
    var c := s.callers[i];
    var tx := ReserveTx(s.tables, c.context, c.key);
    var t' := Kept(s.tables, tx, fate);
    State(t', s.callers[i := c.(phase := AfterReserve(tx.1, fate))],
          if t'.calls == s.tables.calls then s.owner else s.owner[c.context.call := i], s.invoked)
  }

  /** The transaction that a later phase awaits, and the phase that follows. */
  function Awaited(t: Tables, c: Caller, fate: Fate): (Tables, Phase) {
    match c.phase
    case Settling(usage, valid) =>
      var tx := SettleTx(t, c.context.call, usage);
      (Kept(t, tx, fate), AfterSettle(tx.1, usage, valid, fate))
    case Marking(cause) =>
      var tx := MarkUnknownTx(t, c.context.call);
      (Kept(t, tx, fate), AfterLast(tx.1, RaisedUnknown(cause), fate))
    case Releasing =>
      var tx := ReleaseTx(t, c.context.call);
      (Kept(t, tx, fate), AfterLast(tx.1, RaisedFailed, fate))
    case _ => (t, c.phase)
  }

  ghost function StoreStep(s: State, i: nat, fate: Fate): State
    requires i in s.callers
  {
    var c := s.callers[i];
    if c.phase.Reserving? then ReserveStep(s, i, fate)
    else
      var (t', phase) := Awaited(s.tables, c, fate);
      s.(tables := t', callers := s.callers[i := c.(phase := phase)])
  }

  /** One step; a step that is not possible changes nothing. */
  ghost function Next(s: State, step: Step): State {
    match step
    case CreateBudget(run, tenant, maxCost, maxCalls) =>
      s.(tables := CreateTx(s.tables, run, tenant, maxCost, maxCalls).0)
    case Arrive(i, context, key) =>
      if i in s.callers || context.reservation <= 0 then s
      else s.(callers := s.callers[i := Caller(context, key, Reserving)])
    case AwaitStore(i, fate) => if i in s.callers then StoreStep(s, i, fate) else s
    case Invoke(i) =>
      if i in s.callers && s.callers[i].phase.Calling?
      then s.(callers := s.callers[i := s.callers[i].(phase := Waiting)], invoked := s.invoked + [i])
      else s
    case Answered(i, answer) =>
      if i in s.callers && s.callers[i].phase.Waiting?
      then s.(callers := s.callers[i := s.callers[i].(phase := AfterAnswer(answer))])
      else s
    case Die(i) =>
      if i in s.callers && !s.callers[i].phase.Done?
      then s.(callers := s.callers[i := s.callers[i].(phase := Done(Abandoned))])
      else s
  }

  ghost function RunSteps(steps: seq<Step>): State {
    if steps == [] then START else Next(RunSteps(steps[..|steps| - 1]), steps[|steps| - 1])
  }

  // ---------------------------------------------------------------- the invariant

  predicate Owns(s: State, i: nat)
    requires i in s.callers
  {
    s.callers[i].context.call in s.owner && s.owner[s.callers[i].context.call] == i
  }

  /** What a caller's phase says about the call it reserved. */
  predicate Fits(phase: Phase, call: Call) {
    match phase
    case Reserving => false
    case Calling => call.status.Reserved?
    case Waiting => call.status.Reserved?
    case Settling(_, _) => call.status.Reserved?
    case Releasing => call.status.Reserved?
    case Marking(cause) => call.status.Reserved? || SettledUnheard(cause, call)
    case Done(outcome) =>
      match outcome
      case Returned(usage) => call.status.Settled? && call.usage == Some(usage)
      case RaisedInvalid(usage) => call.status.Settled? && call.usage == Some(usage)
      case RaisedUnknown(cause) => call.status.Unknown? || SettledUnheard(cause, call)
      case RaisedFailed => call.status.Released?
      case RaisedReplay => false
      case RaisedRefused(_) => false
      case Abandoned => true
  }

  /** The settlement was committed, but its reply was lost. */
  predicate SettledUnheard(cause: Cause, call: Call) {
    cause.NotSettled? && call.status.Settled? && call.usage == Some(cause.usage)
  }

  /** Without a reservation of its own a caller is at the start, turned away, or gone. */
  predicate Outside(phase: Phase) {
    || phase.Reserving?
    || (phase.Done? && (phase.outcome.RaisedReplay? || phase.outcome.RaisedRefused? || phase.outcome.Abandoned?))
  }

  predicate CallerTied(s: State, i: nat)
    requires i in s.callers
  {
    var c := s.callers[i];
    if Owns(s, i) then
      && c.context.call in s.tables.calls && Fits(c.phase, s.tables.calls[c.context.call])
      && s.tables.calls[c.context.call].key == c.key && s.tables.calls[c.context.call].reserved == c.context.reservation
    else Outside(c.phase)
  }

  predicate OwnerTied(s: State, id: Id)
    requires id in s.owner
  {
    s.owner[id] in s.callers && s.callers[s.owner[id]].context.call == id
  }

  predicate InvokerTied(s: State, i: nat) {
    i in s.callers && Owns(s, i) && !s.callers[i].phase.Calling?
  }

  ghost predicate Tied(s: State) {
    && s.tables.calls.Keys == s.owner.Keys
    && (forall id :: id in s.owner ==> OwnerTied(s, id))
    && (forall i :: i in s.callers ==> CallerTied(s, i) && s.callers[i].context.reservation > 0)
    && (forall k :: 0 <= k < |s.invoked| ==> InvokerTied(s, s.invoked[k]))
    && (forall j, k :: 0 <= j < k < |s.invoked| ==> s.invoked[j] != s.invoked[k])
  }

  // ---------------------------------------------------------------- it is kept

  ghost predicate OneTransaction(t: Tables, t': Tables) {
    t' == t || exists op :: ValidOp(op) && t' == Apply(t, op)
  }

  lemma NextIsOneTransaction(s: State, step: Step)
    requires forall i :: i in s.callers ==> s.callers[i].context.reservation > 0
    ensures OneTransaction(s.tables, Next(s, step).tables)
  {
    match step
    case CreateBudget(run, tenant, maxCost, maxCalls) =>
      assert Next(s, step).tables == Apply(s.tables, Create(run, tenant, maxCost, maxCalls));
    case AwaitStore(i, fate) =>
      if i in s.callers {
        var c := s.callers[i];
        var op := match c.phase
          case Reserving => Reserve(c.context, c.key)
          case Settling(usage, _) => Settle(c.context.call, usage)
          case Marking(_) => MarkUnknown(c.context.call)
          case _ => Release(c.context.call);
        assert ValidOp(op);
        assert Next(s, step).tables == s.tables || Next(s, step).tables == Apply(s.tables, op);
      }
    case _ =>
  }

  /** The step of a caller that has made its reservation, on the row of its call. */
  lemma OwnedStep(s: State, s': State, i: nat, call': Call)
    requires Tied(s) && i in s.callers && i in s'.callers && Owns(s, i)
    requires var c := s.callers[i];
             && call'.key == c.key && call'.reserved == c.context.reservation
             && s'.tables.calls == s.tables.calls[c.context.call := call']
             && s'.callers == s.callers[i := c.(phase := s'.callers[i].phase)]
    requires s'.owner == s.owner && s'.invoked == s.invoked
    requires Fits(s'.callers[i].phase, call') && (i in s.invoked ==> !s'.callers[i].phase.Calling?)
    ensures Tied(s')
  {
    forall id | id in s'.owner ensures OwnerTied(s', id) {
      assert OwnerTied(s, id);
    }
    forall j | j in s'.callers ensures CallerTied(s', j) {
      assert CallerTied(s, j);
    }
    forall k | 0 <= k < |s'.invoked| ensures InvokerTied(s', s'.invoked[k]) {
      assert InvokerTied(s, s.invoked[k]);
    }
  }

  /** The step of a caller without a reservation, that leaves the calls as they are. */
  lemma OutsideStep(s: State, s': State, i: nat)
    requires Tied(s) && i in s'.callers
    requires i in s.callers ==> !Owns(s, i) && s'.callers[i].context.call == s.callers[i].context.call
    requires s'.callers == s.callers[i := s'.callers[i]] && s'.callers[i].context.reservation > 0
    requires s'.tables.calls == s.tables.calls && s'.owner == s.owner && s'.invoked == s.invoked
    requires Outside(s'.callers[i].phase)
    ensures Tied(s')
  {
    forall id | id in s'.owner ensures OwnerTied(s', id) {
      assert OwnerTied(s, id);
    }
    forall j | j in s'.callers ensures CallerTied(s', j) {
      if j == i {
        assert !Owns(s', i) by {
          var id := s'.callers[i].context.call;
          assert id in s.owner ==> OwnerTied(s, id);
        }
      } else {
        assert CallerTied(s, j);
      }
    }
    forall k | 0 <= k < |s'.invoked| ensures InvokerTied(s', s'.invoked[k]) {
      assert InvokerTied(s, s.invoked[k]);
    }
  }

  /** The step that makes a reservation. */
  lemma GrantedStep(s: State, s': State, i: nat, call: Call)
    requires Tied(s) && i in s.callers && i in s'.callers && !Owns(s, i)
    requires var c := s.callers[i];
             && c.context.call !in s.tables.calls && call.key == c.key && call.reserved == c.context.reservation
             && s'.tables.calls == s.tables.calls[c.context.call := call]
             && s'.owner == s.owner[c.context.call := i]
             && s'.callers == s.callers[i := c.(phase := s'.callers[i].phase)]
    requires s'.invoked == s.invoked && Fits(s'.callers[i].phase, call)
    ensures Tied(s')
  {
    forall id | id in s'.owner ensures OwnerTied(s', id) {
      assert id in s.owner ==> OwnerTied(s, id);
    }
    forall j | j in s'.callers ensures CallerTied(s', j) {
      assert CallerTied(s, j);
    }
    forall k | 0 <= k < |s'.invoked| ensures InvokerTied(s', s'.invoked[k]) {
      assert InvokerTied(s, s.invoked[k]);
    }
  }

  lemma ReserveStepTied(s: State, i: nat, fate: Fate)
    requires Tied(s) && i in s.callers && s.callers[i].phase.Reserving?
    ensures Tied(ReserveStep(s, i, fate))
  {
    var c := s.callers[i];
    var s' := ReserveStep(s, i, fate);
    assert CallerTied(s, i) && !Owns(s, i);
    if s'.tables.calls == s.tables.calls {
      NotGranted(s.tables, c.context, c.key, fate);
      OutsideStep(s, s', i);
    } else {
      GrantedStep(s, s', i, Call(c.key, c.context.tenant, c.context.run, Reserved, c.context.reservation, None));
    }
  }

  lemma NotGranted(t: Tables, c: Context, key: string, fate: Fate)
    requires Kept(t, ReserveTx(t, c, key), fate).calls == t.calls
    ensures Outside(AfterReserve(ReserveTx(t, c, key).1, fate))
  {
    var (t', r) := ReserveTx(t, c, key);
    if fate.Replied? && t'.calls == t.calls && c.run in t.budgets && c.call !in t.calls {
      assert c.call in Inserted(t, c, key).calls;
    }
  }

  lemma SettleStepTied(s: State, i: nat, fate: Fate)
    requires Tied(s) && i in s.callers && s.callers[i].phase.Settling?
    ensures Tied(StoreStep(s, i, fate))
  {
    var c := s.callers[i];
    assert CallerTied(s, i) && Owns(s, i);
    var call := s.tables.calls[c.context.call];
    var s' := StoreStep(s, i, fate);
    if s'.tables.calls == s.tables.calls {
      OwnedStep(s, s', i, call);
    } else {
      OwnedStep(s, s', i, call.(status := Settled, usage := Some(c.phase.usage)));
    }
  }

  lemma MarkStepTied(s: State, i: nat, fate: Fate)
    requires Tied(s) && i in s.callers && s.callers[i].phase.Marking?
    ensures Tied(StoreStep(s, i, fate))
  {
    var c := s.callers[i];
    assert CallerTied(s, i) && Owns(s, i);
    var call := s.tables.calls[c.context.call];
    OwnedStep(s, StoreStep(s, i, fate), i, StoreStep(s, i, fate).tables.calls[c.context.call]);
  }

  lemma ReleaseStepTied(s: State, i: nat, fate: Fate)
    requires Tied(s) && i in s.callers && s.callers[i].phase.Releasing?
    requires ReleaseTx(s.tables, s.callers[i].context.call).1.Ok?
    ensures Tied(StoreStep(s, i, fate))
  {
    var c := s.callers[i];
    assert CallerTied(s, i) && Owns(s, i);
    OwnedStep(s, StoreStep(s, i, fate), i, StoreStep(s, i, fate).tables.calls[c.context.call]);
  }

  lemma InvokeStepTied(s: State, i: nat)
    requires Tied(s) && i in s.callers && s.callers[i].phase.Calling?
    ensures Tied(Next(s, Invoke(i)))
  {
    assert CallerTied(s, i) && Owns(s, i);
    assert i !in s.invoked by {
      if k :| 0 <= k < |s.invoked| && s.invoked[k] == i {
        assert InvokerTied(s, s.invoked[k]);
      }
    }
    var waiting := s.(callers := s.callers[i := s.callers[i].(phase := Waiting)]);
    var call := s.tables.calls[s.callers[i].context.call];
    OwnedStep(s, waiting, i, call);
    var s' := Next(s, Invoke(i));
    forall id | id in s'.owner ensures OwnerTied(s', id) {
      assert OwnerTied(waiting, id);
    }
    forall j | j in s'.callers ensures CallerTied(s', j) {
      assert CallerTied(waiting, j);
    }
    forall k | 0 <= k < |s'.invoked| ensures InvokerTied(s', s'.invoked[k]) {
      assert k < |s.invoked| ==> InvokerTied(waiting, waiting.invoked[k]);
    }
  }

  ghost predicate Inv(s: State) {
    Consistent(s.tables) && Tied(s)
  }

  lemma ReleaseSucceeds(s: State, i: nat)
    requires Inv(s) && i in s.callers && s.callers[i].phase.Releasing?
    ensures ReleaseTx(s.tables, s.callers[i].context.call).1.Ok?
  {
    assert CallerTied(s, i);
    ReleaseKeeps(s.tables, s.callers[i].context.call);
  }

  lemma NextTied(s: State, step: Step)
    requires Tied(s)
    requires step.AwaitStore? && step.caller in s.callers && s.callers[step.caller].phase.Releasing? ==>
               ReleaseTx(s.tables, s.callers[step.caller].context.call).1.Ok?
    ensures Tied(Next(s, step))
  {
    match step
    case CreateBudget(_, _, _, _) =>
      assert Next(s, step).tables.calls == s.tables.calls;
      BudgetsDoNotMatter(s, Next(s, step));
    case Arrive(i, context, key) =>
      if i !in s.callers && context.reservation > 0 {
        OutsideStep(s, Next(s, step), i);
      }
    case AwaitStore(i, fate) =>
      if i in s.callers {
        match s.callers[i].phase
        case Reserving => ReserveStepTied(s, i, fate);
        case Settling(_, _) => SettleStepTied(s, i, fate);
        case Marking(_) => MarkStepTied(s, i, fate);
        case Releasing => ReleaseStepTied(s, i, fate);
        case _ => assert Next(s, step) == s;
      }
    case Invoke(i) =>
      if i in s.callers && s.callers[i].phase.Calling? {
        InvokeStepTied(s, i);
      }
    case Answered(i, answer) =>
      if i in s.callers && s.callers[i].phase.Waiting? {
        assert CallerTied(s, i);
        OwnedStep(s, Next(s, step), i, s.tables.calls[s.callers[i].context.call]);
      }
    case Die(i) =>
      if i in s.callers && !s.callers[i].phase.Done? {
        DieTied(s, i);
      }
  }

  lemma DieTied(s: State, i: nat)
    requires Tied(s) && i in s.callers && !s.callers[i].phase.Done?
    ensures Tied(Next(s, Die(i)))
  {
    assert CallerTied(s, i);
    if Owns(s, i) {
      OwnedStep(s, Next(s, Die(i)), i, s.tables.calls[s.callers[i].context.call]);
    } else {
      OutsideStep(s, Next(s, Die(i)), i);
    }
  }

  lemma BudgetsDoNotMatter(s: State, s': State)
    requires Tied(s) && s' == s.(tables := s'.tables) && s'.tables.calls == s.tables.calls
    ensures Tied(s')
  {
    forall id | id in s'.owner ensures OwnerTied(s', id) {
      assert OwnerTied(s, id);
    }
    forall j | j in s'.callers ensures CallerTied(s', j) {
      assert CallerTied(s, j);
    }
    forall k | 0 <= k < |s'.invoked| ensures InvokerTied(s', s'.invoked[k]) {
      assert InvokerTied(s, s.invoked[k]);
    }
  }

  lemma NextKeeps(s: State, step: Step)
    requires Inv(s)
    ensures Inv(Next(s, step))
  {
    NextIsOneTransaction(s, step);
    if Next(s, step).tables != s.tables {
      var op :| ValidOp(op) && Next(s, step).tables == Apply(s.tables, op);
      ApplyKeeps(s.tables, op);
    }
    if step.AwaitStore? && step.caller in s.callers && s.callers[step.caller].phase.Releasing? {
      ReleaseSucceeds(s, step.caller);
    }
    NextTied(s, step);
  }

  lemma {:induction false} InvHolds(steps: seq<Step>)
    ensures Inv(RunSteps(steps))
  {
    if steps != [] {
      InvHolds(steps[..|steps| - 1]);
      NextKeeps(RunSteps(steps[..|steps| - 1]), steps[|steps| - 1]);
    }
  }

  // ---------------------------------------------------------------- what it means

  /** Some steps, of any callers in any order, lead to `s`. */
  ghost predicate Reachable(s: State) {
    exists steps :: s == RunSteps(steps)
  }

  lemma ReachableInv(s: State)
    requires Reachable(s)
    ensures Inv(s)
  {
    var steps :| s == RunSteps(steps);
    InvHolds(steps);
  }

  lemma ReachableCaller(s: State, i: nat)
    requires Reachable(s) && i in s.callers
    ensures CallerTied(s, i) && (i in s.invoked ==> Owns(s, i) && !s.callers[i].phase.Calling?)
  {
    ReachableInv(s);
    if k :| 0 <= k < |s.invoked| && s.invoked[k] == i {
      assert InvokerTied(s, s.invoked[k]);
    }
  }

  lemma DifferentKeys(s: State, i: nat, j: nat)
    requires Reachable(s) && i in s.callers && j in s.callers && i != j && Owns(s, i) && Owns(s, j)
    ensures s.callers[i].key != s.callers[j].key
  {
    ReachableCaller(s, i);
    ReachableCaller(s, j);
    ReachableInv(s);
    assert !SameKey(s.tables, s.callers[i].context.call, s.callers[j].context.call);
  }

  /**
   At most once: however many callers run and however their awaits end, no two provider calls are
   for the same logical call, and each was made by the caller whose reservation that call is.
   */
  lemma AtMostOnce(s: State, j: nat, k: nat)
    requires Reachable(s) && j < k < |s.invoked|
    ensures s.invoked[j] in s.callers && s.invoked[k] in s.callers && Owns(s, s.invoked[j]) && Owns(s, s.invoked[k])
    ensures s.callers[s.invoked[j]].key != s.callers[s.invoked[k]].key
  {
    ReachableInv(s);
    assert InvokerTied(s, s.invoked[j]) && InvokerTied(s, s.invoked[k]);
    DifferentKeys(s, s.invoked[j], s.invoked[k]);
  }

  /** Whoever was turned away, or has only just reserved, has not called the provider. */
  lemma OnlyTheCreatorCalls(s: State, i: nat)
    requires Reachable(s) && i in s.callers && i in s.invoked
    ensures Owns(s, i) && !s.callers[i].phase.Reserving? && !s.callers[i].phase.Calling?
    ensures s.callers[i].phase.Done? ==> !s.callers[i].phase.outcome.RaisedReplay? && !s.callers[i].phase.outcome.RaisedRefused?
  {
    ReachableCaller(s, i);
  }

  /** What a caller's result says about its call in the ledger. */
  lemma OutcomeMatchesLedger(s: State, i: nat)
    requires Reachable(s) && i in s.callers && s.callers[i].phase.Done?
    ensures var o, id := s.callers[i].phase.outcome, s.callers[i].context.call;
            && (o.RaisedReplay? || o.RaisedRefused? ==> !Owns(s, i))
            && (o.Returned? || o.RaisedInvalid? ==>
                  id in s.tables.calls && s.tables.calls[id].status.Settled? && s.tables.calls[id].usage == Some(o.usage))
            && (o.RaisedFailed? ==> id in s.tables.calls && s.tables.calls[id].status.Released?)
            && (o.RaisedUnknown? ==>
                  id in s.tables.calls && (s.tables.calls[id].status.Unknown? || SettledUnheard(o.cause, s.tables.calls[id])))
  {
    ReachableCaller(s, i);
  }

  /** A call stays reserved only while its caller is at work, or when an await of that caller was lost. */
  lemma ReservedHasAnOwner(s: State, id: Id)
    requires Reachable(s) && id in s.tables.calls && s.tables.calls[id].status.Reserved?
    ensures id in s.owner && s.owner[id] in s.callers && s.callers[s.owner[id]].context.call == id
    ensures s.callers[s.owner[id]].phase.Done? ==> s.callers[s.owner[id]].phase.outcome.Abandoned?
  {
    ReachableInv(s);
    assert id in s.owner && OwnerTied(s, id);
    ReachableCaller(s, s.owner[id]);
  }

  /** Statuses move from `Reserved` to one final status, budgets keep their limits, spending stays. */
  lemma {:induction false} HistoryAdvances(steps: seq<Step>, n: nat)
    requires n <= |steps|
    ensures Advances(RunSteps(steps[..n]).tables, RunSteps(steps).tables)
    decreases |steps| - n
  {
    if n == |steps| {
      assert steps[..n] == steps;
    } else {
      HistoryAdvances(steps, n + 1);
      assert steps[..n + 1][..n] == steps[..n];
      var s, mid := RunSteps(steps[..n]), RunSteps(steps[..n + 1]);
      InvHolds(steps[..n]);
      NextIsOneTransaction(s, steps[n]);
      if mid.tables != s.tables {
        var op :| ValidOp(op) && mid.tables == Apply(s.tables, op);
        ApplyAdvances(s.tables, op);
        AdvancesTransitive(s.tables, mid.tables, RunSteps(steps).tables);
      }
    }
  }

  /** Conservation: the ledger balances, and keeps its limits, in every state of every run. */
  lemma GatewayConserves(s: State, run: Id)
    requires Reachable(s) && run in s.tables.budgets
    ensures Balanced(s.tables, run)
  {
    ReachableInv(s);
  }

  /** The released call and its budget, and nothing else, change. */
  ghost predicate GivenBack(t: Tables, t': Tables, c: Context) {
    && c.call in t.calls && t'.calls == t.calls[c.call := t.calls[c.call].(status := Released)]
    && var run := t.calls[c.call].run;
       && run in t.budgets
       && var b := t.budgets[run];
          t'.budgets == t.budgets[run :=
            b.(reserved := b.reserved - c.reservation, reservedCalls := b.reservedCalls - 1, version := b.version + 1)]
  }

  lemma ReleaseGivesBack(t: Tables, c: Context)
    requires c.call in t.calls && t.calls[c.call].status.Reserved? && t.calls[c.call].reserved == c.reservation
    requires ReleaseTx(t, c.call).1.Ok?
    ensures GivenBack(t, ReleaseTx(t, c.call).0, c)
  {
  }

  /** A definite failure gives the whole reservation back and leaves every other call alone. */
  lemma FailureGivesBack(s: State, i: nat)
    requires Reachable(s) && i in s.callers && s.callers[i].phase.Releasing?
    ensures var s' := Next(s, AwaitStore(i, Replied));
            s'.callers[i].phase == Done(RaisedFailed) && GivenBack(s.tables, s'.tables, s.callers[i].context)
  {
    ReachableCaller(s, i);
    ReachableInv(s);
    ReleaseSucceeds(s, i);
    ReleaseGivesBack(s.tables, s.callers[i].context);
  }
}
