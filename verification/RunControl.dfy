/**
 Idempotent run creation: any number of `create` calls at once, for any tenants and keys, each
 moving one await at a time. A caller may fail, be cancelled or die at any await.
 */
module RunControl {
  import opened Fates
  import opened Outcomes
  import opened Ledger
  import opened LedgerLaws

  /** An idempotency key of a tenant. */
  datatype Slot = Slot(tenant: Id, key: string)

  datatype Request = Request(body: string, maxCost: int, maxCalls: int)

  datatype Artifact = Artifact(tenant: Id, run: Id, request: Request)

  datatype RowStatus = Pending | Started | Failed

  datatype Row = Row(hash: string, run: Id, status: RowStatus, artifact: Option<Artifact>)

  /** The name-based run id of section 5.5 of RFC 9562, and the hash of a request. */
  datatype Names = Names(runOf: Slot -> Id, hashOf: Request -> string) {
    ghost predicate Injective() {
      && (forall a, b :: runOf(a) == runOf(b) ==> a == b)
      && (forall a, b :: hashOf(a) == hashOf(b) ==> a == b)
    }

    function Workflow(slot: Slot): (Id, Id) {
      (slot.tenant, runOf(slot))
    }

    function Stored(slot: Slot, request: Request): Artifact {
      Artifact(slot.tenant, runOf(slot), request)
    }
  }

  datatype Reply = Created(run: Id) | Existing(run: Id) | Conflict | Unavailable | Raised

  datatype Phase = Inserting | Selecting | Storing | Budgeting | Starting | Confirming | Failing | Done(reply: Reply)

  datatype Caller = Caller(slot: Slot, request: Request, phase: Phase)

  /** `started` records every start of a workflow, in order. */
  datatype State = State(
    rows: map<Slot, Row>, artifacts: set<Artifact>, tables: Tables,
    workflows: map<(Id, Id), Artifact>, started: seq<(Id, Id)>, callers: map<nat, Caller>)

  datatype Step =
    | Arrive(caller: nat, slot: Slot, request: Request)
    | Await(caller: nat, fate: Fate)
    | Elsewhere(op: Op)

  const START := State(map[], {}, EMPTY, map[], [], map[])

  // ---------------------------------------------------------------- steps

  /** `INSERT ... ON CONFLICT DO NOTHING` */
  function Insert(names: Names, s: State, slot: Slot, request: Request): State {
    if slot in s.rows then s
    else s.(rows := s.rows[slot := Row(names.hashOf(request), names.runOf(slot), Pending, None)])
  }

  /** `start_workflow`, which rejects an id already used. */
  function Start(names: Names, s: State, slot: Slot, request: Request): State {
    var id := names.Workflow(slot);
    if id in s.workflows then s
    else s.(workflows := s.workflows[id := names.Stored(slot, request)], started := s.started + [id])
  }

  function SetStatus(names: Names, s: State, slot: Slot, request: Request, status: RowStatus): State {
    if slot !in s.rows then s
    else s.(rows := s.rows[slot := s.rows[slot].(status := status, artifact := Some(names.Stored(slot, request)))])
  }

  function Budgeted(names: Names, s: State, slot: Slot, request: Request): Committed<()> {
    CreateTx(s.tables, names.runOf(slot), slot.tenant, request.maxCost, request.maxCalls)
  }

  /** What the await of a phase asks for. */
  function Carry(names: Names, s: State, c: Caller): State {
    match c.phase
    case Inserting => Insert(names, s, c.slot, c.request)
    case Storing => s.(artifacts := s.artifacts + {names.Stored(c.slot, c.request)})
    case Budgeting => s.(tables := Budgeted(names, s, c.slot, c.request).0)
    case Starting => Start(names, s, c.slot, c.request)
    case Confirming => SetStatus(names, s, c.slot, c.request, Started)
    case Failing => SetStatus(names, s, c.slot, c.request, Failed)
    case _ => s
  }

  function Read(names: Names, s: State, c: Caller): Phase {
    if c.slot !in s.rows then Done(Unavailable)
    else if s.rows[c.slot].hash != names.hashOf(c.request) then Done(Conflict)
    else if s.rows[c.slot].status.Started? then Done(Existing(s.rows[c.slot].run))
    else Storing
  }

  /** The phase that follows; only the budget and the start have a handler for exceptions. */
  function Following(names: Names, s: State, c: Caller, fate: Fate): Phase {
    if c.phase.Done? then c.phase
    else if fate.Interrupted? then Done(Raised)
    else if fate.Lost? then (if c.phase.Budgeting? || c.phase.Starting? then Failing else Done(Raised))
    else match c.phase
      case Inserting => Selecting
      case Selecting => Read(names, s, c)
      case Storing => Budgeting
      case Budgeting => if Budgeted(names, s, c.slot, c.request).1.Ok? then Starting else Failing
      case Starting => Confirming
      case Confirming => Done(Created(names.runOf(c.slot)))
      case _ => Done(Unavailable)
  }

  function AwaitStep(names: Names, s: State, i: nat, fate: Fate): State
    requires i in s.callers
  {
    var c := s.callers[i];
    var s' := if fate.Carried() then Carry(names, s, c) else s;
    s'.(callers := s.callers[i := c.(phase := Following(names, s, c, fate))])
  }

  /** One step; the request's limits were validated as positive, and only `create` makes budgets. */
  ghost function Next(names: Names, s: State, step: Step): State {
    match step
    case Arrive(i, slot, request) =>
      if i in s.callers || request.maxCost <= 0 || request.maxCalls <= 0 then s
      else s.(callers := s.callers[i := Caller(slot, request, Inserting)])
    case Await(i, fate) => if i in s.callers then AwaitStep(names, s, i, fate) else s
    case Elsewhere(op) => if op.Create? then s else s.(tables := Apply(s.tables, op))
  }

  ghost function RunSteps(names: Names, steps: seq<Step>): State {
    if steps == [] then START else Next(names, RunSteps(names, steps[..|steps| - 1]), steps[|steps| - 1])
  }

  ghost predicate Reachable(names: Names, s: State) {
    exists steps :: s == RunSteps(names, steps)
  }

  // ---------------------------------------------------------------- the invariant

  /** The key was free or bound to the same request body. */
  predicate Accepted(p: Phase) {
    p.Storing? || p.Budgeting? || p.Starting? || p.Confirming? || p.Failing? || (p.Done? && (p.reply.Created? || p.reply.Existing?))
  }

  predicate RowOk(names: Names, s: State, slot: Slot)
    requires slot in s.rows
  {
    && s.rows[slot].run == names.runOf(slot)
    && (s.rows[slot].status.Started? ==> names.Workflow(slot) in s.workflows)
  }

  predicate Limits(b: Budget, slot: Slot, request: Request) {
    b.tenant == slot.tenant && b.maxCost == request.maxCost && b.maxCalls == request.maxCalls
  }

  predicate BudgetOk(names: Names, s: State, slot: Slot, request: Request) {
    names.runOf(slot) in s.tables.budgets ==>
      && slot in s.rows
      && (s.rows[slot].hash == names.hashOf(request) ==> Limits(s.tables.budgets[names.runOf(slot)], slot, request))
  }

  predicate WorkflowOk(names: Names, s: State, slot: Slot) {
    names.Workflow(slot) in s.workflows ==>
      var input := s.workflows[names.Workflow(slot)];
      && input == names.Stored(slot, input.request) && input in s.artifacts
      && slot in s.rows && s.rows[slot].hash == names.hashOf(input.request)
      && names.runOf(slot) in s.tables.budgets
  }

  predicate CallerOk(names: Names, s: State, c: Caller) {
    var p := c.phase;
    && c.request.maxCost > 0 && c.request.maxCalls > 0
    && (p.Selecting? ==> c.slot in s.rows)
    && (Accepted(p) ==> c.slot in s.rows && s.rows[c.slot].hash == names.hashOf(c.request))
    && (p.Budgeting? || p.Starting? || p.Confirming? || p.Failing? ==> names.Stored(c.slot, c.request) in s.artifacts)
    && (p.Starting? ==> names.runOf(c.slot) in s.tables.budgets)
    && (p.Confirming? || (p.Done? && (p.reply.Created? || p.reply.Existing?)) ==> names.Workflow(c.slot) in s.workflows)
    && (p.Done? && (p.reply.Created? || p.reply.Existing?) ==> p.reply.run == names.runOf(c.slot))
  }

  ghost predicate RowsOk(names: Names, s: State) {
    forall slot {:trigger RowOk(names, s, slot)} :: slot in s.rows ==> RowOk(names, s, slot)
  }

  ghost predicate BudgetsOk(names: Names, s: State) {
    forall slot, request {:trigger BudgetOk(names, s, slot, request)} :: BudgetOk(names, s, slot, request)
  }

  ghost predicate WorkflowsOk(names: Names, s: State) {
    forall slot {:trigger WorkflowOk(names, s, slot)} :: WorkflowOk(names, s, slot)
  }

  predicate CallerOkAt(names: Names, s: State, i: nat) {
    i in s.callers && CallerOk(names, s, s.callers[i])
  }

  ghost predicate CallersOk(names: Names, s: State) {
    forall i {:trigger CallerOkAt(names, s, i)} :: i in s.callers ==> CallerOkAt(names, s, i)
  }

  ghost predicate Inv(names: Names, s: State) {
    && RowsOk(names, s) && BudgetsOk(names, s) && WorkflowsOk(names, s) && CallersOk(names, s)
    && (forall id :: id in s.started <==> id in s.workflows)
    && (forall j, k :: 0 <= j < k < |s.started| ==> s.started[j] != s.started[k])
  }

  // ---------------------------------------------------------------- it is kept

  /** Nothing is ever forgotten or rebound. */
  ghost predicate Grows(s: State, s': State) {
    && (forall slot :: slot in s.rows ==>
          slot in s'.rows && s'.rows[slot].hash == s.rows[slot].hash && s'.rows[slot].run == s.rows[slot].run)
    && s.artifacts <= s'.artifacts
    && (forall run :: run in s.tables.budgets ==> run in s'.tables.budgets)
    && (forall id :: id in s.workflows ==> id in s'.workflows && s'.workflows[id] == s.workflows[id])
  }

  lemma CallersStay(names: Names, s: State, s': State)
    requires Inv(names, s) && Grows(s, s') && s'.callers == s.callers
    ensures CallersOk(names, s')
  {
    forall i | i in s'.callers ensures CallerOkAt(names, s', i) {
      assert CallerOkAt(names, s, i);
    }
  }

  /** Rows may be added, and change their status. */
  lemma RowsMayGrow(names: Names, s: State, s': State)
    requires Inv(names, s) && Grows(s, s') && s' == s.(rows := s'.rows) && RowsOk(names, s')
    ensures Inv(names, s')
  {
    forall slot, request ensures BudgetOk(names, s', slot, request) {
      assert BudgetOk(names, s, slot, request);
    }
    forall slot ensures WorkflowOk(names, s', slot) {
      assert WorkflowOk(names, s, slot);
    }
    CallersStay(names, s, s');
  }

  lemma InsertKeeps(names: Names, s: State, slot: Slot, request: Request)
    requires names.Injective() && Inv(names, s)
    ensures Inv(names, Insert(names, s, slot, request)) && Grows(s, Insert(names, s, slot, request))
    ensures slot in Insert(names, s, slot, request).rows
  {
    var s' := Insert(names, s, slot, request);
    forall other | other in s'.rows ensures RowOk(names, s', other) {
      assert other in s.rows ==> RowOk(names, s, other);
    }
    RowsMayGrow(names, s, s');
  }

  lemma StoreKeeps(names: Names, s: State, artifact: Artifact)
    requires Inv(names, s)
    ensures var s' := s.(artifacts := s.artifacts + {artifact});
            Inv(names, s') && Grows(s, s')
  {
    var s' := s.(artifacts := s.artifacts + {artifact});
    SameRest(names, s, s');
    forall other ensures WorkflowOk(names, s', other) {
      assert WorkflowOk(names, s, other);
    }
    CallersStay(names, s, s');
  }

  lemma SameRest(names: Names, s: State, s': State)
    requires Inv(names, s) && s'.rows == s.rows && s'.tables == s.tables && s'.workflows == s.workflows
    ensures RowsOk(names, s') && BudgetsOk(names, s')
  {
    forall slot | slot in s'.rows ensures RowOk(names, s', slot) {
      assert RowOk(names, s, slot);
    }
    forall slot, request ensures BudgetOk(names, s', slot, request) {
      assert BudgetOk(names, s, slot, request);
    }
  }

  lemma BudgetKeeps(names: Names, s: State, slot: Slot, request: Request)
    requires names.Injective() && Inv(names, s) && request.maxCost > 0 && request.maxCalls > 0
    requires slot in s.rows && s.rows[slot].hash == names.hashOf(request)
    ensures var tx := Budgeted(names, s, slot, request);
            var s' := s.(tables := tx.0);
            tx.1.Ok? && Inv(names, s') && Grows(s, s') && names.runOf(slot) in s'.tables.budgets
  {
    var s' := s.(tables := Budgeted(names, s, slot, request).0);
    forall other, r ensures BudgetOk(names, s', other, r) {
      assert BudgetOk(names, s, other, r);
      if other == slot && names.hashOf(r) == names.hashOf(request) {
        assert r == request;
      }
    }
    forall other ensures WorkflowOk(names, s', other) {
      assert WorkflowOk(names, s, other);
    }
    forall other | other in s'.rows ensures RowOk(names, s', other) {
      assert RowOk(names, s, other);
    }
    CallersStay(names, s, s');
  }

  lemma StartKeeps(names: Names, s: State, slot: Slot, request: Request)
    requires names.Injective() && Inv(names, s)
    requires slot in s.rows && s.rows[slot].hash == names.hashOf(request)
    requires names.Stored(slot, request) in s.artifacts && names.runOf(slot) in s.tables.budgets
    ensures var s' := Start(names, s, slot, request);
            Inv(names, s') && Grows(s, s') && names.Workflow(slot) in s'.workflows
  {
    var s' := Start(names, s, slot, request);
    forall other ensures WorkflowOk(names, s', other) {
      assert WorkflowOk(names, s, other);
      if names.Workflow(other) == names.Workflow(slot) {
        assert other == slot;
      }
    }
    forall other, r ensures BudgetOk(names, s', other, r) {
      assert BudgetOk(names, s, other, r);
    }
    forall other | other in s'.rows ensures RowOk(names, s', other) {
      assert RowOk(names, s, other);
    }
    CallersStay(names, s, s');
  }

  lemma SetStatusKeeps(names: Names, s: State, slot: Slot, request: Request, status: RowStatus)
    requires Inv(names, s) && (status.Started? ==> names.Workflow(slot) in s.workflows)
    ensures var s' := SetStatus(names, s, slot, request, status);
            Inv(names, s') && Grows(s, s')
  {
    var s' := SetStatus(names, s, slot, request, status);
    forall other | other in s'.rows ensures RowOk(names, s', other) {
      assert RowOk(names, s, other);
    }
    RowsMayGrow(names, s, s');
  }

  lemma ElsewhereKeeps(names: Names, s: State, op: Op)
    requires Inv(names, s) && !op.Create?
    ensures var s' := s.(tables := Apply(s.tables, op));
            Inv(names, s') && Grows(s, s')
  {
    var s' := s.(tables := Apply(s.tables, op));
    ApplyAdvances(s.tables, op);
    SameBudgets(s.tables, op);
    forall slot, r ensures BudgetOk(names, s', slot, r) {
      assert BudgetOk(names, s, slot, r);
      var run := names.runOf(slot);
      assert run in s.tables.budgets ==> BudgetAdvances(s.tables.budgets[run], s'.tables.budgets[run]);
    }
    forall slot ensures WorkflowOk(names, s', slot) {
      assert WorkflowOk(names, s, slot);
    }
    forall slot | slot in s'.rows ensures RowOk(names, s', slot) {
      assert RowOk(names, s, slot);
    }
    CallersStay(names, s, s');
  }

  lemma SameBudgets(t: Tables, op: Op)
    requires !op.Create?
    ensures Apply(t, op).budgets.Keys == t.budgets.Keys
  {
  }

  /** A caller moves on, and the phase it enters fits the state. */
  lemma MoveOn(names: Names, s: State, i: nat, c: Caller)
    requires Inv(names, s) && CallerOk(names, s, c)
    ensures Inv(names, s.(callers := s.callers[i := c]))
  {
    var s' := s.(callers := s.callers[i := c]);
    SameRest(names, s, s');
    forall slot ensures WorkflowOk(names, s', slot) {
      assert WorkflowOk(names, s, slot);
    }
    forall j | j in s'.callers ensures CallerOkAt(names, s', j) {
      assert j != i ==> CallerOkAt(names, s, j);
    }
  }

  lemma CarryKeeps(names: Names, s: State, i: nat)
    requires names.Injective() && Inv(names, s) && i in s.callers
    ensures var c := s.callers[i];
            var s' := Carry(names, s, c);
            && Inv(names, s') && Grows(s, s') && s'.callers == s.callers
            && (c.phase.Inserting? ==> c.slot in s'.rows)
            && (c.phase.Storing? ==> names.Stored(c.slot, c.request) in s'.artifacts)
            && (c.phase.Budgeting? ==> names.runOf(c.slot) in s'.tables.budgets)
            && (c.phase.Starting? ==> names.Workflow(c.slot) in s'.workflows)
  {
    var c := s.callers[i];
    assert CallerOkAt(names, s, i);
    match c.phase
    case Inserting => InsertKeeps(names, s, c.slot, c.request);
    case Storing => StoreKeeps(names, s, names.Stored(c.slot, c.request));
    case Budgeting => BudgetKeeps(names, s, c.slot, c.request);
    case Starting => StartKeeps(names, s, c.slot, c.request);
    case Confirming => SetStatusKeeps(names, s, c.slot, c.request, Started);
    case Failing => SetStatusKeeps(names, s, c.slot, c.request, Failed);
    case _ =>
  }

  lemma AwaitKeeps(names: Names, s: State, i: nat, fate: Fate)
    requires names.Injective() && Inv(names, s) && i in s.callers
    ensures Inv(names, AwaitStep(names, s, i, fate)) && Grows(s, AwaitStep(names, s, i, fate))
  {
    var c := s.callers[i];
    CarryKeeps(names, s, i);
    var s' := if fate.Carried() then Carry(names, s, c) else s;
    FollowingFits(names, s, s', i, fate);
    MoveOn(names, s', i, c.(phase := Following(names, s, c, fate)));
  }

  lemma FollowingFits(names: Names, s: State, s': State, i: nat, fate: Fate)
    requires Inv(names, s) && i in s.callers && Grows(s, s') && (fate.Replied? ==> s' == Carry(names, s, s.callers[i]))
    requires var c := s.callers[i];
             && (fate.Replied? && c.phase.Inserting? ==> c.slot in s'.rows)
             && (fate.Replied? && c.phase.Storing? ==> names.Stored(c.slot, c.request) in s'.artifacts)
             && (fate.Replied? && c.phase.Budgeting? ==> names.runOf(c.slot) in s'.tables.budgets)
             && (fate.Replied? && c.phase.Starting? ==> names.Workflow(c.slot) in s'.workflows)
    ensures CallerOk(names, s', s.callers[i].(phase := Following(names, s, s.callers[i], fate)))
  {
    var c := s.callers[i];
    assert CallerOkAt(names, s, i);
    assert c.slot in s.rows ==> RowOk(names, s, c.slot);
  }

  lemma NextKeeps(names: Names, s: State, step: Step)
    requires names.Injective() && Inv(names, s)
    ensures Inv(names, Next(names, s, step)) && Grows(s, Next(names, s, step))
  {
    match step
    case Arrive(i, slot, request) =>
      if i !in s.callers && request.maxCost > 0 && request.maxCalls > 0 {
        MoveOn(names, s, i, Caller(slot, request, Inserting));
      }
    case Await(i, fate) =>
      if i in s.callers {
        AwaitKeeps(names, s, i, fate);
      }
    case Elsewhere(op) =>
      if !op.Create? {
        ElsewhereKeeps(names, s, op);
      }
  }

  lemma {:induction false} InvHolds(names: Names, steps: seq<Step>)
    requires names.Injective()
    ensures Inv(names, RunSteps(names, steps))
  {
    if steps != [] {
      InvHolds(names, steps[..|steps| - 1]);
      NextKeeps(names, RunSteps(names, steps[..|steps| - 1]), steps[|steps| - 1]);
    }
  }

  lemma ReachableInv(names: Names, s: State)
    requires names.Injective() && Reachable(names, s)
    ensures Inv(names, s)
  {
    var steps :| s == RunSteps(names, steps);
    InvHolds(names, steps);
  }

  // ---------------------------------------------------------------- what it means

  /** However often and however badly `create` is called, a workflow id is started at most once. */
  lemma OneStartPerSlot(names: Names, s: State, slot: Slot, j: nat, k: nat)
    requires names.Injective() && Reachable(names, s)
    requires j < |s.started| && k < |s.started| && s.started[j] == s.started[k] == names.Workflow(slot)
    ensures j == k
  {
    ReachableInv(names, s);
  }

  /** All request bodies accepted under one key are the same. */
  lemma AcceptedBodiesAgree(names: Names, s: State, i: nat, j: nat)
    requires names.Injective() && Reachable(names, s) && i in s.callers && j in s.callers
    requires s.callers[i].slot == s.callers[j].slot && Accepted(s.callers[i].phase) && Accepted(s.callers[j].phase)
    ensures s.callers[i].request == s.callers[j].request
  {
    ReachableInv(names, s);
    assert CallerOkAt(names, s, i) && CallerOkAt(names, s, j);
  }

  /**
   A started workflow has its request artifact and a budget with exactly that request's limits, and
   every accepted caller of its key asked for that request.
   */
  lemma StartedWorkflowIsReady(names: Names, s: State, slot: Slot)
    requires names.Injective() && Reachable(names, s) && names.Workflow(slot) in s.started
    ensures names.Workflow(slot) in s.workflows
    ensures var input := s.workflows[names.Workflow(slot)];
            && input in s.artifacts && input.run == names.runOf(slot) && input.tenant == slot.tenant
            && names.runOf(slot) in s.tables.budgets && Limits(s.tables.budgets[names.runOf(slot)], slot, input.request)
            && forall i :: i in s.callers && s.callers[i].slot == slot && Accepted(s.callers[i].phase) ==>
                 s.callers[i].request == input.request
  {
    ReachableInv(names, s);
    assert WorkflowOk(names, s, slot);
    var input := s.workflows[names.Workflow(slot)];
    assert BudgetOk(names, s, slot, input.request);
    forall i | i in s.callers && s.callers[i].slot == slot && Accepted(s.callers[i].phase)
      ensures s.callers[i].request == input.request
    {
      assert CallerOkAt(names, s, i);
    }
  }

  /** The caller was told that the run of `slot` exists. */
  predicate Succeeded(names: Names, c: Caller, slot: Slot) {
    c.slot == slot && (c.phase == Done(Created(names.runOf(slot))) || c.phase == Done(Existing(names.runOf(slot))))
  }

  /** `STARTED`, and every successful reply, mean that the workflow was started. */
  lemma StartedIsTrue(names: Names, s: State, slot: Slot)
    requires names.Injective() && Reachable(names, s) && slot in s.rows
    ensures s.rows[slot].status.Started? ==> names.Workflow(slot) in s.started
    ensures forall i :: i in s.callers && Succeeded(names, s.callers[i], slot) ==> names.Workflow(slot) in s.started
  {
    ReachableInv(names, s);
    assert RowOk(names, s, slot);
    forall i | i in s.callers && Succeeded(names, s.callers[i], slot) ensures names.Workflow(slot) in s.started {
      assert CallerOkAt(names, s, i);
    }
  }

  /** A key, once bound, keeps its request hash and run through everything that follows. */
  lemma {:induction false} BindingsLast(names: Names, steps: seq<Step>, n: nat, slot: Slot)
    requires names.Injective() && n <= |steps| && slot in RunSteps(names, steps[..n]).rows
    ensures slot in RunSteps(names, steps).rows
    ensures RunSteps(names, steps).rows[slot].hash == RunSteps(names, steps[..n]).rows[slot].hash
    ensures RunSteps(names, steps).rows[slot].run == RunSteps(names, steps[..n]).rows[slot].run
    decreases |steps| - n
  {
    if n == |steps| {
      assert steps[..n] == steps;
    } else {
      assert steps[..n + 1][..n] == steps[..n];
      InvHolds(names, steps[..n]);
      NextKeeps(names, RunSteps(names, steps[..n]), steps[n]);
      BindingsLast(names, steps, n + 1, slot);
    }
  }

  // ---------------------------------------------------------------- retries and late failures

  const AWAITS_TO_STORE: nat := 2
  const AWAITS_TO_START: nat := 4
  const AWAITS_TO_REPLY: nat := 6

  ghost function Iterate<S>(f: S -> S, s: S, n: nat): S {
    if n == 0 then s else f(Iterate(f, s, n - 1))
  }

  lemma {:induction false} IterateTwice<S>(f: S -> S, s: S, m: nat, n: nat)
    ensures Iterate(f, Iterate(f, s, m), n) == Iterate(f, s, m + n)
  {
    if n > 0 {
      IterateTwice(f, s, m, n - 1);
    }
  }

  ghost function Answer(names: Names, i: nat): State -> State {
    s => Next(names, s, Await(i, Replied))
  }

  /** Caller `i` gets `n` answers in a row. */
  ghost function Attend(names: Names, s: State, i: nat, n: nat): State {
    Iterate(Answer(names, i), s, n)
  }

  lemma AttendStep(names: Names, s: State, i: nat, n: nat)
    requires n > 0
    ensures Attend(names, s, i, n) == Next(names, Attend(names, s, i, n - 1), Await(i, Replied))
  {
  }

  lemma AttendOnce(names: Names, s: State, i: nat, n: nat)
    requires n > 0 && i in Attend(names, s, i, n - 1).callers
    ensures var before := Attend(names, s, i, n - 1);
            var c := before.callers[i];
            Attend(names, s, i, n) ==
              Carry(names, before, c).(callers := before.callers[i := c.(phase := Following(names, before, c, Replied))])
  {
  }

  /** A caller whose key is free, or bound to its own request and not started, is accepted. */
  lemma IsAccepted(names: Names, s: State, i: nat, slot: Slot, request: Request)
    requires i !in s.callers && request.maxCost > 0 && request.maxCalls > 0
    requires slot in s.rows ==> s.rows[slot].hash == names.hashOf(request) && !s.rows[slot].status.Started?
    ensures var s' := Attend(names, Next(names, s, Arrive(i, slot, request)), i, AWAITS_TO_STORE);
            && s'.callers == s.callers[i := Caller(slot, request, Storing)]
            && slot in s'.rows && s'.rows[slot].hash == names.hashOf(request)
  {
    var s0 := Next(names, s, Arrive(i, slot, request));
    AttendOnce(names, s0, i, 1);
    AttendOnce(names, s0, i, AWAITS_TO_STORE);
    assert Attend(names, s0, i, 1).callers == s.callers[i := Caller(slot, request, Selecting)];
  }

  lemma ReachesTheStart(names: Names, s: State, i: nat)
    requires var mid := Attend(names, s, i, AWAITS_TO_STORE);
             && i in mid.callers && mid.callers[i].phase.Storing? && mid.callers[i].slot in mid.rows
             && mid.callers[i].request.maxCost > 0 && mid.callers[i].request.maxCalls > 0
    ensures var mid := Attend(names, s, i, AWAITS_TO_STORE);
            var s' := Attend(names, s, i, AWAITS_TO_START);
            s'.callers == mid.callers[i := mid.callers[i].(phase := Starting)] && s'.rows == mid.rows
  {
    AttendOnce(names, s, i, AWAITS_TO_STORE + 1);
    AttendOnce(names, s, i, AWAITS_TO_START);
  }

  lemma GetsToTheStart(names: Names, s: State, i: nat, slot: Slot, request: Request)
    requires i !in s.callers && request.maxCost > 0 && request.maxCalls > 0
    requires slot in s.rows ==> s.rows[slot].hash == names.hashOf(request) && !s.rows[slot].status.Started?
    ensures var s' := Attend(names, Next(names, s, Arrive(i, slot, request)), i, AWAITS_TO_START);
            && s'.callers == s.callers[i := Caller(slot, request, Starting)]
            && slot in s'.rows && s'.rows[slot].hash == names.hashOf(request)
  {
    IsAccepted(names, s, i, slot, request);
    ReachesTheStart(names, Next(names, s, Arrive(i, slot, request)), i);
  }

  lemma StartAnswers(names: Names, s: State, i: nat)
    requires i in s.callers && s.callers[i].phase.Starting?
    ensures var c, s' := s.callers[i], Next(names, s, Await(i, Replied));
            && s'.callers == s.callers[i := c.(phase := Confirming)] && s'.rows == s.rows
            && names.Workflow(c.slot) in s'.workflows
  {
  }

  lemma ConfirmAnswers(names: Names, s: State, i: nat)
    requires i in s.callers && s.callers[i].phase.Confirming? && s.callers[i].slot in s.rows
    ensures var c, s' := s.callers[i], Next(names, s, Await(i, Replied));
            && s'.callers == s.callers[i := c.(phase := Done(Created(names.runOf(c.slot))))]
            && c.slot in s'.rows && s'.rows[c.slot].status.Started? && s'.workflows == s.workflows
  {
  }

  /** From the start to the reply. */
  lemma FinishesFromTheStart(names: Names, s: State, i: nat)
    requires i in s.callers && s.callers[i].phase.Starting? && s.callers[i].slot in s.rows
    ensures var c := s.callers[i];
            var s' := Attend(names, s, i, AWAITS_TO_REPLY - AWAITS_TO_START);
            && s'.callers == s.callers[i := c.(phase := Done(Created(names.runOf(c.slot))))]
            && c.slot in s'.rows && s'.rows[c.slot].status.Started? && names.Workflow(c.slot) in s'.workflows
  {
    var s1 := Next(names, s, Await(i, Replied));
    StartAnswers(names, s, i);
    ConfirmAnswers(names, s1, i);
    AttendStep(names, s, i, 1);
    AttendStep(names, s, i, AWAITS_TO_REPLY - AWAITS_TO_START);
  }

  lemma AttendTwice(names: Names, s: State, i: nat, m: nat, n: nat)
    ensures Attend(names, Attend(names, s, i, m), i, n) == Attend(names, s, i, m + n)
  {
    IterateTwice(Answer(names, i), s, m, n);
  }

  /**
   Whatever went wrong before, a retry of the accepted request that meets no further failure
   answers, and leaves the key `STARTED` with its workflow running.
   */
  lemma RetryHeals(names: Names, s: State, i: nat, slot: Slot, request: Request)
    requires names.Injective() && Reachable(names, s) && i !in s.callers && request.maxCost > 0 && request.maxCalls > 0
    requires slot in s.rows ==> s.rows[slot].hash == names.hashOf(request)
    ensures var s' := Attend(names, Next(names, s, Arrive(i, slot, request)), i, AWAITS_TO_REPLY);
            && i in s'.callers && Succeeded(names, s'.callers[i], slot)
            && slot in s'.rows && s'.rows[slot].status.Started? && names.Workflow(slot) in s'.workflows
  {
    var s0 := Next(names, s, Arrive(i, slot, request));
    if slot in s.rows && s.rows[slot].status.Started? {
      ReachableInv(names, s);
      assert RowOk(names, s, slot);
      AlreadyStarted(names, s, i, slot, request);
    } else {
      GetsToTheStart(names, s, i, slot, request);
      FinishesFromTheStart(names, Attend(names, s0, i, AWAITS_TO_START), i);
      AttendTwice(names, s0, i, AWAITS_TO_START, AWAITS_TO_REPLY - AWAITS_TO_START);
    }
  }

  lemma AlreadyStarted(names: Names, s: State, i: nat, slot: Slot, request: Request)
    requires i !in s.callers && request.maxCost > 0 && request.maxCalls > 0 && slot in s.rows
    requires s.rows[slot].hash == names.hashOf(request) && s.rows[slot].status.Started? && s.rows[slot].run == names.runOf(slot)
    ensures var s' := Attend(names, Next(names, s, Arrive(i, slot, request)), i, AWAITS_TO_REPLY);
            && s'.callers == s.callers[i := Caller(slot, request, Done(Existing(names.runOf(slot))))]
            && s'.rows == s.rows && s'.workflows == s.workflows
  {
    var s0 := Next(names, s, Arrive(i, slot, request));
    AttendOnce(names, s0, i, 1);
    AttendOnce(names, s0, i, 2);
    var s2 := Attend(names, s0, i, 2);
    assert s2.callers == s.callers[i := Caller(slot, request, Done(Existing(names.runOf(slot))))];
    DoneStays(names, s2, i, AWAITS_TO_REPLY - 2);
    AttendTwice(names, s0, i, 2, AWAITS_TO_REPLY - 2);
  }

  lemma {:induction false} DoneStays(names: Names, s: State, i: nat, n: nat)
    requires i in s.callers && s.callers[i].phase.Done?
    ensures Attend(names, s, i, n) == s
  {
    if n > 0 {
      DoneStays(names, s, i, n - 1);
      assert s.callers[i := s.callers[i]] == s.callers;
    }
  }

  lemma NextReachable(names: Names, s: State, step: Step)
    requires Reachable(names, s)
    ensures Reachable(names, Next(names, s, step))
  {
    var steps :| s == RunSteps(names, steps);
    assert (steps + [step])[..|steps|] == steps;
    assert Next(names, s, step) == RunSteps(names, steps + [step]);
  }

  lemma {:induction false} AttendReachable(names: Names, s: State, i: nat, n: nat)
    requires Reachable(names, s)
    ensures Reachable(names, Attend(names, s, i, n))
  {
    if n > 0 {
      AttendReachable(names, s, i, n - 1);
      NextReachable(names, Attend(names, s, i, n - 1), Await(i, Replied));
    }
  }

  /** The key reads `FAILED` although its run exists and a caller was told so. */
  ghost predicate WronglyFailed(names: Names, s: State, slot: Slot) {
    && Reachable(names, s) && slot in s.rows && s.rows[slot].status.Failed? && names.Workflow(slot) in s.started
    && exists i :: i in s.callers && Succeeded(names, s.callers[i], slot)
  }

  lemma FailsAfterItsStart(names: Names, s: State, c: Caller)
    requires s.callers == map[0 := c] && c.phase.Starting?
    ensures var s' := Next(names, s, Await(0, Lost(true)));
            s'.callers == map[0 := c.(phase := Failing)] && s'.rows == s.rows
  {
  }

  /** A first caller whose start goes through, and who is told it did not. */
  lemma FirstCaller(names: Names, slot: Slot, request: Request) returns (s: State)
    requires request.maxCost > 0 && request.maxCalls > 0
    ensures Reachable(names, s) && s.callers == map[0 := Caller(slot, request, Failing)]
    ensures slot in s.rows && s.rows[slot].hash == names.hashOf(request)
  {
    assert START == RunSteps(names, []);
    var a0 := Next(names, START, Arrive(0, slot, request));
    NextReachable(names, START, Arrive(0, slot, request));
    AttendReachable(names, a0, 0, AWAITS_TO_START);
    GetsToTheStart(names, START, 0, slot, request);
    var a4 := Attend(names, a0, 0, AWAITS_TO_START);
    FailsAfterItsStart(names, a4, Caller(slot, request, Starting));
    NextReachable(names, a4, Await(0, Lost(true)));
    s := Next(names, a4, Await(0, Lost(true)));
  }

  /**
   `STARTED` is not final: for every key and request, a caller whose start went through but
   reported an error can write `FAILED` after another caller has been told the run exists.
   */
  lemma LateFailureOverwrites(names: Names, slot: Slot, request: Request)
    requires names.Injective() && request.maxCost > 0 && request.maxCalls > 0
    ensures exists s :: WronglyFailed(names, s, slot)
  {
    var s := FirstCaller(names, slot, request);
    SecondCaller(names, s, slot, request);
  }

  /** A second caller starts the run of its key properly, before the first one writes its `FAILED`. */
  lemma SecondCaller(names: Names, s: State, slot: Slot, request: Request)
    requires names.Injective() && Reachable(names, s) && request.maxCost > 0 && request.maxCalls > 0
    requires s.callers == map[0 := Caller(slot, request, Failing)]
    requires slot in s.rows && s.rows[slot].hash == names.hashOf(request)
    ensures exists s' :: WronglyFailed(names, s', slot)
  {
    var b0 := Next(names, s, Arrive(1, slot, request));
    NextReachable(names, s, Arrive(1, slot, request));
    AttendReachable(names, b0, 1, AWAITS_TO_REPLY);
    RetryHeals(names, s, 1, slot, request);
    OthersWait(names, b0, 1, 0, AWAITS_TO_REPLY);
    FailedIsWritten(names, Attend(names, b0, 1, AWAITS_TO_REPLY), slot);
  }

  lemma FailedIsWritten(names: Names, s: State, slot: Slot)
    requires names.Injective() && Reachable(names, s) && slot in s.rows && s.rows[slot].status.Started?
    requires 0 in s.callers && s.callers[0].slot == slot && s.callers[0].phase.Failing?
    requires 1 in s.callers && Succeeded(names, s.callers[1], slot)
    ensures WronglyFailed(names, Next(names, s, Await(0, Replied)), slot)
  {
    StartedIsTrue(names, s, slot);
    NextReachable(names, s, Await(0, Replied));
    assert Succeeded(names, Next(names, s, Await(0, Replied)).callers[1], slot);
  }

  lemma {:induction false} OthersWait(names: Names, s: State, i: nat, j: nat, n: nat)
    requires i != j && j in s.callers
    ensures j in Attend(names, s, i, n).callers && Attend(names, s, i, n).callers[j] == s.callers[j]
  {
    if n > 0 {
      OthersWait(names, s, i, j, n - 1);
    }
  }
}
