/** What holds of the ledger after any sequence of transactions, however they interleave. */
module LedgerLaws {
  import opened Outcomes
  import opened Ledger

  datatype Op =
    | Create(run: Id, tenant: Id, maxCost: int, maxCalls: int)
    | Reserve(context: Context, key: string)
    | Settle(call: Id, usage: Usage)
    | Release(call: Id)
    | MarkUnknown(call: Id)

  /** The contexts the source can build: it validates a reservation as positive. */
  predicate ValidOp(op: Op) {
    op.Reserve? ==> op.context.reservation > 0
  }

  ghost function Apply(t: Tables, op: Op): Tables {
    match op
    case Create(run, tenant, maxCost, maxCalls) => CreateTx(t, run, tenant, maxCost, maxCalls).0
    case Reserve(c, key) => ReserveTx(t, c, key).0
    case Settle(call, usage) => SettleTx(t, call, usage).0
    case Release(call) => ReleaseTx(t, call).0
    case MarkUnknown(call) => MarkUnknownTx(t, call).0
  }

  ghost function ApplyAll(t: Tables, ops: seq<Op>): Tables {
    if ops == [] then t else Apply(ApplyAll(t, ops[..|ops| - 1]), ops[|ops| - 1])
  }

  lemma ApplyKeeps(t: Tables, op: Op)
    requires Consistent(t) && ValidOp(op)
    ensures Consistent(Apply(t, op))
  {
    match op
    case Create(run, tenant, maxCost, maxCalls) => CreateKeeps(t, run, tenant, maxCost, maxCalls);
    case Reserve(c, key) => ReserveKeeps(t, c, key);
    case Settle(call, usage) => SettleKeeps(t, call, usage);
    case Release(call) => ReleaseKeeps(t, call);
    case MarkUnknown(call) => MarkUnknownKeeps(t, call);
  }

  /** A call keeps what it was reserved for, and its status once that is no longer `Reserved`. */
  predicate CallAdvances(c: Call, c': Call) {
    && c'.(status := c.status, usage := c.usage) == c
    && (c.status.Reserved? || c' == c)
  }

  /** A budget keeps its limits; what is spent is never taken back. */
  predicate BudgetAdvances(b: Budget, b': Budget) {
    && b'.tenant == b.tenant && b'.maxCost == b.maxCost && b'.maxCalls == b.maxCalls
    && b'.spent >= b.spent && b'.settledCalls >= b.settledCalls && b'.version >= b.version
  }

  ghost predicate Advances(t: Tables, t': Tables) {
    && (forall id :: id in t.calls ==> id in t'.calls && CallAdvances(t.calls[id], t'.calls[id]))
    && (forall run :: run in t.budgets ==> run in t'.budgets && BudgetAdvances(t.budgets[run], t'.budgets[run]))
  }

  lemma ApplyAdvances(t: Tables, op: Op)
    ensures Advances(t, Apply(t, op))
  {
    var t' := Apply(t, op);
    forall id | id in t.calls ensures id in t'.calls && CallAdvances(t.calls[id], t'.calls[id]) {
    }
    forall run | run in t.budgets ensures run in t'.budgets && BudgetAdvances(t.budgets[run], t'.budgets[run]) {
    }
  }

  lemma AdvancesTransitive(t: Tables, t': Tables, t'': Tables)
    requires Advances(t, t') && Advances(t', t'')
    ensures Advances(t, t'')
  {
    forall id | id in t.calls ensures id in t''.calls && CallAdvances(t.calls[id], t''.calls[id]) {
      assert CallAdvances(t.calls[id], t'.calls[id]) && CallAdvances(t'.calls[id], t''.calls[id]);
    }
    forall run | run in t.budgets ensures run in t''.budgets && BudgetAdvances(t.budgets[run], t''.budgets[run]) {
      assert BudgetAdvances(t.budgets[run], t'.budgets[run]) && BudgetAdvances(t'.budgets[run], t''.budgets[run]);
    }
  }

  /** Conservation: from an empty store, every sequence of transactions leaves every budget equal to its calls. */
  lemma {:induction false} LedgerBalances(ops: seq<Op>)
    requires forall op :: op in ops ==> ValidOp(op)
    ensures Consistent(ApplyAll(EMPTY, ops))
  {
    if ops != [] {
      LedgerBalances(ops[..|ops| - 1]);
      assert ValidOp(ops[|ops| - 1]);
      ApplyKeeps(ApplyAll(EMPTY, ops[..|ops| - 1]), ops[|ops| - 1]);
    }
  }

  /** The limits in terms of the calls themselves, not of the counters. */
  lemma LimitsAreKept(ops: seq<Op>, run: Id)
    requires forall op :: op in ops ==> ValidOp(op)
    requires run in ApplyAll(EMPTY, ops).budgets
    ensures var t := ApplyAll(EMPTY, ops);
            && Total(SpentCost(run), t.calls) + Total(HeldCost(run), t.calls) <= t.budgets[run].maxCost
            && Total(SettledCalls(run), t.calls) + Total(HeldCalls(run), t.calls) <= t.budgets[run].maxCalls
  {
    LedgerBalances(ops);
    assert Balanced(ApplyAll(EMPTY, ops), run);
  }

  /** The sums with one call more. */
  ghost predicate Affordable(t: Tables, c: Context)
    requires c.run in t.budgets
  {
    && Total(SpentCost(c.run), t.calls) + Total(HeldCost(c.run), t.calls) + c.reservation <= t.budgets[c.run].maxCost
    && Total(SettledCalls(c.run), t.calls) + Total(HeldCalls(c.run), t.calls) + 1 <= t.budgets[c.run].maxCalls
  }

  /** Nobody holds the key or the id, and the calls of the run leave room for one more. */
  ghost predicate Grantable(t: Tables, c: Context, key: string) {
    && c.run in t.budgets && t.budgets[c.run].tenant == c.tenant
    && !HasKey(t, key) && c.call !in t.calls && Affordable(t, c)
  }

  /** A reservation is granted exactly when it can be. */
  lemma GrantedExactly(t: Tables, c: Context, key: string)
    requires Consistent(t) && c.reservation > 0
    ensures ReserveTx(t, c, key).1 == Ok(Reservation(c.call, Reserved, true)) <==> Grantable(t, c, key)
    ensures ReserveTx(t, c, key).0 == if Grantable(t, c, key) then Inserted(t, c, key) else t
  {
    if c.run in t.budgets {
      assert Balanced(t, c.run);
    }
  }

  /** A definite failure gives the whole reservation back: only the version remembers it. */
  lemma ReserveThenRelease(t: Tables, c: Context, key: string)
    requires Consistent(t) && c.reservation > 0
    requires ReserveTx(t, c, key).1 == Ok(Reservation(c.call, Reserved, true))
    ensures var t' := ReleaseTx(ReserveTx(t, c, key).0, c.call).0;
            && t'.budgets == t.budgets[c.run := t.budgets[c.run].(version := t.budgets[c.run].version + 2)]
            && c.call in t'.calls && t'.calls[c.call].status.Released? && t'.calls - {c.call} == t.calls
  {
    ReserveKeeps(t, c, key);
    ReleaseKeeps(Inserted(t, c, key), c.call);
    InsertThenRelease(t, c, key);
  }

  lemma InsertThenRelease(t: Tables, c: Context, key: string)
    requires c.run in t.budgets && c.call !in t.calls && ReleaseTx(Inserted(t, c, key), c.call).1.Ok?
    ensures var t' := ReleaseTx(Inserted(t, c, key), c.call).0;
            && t'.budgets == t.budgets[c.run := t.budgets[c.run].(version := t.budgets[c.run].version + 2)]
            && c.call in t'.calls && t'.calls[c.call].status.Released? && t'.calls - {c.call} == t.calls
  {
  }

  /** What `get_run_usage` sums. */
  datatype UsageTotals = UsageTotals(modelCalls: int, inputTokens: int, outputTokens: int, cost: int, unknownCalls: int)

  ghost function RunUsage(t: Tables, run: Id, tenant: Id): UsageTotals {
    UsageTotals(
      Total(SeenCalls(run, tenant), t.calls), Total(SeenInput(run, tenant), t.calls), Total(SeenOutput(run, tenant), t.calls),
      Total(SeenCost(run, tenant), t.calls), Total(SeenUnknown(run, tenant), t.calls))
  }

  ghost function Plus(a: UsageTotals, usage: Usage, unknown: int): UsageTotals {
    UsageTotals(a.modelCalls, a.inputTokens + usage.inputTokens, a.outputTokens + usage.outputTokens,
                a.cost + usage.cost, a.unknownCalls + unknown)
  }

  const NO_USAGE := Usage(0, 0, 0)

  /** What a row adds to the report of its own run and tenant. */
  lemma RowAdds(t: Tables, t': Tables, id: Id, c: Call, run: Id, tenant: Id)
    requires id in t.calls && t'.calls == t.calls[id := c] && c.run == t.calls[id].run && c.tenant == t.calls[id].tenant
    requires t.calls[id].usage.None? && t.calls[id].status.Reserved?
    ensures RunUsage(t', run, tenant) ==
              if c.run == run && c.tenant == tenant
              then Plus(RunUsage(t, run, tenant), if c.usage.Some? then c.usage.value else NO_USAGE, if c.status.Unknown? then 1 else 0)
              else RunUsage(t, run, tenant)
  {
    TotalWith(SeenCalls(run, tenant), t.calls, id, c);
    TotalWith(SeenInput(run, tenant), t.calls, id, c);
    TotalWith(SeenOutput(run, tenant), t.calls, id, c);
    TotalWith(SeenCost(run, tenant), t.calls, id, c);
    TotalWith(SeenUnknown(run, tenant), t.calls, id, c);
  }

  lemma ReservedHasNoUsage(t: Tables, id: Id)
    requires Consistent(t) && id in t.calls && t.calls[id].status.Reserved?
    ensures t.calls[id].usage.None?
  {
    assert GoodAt(t, id);
  }

  /** Settling a call adds exactly its usage to the report of its own run and tenant, and to no other. */
  lemma SettlingAddsUsage(t: Tables, id: Id, usage: Usage, run: Id, tenant: Id)
    requires Consistent(t) && id in t.calls && SettleTx(t, id, usage).1.Ok?
    ensures RunUsage(SettleTx(t, id, usage).0, run, tenant) ==
              if t.calls[id].run == run && t.calls[id].tenant == tenant then Plus(RunUsage(t, run, tenant), usage, 0)
              else RunUsage(t, run, tenant)
  {
    ReservedHasNoUsage(t, id);
    RowAdds(t, SettleTx(t, id, usage).0, id, t.calls[id].(status := Settled, usage := Some(usage)), run, tenant);
  }

  /** Marking a reserved call unknown adds one unknown call; releasing it adds nothing. */
  lemma EndingAddsNoUsage(t: Tables, id: Id, run: Id, tenant: Id)
    requires Consistent(t) && id in t.calls && t.calls[id].status.Reserved?
    ensures RunUsage(MarkUnknownTx(t, id).0, run, tenant) ==
              if t.calls[id].run == run && t.calls[id].tenant == tenant then Plus(RunUsage(t, run, tenant), NO_USAGE, 1)
              else RunUsage(t, run, tenant)
    ensures RunUsage(ReleaseTx(t, id).0, run, tenant) == RunUsage(t, run, tenant)
  {
    ReservedHasNoUsage(t, id);
    RowAdds(t, MarkUnknownTx(t, id).0, id, t.calls[id].(status := Unknown), run, tenant);
    if ReleaseTx(t, id).0 != t {
      RowAdds(t, ReleaseTx(t, id).0, id, t.calls[id].(status := Released), run, tenant);
    }
  }

  /** A new row adds its weight. */
  lemma NewWeight(m: Measure, calls: map<Id, Call>, id: Id, c: Call, weight: int)
    requires id !in calls && Weight(m, c) == weight
    ensures Total(m, calls[id := c]) == Total(m, calls) + weight
  {
    TotalWith(m, calls, id, c);
  }

  lemma NewRowAddsACall(t: Tables, t': Tables, id: Id, c: Call, run: Id, tenant: Id)
    requires id !in t.calls && t'.calls == t.calls[id := c] && c.usage.None? && c.status.Reserved?
    ensures RunUsage(t', run, tenant).modelCalls ==
              RunUsage(t, run, tenant).modelCalls + if c.run == run && c.tenant == tenant then 1 else 0
  {
    NewWeight(SeenCalls(run, tenant), t.calls, id, c, if c.run == run && c.tenant == tenant then 1 else 0);
  }

  lemma NewRowAddsNoUsage(t: Tables, t': Tables, id: Id, c: Call, run: Id, tenant: Id)
    requires id !in t.calls && t'.calls == t.calls[id := c] && c.usage.None? && c.status.Reserved?
    ensures var u, u' := RunUsage(t, run, tenant), RunUsage(t', run, tenant);
            u'.inputTokens == u.inputTokens && u'.outputTokens == u.outputTokens && u'.cost == u.cost && u'.unknownCalls == u.unknownCalls
  {
    NewWeight(SeenInput(run, tenant), t.calls, id, c, 0);
    NewWeight(SeenOutput(run, tenant), t.calls, id, c, 0);
    NewWeight(SeenCost(run, tenant), t.calls, id, c, 0);
    NewWeight(SeenUnknown(run, tenant), t.calls, id, c, 0);
  }

  /** A reservation that is granted adds one call. */
  lemma ReservingAddsACall(t: Tables, c: Context, key: string, run: Id, tenant: Id)
    requires Consistent(t) && c.reservation > 0 && Grantable(t, c, key)
    ensures var u, u' := RunUsage(t, run, tenant), RunUsage(ReserveTx(t, c, key).0, run, tenant);
            && u'.modelCalls == u.modelCalls + (if c.run == run && c.tenant == tenant then 1 else 0)
            && u'.inputTokens == u.inputTokens && u'.outputTokens == u.outputTokens && u'.cost == u.cost && u'.unknownCalls == u.unknownCalls
  {
    GrantedExactly(t, c, key);
    var call := Call(key, c.tenant, c.run, Reserved, c.reservation, None);
    NewRowAddsACall(t, Inserted(t, c, key), c.call, call, run, tenant);
    NewRowAddsNoUsage(t, Inserted(t, c, key), c.call, call, run, tenant);
  }

  lemma {:induction false} TotalSplits(run: Id, calls: map<Id, Call>)
    ensures Total(SettledCalls(run), calls) + Total(HeldCalls(run), calls) + Total(ReleasedCalls(run), calls) == Total(AllCalls(run), calls)
    decreases |calls|
  {
    if calls != map[] {
      var id :| id in calls;
      TotalWithout(SettledCalls(run), calls, id);
      TotalWithout(HeldCalls(run), calls, id);
      TotalWithout(ReleasedCalls(run), calls, id);
      TotalWithout(AllCalls(run), calls, id);
      TotalSplits(run, calls - {id});
    }
  }

  /** The usage report agrees with the budget; another tenant sees nothing. */
  lemma UsageMatchesBudget(t: Tables, run: Id, tenant: Id)
    requires Consistent(t) && run in t.budgets
    ensures tenant == t.budgets[run].tenant ==>
              && RunUsage(t, run, tenant).cost == t.budgets[run].spent
              && RunUsage(t, run, tenant).modelCalls ==
                   t.budgets[run].settledCalls + t.budgets[run].reservedCalls + Total(ReleasedCalls(run), t.calls)
              && RunUsage(t, run, tenant).unknownCalls <= t.budgets[run].reservedCalls
    ensures tenant != t.budgets[run].tenant ==> RunUsage(t, run, tenant) == UsageTotals(0, 0, 0, 0, 0)
  {
    SeenIsAll(t, run);
    assert Balanced(t, run);
    if tenant == t.budgets[run].tenant {
      OwnerSeesAll(t.calls, run, tenant);
    } else {
      OthersSeeNothing(t.calls, run, tenant);
    }
  }

  /** All calls of a run belong to the tenant of its budget. */
  lemma SeenIsAll(t: Tables, run: Id)
    requires Consistent(t) && run in t.budgets
    ensures forall id :: id in t.calls && t.calls[id].run == run ==>
              t.calls[id].tenant == t.budgets[run].tenant && (t.calls[id].status.Settled? <==> t.calls[id].usage.Some?)
  {
    forall id | id in t.calls && t.calls[id].run == run
      ensures t.calls[id].tenant == t.budgets[run].tenant && (t.calls[id].status.Settled? <==> t.calls[id].usage.Some?)
    {
      assert GoodAt(t, id);
    }
  }

  lemma OwnerSeesAll(calls: map<Id, Call>, run: Id, tenant: Id)
    requires forall id :: id in calls && calls[id].run == run ==>
               calls[id].tenant == tenant && (calls[id].status.Settled? <==> calls[id].usage.Some?)
    ensures Total(SeenCost(run, tenant), calls) == Total(SpentCost(run), calls)
    ensures Total(SeenCalls(run, tenant), calls) ==
              Total(SettledCalls(run), calls) + Total(HeldCalls(run), calls) + Total(ReleasedCalls(run), calls)
    ensures Total(SeenUnknown(run, tenant), calls) <= Total(HeldCalls(run), calls)
  {
    TotalSplits(run, calls);
    TotalAgrees(SeenCost(run, tenant), SpentCost(run), calls);
    TotalAgrees(SeenCalls(run, tenant), AllCalls(run), calls);
    TotalBelow(SeenUnknown(run, tenant), HeldCalls(run), calls);
  }

  lemma OthersSeeNothing(calls: map<Id, Call>, run: Id, tenant: Id)
    requires forall id :: id in calls && calls[id].run == run ==> calls[id].tenant != tenant
    ensures RunUsage(Tables(map[], calls), run, tenant) == UsageTotals(0, 0, 0, 0, 0)
  {
    TotalZero(SeenCalls(run, tenant), calls);
    TotalZero(SeenInput(run, tenant), calls);
    TotalZero(SeenOutput(run, tenant), calls);
    TotalZero(SeenCost(run, tenant), calls);
    TotalZero(SeenUnknown(run, tenant), calls);
  }

  lemma {:induction false} TotalBelow(m: Measure, n: Measure, calls: map<Id, Call>)
    requires forall id :: id in calls ==> Weight(m, calls[id]) <= Weight(n, calls[id])
    ensures Total(m, calls) <= Total(n, calls)
    decreases |calls|
  {
    if calls != map[] {
      var id :| id in calls;
      TotalWithout(m, calls, id);
      TotalWithout(n, calls, id);
      TotalBelow(m, n, calls - {id});
    }
  }
}
