/**
 The model budget ledger. Each store method is one transaction: it commits its whole effect, or
 raises and changes nothing. Money is counted in the smallest unit, as an integer.
 */
module Ledger {
  import opened Outcomes

  type Id = string

  datatype CallStatus = Reserved | Settled | Released | Unknown

  datatype Usage = Usage(inputTokens: nat, outputTokens: nat, cost: nat)

  datatype Call = Call(key: string, tenant: Id, run: Id, status: CallStatus, reserved: int, usage: Option<Usage>)

  datatype Budget = Budget(
    tenant: Id, maxCost: int, maxCalls: int,
    spent: int, reserved: int, settledCalls: int, reservedCalls: int, version: nat)

  /** Who asks for a call, and the most it may cost; the source validates that as positive. */
  datatype Context = Context(call: Id, tenant: Id, run: Id, reservation: int)

  datatype Reservation = Reservation(call: Id, status: CallStatus, created: bool)

  datatype LedgerError =
    | InvalidLimits | NoBudget | CostExceeded | CallsExceeded | DuplicateCall
    | NoCall | NotReserved(status: CallStatus) | OverReserved | NegativeCount

  /** The two tables, by primary key. */
  datatype Tables = Tables(budgets: map<Id, Budget>, calls: map<Id, Call>)

  type Committed<T> = (Tables, Result<T, LedgerError>)

  const EMPTY := Tables(map[], map[])

  // ---------------------------------------------------------------- adding up

  /** A quantity summed over calls, either of one run or of one run as one tenant sees it. */
  datatype Measure =
    | HeldCost(run: Id) | HeldCalls(run: Id) | SpentCost(run: Id) | SettledCalls(run: Id) | ReleasedCalls(run: Id)
    | AllCalls(run: Id)
    | SeenCalls(run: Id, tenant: Id) | SeenCost(run: Id, tenant: Id) | SeenUnknown(run: Id, tenant: Id)
    | SeenInput(run: Id, tenant: Id) | SeenOutput(run: Id, tenant: Id)

  predicate Held(c: Call) {
    c.status.Reserved? || c.status.Unknown?
  }

  function Weight(m: Measure, c: Call): int {
    if c.run != m.run then 0
    else match m
      case HeldCost(_) => if Held(c) then c.reserved else 0
      case HeldCalls(_) => if Held(c) then 1 else 0
      case SpentCost(_) => if c.status.Settled? && c.usage.Some? then c.usage.value.cost else 0
      case SettledCalls(_) => if c.status.Settled? then 1 else 0
      case ReleasedCalls(_) => if c.status.Released? then 1 else 0
      case AllCalls(_) => 1
      case SeenCalls(_, tenant) => if c.tenant == tenant then 1 else 0
      case SeenCost(_, tenant) => if c.tenant == tenant && c.usage.Some? then c.usage.value.cost else 0
      case SeenUnknown(_, tenant) => if c.tenant == tenant && c.status.Unknown? then 1 else 0
      case SeenInput(_, tenant) => if c.tenant == tenant && c.usage.Some? then c.usage.value.inputTokens else 0
      case SeenOutput(_, tenant) => if c.tenant == tenant && c.usage.Some? then c.usage.value.outputTokens else 0
  }

  ghost function Total(m: Measure, calls: map<Id, Call>): int {
    if calls == map[] then 0
    else
      var id :| id in calls;
      Weight(m, calls[id]) + Total(m, calls - {id})
  }

  /** The order in which the calls are added does not matter. */
  lemma {:induction false} TotalWithout(m: Measure, calls: map<Id, Call>, id: Id)
    requires id in calls
    ensures Total(m, calls) == Weight(m, calls[id]) + Total(m, calls - {id})
    decreases |calls|
  {
    var first :| first in calls && Total(m, calls) == Weight(m, calls[first]) + Total(m, calls - {first});
    if first != id {
      TotalWithout(m, calls - {first}, id);
      TotalWithout(m, calls - {id}, first);
      assert calls - {first} - {id} == calls - {id} - {first};
    }
  }

  lemma TotalWith(m: Measure, calls: map<Id, Call>, id: Id, c: Call)
    ensures Total(m, calls[id := c]) == Total(m, calls) + Weight(m, c) - if id in calls then Weight(m, calls[id]) else 0
  {
    TotalWithout(m, calls[id := c], id);
    assert calls[id := c] - {id} == calls - {id};
    if id in calls {
      TotalWithout(m, calls, id);
    } else {
      assert calls - {id} == calls;
    }
  }

  lemma {:induction false} TotalAtLeast(m: Measure, calls: map<Id, Call>)
    requires forall id :: id in calls ==> Weight(m, calls[id]) >= 0
    ensures Total(m, calls) >= 0
    ensures forall id :: id in calls ==> Total(m, calls) >= Weight(m, calls[id])
    decreases |calls|
  {
    forall id | id in calls ensures Total(m, calls) >= Weight(m, calls[id]) {
      TotalWithout(m, calls, id);
      TotalAtLeast(m, calls - {id});
    }
    if calls != map[] {
      var id :| id in calls;
      assert Total(m, calls) >= Weight(m, calls[id]) >= 0;
    }
  }

  lemma {:induction false} TotalAgrees(m: Measure, n: Measure, calls: map<Id, Call>)
    requires forall id :: id in calls ==> Weight(m, calls[id]) == Weight(n, calls[id])
    ensures Total(m, calls) == Total(n, calls)
    decreases |calls|
  {
    if calls != map[] {
      var id :| id in calls;
      TotalWithout(m, calls, id);
      TotalWithout(n, calls, id);
      TotalAgrees(m, n, calls - {id});
    }
  }

  // ---------------------------------------------------------------- what each transaction does

  function CreateTx(t: Tables, run: Id, tenant: Id, maxCost: int, maxCalls: int): Committed<()> {
    if maxCost <= 0 || maxCalls <= 0 then (t, Err(InvalidLimits))
    else if run in t.budgets then (t, Ok(()))
    else (t.(budgets := t.budgets[run := Budget(tenant, maxCost, maxCalls, 0, 0, 0, 0, 1)]), Ok(()))
  }

  predicate HasKey(t: Tables, key: string) {
    exists id :: id in t.calls && t.calls[id].key == key
  }

  function Inserted(t: Tables, c: Context, key: string): Tables
    requires c.run in t.budgets
  {
    var b := t.budgets[c.run];
    var b' := b.(reserved := b.reserved + c.reservation, reservedCalls := b.reservedCalls + 1, version := b.version + 1);
    Tables(t.budgets[c.run := b'], t.calls[c.call := Call(key, c.tenant, c.run, Reserved, c.reservation, None)])
  }

  ghost function ReserveTx(t: Tables, c: Context, key: string): Committed<Reservation> {
    if c.run !in t.budgets || t.budgets[c.run].tenant != c.tenant then (t, Err(NoBudget))
    else if HasKey(t, key) then
      var id :| id in t.calls && t.calls[id].key == key;
      (t, Ok(Reservation(id, t.calls[id].status, false)))
    else
      var b := t.budgets[c.run];
      if b.spent + b.reserved + c.reservation > b.maxCost then (t, Err(CostExceeded))
      else if b.settledCalls + b.reservedCalls >= b.maxCalls then (t, Err(CallsExceeded))
      else if c.call in t.calls then (t, Err(DuplicateCall))
      else (Inserted(t, c, key), Ok(Reservation(c.call, Reserved, true)))
  }

  /** The reservation is taken off the budget, and `cost` is spent if the call is settled. */
  function Discharged(b: Budget, reserved: int, settled: Option<int>): Budget {
    var off := b.(reserved := b.reserved - reserved, reservedCalls := b.reservedCalls - 1, version := b.version + 1);
    if settled.Some? then off.(spent := b.spent + settled.value, settledCalls := b.settledCalls + 1) else off
  }

  /** Write the call and its budget back, unless a counter became negative. */
  function Close(t: Tables, call: Id, c: Call, b: Budget): Committed<()> {
    if b.reserved < 0 || b.reservedCalls < 0 then (t, Err(NegativeCount))
    else (Tables(t.budgets[c.run := b], t.calls[call := c]), Ok(()))
  }

  function SettleTx(t: Tables, call: Id, usage: Usage): Committed<()> {
    if call !in t.calls then (t, Err(NoCall))
    else
      var c := t.calls[call];
      if c.run !in t.budgets then (t, Err(NoBudget))
      else if !c.status.Reserved? then (t, Err(NotReserved(c.status)))
      else if usage.cost > c.reserved then (t, Err(OverReserved))
      else
        Close(t, call, c.(status := Settled, usage := Some(usage)), Discharged(t.budgets[c.run], c.reserved, Some(usage.cost)))
  }

  function ReleaseTx(t: Tables, call: Id): Committed<()> {
    if call !in t.calls then (t, Err(NoCall))
    else
      var c := t.calls[call];
      if c.run !in t.budgets then (t, Err(NoBudget))
      else if !c.status.Reserved? then (t, Ok(()))
      else Close(t, call, c.(status := Released), Discharged(t.budgets[c.run], c.reserved, None))
  }

  function MarkUnknownTx(t: Tables, call: Id): Committed<()> {
    if call !in t.calls then (t, Err(NoCall))
    else if !t.calls[call].status.Reserved? then (t, Ok(()))
    else (t.(calls := t.calls[call := t.calls[call].(status := Unknown)]), Ok(()))
  }

  // ---------------------------------------------------------------- the ledger balances

  predicate GoodCall(t: Tables, c: Call) {
    && c.run in t.budgets && t.budgets[c.run].tenant == c.tenant && c.reserved > 0
    && (c.status.Settled? <==> c.usage.Some?)
    && (c.usage.Some? ==> c.usage.value.cost <= c.reserved)
  }

  /** A budget's counters are the sums over its calls, and keep within the limits. */
  ghost predicate Balanced(t: Tables, run: Id)
    requires run in t.budgets
  {
    var b := t.budgets[run];
    && b.reserved == Total(HeldCost(run), t.calls) && b.reservedCalls == Total(HeldCalls(run), t.calls)
    && b.spent == Total(SpentCost(run), t.calls) && b.settledCalls == Total(SettledCalls(run), t.calls)
    && b.spent + b.reserved <= b.maxCost && b.settledCalls + b.reservedCalls <= b.maxCalls
  }

  predicate SameKey(t: Tables, i: Id, j: Id) {
    i in t.calls && j in t.calls && t.calls[i].key == t.calls[j].key
  }

  ghost predicate KeysUnique(t: Tables) {
    forall i, j :: SameKey(t, i, j) ==> i == j
  }

  predicate GoodAt(t: Tables, id: Id) {
    id in t.calls && GoodCall(t, t.calls[id])
  }

  ghost predicate AllGood(t: Tables) {
    forall id {:trigger GoodAt(t, id)} :: id in t.calls ==> GoodAt(t, id)
  }

  ghost predicate AllBalanced(t: Tables) {
    forall run {:trigger Balanced(t, run)} :: run in t.budgets ==> Balanced(t, run)
  }

  ghost predicate Consistent(t: Tables) {
    AllGood(t) && KeysUnique(t) && AllBalanced(t)
  }

  /** By how much a sum changes when `call` becomes `c`. */
  function Change(m: Measure, calls: map<Id, Call>, call: Id, c: Call): int {
    Weight(m, c) - if call in calls then Weight(m, calls[call]) else 0
  }

  /** A budget follows its calls: its counters move as the sums do, within the limits. */
  predicate Follows(b: Budget, b': Budget, run: Id, calls: map<Id, Call>, call: Id, c: Call) {
    && b'.tenant == b.tenant
    && b'.reserved == b.reserved + Change(HeldCost(run), calls, call, c)
    && b'.reservedCalls == b.reservedCalls + Change(HeldCalls(run), calls, call, c)
    && b'.spent == b.spent + Change(SpentCost(run), calls, call, c)
    && b'.settledCalls == b.settledCalls + Change(SettledCalls(run), calls, call, c)
    && b'.spent + b'.reserved <= b'.maxCost && b'.settledCalls + b'.reservedCalls <= b'.maxCalls
  }

  lemma Rebalanced(t: Tables, t': Tables, call: Id, c: Call, run: Id)
    requires run in t.budgets && run in t'.budgets && Balanced(t, run) && t'.calls == t.calls[call := c]
    requires Follows(t.budgets[run], t'.budgets[run], run, t.calls, call, c)
    ensures Balanced(t', run)
  {
    TotalWith(HeldCost(run), t.calls, call, c);
    TotalWith(HeldCalls(run), t.calls, call, c);
    TotalWith(SpentCost(run), t.calls, call, c);
    TotalWith(SettledCalls(run), t.calls, call, c);
  }

  /** One call is written, with its run's budget: the ledger stays consistent if that budget follows. */
  lemma OneCallWritten(t: Tables, t': Tables, call: Id, c: Call, b': Budget)
    requires Consistent(t) && GoodCall(t, c) && t' == Tables(t.budgets[c.run := b'], t.calls[call := c])
    requires Follows(t.budgets[c.run], b', c.run, t.calls, call, c)
    requires if call in t.calls then c.key == t.calls[call].key && c.run == t.calls[call].run else !HasKey(t, c.key)
    ensures Consistent(t')
  {
    forall run | run in t'.budgets ensures Balanced(t', run) {
      assert Balanced(t, run);
      if run == c.run {
        Rebalanced(t, t', call, c, run);
      } else {
        assert Follows(t.budgets[run], t'.budgets[run], run, t.calls, call, c);
        Rebalanced(t, t', call, c, run);
      }
    }
    CallsStayGood(t, t', call, c, b');
  }

  lemma CallsStayGood(t: Tables, t': Tables, call: Id, c: Call, b': Budget)
    requires Consistent(t) && GoodCall(t, c) && t' == Tables(t.budgets[c.run := b'], t.calls[call := c])
    requires b'.tenant == t.budgets[c.run].tenant
    requires if call in t.calls then c.key == t.calls[call].key else !HasKey(t, c.key)
    ensures AllGood(t') && KeysUnique(t')
  {
    forall id | id in t'.calls ensures GoodAt(t', id) {
      assert id != call ==> GoodAt(t, id);
    }
    forall i, j | SameKey(t', i, j) ensures i == j {
      if i != call && j != call {
        assert SameKey(t, i, j);
      } else if call in t.calls {
        assert SameKey(t, i, j);
      }
    }
  }

  lemma CreateKeeps(t: Tables, run: Id, tenant: Id, maxCost: int, maxCalls: int)
    requires Consistent(t)
    ensures Consistent(CreateTx(t, run, tenant, maxCost, maxCalls).0)
  {
    var t' := CreateTx(t, run, tenant, maxCost, maxCalls).0;
    if t' != t {
      OneBudgetMore(t, t', run);
      SameCallsStayGood(t, t');
    }
  }

  lemma OneBudgetMore(t: Tables, t': Tables, run: Id)
    requires AllGood(t) && AllBalanced(t) && run !in t.budgets && t'.calls == t.calls
    requires run in t'.budgets && t'.budgets == t.budgets[run := t'.budgets[run]]
    requires var b := t'.budgets[run];
             b.spent == b.reserved == b.settledCalls == b.reservedCalls == 0 && b.maxCost >= 0 && b.maxCalls >= 0
    ensures AllBalanced(t')
  {
    forall r | r in t'.budgets ensures Balanced(t', r) {
      if r == run {
        NewRunIsBalanced(t, t', r);
      } else {
        SameRunIsBalanced(t, t', r);
      }
    }
  }

  lemma SameCallsStayGood(t: Tables, t': Tables)
    requires AllGood(t) && KeysUnique(t) && t'.calls == t.calls
    requires forall run :: run in t.budgets ==> run in t'.budgets && t'.budgets[run] == t.budgets[run]
    ensures AllGood(t') && KeysUnique(t')
  {
    forall id | id in t'.calls ensures GoodAt(t', id) {
      assert GoodAt(t, id);
    }
    forall i, j | SameKey(t', i, j) ensures i == j {
      assert SameKey(t, i, j);
    }
  }

  lemma SameRunIsBalanced(t: Tables, t': Tables, run: Id)
    requires AllBalanced(t) && run in t.budgets && run in t'.budgets && t'.budgets[run] == t.budgets[run] && t'.calls == t.calls
    ensures Balanced(t', run)
  {
    assert Balanced(t, run);
  }

  /** A run without a budget has no calls, so a fresh budget is right about them. */
  lemma NewRunIsBalanced(t: Tables, t': Tables, run: Id)
    requires AllGood(t) && run !in t.budgets && run in t'.budgets && t'.calls == t.calls
    requires var b := t'.budgets[run];
             b.spent == b.reserved == b.settledCalls == b.reservedCalls == 0 && b.maxCost >= 0 && b.maxCalls >= 0
    ensures Balanced(t', run)
  {
    forall id | id in t.calls ensures t.calls[id].run != run {
      assert GoodAt(t, id);
    }
    TotalZero(HeldCost(run), t.calls);
    TotalZero(HeldCalls(run), t.calls);
    TotalZero(SpentCost(run), t.calls);
    TotalZero(SettledCalls(run), t.calls);
  }

  lemma {:induction false} TotalZero(m: Measure, calls: map<Id, Call>)
    requires forall id :: id in calls ==> Weight(m, calls[id]) == 0
    ensures Total(m, calls) == 0
    decreases |calls|
  {
    if calls != map[] {
      var id :| id in calls;
      TotalWithout(m, calls, id);
      TotalZero(m, calls - {id});
    }
  }

  lemma ReserveKeeps(t: Tables, c: Context, key: string)
    requires Consistent(t) && c.reservation > 0
    ensures Consistent(ReserveTx(t, c, key).0)
  {
    var (t', r) := ReserveTx(t, c, key);
    if r.Ok? && r.value.created {
      assert Balanced(t, c.run);
      OneCallWritten(t, t', c.call, t'.calls[c.call], t'.budgets[c.run]);
    }
  }

  /** Closing a held call under its budget keeps the ledger balanced, and is never refused. */
  lemma CloseKeeps(t: Tables, call: Id, c: Call, settled: Option<int>)
    requires Consistent(t) && call in t.calls && t.calls[call].status.Reserved? && c.run in t.budgets
    requires c == if settled.Some? then t.calls[call].(status := Settled, usage := c.usage)
                  else t.calls[call].(status := Released)
    requires settled.Some? ==> c.usage.Some? && c.usage.value.cost == settled.value <= c.reserved
    ensures var (t', r) := Close(t, call, c, Discharged(t.budgets[c.run], c.reserved, settled));
            Consistent(t') && r.Ok?
  {
    var run := c.run;
    assert GoodAt(t, call) && Balanced(t, run);
    HeldIsCounted(t, call);
    var b' := Discharged(t.budgets[run], c.reserved, settled);
    OneCallWritten(t, Tables(t.budgets[run := b'], t.calls[call := c]), call, c, b');
  }

  lemma HeldIsCounted(t: Tables, call: Id)
    requires Consistent(t) && call in t.calls && Held(t.calls[call])
    ensures var c := t.calls[call];
            c.run in t.budgets && t.budgets[c.run].reserved >= c.reserved && t.budgets[c.run].reservedCalls >= 1
  {
    var c := t.calls[call];
    assert GoodAt(t, call) && Balanced(t, c.run);
    forall id | id in t.calls ensures Weight(HeldCost(c.run), t.calls[id]) >= 0 {
      assert GoodAt(t, id);
    }
    TotalAtLeast(HeldCost(c.run), t.calls);
    TotalAtLeast(HeldCalls(c.run), t.calls);
    assert Weight(HeldCost(c.run), c) == c.reserved && Weight(HeldCalls(c.run), c) == 1;
  }

  lemma SettleKeeps(t: Tables, call: Id, usage: Usage)
    requires Consistent(t)
    ensures Consistent(SettleTx(t, call, usage).0)
    ensures SettleTx(t, call, usage).1 != Err(NegativeCount)
    ensures SettleTx(t, call, usage).1.Ok? <==>
              call in t.calls && t.calls[call].status.Reserved? && usage.cost <= t.calls[call].reserved
  {
    if call in t.calls {
      var c := t.calls[call];
      assert GoodAt(t, call);
      if c.status.Reserved? && usage.cost <= c.reserved {
        CloseKeeps(t, call, c.(status := Settled, usage := Some(usage)), Some(usage.cost));
      }
    }
  }

  lemma ReleaseKeeps(t: Tables, call: Id)
    requires Consistent(t)
    ensures Consistent(ReleaseTx(t, call).0)
    ensures ReleaseTx(t, call).1 != Err(NegativeCount)
    ensures ReleaseTx(t, call).1.Ok? <==> call in t.calls
  {
    if call in t.calls {
      var c := t.calls[call];
      assert GoodAt(t, call);
      if c.status.Reserved? {
        CloseKeeps(t, call, c.(status := Released), None);
      }
    }
  }

  lemma MarkUnknownKeeps(t: Tables, call: Id)
    requires Consistent(t)
    ensures Consistent(MarkUnknownTx(t, call).0)
  {
    if call in t.calls && t.calls[call].status.Reserved? {
      var c := t.calls[call];
      assert GoodAt(t, call) && Balanced(t, c.run);
      assert t.budgets[c.run := t.budgets[c.run]] == t.budgets;
      OneCallWritten(t, MarkUnknownTx(t, call).0, call, c.(status := Unknown), t.budgets[c.run]);
    }
  }
}

/**
 The store: the same transactions, carried out step by step on copies of the rows that are
 written back together. That they keep the ledger consistent is proved of the transactions.
 */
module BudgetStores {
  import opened Outcomes
  import opened Ledger

  class BudgetStore {
    var budgets: map<Id, Budget>
    var calls: map<Id, Call>

    function Contents(): Tables
      reads this
    {
      Tables(budgets, calls)
    }

    constructor ()
      ensures Contents() == EMPTY
    {
      budgets, calls := map[], map[];
    }

    method CreateBudget(run: Id, tenant: Id, maxCost: int, maxCalls: int) returns (r: Result<(), LedgerError>)
      modifies this
      ensures (Contents(), r) == CreateTx(old(Contents()), run, tenant, maxCost, maxCalls)
    {
      if maxCost <= 0 || maxCalls <= 0 {
        return Err(InvalidLimits);
      }
      if run in budgets {
        return Ok(());
      }
      budgets := budgets[run := Budget(tenant, maxCost, maxCalls, 0, 0, 0, 0, 1)];
      return Ok(());
    }

    method Reserve(c: Context, key: string) returns (r: Result<Reservation, LedgerError>)
      modifies this
      ensures Contents() == ReserveTx(old(Contents()), c, key).0
      ensures KeysUnique(old(Contents())) ==> r == ReserveTx(old(Contents()), c, key).1
    {
      if c.run !in budgets || budgets[c.run].tenant != c.tenant {
        return Err(NoBudget);
      }
      var budget := budgets[c.run];
      if id :| id in calls && calls[id].key == key {
        forall other | other in calls && calls[other].key == key ensures KeysUnique(Contents()) ==> other == id {
          assert SameKey(Contents(), other, id);
        }
        return Ok(Reservation(id, calls[id].status, false));
      }
      var projectedCost := budget.spent + budget.reserved + c.reservation;
      if projectedCost > budget.maxCost {
        return Err(CostExceeded);
      }
      if budget.settledCalls + budget.reservedCalls >= budget.maxCalls {
        return Err(CallsExceeded);
      }
      budget := budget.(reserved := budget.reserved + c.reservation);
      budget := budget.(reservedCalls := budget.reservedCalls + 1);
      budget := budget.(version := budget.version + 1);
      if c.call in calls {
        return Err(DuplicateCall);
      }
      budgets := budgets[c.run := budget];
      calls := calls[c.call := Call(key, c.tenant, c.run, Reserved, c.reservation, None)];
      return Ok(Reservation(c.call, Reserved, true));
    }

    method LockCallAndBudget(id: Id) returns (r: Result<(Call, Budget), LedgerError>)
      ensures r == if id !in calls then Err(NoCall)
                   else if calls[id].run !in budgets then Err(NoBudget)
                   else Ok((calls[id], budgets[calls[id].run]))
    {
      if id !in calls {
        return Err(NoCall);
      }
      if calls[id].run !in budgets {
        return Err(NoBudget);
      }
      return Ok((calls[id], budgets[calls[id].run]));
    }

    method Settle(id: Id, usage: Usage) returns (r: Result<(), LedgerError>)
      modifies this
      ensures (Contents(), r) == SettleTx(old(Contents()), id, usage)
    {
      var locked :- LockCallAndBudget(id);
      var (call, budget) := locked;
      if !call.status.Reserved? {
        return Err(NotReserved(call.status));
      }
      if usage.cost > call.reserved {
        return Err(OverReserved);
      }
      call := call.(status := Settled, usage := Some(usage));
      budget := budget.(reserved := budget.reserved - call.reserved);
      budget := budget.(reservedCalls := budget.reservedCalls - 1);
      budget := budget.(spent := budget.spent + usage.cost);
      budget := budget.(settledCalls := budget.settledCalls + 1);
      budget := budget.(version := budget.version + 1);
      if budget.reserved < 0 || budget.reservedCalls < 0 {
        return Err(NegativeCount);
      }
      budgets, calls := budgets[call.run := budget], calls[id := call];
      return Ok(());
    }

    method Release(id: Id) returns (r: Result<(), LedgerError>)
      modifies this
      ensures (Contents(), r) == ReleaseTx(old(Contents()), id)
    {
      var locked :- LockCallAndBudget(id);
      var (call, budget) := locked;
      if !call.status.Reserved? {
        return Ok(());
      }
      call := call.(status := Released);
      budget := budget.(reserved := budget.reserved - call.reserved);
      budget := budget.(reservedCalls := budget.reservedCalls - 1);
      budget := budget.(version := budget.version + 1);
      if budget.reserved < 0 || budget.reservedCalls < 0 {
        return Err(NegativeCount);
      }
      budgets, calls := budgets[call.run := budget], calls[id := call];
      return Ok(());
    }

    method MarkUnknown(id: Id) returns (r: Result<(), LedgerError>)
      modifies this
      ensures (Contents(), r) == MarkUnknownTx(old(Contents()), id)
    {
      if id !in calls {
        return Err(NoCall);
      }
      if calls[id].status.Reserved? {
        calls := calls[id := calls[id].(status := Unknown)];
      }
      return Ok(());
    }
  }
}
