/** An order's receivables: what generate_for_order issues, and what no later command changes. */
module InstallmentPlan {
  import opened Prelude
  import opened Settlement
  import opened CustomerLedger
  import opened LedgerInvariant

  function Share(order: Order, kind: Installment): int {
    if kind == Deposit then order.deposit else order.total - order.deposit
  }

  predicate SameFace(a: Receivable, b: Receivable) {
    a.order == b.order && a.installment == b.installment && a.amount == b.amount && a.due == b.due
      && a.currency == b.currency
  }

  ghost predicate Planned(s: Ledger, r: Id)
    requires r in s.receivables
  {
    var receivable := s.receivables[r];
    && receivable.order in s.orders
    && receivable.amount == Share(s.orders[receivable.order], receivable.installment)
    && receivable.amount > 0
  }

  ghost predicate Issued(s: Ledger, o: Id, kind: Installment) {
    exists r :: r in s.receivables && s.receivables[r].order == o && s.receivables[r].installment == kind
  }

  ghost predicate Complete(s: Ledger, r: Id, kind: Installment)
    requires r in s.receivables && s.receivables[r].order in s.orders
  {
    Share(s.orders[s.receivables[r].order], kind) > 0 ==> Issued(s, s.receivables[r].order, kind)
  }

  ghost predicate OneOfEach(receivables: map<Id, Receivable>) {
    forall r, x :: r in receivables && x in receivables && SameSlot(receivables[r], receivables[x]) ==> r == x
  }

  predicate SameSlot(a: Receivable, b: Receivable) { a.order == b.order && a.installment == b.installment }

  /** Every receivable is one installment of its order; an order has no installment twice; and once
      it has any, it has all that are positive. */
  ghost predicate Plan(s: Ledger) {
    && (forall r {:trigger Planned(s, r)} :: r in s.receivables ==> Planned(s, r))
    && OneOfEach(s.receivables)
    && (forall r, kind {:trigger Complete(s, r, kind)} :: r in s.receivables && s.receivables[r].order in s.orders ==>
      Complete(s, r, kind))
  }

  // ---- What a decision writes -------------------------------------------------------------------

  lemma {:induction false} AllocateFaces(c: Command, f: Facts)
    requires c.Allocate? && f.Ordered() && f.receivables.Keys == AmountById(c.items).Keys
    ensures var written := AllocateDelta(c, f, AmountById(c.items)).receivables;
      forall r :: r in written ==> r in f.receivables && SameFace(written[r], f.receivables[r])
  {
  }

  lemma {:induction false} DecisionKeepsFaces(c: Command, companies: set<Id>, f: Facts)
    requires f.Ordered() && !c.Generate? && Decide(c, companies, f).Accept?
    ensures var written := Decide(c, companies, f).delta.receivables;
      forall r :: r in written ==> r in f.receivables && SameFace(written[r], f.receivables[r])
  {
    match c
    case Create(_, _, _, _) =>
    case Allocate(_, _, _, _) =>
      AllocateShape(c, f);
      AllocateFaces(c, f);
    case Reverse(_, _, _) => ReverseShape(c, f);
    case RefreshRows(_, _) =>
    case PlaceOrder(_, _) =>
    case MoveOrder(_, _, _) =>
  }

  lemma {:induction false} GenerateIssues(c: Command, f: Facts)
    requires c.Generate? && DecideGenerate(c, f).Accept?
    ensures c.order in f.orders
    ensures f.receivables != map[] ==> DecideGenerate(c, f).delta == NoChange
    ensures f.receivables == map[] ==>
      var order := f.orders[c.order];
      && (order.deposit > 0 ==> RequestedDepositDue(c, order).Some?)
      && DecideGenerate(c, f).delta
         == NoChange.(receivables := IssuedDeposit(c, order, RequestedDepositDue(c, order)) + IssuedBalance(c, order))
  {
  }

  lemma {:induction false} DecisionOrders(c: Command, companies: set<Id>, f: Facts)
    requires f.Ordered() && Decide(c, companies, f).Accept? && (c.Generate? ==> c.depositId != c.balanceId)
    ensures var written := Decide(c, companies, f).delta.orders;
      || written == map[]
      || (c.PlaceOrder? && written == map[c.order := c.placed])
      || (c.MoveOrder? && c.order in f.orders
          && written == map[c.order := f.orders[c.order].(status := c.status, hasShipments := c.hasShipments)])
  {
    match c
    case Create(_, _, _, _) =>
    case Allocate(_, _, _, _) => AllocateShape(c, f);
    case Reverse(_, _, _) => ReverseShape(c, f);
    case Generate(_, _, _, _, _, _) => GenerateShape(c, f);
    case RefreshRows(_, _) =>
    case PlaceOrder(_, _) =>
    case MoveOrder(_, _, _) =>
  }

  // ---- Kept by every command --------------------------------------------------------------------

  ghost predicate SameFaces(s: Ledger, s': Ledger) {
    && s'.receivables.Keys == s.receivables.Keys
    && (forall r :: r in s.receivables ==> SameFace(s'.receivables[r], s.receivables[r]))
    && (forall o :: o in s.orders ==>
      o in s'.orders && s'.orders[o].total == s.orders[o].total && s'.orders[o].deposit == s.orders[o].deposit)
  }

  lemma {:induction false} FacesKeepPlan(s: Ledger, s': Ledger)
    requires Plan(s) && SameFaces(s, s')
    ensures Plan(s')
  {
    forall r | r in s'.receivables ensures Planned(s', r) {
      assert Planned(s, r);
    }
    forall r, kind | r in s'.receivables && s'.receivables[r].order in s'.orders ensures Complete(s', r, kind) {
      assert Planned(s, r) && Complete(s, r, kind);
      if Issued(s, s.receivables[r].order, kind) {
        var x :| x in s.receivables && s.receivables[x].order == s.receivables[r].order
          && s.receivables[x].installment == kind;
        assert s'.receivables[x].installment == kind;
      }
    }
  }

  ghost predicate Issues(s: Ledger, s': Ledger, c: Command, order: Order, due: Option<int>) {
    && c.Generate? && c.depositId != c.balanceId && c.order in s.orders && order == s.orders[c.order]
    && c.depositId !in s.receivables && c.balanceId !in s.receivables
    && (order.deposit > 0 ==> due.Some?)
    && (forall r :: r in s.receivables ==> s.receivables[r].order != c.order)
    && s'.orders == s.orders
    && s'.receivables == s.receivables + (IssuedDeposit(c, order, due) + IssuedBalance(c, order))
  }

  lemma {:induction false} IssueKeepsComplete(s: Ledger, s': Ledger, c: Command, order: Order, due: Option<int>, r: Id,
      kind: Installment)
    requires Plan(s) && Issues(s, s', c, order, due) && r in s'.receivables && s'.receivables[r].order in s'.orders
    ensures Complete(s', r, kind)
  {
    if r in s.receivables {
      assert Planned(s, r) && Complete(s, r, kind);
      if Issued(s, s.receivables[r].order, kind) {
        var x :| x in s.receivables && s.receivables[x].order == s.receivables[r].order
          && s.receivables[x].installment == kind;
        assert s'.receivables[x].installment == kind;
      }
    } else if Share(order, kind) > 0 {
      var x := if kind == Deposit then c.depositId else c.balanceId;
      assert x in s'.receivables && s'.receivables[x].order == c.order && s'.receivables[x].installment == kind;
    }
  }

  lemma {:induction false} IssueKeepsPlan(s: Ledger, s': Ledger, c: Command, order: Order, due: Option<int>)
    requires Plan(s) && Issues(s, s', c, order, due)
    ensures Plan(s')
  {
    forall r | r in s'.receivables ensures Planned(s', r) {
      if r in s.receivables {
        assert Planned(s, r);
      }
    }
    forall r, kind | r in s'.receivables && s'.receivables[r].order in s'.orders ensures Complete(s', r, kind) {
      IssueKeepsComplete(s, s', c, order, due, r, kind);
    }
    IssueKeepsOneOfEach(s, s', c, order, due);
  }

  lemma {:induction false} IssueKeepsOneOfEach(s: Ledger, s': Ledger, c: Command, order: Order, due: Option<int>)
    requires OneOfEach(s.receivables) && Issues(s, s', c, order, due)
    ensures OneOfEach(s'.receivables)
  {
  }

  lemma {:induction false} GenerateKeepsPlan(s: Ledger, c: Command, f: Facts)
    requires Plan(s) && c.Generate? && Admissible(s, c) && DecideGenerate(c, f).Accept?
    requires f.orders == Restrict(s.orders, {c.order})
    requires f.receivables == Restrict(s.receivables, set r | r in s.receivables && s.receivables[r].order == c.order)
    ensures Plan(Commit(s, DecideGenerate(c, f).delta))
  {
    GenerateIssues(c, f);
    var d := DecideGenerate(c, f).delta;
    PlainCommit(s, d);
    if f.receivables == map[] {
      forall r | r in s.receivables ensures s.receivables[r].order != c.order {
        assert r !in f.receivables;
      }
      IssueKeepsPlan(s, Commit(s, d), c, s.orders[c.order], RequestedDepositDue(c, s.orders[c.order]));
    }
  }

  lemma {:induction false} OtherKeepsPlan(s: Ledger, c: Command, f: Facts)
    requires Plan(s) && !c.Generate? && Admissible(s, c) && f.Ordered() && Decide(c, s.companies, f).Accept?
    requires forall r :: r in f.receivables ==> r in s.receivables && f.receivables[r] == s.receivables[r]
    requires forall o :: o in f.orders ==> o in s.orders && f.orders[o] == s.orders[o]
    ensures Plan(Commit(s, Decide(c, s.companies, f).delta))
  {
    var d := Decide(c, s.companies, f).delta;
    DecisionKeepsFaces(c, s.companies, f);
    DecisionOrders(c, s.companies, f);
    FacesKeepPlan(s, Commit(s, d));
  }

  lemma {:induction false} PlanKept(s: Ledger, c: Command)
    requires Plan(s) && Admissible(s, c)
    ensures Plan(Apply(s, c).0)
  {
    var f := Observe(s, c);
    if Decide(c, s.companies, f).Accept? {
      if c.Generate? {
        GenerateKeepsPlan(s, c, f);
      } else {
        OtherKeepsPlan(s, c, f);
      }
    }
  }

  lemma {:induction false} RunKeepsPlan(s: Ledger, commands: seq<Command>)
    requires Empty(s) && AdmissibleRun(s, commands)
    ensures Plan(Run(s, commands))
    decreases |commands|
  {
    if commands != [] {
      RunKeepsPlan(s, commands[..|commands| - 1]);
      PlanKept(Run(s, commands[..|commands| - 1]), commands[|commands| - 1]);
    }
  }

  // ---- The installments of an order -------------------------------------------------------------

  ghost function ReceivablesFor(s: Ledger, o: Id): set<Id> {
    set r | r in s.receivables && s.receivables[r].order == o
  }

  ghost function InstallmentTotal(s: Ledger, o: Id): int {
    SumOver(ReceivablesFor(s, o), (r: Id) => if r in s.receivables then s.receivables[r].amount else 0)
  }

  lemma {:induction false} AtMostTwo(s: Ledger, o: Id, first: Id, second: Id)
    requires Plan(s) && first in ReceivablesFor(s, o) && second in ReceivablesFor(s, o) && first != second
    ensures ReceivablesFor(s, o) == {first, second}
    ensures s.receivables[first].installment != s.receivables[second].installment
  {
  }

  lemma {:induction false} OneInstallment(s: Ledger, o: Id, first: Id)
    requires first in ReceivablesFor(s, o) && ReceivablesFor(s, o) - {first} == {}
    ensures InstallmentTotal(s, o) == s.receivables[first].amount
    ensures forall kind :: Issued(s, o, kind) ==> kind == s.receivables[first].installment
  {
    var ids := ReceivablesFor(s, o);
    SumOverPick(ids, first, (r: Id) => if r in s.receivables then s.receivables[r].amount else 0);
    forall kind | Issued(s, o, kind) ensures kind == s.receivables[first].installment {
      var r :| r in s.receivables && s.receivables[r].order == o && s.receivables[r].installment == kind;
      assert r in ids && (r == first || r in ids - {first});
    }
  }

  lemma {:induction false} TwoInstallments(s: Ledger, o: Id, first: Id, second: Id)
    requires Plan(s) && first in ReceivablesFor(s, o) && second in ReceivablesFor(s, o) && first != second
    ensures InstallmentTotal(s, o) == s.receivables[first].amount + s.receivables[second].amount
    ensures s.receivables[first].installment != s.receivables[second].installment
  {
    var amount := (r: Id) => if r in s.receivables then s.receivables[r].amount else 0;
    AtMostTwo(s, o, first, second);
    SumOverPick({first, second}, first, amount);
    assert {first, second} - {first} == {second};
    SumOverPick({second}, second, amount);
    assert {second} - {second} == {};
  }

  /** The installments add up to the order exactly when its deposit is within its total; with a larger
      deposit there is only the deposit row, and it is too much. */
  lemma {:induction false} InstallmentsSumToTotal(s: Ledger, o: Id)
    requires Plan(s) && o in s.orders && ReceivablesFor(s, o) != {}
    requires s.orders[o].total >= 0 && s.orders[o].deposit >= 0
    ensures InstallmentTotal(s, o) == s.orders[o].total <==> s.orders[o].deposit <= s.orders[o].total
  {
    var first :| first in ReceivablesFor(s, o);
    assert Planned(s, first) && Complete(s, first, Deposit) && Complete(s, first, Balance);
    if ReceivablesFor(s, o) - {first} == {} {
      OneInstallment(s, o, first);
    } else {
      var second :| second in ReceivablesFor(s, o) - {first};
      assert Planned(s, second);
      TwoInstallments(s, o, first, second);
    }
  }

  /** quantize_money(total * rate): total and rate in units of 10^-4, rounded half up. */
  function DepositOf(total: nat, rate: nat): nat { (2 * total * rate + 10000) / 20000 }

  /** A deposit rate is between 0 and 1, so every order is placed with its deposit within its total. */
  lemma {:induction false} DepositWithinTotal(total: nat, rate: nat)
    requires rate <= 10000
    ensures DepositOf(total, rate) <= total
    ensures 20000 * DepositOf(total, rate) - 10000 <= 2 * (total * rate) < 20000 * DepositOf(total, rate) + 10000
    ensures rate == 0 ==> DepositOf(total, rate) == 0
    ensures rate == 10000 ==> DepositOf(total, rate) == total
  {
    assert total * rate <= total * 10000;
  }

  ghost predicate DepositsWithinTotals(s: Ledger) {
    forall o :: o in s.orders ==> 0 <= s.orders[o].deposit <= s.orders[o].total
  }

  lemma {:induction false} CommitKeepsDeposits(s: Ledger, d: Delta)
    requires DepositsWithinTotals(s) && forall o :: o in d.orders ==> 0 <= d.orders[o].deposit <= d.orders[o].total
    ensures DepositsWithinTotals(Commit(s, d))
  {
  }

  lemma {:induction false} DepositsKept(s: Ledger, c: Command)
    requires DepositsWithinTotals(s) && Admissible(s, c)
    ensures DepositsWithinTotals(Apply(s, c).0)
  {
    var f := Observe(s, c);
    if Decide(c, s.companies, f).Accept? {
      DecisionOrders(c, s.companies, f);
      CommitKeepsDeposits(s, Decide(c, s.companies, f).delta);
    }
  }

  lemma {:induction false} RunKeepsDeposits(s: Ledger, commands: seq<Command>)
    requires Empty(s) && AdmissibleRun(s, commands)
    ensures DepositsWithinTotals(Run(s, commands))
    decreases |commands|
  {
    if commands != [] {
      RunKeepsDeposits(s, commands[..|commands| - 1]);
      DepositsKept(Run(s, commands[..|commands| - 1]), commands[|commands| - 1]);
    }
  }

  /** In every reachable ledger the installments of an order, once it has any, add up to its total. */
  lemma {:induction false} OrderFullyBilled(s: Ledger, commands: seq<Command>, o: Id)
    requires Empty(s) && AdmissibleRun(s, commands) && ReceivablesFor(Run(s, commands), o) != {}
    ensures o in Run(s, commands).orders
    ensures InstallmentTotal(Run(s, commands), o) == Run(s, commands).orders[o].total
  {
    RunKeepsPlan(s, commands);
    RunKeepsDeposits(s, commands);
    var r :| r in ReceivablesFor(Run(s, commands), o);
    assert Planned(Run(s, commands), r);
    InstallmentsSumToTotal(Run(s, commands), o);
  }

  // ---- Reversal finds everything it looks up ----------------------------------------------------

  lemma {:induction false} TargetsFound(s: Ledger, p: Id, f: Facts)
    requires RowsLinked(s) && SeesReversal(s, p, f)
    ensures Targets(f.own) <= f.receivables.Keys && Targets(f.own) <= f.totals.Keys
  {
  }

  lemma {:induction false} OrdersFound(s: Ledger, f: Facts, ids: set<Id>)
    requires Plan(s) && f.receivables == Restrict(s.receivables, ids)
    requires f.orders == Restrict(s.orders, OrderIds(f.receivables))
    ensures OrderIds(f.receivables) <= f.orders.Keys
  {
    forall r | r in f.receivables ensures f.receivables[r].order in s.orders {
      assert Planned(s, r);
    }
  }

  lemma {:induction false} ReversalFound(payments: map<Id, Payment>, p: Id)
    requires PaymentsLinked(payments) && p in payments && payments[p].kind == Receipt && payments[p].status == Reversed
    ensures ReversalOf(payments, p).Some?
  {
    assert Linked(payments, p);
    var q :| q in payments && payments[q].reversalOf == Some(p);
  }

  lemma {:induction false} ReverseErrors(c: Command, f: Facts)
    requires c.Reverse?
    requires c.payment in f.payments && f.payments[c.payment].kind == Receipt ==>
      if f.payments[c.payment].status == Reversed then f.reversal.Some?
      else LookupsHit(f)
    ensures DecideReverse(c, f) != Reject(LookupMissed) && DecideReverse(c, f) != Reject(ReversalInconsistent)
  {
  }

  lemma {:induction false} FactsSuffice(s: Ledger, c: Command, f: Facts)
    requires PaymentsLinked(s.payments) && RowsLinked(s) && Plan(s) && c.Reverse? && ReadsReverse(s, c, f)
    ensures DecideReverse(c, f) != Reject(LookupMissed) && DecideReverse(c, f) != Reject(ReversalInconsistent)
  {
    if c.payment in ActiveReceipts(s.payments) {
      TargetsFound(s, c.payment, f);
      OrdersFound(s, f, Targets(f.own));
    } else if c.payment in ReversedReceipts(s.payments) && s.payments[c.payment].kind == Receipt {
      ReversalFound(s.payments, c.payment);
    }
    ReverseErrors(c, f);
  }

  /** The dictionary lookups of reverse() never miss, and a reversed receipt has its reversal. */
  lemma {:induction false} LookupsNeverMiss(s: Ledger, c: Command)
    requires Invariant(s) && Plan(s) && c.Reverse?
    ensures Apply(s, c).1 != Err(LookupMissed) && Apply(s, c).1 != Err(ReversalInconsistent)
  {
    var f := Observe(s, c);
    ObservesReverse(s, c);
    FactsSuffice(s, c, f);
    ReverseApplies(s, c);
  }
}
