/** What reverse() answers and writes, said in terms of the tables. */
module ReversalAnswers {
  import opened Prelude
  import opened Settlement
  import opened CustomerLedger
  import opened LedgerInvariant
  import opened InstallmentPlan
  import opened LedgerLaws

  /** A row that only a compensating workflow may undo: it settles a receivable of a completed order, or
      the deposit of an order that has shipments. */
  ghost predicate BlocksReversal(s: Ledger, row: Row) {
    && row.target in s.receivables && s.receivables[row.target].order in s.orders
    && var order := s.orders[s.receivables[row.target].order];
       order.status == Completed || (s.receivables[row.target].installment == Deposit && order.hasShipments)
  }

  ghost predicate Blocked(s: Ledger, p: Id) {
    exists row :: row in s.rows && row.payment == p && BlocksReversal(s, row)
  }

  // ---- The answer ---------------------------------------------------------------------------------------

  lemma {:induction false} FactsBlock(s: Ledger, c: Command, f: Facts)
    requires RowsLinked(s) && Plan(s) && c.Reverse? && ReadsReverse(s, c, f) && c.payment in ActiveReceipts(s.payments)
    ensures Blocked(s, c.payment) <==>
      (exists o :: o in f.orders && f.orders[o].status == Completed) || DepositOnShippedOrder(f)
  {
    TargetsFound(s, c.payment, f);
    OrdersFound(s, f, Targets(f.own));
    if Blocked(s, c.payment) {
      var row :| row in s.rows && row.payment == c.payment && BlocksReversal(s, row);
      assert row in f.own && row.target in Targets(f.own) && row.target in f.receivables;
      assert f.receivables[row.target].order in OrderIds(f.receivables);
    }
    if o :| o in f.orders && f.orders[o].status == Completed {
      var r :| r in f.receivables && f.receivables[r].order == o;
      TargetBlocks(s, c, f, r);
    }
    if r :| r in f.receivables && f.receivables[r].installment == Deposit
            && f.receivables[r].order in f.orders && f.orders[f.receivables[r].order].hasShipments {
      TargetBlocks(s, c, f, r);
    }
  }

  lemma {:induction false} TargetBlocks(s: Ledger, c: Command, f: Facts, r: Id)
    requires c.Reverse? && ReadsReverse(s, c, f) && c.payment in ActiveReceipts(s.payments) && r in f.receivables
    requires f.receivables[r].order in f.orders
    requires var order := f.orders[f.receivables[r].order];
      order.status == Completed || (f.receivables[r].installment == Deposit && order.hasShipments)
    ensures Blocked(s, c.payment)
  {
    var row :| row in f.own && row.target == r;
    assert BlocksReversal(s, row);
  }

  lemma {:induction false} ActiveAnswer(s: Ledger, c: Command, f: Facts)
    requires RowsLinked(s) && Plan(s) && c.Reverse? && ReadsReverse(s, c, f) && c.payment in ActiveReceipts(s.payments)
    ensures DecideReverse(c, f).Accept? <==> !Blocked(s, c.payment)
    ensures DecideReverse(c, f).Reject? ==> DecideReverse(c, f) == Reject(ReversalRequiresReview)
    ensures DecideReverse(c, f).Accept? ==> DecideReverse(c, f).reply == [c.reversal]
  {
    TargetsFound(s, c.payment, f);
    OrdersFound(s, f, Targets(f.own));
    FactsBlock(s, c, f);
  }

  lemma {:induction false} ActiveAnswers(s: Ledger, c: Command)
    requires RowsLinked(s) && Plan(s) && c.Reverse? && c.payment in ActiveReceipts(s.payments)
    ensures Apply(s, c).1 == if Blocked(s, c.payment) then Err(ReversalRequiresReview) else Ok([c.reversal])
  {
    ObservesReverse(s, c);
    ReverseApplies(s, c);
    ActiveAnswer(s, c, Observe(s, c));
  }

  lemma {:induction false} RowsFound(s: Ledger, row: Row)
    requires RowsLinked(s) && Plan(s) && row in s.rows
    ensures row.target in s.receivables && s.receivables[row.target].order in s.orders
  {
    assert Planned(s, row.target);
  }

  /** An active receipt is reversed if and only if no row of it settles a receivable of a completed order,
      nor the deposit of an order that has shipments; otherwise it is left for review. */
  lemma {:induction false} ReverseAnswers(s: Ledger, commands: seq<Command>, c: Command)
    requires Empty(s) && AdmissibleRun(s, commands) && c.Reverse? && c.payment in Run(s, commands).payments
    requires var receipt := Run(s, commands).payments[c.payment]; receipt.kind == Receipt && receipt.status == Active
    ensures var now := Run(s, commands);
      && (Apply(now, c).1.Ok? <==> forall row :: row in now.rows && row.payment == c.payment ==>
            && row.target in now.receivables && now.receivables[row.target].order in now.orders
            && now.orders[now.receivables[row.target].order].status != Completed
            && (now.receivables[row.target].installment == Deposit ==>
                  !now.orders[now.receivables[row.target].order].hasShipments))
      && (Apply(now, c).1.Ok? ==> Apply(now, c).1 == Ok([c.reversal]))
      && (Apply(now, c).1.Err? ==> Apply(now, c).1 == Err(ReversalRequiresReview))
  {
    var now := Run(s, commands);
    RunKeeps(s, commands);
    RunKeepsPlan(s, commands);
    ActiveAnswers(now, c);
    forall row | row in now.rows
      ensures row.target in now.receivables && now.receivables[row.target].order in now.orders
    {
      RowsFound(now, row);
    }
  }

  /** Every other payment: unknown, itself a reversal, or already reversed. */
  lemma {:induction false} OtherAnswers(s: Ledger, c: Command)
    requires Invariant(s) && c.Reverse?
    ensures c.payment !in s.payments ==> Apply(s, c).1 == Err(PaymentNotFound)
    ensures c.payment in s.payments && s.payments[c.payment].kind == ReversalPayment ==>
      Apply(s, c).1 == Err(ReversalNotReversible)
    ensures
      c.payment in s.payments && s.payments[c.payment].kind == Receipt && s.payments[c.payment].status == Reversed ==>
      exists q :: q in s.payments && s.payments[q].reversalOf == Some(c.payment) && Apply(s, c) == (s, Ok([q]))
  {
    ObservesReverse(s, c);
    ReverseApplies(s, c);
    if c.payment in s.payments && s.payments[c.payment].kind == Receipt && s.payments[c.payment].status == Reversed {
      assert Linked(s.payments, c.payment);
      var q :| q in s.payments && s.payments[q].reversalOf == Some(c.payment);
      RepeatedReverse(s, c, q);
    }
  }

  // ---- What an accepted reversal writes ------------------------------------------------------------------

  /** What is left on a receivable decides its status; only the due date tells the unpaid ones apart. */
  function PaidDownTo(receivable: Receivable, paid: int, today: int): Receivable {
    if paid > 0 then receivable.(status := PartiallyPaid, paidAt := None)
    else if receivable.due > today then receivable.(status := ReceivableStatus.Pending, paidAt := None)
    else if receivable.due == today then receivable.(status := Due, paidAt := None)
    else receivable.(status := Overdue, paidAt := None)
  }

  lemma {:induction false} UnsettledIs(receivable: Receivable, paid: int, today: int)
    requires 0 <= paid < receivable.amount
    ensures Unsettled(receivable, paid, today) == PaidDownTo(receivable, paid, today)
  {
  }

  ghost predicate Settles(s: Ledger, p: Id, r: Id) {
    exists row :: row in s.rows && row.payment == p && row.target == r
  }

  lemma {:induction false} SettledTargets(s: Ledger, p: Id, r: Id)
    ensures r in Targets(RowsOf(s.rows, p)) <==> Settles(s, p, r)
  {
    if row :| row in s.rows && row.payment == p && row.target == r {
      assert row in RowsOf(s.rows, p);
    }
  }

  /** What is left on a settled receivable: less than before, so less than its amount. */
  lemma {:induction false} LeftOver(s: Ledger, s': Ledger, c: Command, r: Id)
    requires Invariant(s) && c.Reverse? && Reverses(s, s', c.payment, c.reversal, c.today) && r in s.receivables
    ensures Net(s'.rows, r) == Net(s.rows, r) - UsedOn(s.rows, c.payment, r)
    ensures Settles(s, c.payment, r) ==> 0 <= Net(s'.rows, r) < s.receivables[r].amount
  {
    assert StatusAgrees(s.receivables[r], Net(s.rows, r));
    assert forall row :: row in s.rows && row.payment == c.payment ==> row.kind == Allocation;
    ReverseTakesBack(s.rows, c.payment, c.reversal, r);
    if Settles(s, c.payment, r) {
      SettledTargets(s, c.payment, r);
      SomeShare(s.rows, c.payment, r);
      ReverseKeeps(s, s', c.payment, c.reversal, c.today);
      assert StatusAgrees(s'.receivables[r], Net(s'.rows, r));
    }
  }

  lemma {:induction false} PaidDown(s: Ledger, s': Ledger, c: Command, r: Id)
    requires Invariant(s) && c.Reverse? && Reverses(s, s', c.payment, c.reversal, c.today) && r in s.receivables
    ensures s'.receivables[r] ==
      if Settles(s, c.payment, r) then PaidDownTo(s.receivables[r], Net(s'.rows, r), c.today) else s.receivables[r]
  {
    SettledTargets(s, c.payment, r);
    LeftOver(s, s', c, r);
    if Settles(s, c.payment, r) {
      UnsettledIs(s.receivables[r], Net(s'.rows, r), c.today);
    }
  }

  /** One opposite row for each row of the receipt, in their order; a reversal payment of the same company,
      currency and amount; and the receivables' new statuses. */
  lemma {:induction false} ReversePosts(s: Ledger, c: Command)
    requires Invariant(s) && c.Reverse? && Admissible(s, c) && c.payment in ActiveReceipts(s.payments)
    requires Apply(s, c).1.Ok?
    ensures var s', original := Apply(s, c).0, s.payments[c.payment];
      s'.payments == s.payments[c.payment := original.(status := Reversed)]
        [c.reversal := Payment(
           original.company, original.currency, original.amount, ReversalPayment, Active, Some(c.payment))]
    ensures var s', own := Apply(s, c).0, RowsOf(s.rows, c.payment);
      && |s'.rows| == |s.rows| + |own| && s'.rows[..|s.rows|] == s.rows
      && forall k :: 0 <= k < |own| ==>
        s'.rows[|s.rows| + k] == Row(|s.rows| + k, c.reversal, own[k].target, Reversal, own[k].amount, Some(own[k].id))
    ensures var s' := Apply(s, c).0;
      && s'.receivables.Keys == s.receivables.Keys
      && forall r :: r in s.receivables ==>
        s'.receivables[r] ==
          if Settles(s, c.payment, r) then PaidDownTo(s.receivables[r], Net(s'.rows, r), c.today) else s.receivables[r]
  {
    ReverseApplied(s, c);
    forall r | r in s.receivables
      ensures Apply(s, c).0.receivables[r] ==
        if Settles(s, c.payment, r) then PaidDownTo(s.receivables[r], Net(Apply(s, c).0.rows, r), c.today)
        else s.receivables[r]
    {
      PaidDown(s, Apply(s, c).0, c, r);
    }
  }
}
