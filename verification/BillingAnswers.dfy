/** What generate_for_order(), create() and refresh_statuses() answer and write, said in terms of the tables. */
module BillingAnswers {
  import opened Prelude
  import opened Settlement
  import opened CustomerLedger
  import opened LedgerInvariant
  import opened InstallmentPlan
  import opened RefreshConvergence

  // ---- Generation ---------------------------------------------------------------------------------------

  /** The request names another due date than the receivable has; for a deposit the date of the request
      comes before the date of the order. */
  predicate OtherDate(r: Receivable, c: Command, order: Order)
    requires c.Generate?
  {
    match r.installment
    case Balance => r.due != c.balanceDue
    case Deposit =>
      match c.depositDue
      case Some(asked) => r.due != asked
      case None => order.depositDue.None? || r.due != order.depositDue.value
  }

  predicate Billed(s: Ledger, o: Id) { exists r :: r in s.receivables && s.receivables[r].order == o }

  predicate Redated(s: Ledger, c: Command, order: Order)
    requires c.Generate?
  {
    exists r :: r in s.receivables && s.receivables[r].order == c.order && OtherDate(s.receivables[r], c, order)
  }

  lemma {:induction false} BilledFacts(s: Ledger, c: Command)
    requires c.Generate?
    ensures var f := Observe(s, c);
      && f.orders == Restrict(s.orders, {c.order})
      && (f.receivables.Keys == {} <==> !Billed(s, c.order))
      && (forall r :: r in f.receivables <==> r in s.receivables && s.receivables[r].order == c.order)
      && (forall r :: r in f.receivables ==> f.receivables[r] == s.receivables[r])
  {
    if r :| r in s.receivables && s.receivables[r].order == c.order {
      assert r in Observe(s, c).receivables;
    }
  }

  lemma {:induction false} DecisionRefusals(s: Ledger, c: Command, f: Facts)
    requires c.Generate? && f.orders == Restrict(s.orders, {c.order})
    requires f.receivables.Keys == {} <==> !Billed(s, c.order)
    requires forall r :: r in f.receivables <==> r in s.receivables && s.receivables[r].order == c.order
    requires forall r :: r in f.receivables ==> f.receivables[r] == s.receivables[r]
    ensures DecideGenerate(c, f).Reject? ==> Refusal(s, c) == Some(DecideGenerate(c, f).error)
    ensures DecideGenerate(c, f).Accept? ==> Refusal(s, c) == None
  {
  }

  /** The first reason to refuse. */
  function Refusal(s: Ledger, c: Command): Option<Error>
    requires c.Generate?
  {
    if c.order !in s.orders then Some(OrderNotFound)
    else
      var order := s.orders[c.order];
      if order.status == Draft || order.status == Cancelled || order.status == Completed then Some(OrderNotConfirmed)
      else if Billed(s, c.order) then if Redated(s, c, order) then Some(AlreadyGenerated) else None
      else if order.deposit > 0 && c.depositDue.None? && order.depositDue.None? then Some(DepositDueRequired)
      else if order.deposit <= 0 && order.total <= order.deposit then Some(ZeroValueOrder)
      else None
  }

  lemma {:induction false} GenerateRefused(s: Ledger, c: Command)
    requires c.Generate?
    ensures Apply(s, c).1.Ok? <==> Refusal(s, c).None?
    ensures Refusal(s, c).Some? ==> Apply(s, c) == (s, Err(Refusal(s, c).value))
  {
    BilledFacts(s, c);
    DecisionRefusals(s, c, Observe(s, c));
  }

  /** An unpaid receivable of a given due date. */
  predicate Unpaid(r: Receivable, due: int, today: int) {
    && r.due == due && r.paidAt == None
    && (due < today ==> r.status == Overdue) && (due == today ==> r.status == Due)
    && (due > today ==> r.status == ReceivableStatus.Pending)
  }

  /** The receivables of a first generation: the deposit and the rest, each once and only when positive,
      unpaid, in the order's currency, for the dates asked. */
  predicate Bills(issued: map<Id, Receivable>, c: Command, order: Order)
    requires c.Generate?
  {
    && issued.Keys == (if order.deposit > 0 then {c.depositId} else {})
                      + (if order.total > order.deposit then {c.balanceId} else {})
    && (order.deposit > 0 ==>
          && (c.depositDue.Some? || order.depositDue.Some?)
          && issued[c.depositId].installment == Deposit && issued[c.depositId].amount == order.deposit
          && Unpaid(
               issued[c.depositId], if c.depositDue.Some? then c.depositDue.value else order.depositDue.value, c.today))
    && (order.total > order.deposit ==>
          && issued[c.balanceId].installment == Balance && issued[c.balanceId].amount == order.total - order.deposit
          && Unpaid(issued[c.balanceId], c.balanceDue, c.today))
    && forall r :: r in issued ==> issued[r].order == c.order && issued[r].currency == order.currency
  }

  lemma {:induction false} DecisionIssues(c: Command, f: Facts)
    requires c.Generate? && c.depositId != c.balanceId && DecideGenerate(c, f).Accept? && f.receivables.Keys == {}
    ensures c.order in f.orders
    ensures var issued := DecideGenerate(c, f).delta.receivables;
      DecideGenerate(c, f).delta == NoChange.(receivables := issued) && Bills(issued, c, f.orders[c.order])
  {
  }

  lemma {:induction false} BilledAgain(c: Command, f: Facts)
    requires c.Generate? && DecideGenerate(c, f).Accept? && f.receivables.Keys != {}
    ensures DecideGenerate(c, f) == Accept(NoChange, f.locked)
  {
  }

  /** A repeat with the same dates changes nothing and returns the order's receivables, by id. */
  lemma {:induction false} GenerateAgain(s: Ledger, c: Command)
    requires c.Generate? && Apply(s, c).1.Ok? && Billed(s, c.order)
    ensures Apply(s, c).0 == s
    ensures var ids := Apply(s, c).1.value;
      && Increasing(ids)
      && forall r :: r in ids <==> r in s.receivables && s.receivables[r].order == c.order
  {
    var f := Observe(s, c);
    BilledFacts(s, c);
    BilledAgain(c, f);
    NoChangeCommits(s);
    assert forall r :: r in f.locked <==> r in f.receivables.Keys;
  }

  /** A first generation adds exactly these receivables, under new ids, and changes nothing else. */
  lemma {:induction false} GenerateIssued(s: Ledger, c: Command)
    requires c.Generate? && Admissible(s, c) && Apply(s, c).1.Ok? && !Billed(s, c.order)
    ensures c.order in s.orders
    ensures exists issued ::
      && Bills(issued, c, s.orders[c.order]) && issued.Keys !! s.receivables.Keys
      && Apply(s, c).0 == s.(receivables := s.receivables + issued)
  {
    BilledFacts(s, c);
    var f := Observe(s, c);
    DecisionIssues(c, f);
    PlainCommit(s, DecideGenerate(c, f).delta);
    assert Bills(DecideGenerate(c, f).delta.receivables, c, s.orders[c.order]);
  }

  // ---- Statuses ------------------------------------------------------------------------------------------------

  /** The status a receivable should show on a day. */
  predicate ShowsRight(r: Receivable, net: int, today: int) {
    && (r.status == Paid <==> net == r.amount)
    && (r.status == PartiallyPaid <==> 0 < net < r.amount)
    && (r.status == Overdue <==> net == 0 && r.due < today)
    && (r.status == Due <==> net == 0 && r.due == today)
    && (r.status == ReceivableStatus.Pending <==> net == 0 && today < r.due)
  }

  lemma {:induction false} DerivedIsRight(s: Ledger, today: int, r: Id)
    requires StatusesAgree(s) && AllDerived(s, today) && r in s.receivables
    ensures ShowsRight(s.receivables[r], Net(s.rows, r), today)
  {
    assert StatusAgrees(s.receivables[r], Net(s.rows, r));
  }

  /** After ceil(n / 500) refreshes on the latest day every stored status is the right one for its net
      settlement and due date. */
  lemma {:induction false} RefreshedStatuses(s: Ledger, commands: seq<Command>, today: int, calls: nat, r: Id)
    requires Empty(s) && AdmissibleRun(s, commands) && DaysUpTo(commands, today)
    requires BATCH * calls >= |LaggingIds(Run(s, commands), today)|
    requires r in RefreshTimes(Run(s, commands), today, calls).receivables
    ensures var now := RefreshTimes(Run(s, commands), today, calls);
      ShowsRight(now.receivables[r], Net(now.rows, r), today)
  {
    RunKeeps(s, commands);
    DailyRefreshConverges(s, commands, today, calls);
    RefreshTimesKeepsInvariant(Run(s, commands), today, calls);
    DerivedIsRight(RefreshTimes(Run(s, commands), today, calls), today, r);
  }
}
