/** generate_for_order and refresh_statuses, statement by statement. */
module ReceivableService {
  import opened Prelude
  import opened Settlement
  import opened CustomerLedger
  import opened LedgerInvariant
  import opened RefreshConvergence
  import opened CustomerService

  // ---- refresh_statuses -------------------------------------------------------------------------

  ghost predicate RefreshedUpTo(s: Ledger, receivables: map<Id, Receivable>, done: set<Id>, today: int) {
    receivables == Rederived(s, done, today).receivables
  }

  lemma {:induction false} RefreshNext(s: Ledger, receivables: map<Id, Receivable>, done: set<Id>, today: int, r: Id)
    requires RefreshedUpTo(s, receivables, done, today) && r !in done && r in s.receivables
    ensures r in receivables && receivables[r] == s.receivables[r]
    ensures var target := Derived(s, r, today);
      && RefreshedUpTo(s, receivables[r := receivables[r].(status := target)], done + {r}, today)
      && (receivables[r].status == target ==> RefreshedUpTo(s, receivables, done + {r}, today))
  {
  }

  /** The loop of refresh_statuses(); a row already right is skipped. */
  method RefreshEach(uow: UnitOfWork, picked: seq<Id>, totals: map<Id, int>, today: int)
    requires uow.open && Increasing(picked) && totals == NetTotals(uow.rows, Elements(picked))
    requires forall r :: r in picked ==> r in uow.receivables
    modifies uow`receivables
    ensures RefreshedUpTo(old(uow.Tables()), uow.receivables, Elements(picked), today)
  {
    ghost var s := uow.Tables();
    var i := 0;
    while i < |picked|
      invariant 0 <= i <= |picked|
      invariant RefreshedUpTo(s, uow.receivables, Elements(picked[..i]), today)
    {
      var r := picked[i];
      NextId(picked, i);
      RefreshNext(s, uow.receivables, Elements(picked[..i]), today, r);
      NetTotalsGet(uow.rows, Elements(picked), r);
      var receivable := uow.receivables[r];
      var target := StatusFor(receivable.amount, receivable.due, GetOr(totals, r, 0), today);
      if receivable.status != target {
        uow.receivables := uow.receivables[r := receivable.(status := target)];
      }
      i := i + 1;
    }
    assert picked[..|picked|] == picked;
  }

  /** refresh_statuses(): one batch of the day's refresh. */
  method RefreshStatuses(database: Database, today: int) returns (picked: seq<Id>)
    modifies database
    ensures picked == Picked(old(database.ledger), today)
    ensures database.ledger == Refresh(old(database.ledger), today) && database.keys == old(database.keys)
  {
    var uow := new UnitOfWork(database);
    picked := Picked(uow.Tables(), today);
    PickedExist(uow.Tables(), today);
    var totals := NetTotals(uow.rows, Elements(picked));
    RefreshEach(uow, picked, totals, today);
    uow.Commit();
    uow.Exit();
  }

  lemma {:induction false} PickedExist(s: Ledger, today: int)
    ensures forall r :: r in Picked(s, today) ==> r in s.receivables
  {
    assert forall r :: r in Picked(s, today) ==> r in Elements(Picked(s, today));
  }

  // ---- generate_for_order -----------------------------------------------------------------------

  ghost predicate ReadsGenerate(s: Ledger, c: Command, f: Facts)
    requires c.Generate?
  {
    && f.orders == Restrict(s.orders, {c.order})
    && f.receivables == Restrict(s.receivables, set r | r in s.receivables && s.receivables[r].order == c.order)
    && f.locked == Sorted(f.receivables.Keys)
  }

  lemma {:induction false} ObservesGenerate(s: Ledger, c: Command)
    requires c.Generate?
    ensures ReadsGenerate(s, c, Observe(s, c))
  {
  }

  /** Whether a retry asks for other due dates than the existing receivables have. */
  method DatesDiffer(existing: seq<Id>, receivables: map<Id, Receivable>, c: Command, order: Order)
        returns (differ: bool)
    requires c.Generate? && forall r :: r in existing ==> r in receivables
    ensures differ <==> exists r :: r in existing && ExpectedDue(receivables[r], c, order) != Some(receivables[r].due)
  {
    for i := 0 to |existing|
      invariant forall j :: 0 <= j < i ==>
        ExpectedDue(receivables[existing[j]], c, order) == Some(receivables[existing[j]].due)
    {
      var receivable := receivables[existing[i]];
      if ExpectedDue(receivable, c, order) != Some(receivable.due) {
        return true;
      }
    }
    return false;
  }

  datatype Line = Line(id: Id, kind: Installment, amount: int, due: int)

  function Drafts(c: Command, order: Order, depositDue: Option<int>): seq<Line>
    requires c.Generate? && (order.deposit > 0 ==> depositDue.Some?)
  {
    (if order.deposit > 0 then [Line(c.depositId, Deposit, order.deposit, depositDue.value)] else []) +
    (if order.total - order.deposit > 0 then [Line(c.balanceId, Balance, order.total - order.deposit, c.balanceDue)]
      else [])
  }

  ghost function Issue(receivables: map<Id, Receivable>, c: Command, order: Order, drafts: seq<Line>)
      : map<Id, Receivable>
    requires c.Generate?
  {
    if drafts == [] then receivables else
      var last := drafts[|drafts| - 1];
      Issue(receivables, c, order, drafts[..|drafts| - 1])[last.id := Fresh(c, order, last.kind, last.amount, last.due)]
  }

  lemma {:induction false} IssueNext(receivables: map<Id, Receivable>, c: Command, order: Order, drafts: seq<Line>,
      draft: Line)
    requires c.Generate?
    ensures Issue(receivables, c, order, drafts + [draft])
      == Issue(receivables, c, order, drafts)[draft.id := Fresh(c, order, draft.kind, draft.amount, draft.due)]
  {
  }

  lemma {:induction false} IssueTwo(receivables: map<Id, Receivable>, c: Command, order: Order, a: Line, b: Line)
    requires c.Generate?
    ensures Issue(receivables, c, order, [a]) == receivables + map[a.id := Fresh(c, order, a.kind, a.amount, a.due)]
    ensures Issue(receivables, c, order, [a, b])
      == receivables + (map[a.id := Fresh(c, order, a.kind, a.amount, a.due)] + map[b.id :=
        Fresh(c, order, b.kind, b.amount, b.due)])
  {
  }

  lemma {:induction false} IssuesBoth(receivables: map<Id, Receivable>, c: Command, order: Order,
      depositDue: Option<int>)
    requires c.Generate? && (order.deposit > 0 ==> depositDue.Some?)
    ensures Issue(receivables, c, order, Drafts(c, order, depositDue))
      == receivables + (IssuedDeposit(c, order, depositDue) + IssuedBalance(c, order))
  {
    var deposit := Line(c.depositId, Deposit, order.deposit, GetOrZero(depositDue));
    var balance := Line(c.balanceId, Balance, order.total - order.deposit, c.balanceDue);
    IssueTwo(receivables, c, order, deposit, balance);
    IssueTwo(receivables, c, order, balance, deposit);
    MergeNothing(receivables);
    MergeNothing(IssuedDeposit(c, order, depositDue));
    assert map[] + IssuedBalance(c, order) == IssuedBalance(c, order);
    assert Drafts(c, order, depositDue)
      == if order.deposit > 0 then (if balance.amount > 0 then [deposit, balance] else [deposit])
         else (if balance.amount > 0 then [balance] else []);
  }

  function GetOrZero(due: Option<int>): int { if due.Some? then due.value else 0 }

  method IssueEach(uow: UnitOfWork, c: Command, order: Order, drafts: seq<Line>)
    requires uow.open && c.Generate?
    modifies uow`receivables
    ensures uow.receivables == Issue(old(uow.receivables), c, order, drafts)
  {
    var i := 0;
    while i < |drafts|
      invariant 0 <= i <= |drafts|
      invariant uow.receivables == Issue(old(uow.receivables), c, order, drafts[..i])
    {
      var draft := drafts[i];
      NextPrefix(drafts, i);
      IssueNext(old(uow.receivables), c, order, drafts[..i], draft);
      var status := StatusFor(draft.amount, draft.due, 0, c.today);
      uow.receivables := uow.receivables[
        draft.id := Receivable(c.order, draft.kind, status, draft.amount, order.currency, draft.due, None)];
      i := i + 1;
    }
    assert drafts[..|drafts|] == drafts;
  }

  method IssueNew(uow: UnitOfWork, c: Command, order: Order, ghost f: Facts) returns (result: Result<seq<Id>, Error>)
    requires uow.open && c.Generate? && c.order in f.orders && f.orders[c.order] == order && f.receivables.Keys == {}
    requires order.status !in {OrderStatus.Draft, Cancelled, Completed}
    modifies uow`receivables
    ensures result.Err? ==> DecideGenerate(c, f) == Reject(result.error)
    ensures result.Ok? ==> DecideGenerate(c, f).Accept? && DecideGenerate(c, f).reply == result.value
    ensures result.Ok? ==> uow.receivables == old(uow.receivables) + DecideGenerate(c, f).delta.receivables
  {
    var due := RequestedDepositDue(c, order);
    if order.deposit > 0 && due.None? {
      return Err(DepositDueRequired);
    }
    var drafts := Drafts(c, order, due);
    if drafts == [] {
      return Err(ZeroValueOrder);
    }
    IssuesBoth(uow.receivables, c, order, due);
    IssueEach(uow, c, order, drafts);
    return Ok(
      (if order.deposit > 0 then [c.depositId] else []) + (if order.total - order.deposit > 0 then [c.balanceId]
        else []));
  }

  method GenerateReceivables(uow: UnitOfWork, c: Command, ghost f: Facts) returns (result: Result<seq<Id>, Error>)
    requires uow.open && c.Generate? && ReadsGenerate(uow.Tables(), c, f)
    modifies uow`receivables
    ensures result.Err? ==> DecideGenerate(c, f) == Reject(result.error)
    ensures result.Ok? ==> DecideGenerate(c, f).Accept? && DecideGenerate(c, f).reply == result.value
    ensures result.Ok? ==> uow.receivables == old(uow.receivables) + DecideGenerate(c, f).delta.receivables
  {
    if c.order !in uow.orders {
      return Err(OrderNotFound);
    }
    var order := uow.orders[c.order];
    if order.status in {OrderStatus.Draft, Cancelled, Completed} {
      return Err(OrderNotConfirmed);
    }
    var ids := set r | r in uow.receivables && uow.receivables[r].order == c.order;
    var existing := Sorted(Restrict(uow.receivables, ids).Keys);
    if existing != [] {
      var differ := DatesDiffer(existing, uow.receivables, c, order);
      MergeNothing(uow.receivables);
      return if differ then Err(AlreadyGenerated) else Ok(existing);
    }
    result := IssueNew(uow, c, order, f);
  }

  lemma {:induction false} GenerateApplies(s: Ledger, c: Command)
    requires c.Generate? && c.depositId != c.balanceId
    ensures var verdict := DecideGenerate(c, Observe(s, c));
      Apply(s, c) ==
        match verdict
        case Reject(error) => (s, Err(error))
        case Accept(delta, reply) => (s.(receivables := s.receivables + delta.receivables), Ok(reply))
  {
    var f := Observe(s, c);
    if DecideGenerate(c, f).Accept? {
      GenerateShape(c, f);
      PlainCommit(s, DecideGenerate(c, f).delta);
    }
  }

  /** generate_for_order(): the atomic command. */
  method GenerateForOrder(
      database: Database, order: Id, depositDue: Option<int>, balanceDue: int, depositId: Id, balanceId: Id, today: int)
      returns (result: Result<seq<Id>, Error>)
    requires depositId != balanceId
    modifies database
    ensures (database.ledger, result)
      == Apply(old(database.ledger), Command.Generate(order, depositDue, balanceDue, depositId, balanceId, today))
    ensures database.keys == old(database.keys)
  {
    var c := Command.Generate(order, depositDue, balanceDue, depositId, balanceId, today);
    ghost var f := Observe(database.ledger, c);
    ObservesGenerate(database.ledger, c);
    GenerateApplies(database.ledger, c);
    var uow := new UnitOfWork(database);
    result := GenerateReceivables(uow, c, f);
    if result.Ok? {
      uow.Commit();
    }
    uow.Exit();
  }
}
