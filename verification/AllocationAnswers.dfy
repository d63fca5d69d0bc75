/** What allocate() answers and writes, said in terms of the tables, and the terms every row keeps. */
module AllocationAnswers {
  import opened Prelude
  import opened Settlement
  import opened CustomerLedger
  import opened LedgerInvariant
  import opened InstallmentPlan

  // ---- Refusals -------------------------------------------------------------------------------------

  /** What is wrong with settling receivable `r` by payment `p`. */
  ghost predicate FaultAt(s: Ledger, p: Id, r: Id, error: Error)
    requires p in s.payments && r in s.receivables && s.receivables[r].order in s.orders
  {
    var payment, receivable, order := s.payments[p], s.receivables[r], s.orders[s.receivables[r].order];
    match error
    case OrderCancelled => order.status == Cancelled
    case CurrencyMismatch => receivable.currency != payment.currency
    case CompanyMismatch => order.company != payment.company
    case _ => false
  }

  ghost predicate Clean(s: Ledger, p: Id, r: Id)
    requires p in s.payments && r in s.receivables && s.receivables[r].order in s.orders
  {
    && s.orders[s.receivables[r].order].status != Cancelled
    && s.receivables[r].currency == s.payments[p].currency
    && s.orders[s.receivables[r].order].company == s.payments[p].company
  }

  predicate Distinct(items: seq<Item>) {
    forall i, j :: 0 <= i < j < |items| ==> items[i].target != items[j].target
  }

  predicate Spendable(s: Ledger, p: Id) {
    p in s.payments && s.payments[p].kind == Receipt && s.payments[p].status == Active
  }

  predicate Covered(s: Ledger, p: Id, items: seq<Item>) {
    p in s.payments && Used(s.rows, p) + Requested(items) <= s.payments[p].amount
  }

  predicate Found(s: Ledger, items: seq<Item>) { forall item :: item in items ==> item.target in s.receivables }

  predicate OrdersFound(s: Ledger, items: seq<Item>) {
    forall item :: item in items ==> item.target in s.receivables && s.receivables[item.target].order in s.orders
  }

  ghost predicate AllClean(s: Ledger, p: Id, items: seq<Item>)
    requires p in s.payments && OrdersFound(s, items)
  {
    forall item :: item in items ==> Clean(s, p, item.target)
  }

  predicate RoomForAll(s: Ledger, items: seq<Item>) {
    forall item :: item in items ==>
      item.target in s.receivables && Net(s.rows, item.target) + item.amount <= s.receivables[item.target].amount
  }

  /** The first receivable in id order that may not be settled, and the first thing wrong with it. */
  ghost predicate FirstFault(s: Ledger, p: Id, items: seq<Item>, r: Id, error: Error)
    requires p in s.payments && OrdersFound(s, items)
  {
    && (exists item :: item in items && item.target == r)
    && (forall item :: item in items && item.target < r ==> Clean(s, p, item.target))
    && FaultAt(s, p, r, error)
    && (error == CurrencyMismatch ==> !FaultAt(s, p, r, OrderCancelled))
    && (error == CompanyMismatch ==> !FaultAt(s, p, r, OrderCancelled) && !FaultAt(s, p, r, CurrencyMismatch))
  }

  // ---- From the decision to the tables ------------------------------------------------------------------

  lemma {:induction false} MismatchMeans(s: Ledger, p: Id, ids: seq<Id>, f: Facts)
    requires p in s.payments
    requires forall r :: r in ids ==>
      && r in f.receivables && r in s.receivables && f.receivables[r] == s.receivables[r]
      && s.receivables[r].order in s.orders
    requires OrderIds(f.receivables) <= f.orders.Keys
    requires forall o :: o in f.orders ==> o in s.orders && f.orders[o] == s.orders[o]
    ensures Mismatch(ids, s.payments[p], f).None? ==> forall r :: r in ids ==> Clean(s, p, r)
    ensures Mismatch(ids, s.payments[p], f).Some? ==>
      exists k | 0 <= k < |ids| :: FaultIn(s, p, ids, k, Mismatch(ids, s.payments[p], f).value)
  {
    if ids != [] {
      var rest := Mismatch(ids[1..], s.payments[p], f);
      assert f.receivables[ids[0]].order in OrderIds(f.receivables);
      MismatchMeans(s, p, ids[1..], f);
      if Clean(s, p, ids[0]) {
        if rest.Some? {
          var k :| 0 <= k < |ids[1..]| && FaultIn(s, p, ids[1..], k, rest.value);
          FaultLater(s, p, ids, k, rest.value);
        }
      } else {
        assert FaultIn(s, p, ids, 0, Mismatch(ids, s.payments[p], f).value);
      }
    }
  }

  ghost predicate FaultIn(s: Ledger, p: Id, ids: seq<Id>, k: nat, error: Error)
    requires p in s.payments && k < |ids|
    requires forall r :: r in ids ==> r in s.receivables && s.receivables[r].order in s.orders
  {
    && (forall j :: 0 <= j < k ==> Clean(s, p, ids[j]))
    && FaultAt(s, p, ids[k], error)
    && (error == CurrencyMismatch ==> !FaultAt(s, p, ids[k], OrderCancelled))
    && (error == CompanyMismatch ==> !FaultAt(s, p, ids[k], OrderCancelled) && !FaultAt(s, p, ids[k], CurrencyMismatch))
  }

  lemma {:induction false} FaultLater(s: Ledger, p: Id, ids: seq<Id>, k: nat, error: Error)
    requires p in s.payments && k + 1 < |ids|
    requires forall r :: r in ids ==> r in s.receivables && s.receivables[r].order in s.orders
    requires Clean(s, p, ids[0]) && FaultIn(s, p, ids[1..], k, error)
    ensures FaultIn(s, p, ids, k + 1, error)
  {
    forall j | 0 <= j < k + 1 ensures Clean(s, p, ids[j]) {
      if j > 0 {
        assert ids[j] == ids[1..][j - 1];
      }
    }
  }

  lemma {:induction false} AmountKeys(items: seq<Item>)
    ensures forall r :: r in AmountById(items) <==> exists item :: item in items && item.target == r
  {
    if items != [] {
      var init, last := items[..|items| - 1], items[|items| - 1];
      AmountKeys(init);
      assert items == init + [last];
    }
  }

  lemma {:induction false} AmountValues(items: seq<Item>)
    requires Distinct(items)
    ensures forall item :: item in items ==>
      item.target in AmountById(items) && AmountById(items)[item.target] == item.amount
  {
    if items != [] {
      var init, last := items[..|items| - 1], items[|items| - 1];
      AmountValues(init);
      AmountKeys(init);
      assert items == init + [last];
      assert forall item :: item in init ==> item.target != last.target;
    }
  }

  lemma {:induction false} AmountsDistinct(items: seq<Item>)
    ensures |AmountById(items).Keys| == |items| <==> Distinct(items)
  {
    if items != [] {
      var init, last := items[..|items| - 1], items[|items| - 1];
      AmountsDistinct(init);
      AmountKeys(init);
      AmountByIdSize(init);
      assert AmountById(items).Keys == AmountById(init).Keys + {last.target};
      DistinctNext(init, last);
      assert items == init + [last];
      if last.target in AmountById(init) {
        assert AmountById(items).Keys == AmountById(init).Keys;
      }
    }
  }

  lemma {:induction false} DistinctNext(init: seq<Item>, last: Item)
    ensures Distinct(init + [last]) <==> Distinct(init) && forall item :: item in init ==> item.target != last.target
  {
    var items := init + [last];
    if Distinct(items) {
      forall i, j | 0 <= i < j < |init| ensures init[i].target != init[j].target {
        assert items[i].target != items[j].target;
      }
      forall i | 0 <= i < |init| ensures init[i].target != last.target {
        assert items[i].target != items[|init|].target;
      }
    }
  }

  /** Looking the amounts up by id is looking them up in the request, when no receivable is repeated. */
  lemma {:induction false} AmountsOf(items: seq<Item>)
    ensures |AmountById(items).Keys| == |items| <==> Distinct(items)
    ensures forall r :: r in AmountById(items) <==> exists item :: item in items && item.target == r
    ensures Distinct(items) ==> forall item :: item in items ==> AmountById(items)[item.target] == item.amount
  {
    AmountsDistinct(items);
    AmountKeys(items);
    if Distinct(items) {
      AmountValues(items);
    }
  }

  ghost predicate Observed(s: Ledger, c: Command, f: Facts)
    requires c.Allocate?
  {
    var ids := AmountById(c.items).Keys;
    && f.Ordered() && SeesAllocation(s, c.payment, ids, f)
    && f.orders == Restrict(s.orders, OrderIds(f.receivables))
  }

  lemma {:induction false} ObservesAllocation(s: Ledger, c: Command)
    requires c.Allocate?
    ensures Observed(s, c, Observe(s, c))
  {
  }

  lemma {:induction false} FoundMeans(s: Ledger, c: Command, f: Facts)
    requires c.Allocate? && Observed(s, c, f)
    ensures f.receivables.Keys == AmountById(c.items).Keys <==> Found(s, c.items)
  {
    AmountsOf(c.items);
    if Found(s, c.items) {
      assert forall r :: r in AmountById(c.items) ==> r in f.receivables;
    } else {
      var item :| item in c.items && item.target !in s.receivables;
      assert item.target !in f.receivables;
    }
  }

  lemma {:induction false} AllOrdersRead(s: Ledger, c: Command, f: Facts)
    requires c.Allocate? && Observed(s, c, f) && f.receivables.Keys == AmountById(c.items).Keys
    requires OrdersFound(s, c.items)
    ensures OrderIds(f.receivables) == f.orders.Keys
  {
    AmountKeys(c.items);
    forall r | r in f.receivables ensures f.receivables[r].order in f.orders {
      var item :| item in c.items && item.target == r;
    }
  }

  lemma {:induction false} OrdersMean(s: Ledger, c: Command, f: Facts)
    requires c.Allocate? && Observed(s, c, f) && Found(s, c.items) && f.receivables.Keys == AmountById(c.items).Keys
    ensures OrderIds(f.receivables) == f.orders.Keys <==> OrdersFound(s, c.items)
  {
    if OrdersFound(s, c.items) {
      AllOrdersRead(s, c, f);
    } else {
      AmountKeys(c.items);
      var item :| item in c.items && s.receivables[item.target].order !in s.orders;
      assert item.target in f.receivables && s.receivables[item.target].order in OrderIds(f.receivables);
    }
  }

  lemma {:induction false} LinksMean(s: Ledger, c: Command, f: Facts)
    requires c.Allocate? && Observed(s, c, f)
    ensures f.receivables.Keys == AmountById(c.items).Keys <==> Found(s, c.items)
    ensures Found(s, c.items) ==> (OrderIds(f.receivables) == f.orders.Keys <==> OrdersFound(s, c.items))
  {
    FoundMeans(s, c, f);
    if Found(s, c.items) {
      OrdersMean(s, c, f);
    }
  }

  lemma {:induction false} RoomMeans(s: Ledger, c: Command, f: Facts)
    requires c.Allocate? && Observed(s, c, f) && f.receivables.Keys == AmountById(c.items).Keys && Distinct(c.items)
    ensures var amounts := AmountById(c.items);
      (exists r :: r in amounts && GetOr(f.totals, r, 0) + amounts[r] > f.receivables[r].amount) <==>
        !RoomForAll(s, c.items)
  {
    var amounts := AmountById(c.items);
    AmountsOf(c.items);
    AllocateReads(s, c.payment, f, amounts);
    if r :| r in amounts && GetOr(f.totals, r, 0) + amounts[r] > f.receivables[r].amount {
      var item :| item in c.items && item.target == r;
    }
  }

  /** The checks of allocate() that look at links, for the receivables of a request. */
  lemma {:induction false} CleanMeans(s: Ledger, c: Command, f: Facts)
    requires c.Allocate? && Observed(s, c, f) && f.receivables.Keys == AmountById(c.items).Keys
    requires c.payment in s.payments && Found(s, c.items) && OrdersFound(s, c.items)
    requires OrderIds(f.receivables) == f.orders.Keys && forall r :: r in f.locked ==> r in f.receivables
    ensures var fault := Mismatch(f.locked, s.payments[c.payment], f);
      if fault.None? then AllClean(s, c.payment, c.items)
      else exists r :: FirstFault(s, c.payment, c.items, r, fault.value)
  {
    var fault := Mismatch(f.locked, s.payments[c.payment], f);
    AmountsOf(c.items);
    assert forall item :: item in c.items ==> item.target in Elements(f.locked);
    forall r | r in f.locked ensures r in s.receivables && s.receivables[r].order in s.orders {
      var item :| item in c.items && item.target == r;
    }
    MismatchMeans(s, c.payment, f.locked, f);
    if fault.Some? {
      var k :| 0 <= k < |f.locked| && FaultIn(s, c.payment, f.locked, k, fault.value);
      FirstOf(s, c, f, k, fault.value);
    }
  }

  lemma {:induction false} FirstOf(s: Ledger, c: Command, f: Facts, k: nat, error: Error)
    requires c.Allocate? && c.payment in s.payments && OrdersFound(s, c.items) && f.Ordered() && k < |f.locked|
    requires f.receivables.Keys == AmountById(c.items).Keys
    requires forall r :: r in f.locked ==> r in s.receivables && s.receivables[r].order in s.orders
    requires FaultIn(s, c.payment, f.locked, k, error)
    ensures FirstFault(s, c.payment, c.items, f.locked[k], error)
  {
    AmountsOf(c.items);
    assert f.locked[k] in Elements(f.locked);
    forall item | item in c.items && item.target < f.locked[k] ensures Clean(s, c.payment, item.target) {
      assert item.target in Elements(f.locked);
      var j :| 0 <= j < |f.locked| && f.locked[j] == item.target;
      assert j < k;
    }
  }

  // ---- The answer ---------------------------------------------------------------------------------------

  /** The condition of each answer, over the tables; each holds only where those above it do not. */
  ghost predicate Answers(s: Ledger, c: Command, result: Result<seq<Id>, Error>)
    requires c.Allocate?
  {
    if !Distinct(c.items) then result == Err(DuplicateReceivable)
    else if c.payment !in s.payments then result == Err(PaymentNotFound)
    else if !Spendable(s, c.payment) then result == Err(PaymentNotAllocatable)
    else if !Covered(s, c.payment, c.items) then result == Err(PaymentAllocationExceeded)
    else if !Found(s, c.items) then result == Err(ReceivableNotFound)
    else if !OrdersFound(s, c.items) then result == Err(OrderLinkInvalid)
    else if !AllClean(s, c.payment, c.items) then
      result.Err? && exists r :: FirstFault(s, c.payment, c.items, r, result.error)
    else if !RoomForAll(s, c.items) then result == Err(ReceivableAllocationExceeded)
    else result == Ok([c.payment])
  }

  function AnswerOf(verdict: Verdict): Result<seq<Id>, Error> {
    match verdict
    case Reject(error) => Err(error)
    case Accept(_, reply) => Ok(reply)
  }

  /** The last checks of the decision, once the links are known to be there. */
  lemma {:induction false} LinkDecision(c: Command, f: Facts)
    requires c.Allocate? && f.Ordered() && |AmountById(c.items).Keys| == |c.items| && c.payment in f.payments
    requires f.payments[c.payment].kind == Receipt && f.payments[c.payment].status == Active
    requires Used(f.own, c.payment) + Requested(c.items) <= f.payments[c.payment].amount
    requires f.receivables.Keys == AmountById(c.items).Keys && OrderIds(f.receivables) == f.orders.Keys
    requires forall r :: r in f.locked ==> r in f.receivables
    ensures var fault, amounts := Mismatch(f.locked, f.payments[c.payment], f), AmountById(c.items);
      AnswerOf(DecideAllocate(c, f)) ==
        if fault.Some? then Err(fault.value)
        else if exists r :: r in amounts && GetOr(f.totals, r, 0) + amounts[r] > f.receivables[r].amount then
          Err(ReceivableAllocationExceeded)
        else Ok([c.payment])
  {
  }

  lemma {:induction false} LinkAnswers(s: Ledger, c: Command, f: Facts)
    requires c.Allocate? && Observed(s, c, f) && Distinct(c.items) && Spendable(s, c.payment)
    requires Used(f.own, c.payment) == Used(s.rows, c.payment) && Covered(s, c.payment, c.items)
    requires |AmountById(c.items).Keys| == |c.items| && Found(s, c.items) && OrdersFound(s, c.items)
    requires f.receivables.Keys == AmountById(c.items).Keys && OrderIds(f.receivables) == f.orders.Keys
    ensures Answers(s, c, AnswerOf(DecideAllocate(c, f)))
  {
    assert forall r :: r in f.locked ==> r in Elements(f.locked);
    LinkDecision(c, f);
    CleanMeans(s, c, f);
    RoomMeans(s, c, f);
    NotClean(s, c);
  }

  lemma {:induction false} DecisionAnswers(s: Ledger, c: Command, f: Facts)
    requires c.Allocate? && Observed(s, c, f)
    ensures Answers(s, c, AnswerOf(DecideAllocate(c, f)))
  {
    AmountsOf(c.items);
    OwnSums(s.rows, c.payment, 0);
    LinksMean(s, c, f);
    if Distinct(c.items) && Spendable(s, c.payment) && Covered(s, c.payment, c.items) && OrdersFound(s, c.items) {
      LinkAnswers(s, c, f);
    }
  }

  lemma {:induction false} NotClean(s: Ledger, c: Command)
    requires c.Allocate? && c.payment in s.payments && OrdersFound(s, c.items)
    ensures (exists r, error :: FirstFault(s, c.payment, c.items, r, error)) ==> !AllClean(s, c.payment, c.items)
  {
  }

  lemma {:induction false} AllocateAnswers(s: Ledger, c: Command)
    requires c.Allocate?
    ensures Answers(s, c, Apply(s, c).1)
  {
    ObservesAllocation(s, c);
    DecisionAnswers(s, c, Observe(s, c));
  }

  /** allocate() goes through exactly for distinct, known receivables of live orders, in the receipt's
      currency and of its company, within the receipt and within each balance. */
  lemma {:induction false} AllocateAccepted(s: Ledger, c: Command)
    requires c.Allocate?
    ensures Apply(s, c).1.Ok? <==>
      && (forall i, j :: 0 <= i < j < |c.items| ==> c.items[i].target != c.items[j].target)
      && c.payment in s.payments && s.payments[c.payment].kind == Receipt && s.payments[c.payment].status == Active
      && Used(s.rows, c.payment) + Requested(c.items) <= s.payments[c.payment].amount
      && forall item :: item in c.items ==>
          && item.target in s.receivables && s.receivables[item.target].order in s.orders
          && s.orders[s.receivables[item.target].order].status != Cancelled
          && s.receivables[item.target].currency == s.payments[c.payment].currency
          && s.orders[s.receivables[item.target].order].company == s.payments[c.payment].company
          && Net(s.rows, item.target) + item.amount <= s.receivables[item.target].amount
  {
    AllocateAnswers(s, c);
  }

  /** Each refusal is given only for its own reason; of several, the first in the order of the checks. */
  lemma {:induction false} AllocateRefused(s: Ledger, c: Command)
    requires c.Allocate? && Apply(s, c).1.Err?
    ensures Apply(s, c).0 == s
    ensures var error, p := Apply(s, c).1.error, c.payment;
      && (error == DuplicateReceivable ==> exists i, j ::
        0 <= i < j < |c.items| && c.items[i].target == c.items[j].target)
      && (error == PaymentNotFound ==> p !in s.payments)
      && (error == PaymentNotAllocatable ==>
            p in s.payments && (s.payments[p].kind != Receipt || s.payments[p].status != Active))
      && (error == PaymentAllocationExceeded ==>
            p in s.payments && Used(s.rows, p) + Requested(c.items) > s.payments[p].amount)
      && (error == ReceivableNotFound ==> exists item :: item in c.items && item.target !in s.receivables)
      && (error == OrderLinkInvalid ==>
            exists item ::
              item in c.items && item.target in s.receivables && s.receivables[item.target].order !in s.orders)
      && (error == OrderCancelled ==>
            OrdersFound(s, c.items) &&
            exists item :: item in c.items && s.orders[s.receivables[item.target].order].status == Cancelled)
      && (error == CurrencyMismatch ==>
            p in s.payments && Found(s, c.items) &&
            exists item :: item in c.items && s.receivables[item.target].currency != s.payments[p].currency)
      && (error == CompanyMismatch ==>
            p in s.payments && OrdersFound(s, c.items) &&
            exists item ::
              item in c.items && s.orders[s.receivables[item.target].order].company != s.payments[p].company)
      && (error == ReceivableAllocationExceeded ==> Found(s, c.items) && exists item ::
            item in c.items && Net(s.rows, item.target) + item.amount > s.receivables[item.target].amount)
  {
    AllocateAnswers(s, c);
  }

  // ---- What an accepted allocation writes ----------------------------------------------------------------

  lemma {:induction false} AllocateCommits(s: Ledger, c: Command)
    requires Invariant(s) && c.Allocate? && Admissible(s, c) && Apply(s, c).1.Ok?
    ensures Allocates(s, Apply(s, c).0, c.payment, AmountById(c.items), Observe(s, c).locked, c.now, c.today)
    ensures Apply(s, c).0.orders == s.orders && Apply(s, c).0.companies == s.companies
    ensures |Observe(s, c).locked| == |c.items|
  {
    var f := Observe(s, c);
    ObservesAllocation(s, c);
    AllocateShape(c, f);
    RequestedSum(c.items);
    AmountsPositive(c.items);
    AllocateCommitted(s, c, f, AmountById(c.items), DecideAllocate(c, f).delta);
    MergeNothing(s.orders);
    assert Elements(f.locked) == AmountById(c.items).Keys;
    SameSize(f.locked);
  }

  lemma {:induction false} SameSize(q: seq<Id>)
    requires Increasing(q)
    ensures |Elements(q)| == |q|
  {
    if q != [] {
      SameSize(q[..|q| - 1]);
      assert Elements(q) == Elements(q[..|q| - 1]) + {q[|q| - 1]};
    }
  }

  /** A receivable after `paid` has been put on it: PAID at `now` when that is all of it. */
  function PaidUpTo(receivable: Receivable, paid: int, now: int): Receivable {
    if paid == receivable.amount then receivable.(status := Paid, paidAt := Some(now))
    else receivable.(status := PartiallyPaid, paidAt := None)
  }

  ghost predicate OneRowEach(s: Ledger, s': Ledger, p: Id, items: seq<Item>) {
    && |s'.rows| == |s.rows| + |items| && s'.rows[..|s.rows|] == s.rows
    && (forall i :: |s.rows| <= i < |s'.rows| ==>
          && s'.rows[i] == Row(i, p, s'.rows[i].target, Allocation, s'.rows[i].amount, None)
          && Item(s'.rows[i].target, s'.rows[i].amount) in items)
    && (forall i, j :: |s.rows| <= i < j < |s'.rows| ==> s'.rows[i].target < s'.rows[j].target)
  }

  lemma {:induction false} PostedRows(s: Ledger, s': Ledger, c: Command, q: seq<Id>)
    requires c.Allocate? && Distinct(c.items) && |q| == |c.items|
    requires Allocates(s, s', c.payment, AmountById(c.items), q, c.now, c.today)
    ensures OneRowEach(s, s', c.payment, c.items)
  {
    var drafts := AllocationRows(c.payment, AmountById(c.items), q);
    forall i | |s.rows| <= i < |s'.rows|
      ensures s'.rows[i] == Row(i, c.payment, s'.rows[i].target, Allocation, s'.rows[i].amount, None)
      ensures Item(s'.rows[i].target, s'.rows[i].amount) in c.items
      ensures s'.rows[i].target == q[i - |s.rows|]
    {
      assert s'.rows[i] == drafts[i - |s.rows|].(id := i);
      ItemFor(c.items, q[i - |s.rows|]);
    }
  }

  lemma {:induction false} ItemFor(items: seq<Item>, r: Id)
    requires Distinct(items) && r in AmountById(items)
    ensures Item(r, AmountById(items)[r]) in items
  {
    AmountsOf(items);
    var item :| item in items && item.target == r;
    assert item == Item(r, item.amount);
  }

  lemma {:induction false} PostedReceivable(s: Ledger, s': Ledger, c: Command, q: seq<Id>, item: Item)
    requires StatusesAgree(s) && c.Allocate? && Distinct(c.items) && item in c.items
    requires Allocates(s, s', c.payment, AmountById(c.items), q, c.now, c.today)
    ensures item.target in s.receivables && item.target in s'.receivables
    ensures s'.receivables[item.target]
      == PaidUpTo(s.receivables[item.target], Net(s.rows, item.target) + item.amount, c.now)
  {
    AmountsOf(c.items);
    assert StatusAgrees(s.receivables[item.target], Net(s.rows, item.target));
  }

  ghost predicate SettlesEach(s: Ledger, s': Ledger, items: seq<Item>, now: int) {
    && s'.receivables.Keys == s.receivables.Keys
    && (forall item :: item in items ==>
          && item.target in s.receivables
          && s'.receivables[item.target]
             == PaidUpTo(s.receivables[item.target], Net(s.rows, item.target) + item.amount, now))
    && (forall r :: r in s.receivables && (forall item :: item in items ==> item.target != r) ==>
          s'.receivables[r] == s.receivables[r])
  }

  lemma {:induction false} PostedReceivables(s: Ledger, s': Ledger, c: Command, q: seq<Id>)
    requires StatusesAgree(s) && c.Allocate? && Distinct(c.items)
    requires Allocates(s, s', c.payment, AmountById(c.items), q, c.now, c.today)
    ensures SettlesEach(s, s', c.items, c.now)
  {
    forall item | item in c.items
      ensures item.target in s.receivables
      ensures s'.receivables[item.target]
        == PaidUpTo(s.receivables[item.target], Net(s.rows, item.target) + item.amount, c.now)
    {
      PostedReceivable(s, s', c, q, item);
    }
    AmountsOf(c.items);
  }

  /** Exactly one row per item, in id order of the receivables, the receivables' new statuses, and no more. */
  lemma {:induction false} AllocatePosts(s: Ledger, c: Command)
    requires Invariant(s) && c.Allocate? && Admissible(s, c) && Apply(s, c).1.Ok?
    ensures var s' := Apply(s, c).0;
      && s'.payments == s.payments && s'.orders == s.orders && s'.companies == s.companies
      && OneRowEach(s, s', c.payment, c.items) && SettlesEach(s, s', c.items, c.now)
  {
    AllocateCommits(s, c);
    AllocateAccepted(s, c);
    PostedRows(s, Apply(s, c).0, c, Observe(s, c).locked);
    PostedReceivables(s, Apply(s, c).0, c, Observe(s, c).locked);
  }
}
