/** The supplier finance service, statement by statement. Every check comes before the first write, so
    a refused command has written nothing. */
module SupplierService {
  import opened Prelude
  import opened Settlement
  import opened SupplierLedger
  import opened SupplierInvariant

  // ---- Loop steps -------------------------------------------------------------------------------

  ghost predicate ItemsPosted(
      rows: seq<Row>, payables: map<Id, Payable>, rows': seq<Row>, payables': map<Id, Payable>, payment: Id,
      done: seq<Item>)
  {
    && rows' == rows + Stamp(|rows|, ItemRows(payment, done))
    && payables' == Touched(payables, ItemTargets(done))
  }

  lemma {:induction false} ItemPosted(
      rows: seq<Row>, payables: map<Id, Payable>, rows': seq<Row>, payables': map<Id, Payable>, payment: Id,
      done: seq<Item>, item: Item)
    requires ItemsPosted(rows, payables, rows', payables', payment, done)
    requires item.target in payables && item.target !in ItemTargets(done)
    ensures item.target in payables'
    ensures ItemsPosted(
      rows, payables, rows' + [Row(|rows'|, payment, item.target, Allocation, item.amount, None)],
      payables'[item.target := payables'[item.target].(version := payables'[item.target].version + 1)], payment,
        done + [item])
  {
  }

  lemma {:induction false} NewTarget(items: seq<Item>, i: nat)
    requires DistinctTargets(items) && i < |items|
    ensures items[i].target !in ItemTargets(items[..i])
  {
  }

  ghost predicate MirrorsPosted(rows: seq<Row>, rows': seq<Row>, done: seq<Row>, reversal: Id) {
    rows' == rows + Stamp(|rows|, Mirror(done, reversal))
  }

  lemma {:induction false} MirrorPosted(rows: seq<Row>, rows': seq<Row>, done: seq<Row>, row: Row, reversal: Id)
    requires MirrorsPosted(rows, rows', done, reversal)
    ensures MirrorsPosted(
      rows, rows' + [Row(|rows'|, reversal, row.target, Reversal, row.amount, Some(row.id))], done + [row], reversal)
  {
  }

  lemma {:induction false} TouchNext(payables: map<Id, Payable>, done: set<Id>, x: Id)
    requires x in payables && x !in done
    ensures var touched := Touched(payables, done);
      touched[x := touched[x].(version := touched[x].version + 1)] == Touched(payables, done + {x})
  {
  }

  // ---- The service ------------------------------------------------------------------------------

  class SupplierFinanceService {
    const companies: set<Id>
    const suppliers: set<Id>
    const orders: set<Id>
    var purchases: map<Id, Purchase>
    var payables: map<Id, Payable>
    var payments: map<Id, SupplierPayment>
    var rows: seq<Row>

    constructor (companies: set<Id>, suppliers: set<Id>, orders: set<Id>)
      ensures Empty(State()) && State().companies == companies && State().suppliers == suppliers
        && State().orders == orders
    {
      this.companies, this.suppliers, this.orders := companies, suppliers, orders;
      purchases, payables, payments, rows := map[], map[], map[], [];
    }

    function State(): Books
      reads this
    {
      Books(companies, suppliers, orders, purchases, payables, payments, rows)
    }

    /** select(coalesce(sum(amount), 0)) over the active payables of a purchase. */
    method SumActive(purchase: Id) returns (total: int)
      ensures total == ActivePrincipal(payables, purchase)
    {
      var rest := ActivePayables(payables, purchase);
      total := 0;
      while rest != {}
        invariant rest <= ActivePayables(payables, purchase)
        invariant total + SumOver(rest, Principal(payables)) == ActivePrincipal(payables, purchase)
        decreases |rest|
      {
        var x :| x in rest;
        SumOverPick(rest, x, Principal(payables));
        total := total + payables[x].amount;
        rest := rest - {x};
      }
    }

    method CreatePayable(id: Id, purchase: Id, amount: int, due: int, incurredOn: int, today: int)
          returns (result: Result<Id, Error>)
      modifies this`payables
      ensures (State(), result) == Apply(old(State()),
        Command.CreatePayable(id, purchase, amount, due, incurredOn, today))
    {
      if purchase !in purchases {
        return Err(PurchaseMissing);
      }
      var row := purchases[purchase];
      if row.order !in orders {
        return Err(SalesOrderMissing);
      }
      if !row.confirmed {
        return Err(PurchaseNotConfirmed);
      }
      if incurredOn > today {
        return Err(PayableDateInFuture);
      }
      var total := SumActive(purchase);
      if total + amount > row.total {
        return Err(PayableExceedsPurchase);
      }
      payables := payables[id := Payable(purchase, row.supplier, row.currency, amount, due, false, 1)];
      return Ok(id);
    }

    method VoidPayable(payable: Id, expected: int) returns (result: Result<Id, Error>)
      modifies this`payables
      ensures (State(), result) == Apply(old(State()), Command.VoidPayable(payable, expected))
    {
      if payable !in payables {
        return Err(PayableMissing);
      }
      var row := payables[payable];
      if row.version != expected {
        return Err(VersionConflict);
      }
      NetTotalsGet(rows, {payable}, payable);
      var paid := GetOr(NetTotals(rows, {payable}), payable, 0);
      if row.voided || paid != 0 {
        return Err(PayableNotVoidable);
      }
      payables := payables[payable := row.(voided := true)];
      return Ok(payable);
    }

    method RecordPayment(id: Id, supplier: Id, currency: Id, amount: int, paidOn: int, today: int)
          returns (result: Result<Id, Error>)
      modifies this`payments
      ensures (State(), result) == Apply(old(State()),
        Command.RecordPayment(id, supplier, currency, amount, paidOn, today))
    {
      if supplier !in companies {
        return Err(SupplierMissing);
      }
      if supplier !in suppliers {
        return Err(CompanyNotSupplier);
      }
      if paidOn > today {
        return Err(PaymentDateInFuture);
      }
      payments := payments[id := SupplierPayment(supplier, currency, amount, None, 1)];
      return Ok(id);
    }

    /** The checking loop of allocate(). */
    method CheckItems(payment: SupplierPayment, items: seq<Item>, versions: map<Id, int>)
          returns (refusal: Option<Error>)
      requires forall item :: item in items ==> item.target in payables
      ensures refusal == FirstRefusal(State(), payment, items, versions)
    {
      ghost var s := State();
      var totals := NetTotals(rows, ItemTargets(items));
      var i := 0;
      while i < |items|
        invariant 0 <= i <= |items|
        invariant forall item :: item in items[i..] ==> item in items
        invariant FirstRefusal(s, payment, items[i..], versions) == FirstRefusal(s, payment, items, versions)
      {
        var item := items[i];
        assert items[i..][1..] == items[i + 1..];
        NetTotalsGet(rows, ItemTargets(items), item.target);
        var payable := payables[item.target];
        if payable.version != GetOr(versions, item.target, 0) {
          return Some(VersionConflict);
        }
        if payable.voided {
          return Some(PayableVoided);
        }
        if payable.supplier != payment.supplier || payable.currency != payment.currency {
          return Some(SettlementMismatch);
        }
        if GetOr(totals, item.target, 0) + item.amount > payable.amount {
          return Some(PayableOverallocation);
        }
        i := i + 1;
      }
      return None;
    }

    /** The posting loop of allocate(). */
    method PostItems(payment: Id, items: seq<Item>)
      requires DistinctTargets(items) && forall item :: item in items ==> item.target in payables
      modifies this`rows, this`payables
      ensures ItemsPosted(old(rows), old(payables), rows, payables, payment, items)
    {
      var i := 0;
      while i < |items|
        invariant 0 <= i <= |items|
        invariant ItemsPosted(old(rows), old(payables), rows, payables, payment, items[..i])
      {
        var item := items[i];
        NewTarget(items, i);
        NextPrefix(items, i);
        ItemPosted(old(rows), old(payables), rows, payables, payment, items[..i], item);
        rows := rows + [Row(|rows|, payment, item.target, Allocation, item.amount, None)];
        payables := payables[item.target := payables[item.target].(version := payables[item.target].version + 1)];
        i := i + 1;
      }
      assert items[..|items|] == items;
    }

    method Allocate(payment: Id, expected: int, items: seq<Item>, versions: map<Id, int>)
          returns (result: Result<Id, Error>)
      requires DistinctTargets(items)
      modifies this`rows, this`payables, this`payments
      ensures (State(), result) == Apply(old(State()), Command.Allocate(payment, expected, items, versions))
    {
      if payment !in payments {
        return Err(PaymentMissing);
      }
      var row := payments[payment];
      var inactive := ActivePayment(State(), payment, expected);
      if inactive.Some? {
        return Err(inactive.value);
      }
      if !(ItemTargets(items) <= payables.Keys) {
        return Err(PayableMissing);
      }
      assert forall item :: item in items ==> item.target in ItemTargets(items);
      OwnSums(rows, payment, 0);
      if Used(RowsOf(rows, payment), payment) + Requested(items) > row.amount {
        return Err(PaymentOverallocation);
      }
      var refusal := CheckItems(row, items, versions);
      if refusal.Some? {
        return Err(refusal.value);
      }
      PostItems(payment, items);
      payments := payments[payment := row.(version := row.version + 1)];
      return Ok(payment);
    }

    /** The mirroring loop of reverse(). */
    method PostMirrors(own: seq<Row>, reversal: Id)
      modifies this`rows
      ensures MirrorsPosted(old(rows), rows, own, reversal)
    {
      var i := 0;
      while i < |own|
        invariant 0 <= i <= |own|
        invariant MirrorsPosted(old(rows), rows, own[..i], reversal)
      {
        var row := own[i];
        NextPrefix(own, i);
        MirrorPosted(old(rows), rows, own[..i], row, reversal);
        rows := rows + [Row(|rows|, reversal, row.target, Reversal, row.amount, Some(row.id))];
        i := i + 1;
      }
      assert own[..|own|] == own;
    }

    /** The version loop of reverse(), over the locked payables in id order. */
    method TouchPayables(locked: seq<Id>)
      requires Increasing(locked) && forall x :: x in locked ==> x in payables
      modifies this`payables
      ensures payables == Touched(old(payables), Elements(locked))
    {
      var i := 0;
      assert payables == Touched(old(payables), {});
      while i < |locked|
        invariant 0 <= i <= |locked|
        invariant payables == Touched(old(payables), Elements(locked[..i]))
      {
        var x := locked[i];
        NextId(locked, i);
        TouchNext(old(payables), Elements(locked[..i]), x);
        payables := payables[x := payables[x].(version := payables[x].version + 1)];
        i := i + 1;
      }
      assert locked[..|locked|] == locked;
    }

    method Reverse(payment: Id, expected: int, reversal: Id) returns (result: Result<Id, Error>)
      modifies this`rows, this`payables, this`payments
      ensures (State(), result) == Apply(old(State()), Command.Reverse(payment, expected, reversal))
    {
      if payment !in payments {
        return Err(PaymentMissing);
      }
      var original := payments[payment];
      var inactive := ActivePayment(State(), payment, expected);
      if inactive.Some? {
        return Err(inactive.value);
      }
      var own := RowsOf(rows, payment);
      var locked := Sorted(Targets(own));
      assert Elements(locked) == Targets(own);
      if !(Targets(own) <= payables.Keys) {
        return Err(PayableMissing);
      }
      payments := payments[reversal := SupplierPayment(original.supplier, original.currency, original.amount,
        Some(payment), 1)];
      PostMirrors(own, reversal);
      TouchPayables(locked);
      return Ok(reversal);
    }
  }
}
