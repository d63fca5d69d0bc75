/** The supplier settlement ledger: payables under a purchase, outgoing payments, and allocation rows. */
module SupplierLedger {
  import opened Prelude
  import opened Settlement

  datatype Purchase = Purchase(order: Id, supplier: Id, currency: Id, total: int, confirmed: bool)

  datatype Payable = Payable(purchase: Id, supplier: Id, currency: Id, amount: int, due: int, voided: bool,
    version: int)

  datatype SupplierPayment = SupplierPayment(supplier: Id, currency: Id, amount: int, reversalOf: Option<Id>,
    version: int)

  /** `suppliers` are the companies with the supplier role, `orders` the sales orders. */
  datatype Books = Books(
    companies: set<Id>, suppliers: set<Id>, orders: set<Id>, purchases: map<Id, Purchase>, payables: map<Id, Payable>,
    payments: map<Id, SupplierPayment>, rows: seq<Row>)

  /** Request validation makes the payables of one allocation unique; `versions` are the expected ones. */
  datatype Command =
    | PlacePurchase(purchase: Id, placed: Purchase)
    | ConfirmPurchase(purchase: Id)
    | CreatePayable(id: Id, purchase: Id, amount: int, due: int, incurredOn: int, today: int)
    | VoidPayable(payable: Id, expected: int)
    | RecordPayment(id: Id, supplier: Id, currency: Id, amount: int, paidOn: int, today: int)
    | Allocate(payment: Id, expected: int, items: seq<Item>, versions: map<Id, int>)
    | Reverse(payment: Id, expected: int, reversal: Id)

  datatype Error =
    | PurchaseMissing | SalesOrderMissing | PurchaseNotConfirmed | PayableDateInFuture | PayableExceedsPurchase
    | PayableMissing | VersionConflict | PayableNotVoidable | SupplierMissing | CompanyNotSupplier | PaymentDateInFuture
    | PaymentMissing | PaymentInactive | PaymentOverallocation
    | PayableVoided | SettlementMismatch | PayableOverallocation

  // ---- Queries ----------------------------------------------------------------------------------

  function ReversedPayments(payments: map<Id, SupplierPayment>): set<Id> {
    set q | q in payments && payments[q].reversalOf.Some? :: payments[q].reversalOf.value
  }

  /** Unreversed originals; the column `kind` is REVERSAL exactly when `reversalOf` is set. */
  function LivePayments(payments: map<Id, SupplierPayment>): set<Id> {
    set p | p in payments && payments[p].reversalOf.None? && p !in ReversedPayments(payments)
  }

  function ActivePayables(payables: map<Id, Payable>, purchase: Id): set<Id> {
    set x | x in payables && payables[x].purchase == purchase && !payables[x].voided
  }

  ghost function Principal(payables: map<Id, Payable>): Id -> int {
    (x: Id) => if x in payables then payables[x].amount else 0
  }

  ghost function ActivePrincipal(payables: map<Id, Payable>, purchase: Id): int {
    SumOver(ActivePayables(payables, purchase), Principal(payables))
  }

  /** payment_response: what the page shows as still available. */
  function Available(s: Books, p: Id): int
    requires p in s.payments
  {
    if p in LivePayments(s.payments) then s.payments[p].amount - Used(s.rows, p) else 0
  }

  // ---- Commands ---------------------------------------------------------------------------------

  function ActivePayment(s: Books, p: Id, expected: int): Option<Error>
    requires p in s.payments
  {
    if s.payments[p].version != expected then Some(VersionConflict)
    else if p !in LivePayments(s.payments) then Some(PaymentInactive)
    else None
  }

  ghost function ApplyCreate(s: Books, c: Command): (Books, Result<Id, Error>)
    requires c.CreatePayable?
  {
    if c.purchase !in s.purchases then (s, Err(PurchaseMissing))
    else
      var purchase := s.purchases[c.purchase];
      if purchase.order !in s.orders then (s, Err(SalesOrderMissing))
      else if !purchase.confirmed then (s, Err(PurchaseNotConfirmed))
      else if c.incurredOn > c.today then (s, Err(PayableDateInFuture))
      else if ActivePrincipal(s.payables, c.purchase) + c.amount > purchase.total then (s, Err(PayableExceedsPurchase))
      else
        (s.(payables := s.payables[c.id :=
          Payable(c.purchase, purchase.supplier, purchase.currency, c.amount, c.due, false, 1)]), Ok(c.id))
  }

  function ApplyVoid(s: Books, c: Command): (Books, Result<Id, Error>)
    requires c.VoidPayable?
  {
    if c.payable !in s.payables then (s, Err(PayableMissing))
    else
      var payable := s.payables[c.payable];
      if payable.version != c.expected then (s, Err(VersionConflict))
      else if payable.voided || Net(s.rows, c.payable) != 0 then (s, Err(PayableNotVoidable))
      else (s.(payables := s.payables[c.payable := payable.(voided := true)]), Ok(c.payable))
  }

  function ApplyRecord(s: Books, c: Command): (Books, Result<Id, Error>)
    requires c.RecordPayment?
  {
    if c.supplier !in s.companies then (s, Err(SupplierMissing))
    else if c.supplier !in s.suppliers then (s, Err(CompanyNotSupplier))
    else if c.paidOn > c.today then (s, Err(PaymentDateInFuture))
    else (s.(payments := s.payments[c.id := SupplierPayment(c.supplier, c.currency, c.amount, None, 1)]), Ok(c.id))
  }

  /** The check of one allocation item, in the order of the loop. */
  function ItemRefusal(s: Books, payment: SupplierPayment, item: Item, expected: int): Option<Error>
    requires item.target in s.payables
  {
    var payable := s.payables[item.target];
    if payable.version != expected then Some(VersionConflict)
    else if payable.voided then Some(PayableVoided)
    else if payable.supplier != payment.supplier || payable.currency != payment.currency then Some(SettlementMismatch)
    else if Net(s.rows, item.target) + item.amount > payable.amount then Some(PayableOverallocation)
    else None
  }

  function FirstRefusal(s: Books, payment: SupplierPayment, items: seq<Item>, versions: map<Id, int>): Option<Error>
    requires forall item :: item in items ==> item.target in s.payables
  {
    if items == [] then None
    else
      assert items[0] in items && forall item :: item in items[1..] ==> item in items;
      var refusal := ItemRefusal(s, payment, items[0], GetOr(versions, items[0].target, 0));
      if refusal.Some? then refusal else FirstRefusal(s, payment, items[1..], versions)
  }

  function ItemRows(payment: Id, items: seq<Item>): (rows: seq<Row>)
    ensures |rows| == |items|
    ensures forall i :: 0 <= i < |items| ==>
      rows[i] == Row(0, payment, items[i].target, Allocation, items[i].amount, None)
  {
    seq(|items|, i requires 0 <= i < |items| => Row(0, payment, items[i].target, Allocation, items[i].amount, None))
  }

  function ItemTargets(items: seq<Item>): set<Id> { set item | item in items :: item.target }

  function Touched(payables: map<Id, Payable>, ids: set<Id>): map<Id, Payable> {
    map x | x in payables :: if x in ids then payables[x].(version := payables[x].version + 1) else payables[x]
  }

  function ApplyAllocate(s: Books, c: Command): (Books, Result<Id, Error>)
    requires c.Allocate?
  {
    if c.payment !in s.payments then (s, Err(PaymentMissing))
    else
      var payment := s.payments[c.payment];
      var inactive := ActivePayment(s, c.payment, c.expected);
      if inactive.Some? then (s, Err(inactive.value))
      else if !(ItemTargets(c.items) <= s.payables.Keys) then (s, Err(PayableMissing))
      else if Used(s.rows, c.payment) + Requested(c.items) > payment.amount then (s, Err(PaymentOverallocation))
      else
        assert forall item :: item in c.items ==> item.target in ItemTargets(c.items);
        var refusal := FirstRefusal(s, payment, c.items, c.versions);
        if refusal.Some? then (s, Err(refusal.value))
        else
          (s.(
             payables := Touched(s.payables, ItemTargets(c.items)),
             payments := s.payments[c.payment := payment.(version := payment.version + 1)],
             rows := s.rows + Stamp(|s.rows|, ItemRows(c.payment, c.items))),
           Ok(c.payment))
  }

  function ApplyReverse(s: Books, c: Command): (Books, Result<Id, Error>)
    requires c.Reverse?
  {
    if c.payment !in s.payments then (s, Err(PaymentMissing))
    else
      var original := s.payments[c.payment];
      var own := RowsOf(s.rows, c.payment);
      var inactive := ActivePayment(s, c.payment, c.expected);
      if inactive.Some? then (s, Err(inactive.value))
      else if !(Targets(own) <= s.payables.Keys) then (s, Err(PayableMissing))
      else
        var reversal := SupplierPayment(original.supplier, original.currency, original.amount, Some(c.payment), 1);
        (s.(
           payables := Touched(s.payables, Targets(own)),
           payments := s.payments[c.reversal := reversal],
           rows := s.rows + Stamp(|s.rows|, Mirror(own, c.reversal))),
         Ok(c.reversal))
  }

  ghost function Apply(s: Books, c: Command): (Books, Result<Id, Error>) {
    match c
    case PlacePurchase(purchase, placed) => (s.(purchases := s.purchases[purchase := placed]), Ok(purchase))
    case ConfirmPurchase(purchase) =>
      if purchase !in s.purchases then (s, Err(PurchaseMissing))
      else (s.(purchases := s.purchases[purchase := s.purchases[purchase].(confirmed := true)]), Ok(purchase))
    case CreatePayable(_, _, _, _, _, _) => ApplyCreate(s, c)
    case VoidPayable(_, _) => ApplyVoid(s, c)
    case RecordPayment(_, _, _, _, _, _) => ApplyRecord(s, c)
    case Allocate(_, _, _, _) => ApplyAllocate(s, c)
    case Reverse(_, _, _) => ApplyReverse(s, c)
  }

  ghost function Run(s: Books, commands: seq<Command>): Books {
    if commands == [] then s else Apply(Run(s, commands[..|commands| - 1]), commands[|commands| - 1]).0
  }

  // ---- The invariant ----------------------------------------------------------------------------

  predicate SameOriginal(a: SupplierPayment, b: SupplierPayment) { a.reversalOf.Some? && a.reversalOf == b.reversalOf }

  ghost predicate PaymentsLinked(payments: map<Id, SupplierPayment>) {
    && (forall q :: q in payments && payments[q].reversalOf.Some? ==>
          payments[q].reversalOf.value in payments && payments[payments[q].reversalOf.value].reversalOf.None?)
    && (forall p, q :: p in payments && q in payments && SameOriginal(payments[p], payments[q]) ==> p == q)
  }

  ghost predicate RowsLinked(s: Books) {
    forall row :: row in s.rows ==>
      && row.amount > 0 && row.payment in s.payments && row.target in s.payables
      && (row.kind == Allocation <==> s.payments[row.payment].reversalOf.None?)
  }

  ghost predicate WithinPayments(s: Books) {
    forall p :: p in s.payments && s.payments[p].reversalOf.None? ==> Used(s.rows, p) <= s.payments[p].amount
  }

  /** A payable's net is what unreversed payments have put on it. */
  ghost predicate NetIsLive(s: Books) {
    forall x :: x in s.payables ==> Net(s.rows, x) == Live(s.rows, ReversedPayments(s.payments), x)
  }

  ghost predicate Settles(payable: Payable, net: int) {
    && 0 <= net <= payable.amount && payable.amount > 0
    && (payable.voided ==> net == 0)
  }

  ghost predicate AllSettle(s: Books) {
    forall x :: x in s.payables ==> Settles(s.payables[x], Net(s.rows, x))
  }

  /** The cap: active payables of a purchase stay within its total. */
  ghost predicate WithinPurchases(s: Books) {
    && (forall x :: x in s.payables ==> s.payables[x].purchase in s.purchases)
    && (forall u :: u in s.purchases ==> ActivePrincipal(s.payables, u) <= s.purchases[u].total)
  }

  ghost predicate Invariant(s: Books) {
    && PaymentsLinked(s.payments) && RowsLinked(s) && WithinPayments(s) && NetIsLive(s) && AllSettle(s)
    && WithinPurchases(s)
  }

  predicate DistinctTargets(items: seq<Item>) {
    forall i, j :: 0 <= i < j < |items| ==> items[i].target != items[j].target
  }

  /** What request validation and fresh UUIDs give a command. */
  ghost predicate Admissible(s: Books, c: Command) {
    match c
    case PlacePurchase(purchase, placed) => purchase !in s.purchases && placed.total >= 0
    case CreatePayable(id, _, amount, _, _, _) => id !in s.payables && amount > 0
    case RecordPayment(id, _, _, amount, _, _) => id !in s.payments && amount > 0
    case Allocate(_, _, items, _) => DistinctTargets(items) && forall item :: item in items ==> item.amount > 0
    case Reverse(_, _, reversal) => reversal !in s.payments
    case _ => true
  }

  ghost predicate AdmissibleRun(s: Books, commands: seq<Command>)
    decreases |commands|
  {
    commands == [] ||
    (AdmissibleRun(s, commands[..|commands| - 1])
      && Admissible(Run(s, commands[..|commands| - 1]), commands[|commands| - 1]))
  }

  predicate Empty(s: Books) {
    s.purchases == map[] && s.payables == map[] && s.payments == map[] && s.rows == []
  }
}
