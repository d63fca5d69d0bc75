/** The customer settlement ledger: receivables, receipts, and the allocation rows between them.

    A command reads `Facts` (rows it has locked, and aggregates), decides, and commits a `Delta`.
    `Apply` is the atomic reading of that; CustomerService is the statement-by-statement one and
    LedgerConcurrency the interleaved one. */
module CustomerLedger {
  import opened Prelude
  import opened Settlement

  datatype OrderStatus = Draft | Confirmed | DepositPending | Executing | ReadyToShip | Shipped | Completed | Cancelled

  datatype Order = Order(
    status: OrderStatus, company: Id, currency: Id, total: int, deposit: int,
    depositDue: Option<int>, hasShipments: bool)

  datatype Installment = Deposit | Balance

  datatype ReceivableStatus = Pending | Due | PartiallyPaid | Paid | Overdue

  datatype Receivable = Receivable(
    order: Id, installment: Installment, status: ReceivableStatus, amount: int, currency: Id,
    due: int, paidAt: Option<int>)

  datatype PaymentKind = Receipt | ReversalPayment

  datatype PaymentStatus = Active | Reversed

  datatype Payment = Payment(
    company: Id, currency: Id, amount: int, kind: PaymentKind, status: PaymentStatus, reversalOf: Option<Id>)

  /** The committed tables of one organization. */
  datatype Ledger = Ledger(
    companies: set<Id>, orders: map<Id, Order>, receivables: map<Id, Receivable>,
    payments: map<Id, Payment>, rows: seq<Row>)

  /** Fresh UUIDs, the clock and the organization's current day are arguments. `RefreshRows` is
      refresh_statuses once its LIMIT 500 query has picked rows; `PlaceOrder` and `MoveOrder` stand
      for the sales module, whose commands hold the order lock. */
  datatype Command =
    | Create(id: Id, company: Id, currency: Id, amount: int)
    | Allocate(payment: Id, items: seq<Item>, now: int, today: int)
    | Reverse(payment: Id, reversal: Id, today: int)
    | Generate(order: Id, depositDue: Option<int>, balanceDue: int, depositId: Id, balanceId: Id, today: int)
    | RefreshRows(picked: set<Id>, today: int)
    | PlaceOrder(order: Id, placed: Order)
    | MoveOrder(order: Id, status: OrderStatus, hasShipments: bool)

  datatype Error =
    | CompanyNotFound | DuplicateReceivable | PaymentNotFound | PaymentNotAllocatable
    | PaymentAllocationExceeded | ReceivableNotFound | OrderLinkInvalid | OrderCancelled
    | CurrencyMismatch | CompanyMismatch | ReceivableAllocationExceeded
    | ReversalNotReversible | ReversalInconsistent | ReversalRequiresReview | LookupMissed
    | OrderNotFound | OrderNotConfirmed | AlreadyGenerated | DepositDueRequired | ZeroValueOrder

  /** What a command has read by the time it decides; `locked` is the order in which the receivable
      rows were locked and are processed. */
  datatype Facts = Facts(
    payments: map<Id, Payment>, own: seq<Row>, reversal: Option<Id>, orders: map<Id, Order>,
    locked: seq<Id>, receivables: map<Id, Receivable>, totals: map<Id, int>)
  {
    ghost predicate Ordered() { Increasing(locked) && Elements(locked) == receivables.Keys }
  }

  /** What a command writes; `rows` still without ids. */
  datatype Delta = Delta(
    orders: map<Id, Order>, receivables: map<Id, Receivable>, payments: map<Id, Payment>, rows: seq<Row>)

  const NoChange := Delta(map[], map[], map[], [])

  datatype Verdict = Accept(delta: Delta, reply: seq<Id>) | Reject(error: Error)

  // ---- Decisions --------------------------------------------------------------------------------

  function StatusFor(amount: int, due: int, paid: int, today: int): ReceivableStatus {
    if paid >= amount then Paid
    else if paid > 0 then PartiallyPaid
    else if due < today then Overdue
    else if due == today then Due
    else Pending
  }

  function OrderIds(receivables: map<Id, Receivable>): set<Id> {
    set r | r in receivables :: receivables[r].order
  }

  /** The first linked row, in id order, that may not be settled by this payment. */
  function Mismatch(ids: seq<Id>, payment: Payment, f: Facts): Option<Error>
    requires forall r :: r in ids ==> r in f.receivables
    requires OrderIds(f.receivables) <= f.orders.Keys
  {
    if ids == [] then None else
      var receivable := f.receivables[ids[0]];
      assert receivable.order in OrderIds(f.receivables);
      var order := f.orders[receivable.order];
      if order.status == Cancelled then Some(OrderCancelled)
      else if receivable.currency != payment.currency then Some(CurrencyMismatch)
      else if order.company != payment.company then Some(CompanyMismatch)
      else Mismatch(ids[1..], payment, f)
  }

  function Settled(receivable: Receivable, paid: int, now: int, today: int): Receivable {
    var status := StatusFor(receivable.amount, receivable.due, paid, today);
    receivable.(status := status, paidAt := if status == Paid then Some(now) else None)
  }

  function Unsettled(receivable: Receivable, paid: int, today: int): Receivable {
    receivable.(status := StatusFor(receivable.amount, receivable.due, paid, today), paidAt := None)
  }

  function DecideCreate(c: Command, companies: set<Id>): Verdict
    requires c.Create?
  {
    if c.company !in companies then Reject(CompanyNotFound)
    else
      Accept(NoChange.(payments := map[c.id := Payment(c.company, c.currency, c.amount, Receipt, Active, None)]),
        [c.id])
  }

  function AllocateDelta(c: Command, f: Facts, amounts: map<Id, int>): Delta
    requires c.Allocate? && f.Ordered() && f.receivables.Keys == amounts.Keys
  {
    assert forall r :: r in f.locked ==> r in Elements(f.locked);
    var settled := map r | r in amounts.Keys ::
      Settled(f.receivables[r], GetOr(f.totals, r, 0) + amounts[r], c.now, c.today);
    Delta(map[], settled, map[], AllocationRows(c.payment, amounts, f.locked))
  }

  function DecideAllocate(c: Command, f: Facts): Verdict
    requires c.Allocate? && f.Ordered()
  {
    var amounts := AmountById(c.items);
    if |amounts.Keys| != |c.items| then Reject(DuplicateReceivable)
    else if c.payment !in f.payments then Reject(PaymentNotFound)
    else
      var payment := f.payments[c.payment];
      if payment.kind != Receipt || payment.status != Active then Reject(PaymentNotAllocatable)
      else if Used(f.own, c.payment) + Requested(c.items) > payment.amount then Reject(PaymentAllocationExceeded)
      else if f.receivables.Keys != amounts.Keys then Reject(ReceivableNotFound)
      else if OrderIds(f.receivables) != f.orders.Keys then Reject(OrderLinkInvalid)
      else
        assert forall r :: r in f.locked ==> r in Elements(f.locked);
        var mismatch := Mismatch(f.locked, payment, f);
        if mismatch.Some? then Reject(mismatch.value)
        else if exists r :: r in amounts.Keys && GetOr(f.totals, r, 0) + amounts[r] > f.receivables[r].amount then
          Reject(ReceivableAllocationExceeded)
        else Accept(AllocateDelta(c, f, amounts), [c.payment])
  }

  function ReverseDelta(c: Command, f: Facts): Delta
    requires c.Reverse? && c.payment in f.payments
    requires Targets(f.own) <= f.receivables.Keys && Targets(f.own) <= f.totals.Keys
  {
    var original := f.payments[c.payment];
    var reversal := Payment(original.company, original.currency, original.amount, ReversalPayment, Active,
      Some(c.payment));
    var unsettled := map r | r in Targets(f.own) ::
      Unsettled(f.receivables[r], f.totals[r] - UsedOn(f.own, c.payment, r), c.today);
    Delta(map[], unsettled, map[c.payment := original.(status := Reversed), c.reversal := reversal],
      Mirror(f.own, c.reversal))
  }

  function DecideReverse(c: Command, f: Facts): Verdict
    requires c.Reverse?
  {
    if c.payment !in f.payments then Reject(PaymentNotFound)
    else
      var original := f.payments[c.payment];
      if original.kind != Receipt then Reject(ReversalNotReversible)
      else if original.status == Reversed then
        if f.reversal.None? then Reject(ReversalInconsistent) else Accept(NoChange, [f.reversal.value])
      else if exists o :: o in f.orders && f.orders[o].status == Completed then Reject(ReversalRequiresReview)
      else if DepositOnShippedOrder(f) then Reject(ReversalRequiresReview)
      else if !LookupsHit(f) then Reject(LookupMissed)
      else Accept(ReverseDelta(c, f), [c.reversal])
  }

  predicate DepositOnShippedOrder(f: Facts) {
    exists r :: r in f.receivables && f.receivables[r].installment == Deposit &&
      f.receivables[r].order in f.orders && f.orders[f.receivables[r].order].hasShipments
  }

  /** The three dictionaries of reverse() have an entry for every row it mirrors. */
  predicate LookupsHit(f: Facts) {
    Targets(f.own) <= f.receivables.Keys && Targets(f.own) <= f.totals.Keys && OrderIds(f.receivables) <= f.orders.Keys
  }

  function ExpectedDue(r: Receivable, c: Command, order: Order): Option<int>
    requires c.Generate?
  {
    if r.installment == Deposit then RequestedDepositDue(c, order) else Some(c.balanceDue)
  }

  function RequestedDepositDue(c: Command, order: Order): Option<int>
    requires c.Generate?
  {
    if c.depositDue.Some? then c.depositDue else order.depositDue
  }

  function Fresh(c: Command, order: Order, kind: Installment, amount: int, due: int): Receivable
    requires c.Generate?
  {
    Receivable(c.order, kind, StatusFor(amount, due, 0, c.today), amount, order.currency, due, None)
  }

  function DecideGenerate(c: Command, f: Facts): Verdict
    requires c.Generate?
  {
    if c.order !in f.orders then Reject(OrderNotFound)
    else
      var order := f.orders[c.order];
      if order.status in {Draft, Cancelled, Completed} then Reject(OrderNotConfirmed)
      else if f.receivables.Keys != {} then
        if exists r :: r in f.receivables && ExpectedDue(f.receivables[r], c, order) != Some(f.receivables[r].due) then
          Reject(AlreadyGenerated)
        else
          Accept(NoChange, f.locked)
      else
        var due := RequestedDepositDue(c, order);
        var balance := order.total - order.deposit;
        if order.deposit > 0 && due.None? then Reject(DepositDueRequired)
        else if order.deposit <= 0 && balance <= 0 then Reject(ZeroValueOrder)
        else
          Accept(
            NoChange.(receivables := IssuedDeposit(c, order, due) + IssuedBalance(c, order)),
            (if order.deposit > 0 then [c.depositId] else []) + (if balance > 0 then [c.balanceId] else []))
  }

  function IssuedDeposit(c: Command, order: Order, due: Option<int>): map<Id, Receivable>
    requires c.Generate? && (order.deposit > 0 ==> due.Some?)
  {
    if order.deposit > 0 then map[c.depositId := Fresh(c, order, Deposit, order.deposit, due.value)] else map[]
  }

  function IssuedBalance(c: Command, order: Order): map<Id, Receivable>
    requires c.Generate?
  {
    var balance := order.total - order.deposit;
    if balance > 0 then map[c.balanceId := Fresh(c, order, Balance, balance, c.balanceDue)] else map[]
  }

  /** The WHERE clause of refresh_statuses. */
  predicate Lagging(r: Receivable, today: int) {
    (r.status == Pending && r.due <= today) || (r.status == Due && r.due < today)
  }

  function DecideRefresh(c: Command, f: Facts): Verdict
    requires c.RefreshRows?
  {
    var lagging := set r | r in f.receivables && Lagging(f.receivables[r], c.today);
    var refreshed := map r | r in lagging ::
      f.receivables[r].(status := StatusFor(f.receivables[r].amount, f.receivables[r].due, GetOr(f.totals, r, 0),
        c.today));
    Accept(NoChange.(receivables := refreshed), f.locked)
  }

  function DecideOrder(c: Command, f: Facts): Verdict
    requires c.PlaceOrder? || c.MoveOrder?
  {
    if c.PlaceOrder? then Accept(NoChange.(orders := map[c.order := c.placed]), [c.order])
    else if c.order !in f.orders then Reject(OrderNotFound)
    else
      var moved := f.orders[c.order].(status := c.status, hasShipments := c.hasShipments);
      Accept(NoChange.(orders := map[c.order := moved]), [c.order])
  }

  function Decide(c: Command, companies: set<Id>, f: Facts): Verdict
    requires f.Ordered()
  {
    match c
    case Create(_, _, _, _) => DecideCreate(c, companies)
    case Allocate(_, _, _, _) => DecideAllocate(c, f)
    case Reverse(_, _, _) => DecideReverse(c, f)
    case Generate(_, _, _, _, _, _) => DecideGenerate(c, f)
    case RefreshRows(_, _) => DecideRefresh(c, f)
    case PlaceOrder(_, _) => DecideOrder(c, f)
    case MoveOrder(_, _, _) => DecideOrder(c, f)
  }

  // ---- Reading and writing the tables -----------------------------------------------------------

  function ReversalsOf(payments: map<Id, Payment>, original: Id): set<Id> {
    set q | q in payments && payments[q].reversalOf == Some(original)
  }

  /** reversal_for; the partial unique index leaves at most one row to find. */
  function ReversalOf(payments: map<Id, Payment>, original: Id): (found: Option<Id>)
    ensures found.Some? ==> found.value in payments && payments[found.value].reversalOf == Some(original)
    ensures found.None? ==> forall q :: q in payments ==> payments[q].reversalOf != Some(original)
  {
    var found := ReversalsOf(payments, original);
    assert forall q :: q in payments && payments[q].reversalOf == Some(original) ==> q in found;
    if found == {} then None else Some(Least(found))
  }

  function ReceivablesOf(s: Ledger, c: Command): set<Id> {
    match c
    case Allocate(_, items, _, _) => AmountById(items).Keys
    case Reverse(p, _, _) =>
      if p in s.payments && s.payments[p].status == Active then Targets(RowsOf(s.rows, p)) else {}
    case Generate(o, _, _, _, _, _) => set r | r in s.receivables && s.receivables[r].order == o
    case RefreshRows(picked, _) => picked
    case _ => {}
  }

  function PaymentsOf(c: Command): set<Id> {
    match c
    case Allocate(p, _, _, _) => {p}
    case Reverse(p, _, _) => {p}
    case _ => {}
  }

  function OrdersOf(s: Ledger, c: Command): set<Id> {
    match c
    case Generate(o, _, _, _, _, _) => {o}
    case MoveOrder(o, _, _) => {o}
    case PlaceOrder(o, _) => {o}
    case Allocate(_, _, _, _) => OrderIds(Restrict(s.receivables, ReceivablesOf(s, c)))
    case Reverse(_, _, _) => OrderIds(Restrict(s.receivables, ReceivablesOf(s, c)))
    case _ => {}
  }

  function Observe(s: Ledger, c: Command): (f: Facts)
    ensures f.Ordered()
  {
    var own := if c.Allocate? || c.Reverse? then RowsOf(s.rows, c.payment) else [];
    var reversal := if c.Reverse? then ReversalOf(s.payments, c.payment) else None;
    var ids := ReceivablesOf(s, c);
    var receivables := Restrict(s.receivables, ids);
    Facts(
      Restrict(s.payments, PaymentsOf(c)), own, reversal, Restrict(s.orders, OrdersOf(s, c)),
      Sorted(receivables.Keys), receivables, NetTotals(s.rows, ids))
  }

  function Commit(s: Ledger, d: Delta): Ledger {
    Ledger(
      s.companies, s.orders + d.orders, s.receivables + d.receivables, s.payments + d.payments,
      s.rows + Stamp(|s.rows|, d.rows))
  }

  /** A rejected command is rolled back. */
  function Apply(s: Ledger, c: Command): (Ledger, Result<seq<Id>, Error>) {
    match Decide(c, s.companies, Observe(s, c))
    case Reject(error) => (s, Err(error))
    case Accept(delta, reply) => (Commit(s, delta), Ok(reply))
  }

  function Run(s: Ledger, commands: seq<Command>): Ledger {
    if commands == [] then s else Apply(Run(s, commands[..|commands| - 1]), commands[|commands| - 1]).0
  }
}
