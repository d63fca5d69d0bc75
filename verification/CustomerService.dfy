/** The payment and receivable command services, statement by statement, inside a unit of work. */
module CustomerService {
  import opened Prelude
  import opened Settlement
  import opened CustomerLedger
  import opened LedgerInvariant
  import I = Idempotency

  datatype Scope = RecordPayment | AllocatePayment(payment: Id)

  /** The JSON body whose digest is stored as request_hash. */
  datatype Payload = PaymentPayload(company: Id, currency: Id, amount: int) | AllocationPayload(items: seq<Item>)

  type Resource = seq<Id>
  type Keys = map<I.Slot<Scope>, I.KeyRecord<Payload, Resource>>
  type Store = I.Store<Ledger, Scope, Payload, Resource>
  type Outcome = Result<Resource, I.Refusal<Error>>
  type PaymentRequest = I.Request<Scope, Payload, Command>

  /** allocate() refuses a repeated receivable before it opens its transaction. */
  function Precheck(c: Command): Option<Error> {
    if c.Allocate? && |AmountById(c.items).Keys| != |c.items| then Some(DuplicateReceivable) else None
  }

  const PAYMENTS := I.Service<Ledger, Command, Resource, Error>.Service(Precheck, Apply)

  class Database {
    var ledger: Ledger
    var keys: Keys

    constructor (ledger: Ledger)
      ensures this.ledger == ledger && keys == map[]
    {
      this.ledger, keys := ledger, map[];
    }

    function State(): Store
      reads this
    {
      I.Store.Store(ledger, keys)
    }
  }

  /** A session's view of the tables; only Commit publishes it. */
  class UnitOfWork {
    const database: Database
    const companies: set<Id>
    var open: bool
    var committed: bool
    var orders: map<Id, Order>
    var receivables: map<Id, Receivable>
    var payments: map<Id, Payment>
    var rows: seq<Row>
    var keys: Keys

    function Tables(): Ledger
      reads this
    {
      Ledger(companies, orders, receivables, payments, rows)
    }

    constructor (database: Database)
      ensures this.database == database && open && !committed
      ensures Tables() == database.ledger && keys == database.keys
    {
      this.database := database;
      open, committed := true, false;
      companies, orders, receivables := database.ledger.companies, database.ledger.orders, database.ledger.receivables;
      payments, rows, keys := database.ledger.payments, database.ledger.rows, database.keys;
    }

    method Commit()
      requires open
      modifies this, database
      ensures open && committed && Tables() == old(Tables()) && keys == old(keys)
      ensures database.ledger == Tables() && database.keys == keys
    {
      database.ledger, database.keys := Tables(), keys;
      committed := true;
    }

    method Rollback()
      requires open
      modifies this
      ensures open && committed == old(committed)
      ensures orders == database.ledger.orders && receivables == database.ledger.receivables
      ensures payments == database.ledger.payments && rows == database.ledger.rows && keys == database.keys
    {
      orders, receivables := database.ledger.orders, database.ledger.receivables;
      payments, rows, keys := database.ledger.payments, database.ledger.rows, database.keys;
    }

    method Exit()
      requires open
      modifies this
      ensures !open && committed == old(committed)
      ensures committed ==> Tables() == old(Tables()) && keys == old(keys)
      ensures !committed ==>
        && orders == database.ledger.orders && receivables == database.ledger.receivables
        && payments == database.ledger.payments && rows == database.ledger.rows && keys == database.keys
    {
      if !committed {
        Rollback();
      }
      open := false;
    }
  }

  // ---- Idempotency keys -------------------------------------------------------------------------

  method BeginCommand(uow: UnitOfWork, slot: I.Slot<Scope>, payload: Payload)
      returns (record: Result<I.KeyRecord<Payload, Resource>, I.Refusal<Error>>)
    requires uow.open
    modifies uow`keys
    ensures !I.ValidKey(slot.key) ==> record == Err(I.InvalidKey)
    ensures I.ValidKey(slot.key) && slot in old(uow.keys) ==>
      record == if old(uow.keys)[slot].payload == payload then Ok(old(uow.keys)[slot]) else Err(I.KeyConflict)
    ensures I.ValidKey(slot.key) && slot !in old(uow.keys) ==> record == Ok(I.KeyRecord(payload, None))
    ensures uow.keys == if record.Ok? then old(uow.keys)[slot := record.value] else old(uow.keys)
  {
    if !I.ValidKey(slot.key) {
      return Err(I.InvalidKey);
    }
    if slot in uow.keys {
      if uow.keys[slot].payload != payload {
        return Err(I.KeyConflict);
      }
      return Ok(uow.keys[slot]);
    }
    uow.keys := uow.keys[slot := I.KeyRecord(payload, None)];
    return Ok(uow.keys[slot]);
  }

  method CompleteCommand(uow: UnitOfWork, slot: I.Slot<Scope>, resource: Resource)
    requires uow.open && slot in uow.keys
    modifies uow`keys
    ensures uow.keys == old(uow.keys)[slot := I.KeyRecord(old(uow.keys)[slot].payload, Some(resource))]
  {
    uow.keys := uow.keys[slot := uow.keys[slot].(resource := Some(resource))];
  }

  // ---- Queries under lock -----------------------------------------------------------------------

  /** _lock_receivable_orders: the orders of the named receivables, by id. */
  method LockReceivableOrders(uow: UnitOfWork, ids: set<Id>) returns (orders: map<Id, Order>)
    ensures orders == Restrict(uow.orders, OrderIds(Restrict(uow.receivables, ids)))
  {
    orders := Restrict(uow.orders, OrderIds(Restrict(uow.receivables, ids)));
  }

  // ---- Allocation -------------------------------------------------------------------------------

  method CheckLinks(locked: seq<Id>, receivables: map<Id, Receivable>, orders: map<Id, Order>, payment: Payment,
      ghost f: Facts)
      returns (refusal: Option<Error>)
    requires f.receivables == receivables && f.orders == orders
    requires forall r :: r in locked ==> r in receivables
    requires OrderIds(receivables) <= orders.Keys
    ensures refusal == Mismatch(locked, payment, f)
  {
    var i := 0;
    while i < |locked|
      invariant 0 <= i <= |locked|
      invariant Mismatch(locked[i..], payment, f) == Mismatch(locked, payment, f)
    {
      var receivable := receivables[locked[i]];
      assert receivable.order in OrderIds(receivables);
      assert locked[i..][1..] == locked[i + 1..];
      var order := orders[receivable.order];
      if order.status == Cancelled {
        return Some(OrderCancelled);
      }
      if receivable.currency != payment.currency {
        return Some(CurrencyMismatch);
      }
      if order.company != payment.company {
        return Some(CompanyMismatch);
      }
      i := i + 1;
    }
    return None;
  }

  predicate Exceeds(receivables: map<Id, Receivable>, totals: map<Id, int>, amounts: map<Id, int>, r: Id) {
    r in receivables && r in amounts && GetOr(totals, r, 0) + amounts[r] > receivables[r].amount
  }

  /** What the posting loop has done once it has processed the rows `ids`. */
  ghost predicate RowsPosted(before: seq<Row>, after: seq<Row>, payment: Id, amounts: map<Id, int>, ids: seq<Id>)
    requires forall r :: r in ids ==> r in amounts
  {
    after == before + Stamp(|before|, AllocationRows(payment, amounts, ids))
  }

  ghost predicate ReceivablesPosted(
      before: map<Id, Receivable>, after: map<Id, Receivable>, done: set<Id>, totals: map<Id, int>,
      amounts: map<Id, int>,
      now: int, today: int)
  {
    && after.Keys == before.Keys
    && forall r :: r in before ==>
      after[r] == if r in done && r in amounts then Settled(before[r], GetOr(totals, r, 0) + amounts[r], now, today)
        else before[r]
  }

  ghost predicate NoneExceeds(receivables: map<Id, Receivable>, totals: map<Id, int>, amounts: map<Id, int>,
      done: set<Id>)
  {
    forall r :: r in done ==> !Exceeds(receivables, totals, amounts, r)
  }

  lemma {:induction false} PostRow(before: seq<Row>, rows: seq<Row>, payment: Id, amounts: map<Id, int>, ids: seq<Id>,
      r: Id)
    requires (forall x :: x in ids ==> x in amounts) && r in amounts && RowsPosted(before, rows, payment, amounts, ids)
    ensures RowsPosted(before, rows + [Row(|rows|, payment, r, Allocation, amounts[r], None)], payment, amounts,
      ids + [r])
  {
  }

  lemma {:induction false} PostReceivable(
      before: map<Id, Receivable>, after: map<Id, Receivable>, done: set<Id>, r: Id, totals: map<Id, int>,
      amounts: map<Id, int>,
      now: int, today: int)
    requires r !in done && r in before && r in amounts
      && ReceivablesPosted(before, after, done, totals, amounts, now, today)
    ensures r in after && after[r] == before[r]
    ensures ReceivablesPosted(
      before, after[r := Settled(before[r], GetOr(totals, r, 0) + amounts[r], now, today)], done + {r}, totals, amounts,
        now, today)
  {
  }

  /** One allocation row, with the receivable's new status. */
  method PostAllocation(uow: UnitOfWork, payment: Id, r: Id, amount: int, total: int, now: int, today: int)
    requires uow.open && r in uow.receivables
    modifies uow`receivables, uow`rows
    ensures uow.rows == old(uow.rows) + [Row(|old(uow.rows)|, payment, r, Allocation, amount, None)]
    ensures uow.receivables == old(uow.receivables)[r := Settled(old(uow.receivables)[r], total, now, today)]
  {
    var receivable := uow.receivables[r];
    uow.rows := uow.rows + [Row(|uow.rows|, payment, r, Allocation, amount, None)];
    var status := StatusFor(receivable.amount, receivable.due, total, today);
    uow.receivables := uow.receivables[r :=
      receivable.(status := status, paidAt := if status == Paid then Some(now) else None)];
  }

  /** The posting loop of allocate(): it may raise after it has already written rows. */
  method PostAllocations(
      uow: UnitOfWork, payment: Id, locked: seq<Id>, totals: map<Id, int>, amounts: map<Id, int>, now: int, today: int)
      returns (exceeded: bool)
    requires uow.open && Increasing(locked) && forall r :: r in locked ==> r in amounts && r in uow.receivables
    modifies uow`receivables, uow`rows
    ensures exceeded ==> exists r :: r in locked && Exceeds(old(uow.receivables), totals, amounts, r)
    ensures !exceeded ==> NoneExceeds(old(uow.receivables), totals, amounts, Elements(locked))
    ensures !exceeded ==>
      ReceivablesPosted(old(uow.receivables), uow.receivables, Elements(locked), totals, amounts, now, today)
    ensures !exceeded ==> RowsPosted(old(uow.rows), uow.rows, payment, amounts, locked)
  {
    var i := 0;
    while i < |locked|
      invariant 0 <= i <= |locked|
      invariant NoneExceeds(old(uow.receivables), totals, amounts, Elements(locked[..i]))
      invariant ReceivablesPosted(old(uow.receivables), uow.receivables, Elements(locked[..i]), totals, amounts, now,
        today)
      invariant RowsPosted(old(uow.rows), uow.rows, payment, amounts, locked[..i])
    {
      var r := locked[i];
      NextId(locked, i);
      PostReceivable(old(uow.receivables), uow.receivables, Elements(locked[..i]), r, totals, amounts, now, today);
      var current := GetOr(totals, r, 0);
      if current + amounts[r] > uow.receivables[r].amount {
        assert Exceeds(old(uow.receivables), totals, amounts, r);
        return true;
      }
      PostRow(old(uow.rows), uow.rows, payment, amounts, locked[..i], r);
      PostAllocation(uow, payment, r, amounts[r], current + amounts[r], now, today);
      i := i + 1;
    }
    assert locked[..|locked|] == locked;
    return false;
  }

  /** `f` is what allocate() reads from the tables `s` after it has taken its locks. */
  ghost predicate ReadsAllocate(s: Ledger, c: Command, f: Facts)
    requires c.Allocate?
  {
    var ids := AmountById(c.items).Keys;
    && f.Ordered()
    && f.own == RowsOf(s.rows, c.payment)
    && f.payments == Restrict(s.payments, {c.payment})
    && f.receivables == Restrict(s.receivables, ids)
    && f.orders == Restrict(s.orders, OrderIds(f.receivables))
    && f.locked == Sorted(f.receivables.Keys)
    && f.totals == NetTotals(s.rows, ids)
  }

  lemma {:induction false} ObservesAllocate(s: Ledger, c: Command)
    requires c.Allocate?
    ensures ReadsAllocate(s, c, Observe(s, c))
  {
  }

  /** Every check of allocate() before its posting loop. */
  ghost predicate Checked(c: Command, f: Facts)
    requires c.Allocate?
  {
    var amounts := AmountById(c.items);
    && f.Ordered() && |amounts.Keys| == |c.items|
    && c.payment in f.payments
    && f.payments[c.payment].kind == Receipt && f.payments[c.payment].status == Active
    && Used(f.own, c.payment) + Requested(c.items) <= f.payments[c.payment].amount
    && f.receivables.Keys == amounts.Keys && OrderIds(f.receivables) == f.orders.Keys
    && (forall r :: r in f.locked ==> r in f.receivables)
    && Mismatch(f.locked, f.payments[c.payment], f) == None
  }

  lemma {:induction false} AfterChecks(c: Command, f: Facts)
    requires c.Allocate? && Checked(c, f)
    ensures var amounts := AmountById(c.items);
      DecideAllocate(c, f) ==
        if exists r :: r in amounts.Keys && GetOr(f.totals, r, 0) + amounts[r] > f.receivables[r].amount
        then Reject(ReceivableAllocationExceeded)
        else Accept(AllocateDelta(c, f, amounts), [c.payment])
  {
  }

  /** The checks of allocate(), in the order in which they are made. */
  method CheckAllocate(uow: UnitOfWork, c: Command, ghost f: Facts) returns (refusal: Option<Error>)
    requires uow.open && c.Allocate? && |AmountById(c.items).Keys| == |c.items| && ReadsAllocate(uow.Tables(), c, f)
    ensures refusal.Some? ==> DecideAllocate(c, f) == Reject(refusal.value)
    ensures refusal.None? ==> Checked(c, f)
  {
    if c.payment !in uow.payments {
      return Some(PaymentNotFound);
    }
    var payment := uow.payments[c.payment];
    if payment.kind != Receipt || payment.status != Active {
      return Some(PaymentNotAllocatable);
    }
    OwnSums(uow.rows, c.payment, 0);
    if Used(uow.rows, c.payment) + Requested(c.items) > payment.amount {
      return Some(PaymentAllocationExceeded);
    }
    var ids := AmountById(c.items).Keys;
    var orders := LockReceivableOrders(uow, ids);
    var receivables := Restrict(uow.receivables, ids);
    if receivables.Keys != ids {
      return Some(ReceivableNotFound);
    }
    if |orders.Keys| != |OrderIds(receivables)| {
      return Some(OrderLinkInvalid);
    }
    SameSize(orders.Keys, OrderIds(receivables));
    var locked := Sorted(receivables.Keys);
    refusal := CheckLinks(locked, receivables, orders, payment, f);
  }

  lemma {:induction false} SameSize(a: set<Id>, b: set<Id>)
    requires a <= b && |a| == |b|
    ensures a == b
  {
    assert |b - a| == 0;
  }

  lemma {:induction false} ExceedingRejects(s: Ledger, c: Command, f: Facts, r: Id)
    requires c.Allocate? && ReadsAllocate(s, c, f) && Checked(c, f)
    requires r in f.locked && Exceeds(s.receivables, f.totals, AmountById(c.items), r)
    ensures DecideAllocate(c, f) == Reject(ReceivableAllocationExceeded)
  {
    AfterChecks(c, f);
    assert r in f.receivables.Keys;
  }

  lemma {:induction false} WithinBalancesAccepts(s: Ledger, c: Command, f: Facts)
    requires c.Allocate? && ReadsAllocate(s, c, f) && Checked(c, f)
    requires NoneExceeds(s.receivables, f.totals, AmountById(c.items), AmountById(c.items).Keys)
    ensures DecideAllocate(c, f) == Accept(AllocateDelta(c, f, AmountById(c.items)), [c.payment])
  {
  }

  lemma {:induction false} PostedSettled(s: Ledger, c: Command, f: Facts, amounts: map<Id, int>,
      receivables: map<Id, Receivable>)
    requires c.Allocate? && f.Ordered() && f.receivables == Restrict(s.receivables, amounts.Keys)
      && f.receivables.Keys == amounts.Keys
    requires ReceivablesPosted(s.receivables, receivables, amounts.Keys, f.totals, amounts, c.now, c.today)
    ensures s.receivables + AllocateDelta(c, f, amounts).receivables == receivables
  {
    MergesTo(s.receivables, AllocateDelta(c, f, amounts).receivables, receivables);
  }

  lemma {:induction false} PostedCommits(s: Ledger, c: Command, f: Facts, amounts: map<Id, int>,
    receivables: map<Id, Receivable>, rows: seq<Row>)
    requires c.Allocate? && f.Ordered() && f.receivables == Restrict(s.receivables, amounts.Keys)
      && f.receivables.Keys == amounts.Keys
    requires forall r :: r in f.locked ==> r in amounts
    requires RowsPosted(s.rows, rows, c.payment, amounts, f.locked)
    requires ReceivablesPosted(s.receivables, receivables, amounts.Keys, f.totals, amounts, c.now, c.today)
    ensures Commit(s, AllocateDelta(c, f, amounts)) == s.(receivables := receivables, rows := rows)
  {
    PostedSettled(s, c, f, amounts, receivables);
    MergeNothing(s.orders);
    MergeNothing(s.payments);
  }

  lemma {:induction false} PostingDone(s: Ledger, c: Command, f: Facts, receivables: map<Id, Receivable>,
      rows: seq<Row>)
    requires c.Allocate? && ReadsAllocate(s, c, f) && Checked(c, f)
    requires forall r :: r in f.locked ==> r in AmountById(c.items)
    requires NoneExceeds(s.receivables, f.totals, AmountById(c.items), AmountById(c.items).Keys)
    requires RowsPosted(s.rows, rows, c.payment, AmountById(c.items), f.locked)
    requires ReceivablesPosted(s.receivables, receivables, AmountById(c.items).Keys, f.totals, AmountById(c.items),
      c.now, c.today)
    ensures DecideAllocate(c, f).Accept? && DecideAllocate(c, f).reply == [c.payment]
    ensures Commit(s, DecideAllocate(c, f).delta) == s.(receivables := receivables, rows := rows)
  {
    WithinBalancesAccepts(s, c, f);
    PostedCommits(s, c, f, AmountById(c.items), receivables, rows);
  }

  lemma {:induction false} LockedAre(s: Ledger, c: Command, f: Facts)
    requires c.Allocate? && ReadsAllocate(s, c, f) && Checked(c, f)
    ensures Increasing(f.locked) && Elements(f.locked) == AmountById(c.items).Keys
    ensures forall r :: r in f.locked ==> r in AmountById(c.items) && r in s.receivables
  {
    assert forall r :: r in f.locked ==> r in Elements(f.locked);
  }

  /** The posting half of allocate(), once every check has passed. */
  method PostReceipt(uow: UnitOfWork, c: Command, locked: seq<Id>, totals: map<Id, int>, ghost f: Facts)
        returns (exceeded: bool)
    requires uow.open && c.Allocate? && ReadsAllocate(uow.Tables(), c, f) && Checked(c, f) && locked == f.locked
      && totals == f.totals
    modifies uow`receivables, uow`rows
    ensures exceeded ==> DecideAllocate(c, f) == Reject(ReceivableAllocationExceeded)
    ensures !exceeded ==> DecideAllocate(c, f).Accept? && DecideAllocate(c, f).reply == [c.payment]
    ensures !exceeded ==> uow.Tables() == Commit(old(uow.Tables()), DecideAllocate(c, f).delta)
  {
    ghost var s := uow.Tables();
    LockedAre(s, c, f);
    exceeded := PostAllocations(uow, c.payment, locked, totals, AmountById(c.items), c.now, c.today);
    if exceeded {
      ghost var r :| r in locked && Exceeds(s.receivables, totals, AmountById(c.items), r);
      ExceedingRejects(s, c, f, r);
    } else {
      PostingDone(s, c, f, uow.receivables, uow.rows);
    }
  }

  /** allocate() between begin_command and complete_command, against the ledger's decision. */
  method AllocateReceipt(uow: UnitOfWork, c: Command, ghost f: Facts) returns (result: Result<Resource, Error>)
    requires uow.open && c.Allocate? && |AmountById(c.items).Keys| == |c.items| && ReadsAllocate(uow.Tables(), c, f)
    modifies uow`receivables, uow`rows
    ensures result.Err? ==> DecideAllocate(c, f) == Reject(result.error)
    ensures result.Ok? ==> DecideAllocate(c, f).Accept? && DecideAllocate(c, f).reply == result.value
    ensures result.Ok? ==> uow.Tables() == Commit(old(uow.Tables()), DecideAllocate(c, f).delta)
  {
    var refusal := CheckAllocate(uow, c, f);
    if refusal.Some? {
      return Err(refusal.value);
    }
    var ids := AmountById(c.items).Keys;
    var exceeded := PostReceipt(uow, c, Sorted(Restrict(uow.receivables, ids).Keys), NetTotals(uow.rows, ids), f);
    return if exceeded then Err(ReceivableAllocationExceeded) else Ok([c.payment]);
  }

  // ---- The payment command service --------------------------------------------------------------

  lemma {:induction false} AllocateApplies(s: Ledger, c: Command)
    requires c.Allocate?
    ensures PAYMENTS.exec(s, c) ==
      match DecideAllocate(c, Observe(s, c))
      case Reject(error) => (s, Err(error))
      case Accept(delta, reply) => (Commit(s, delta), Ok(reply))
  {
  }

  method ExecuteAllocate(uow: UnitOfWork, c: Command) returns (result: Result<Resource, Error>)
    requires uow.open && c.Allocate? && |AmountById(c.items).Keys| == |c.items|
    modifies uow`receivables, uow`rows
    ensures result == PAYMENTS.exec(old(uow.Tables()), c).1
    ensures result.Ok? ==> uow.Tables() == PAYMENTS.exec(old(uow.Tables()), c).0
  {
    ghost var s := uow.Tables();
    ObservesAllocate(s, c);
    AllocateApplies(s, c);
    result := AllocateReceipt(uow, c, Observe(s, c));
  }

  /** complete_command and commit, or neither. */
  method Conclude(uow: UnitOfWork, request: PaymentRequest, result: Result<Resource, Error>, ghost store: Store)
        returns (outcome: Outcome)
    requires uow.open && uow.database.State() == store
    requires Precheck(request.command).None? && I.ValidKey(request.slot.key)
    requires request.slot in store.keys ==> store.keys[request.slot] == I.KeyRecord(request.payload, None)
    requires uow.keys == store.keys[request.slot := I.KeyRecord(request.payload, None)]
    requires result == PAYMENTS.exec(store.ledger, request.command).1
    requires result.Ok? ==> uow.Tables() == PAYMENTS.exec(store.ledger, request.command).0
    modifies uow, uow.database
    ensures uow.open && (uow.database.State(), outcome) == I.Submit(PAYMENTS, store, request)
  {
    I.SubmitCases(PAYMENTS, store, request, uow.Tables(), result);
    if result.Err? {
      return Err(I.Failed(result.error));
    }
    CompleteCommand(uow, request.slot, result.value);
    OverwriteTwice(
      store.keys, request.slot, I.KeyRecord(request.payload, None), I.KeyRecord(request.payload, Some(result.value)));
    uow.Commit();
    return Ok(result.value);
  }

  /** allocate(): however it ends, the database and the caller see the keyed submission of the atomic
      command, though the body writes row by row and may raise half way. */
  method Allocate(database: Database, key: string, payment: Id, items: seq<Item>, now: int, today: int)
        returns (outcome: Outcome)
    modifies database
    ensures (database.State(), outcome) == I.Submit(
      PAYMENTS, old(database.State()),
      I.Request(I.Slot(AllocatePayment(payment), key), AllocationPayload(items),
        Command.Allocate(payment, items, now, today)))
  {
    if |AmountById(items).Keys| != |items| {
      return Err(I.Failed(DuplicateReceivable));
    }
    var request := I.Request(I.Slot(AllocatePayment(payment), key), AllocationPayload(items),
      Command.Allocate(payment, items, now, today));
    ghost var store := database.State();
    var uow := new UnitOfWork(database);
    var record := BeginCommand(uow, request.slot, request.payload);
    if record.Err? {
      outcome := Err(record.error);
    } else if record.value.resource.Some? {
      assert store.keys[request.slot := record.value] == store.keys;
      uow.Commit();
      outcome := Ok(record.value.resource.value);
    } else {
      var result := ExecuteAllocate(uow, request.command);
      outcome := Conclude(uow, request, result, store);
    }
    uow.Exit();
  }

  lemma {:induction false} CreateApplies(s: Ledger, c: Command)
    requires c.Create?
    ensures PAYMENTS.exec(s, c) ==
      if c.company !in s.companies then (s, Err(CompanyNotFound))
      else (s.(payments := s.payments[c.id := Payment(c.company, c.currency, c.amount, Receipt, Active, None)]),
        Ok([c.id]))
  {
    if c.company in s.companies {
      var payment := Payment(c.company, c.currency, c.amount, Receipt, Active, None);
      PlainCommit(s, DecideCreate(c, s.companies).delta);
      assert s.payments + map[c.id := payment] == s.payments[c.id := payment];
    }
  }

  method ExecuteCreate(uow: UnitOfWork, c: Command) returns (result: Result<Resource, Error>)
    requires uow.open && c.Create?
    modifies uow`payments
    ensures result == PAYMENTS.exec(old(uow.Tables()), c).1
    ensures result.Ok? ==> uow.Tables() == PAYMENTS.exec(old(uow.Tables()), c).0
  {
    CreateApplies(uow.Tables(), c);
    if c.company !in uow.companies {
      return Err(CompanyNotFound);
    }
    uow.payments := uow.payments[c.id := Payment(c.company, c.currency, c.amount, Receipt, Active, None)];
    return Ok([c.id]);
  }

  /** create(): the keyed submission of the atomic command. */
  method Create(database: Database, key: string, id: Id, company: Id, currency: Id, amount: int)
        returns (outcome: Outcome)
    modifies database
    ensures (database.State(), outcome) == I.Submit(
      PAYMENTS, old(database.State()),
      I.Request(I.Slot(RecordPayment, key), PaymentPayload(company, currency, amount),
        Command.Create(id, company, currency, amount)))
  {
    var request := I.Request(
      I.Slot(RecordPayment, key), PaymentPayload(company, currency, amount),
        Command.Create(id, company, currency, amount));
    ghost var store := database.State();
    var uow := new UnitOfWork(database);
    var record := BeginCommand(uow, request.slot, request.payload);
    if record.Err? {
      outcome := Err(record.error);
    } else if record.value.resource.Some? {
      assert store.keys[request.slot := record.value] == store.keys;
      uow.Commit();
      outcome := Ok(record.value.resource.value);
    } else {
      var result := ExecuteCreate(uow, request.command);
      outcome := Conclude(uow, request, result, store);
    }
    uow.Exit();
  }

  // ---- Reversal ---------------------------------------------------------------------------------

  /** What the mirroring loop of reverse() has done once it has processed the rows `done`. */
  ghost predicate Mirrored(before: seq<Row>, after: seq<Row>, done: seq<Row>, reversal: Id) {
    after == before + Stamp(|before|, Mirror(done, reversal))
  }

  /** current_totals once `done` has been taken off it, row by row. */
  ghost function Reduced(totals: map<Id, int>, done: seq<Row>): (reduced: map<Id, int>)
    ensures reduced.Keys == totals.Keys
  {
    if done == [] then totals else Reduce(Reduced(totals, done[..|done| - 1]), done[|done| - 1])
  }

  function Reduce(current: map<Id, int>, row: Row): (reduced: map<Id, int>)
    ensures reduced.Keys == current.Keys
  {
    if row.target in current then current[row.target := current[row.target] - row.amount] else current
  }

  ghost predicate Unposted(
      before: map<Id, Receivable>, after: map<Id, Receivable>, current: map<Id, int>, touched: set<Id>, today: int)
  {
    && after.Keys == before.Keys
    && forall r :: r in before ==>
      after[r] == if r in touched && r in current then Unsettled(before[r], current[r], today) else before[r]
  }

  /** The dictionaries built before the loop have an entry for this row. */
  predicate Hit(receivables: map<Id, Receivable>, totals: map<Id, int>, orders: map<Id, Order>, row: Row) {
    row.target in receivables && row.target in totals && receivables[row.target].order in orders
  }

  ghost predicate AllHit(receivables: map<Id, Receivable>, totals: map<Id, int>, orders: map<Id, Order>, done: seq<Row>)
  {
    forall row :: row in done ==> Hit(receivables, totals, orders, row)
  }

  /** Row by row or at once: several rows on one receivable take off their sum. */
  lemma {:induction false} ReducedShare(totals: map<Id, int>, done: seq<Row>, payment: Id, r: Id)
    requires (forall row :: row in done ==> row.payment == payment) && r in totals
    ensures r in Reduced(totals, done) && Reduced(totals, done)[r] == totals[r] - UsedOn(done, payment, r)
  {
    if done != [] {
      ReducedShare(totals, done[..|done| - 1], payment, r);
    }
  }

  lemma {:induction false} SameOrder(
      before: map<Id, Receivable>, receivables: map<Id, Receivable>, current: map<Id, int>, touched: set<Id>,
      today: int, r: Id)
    requires Unposted(before, receivables, current, touched, today)
    ensures r in receivables <==> r in before
    ensures r in before ==> receivables[r].order == before[r].order
  {
  }

  /** What reverse() has in hand while it mirrors the rows of a receipt. */
  datatype Mirroring = Mirroring(receivables: map<Id, Receivable>, rows: seq<Row>, current: map<Id, int>)

  function MirrorOne(m: Mirroring, row: Row, reversal: Id, today: int): Mirroring
    requires row.target in m.receivables && row.target in m.current
  {
    var total := m.current[row.target] - row.amount;
    Mirroring(
      m.receivables[row.target := Unsettled(m.receivables[row.target], total, today)],
      m.rows + [Row(|m.rows|, reversal, row.target, Reversal, row.amount, Some(row.id))],
      m.current[row.target := total])
  }

  ghost predicate Progress(start: Mirroring, now: Mirroring, orders: map<Id, Order>, done: seq<Row>, reversal: Id,
      today: int)
  {
    && AllHit(start.receivables, start.current, orders, done)
    && now.current == Reduced(start.current, done)
    && Unposted(start.receivables, now.receivables, now.current, Targets(done), today)
    && Mirrored(start.rows, now.rows, done, reversal)
  }

  lemma {:induction false} ReducedNext(
      start: Mirroring, now: Mirroring, orders: map<Id, Order>, done: seq<Row>, row: Row, reversal: Id, today: int)
    requires AllHit(start.receivables, start.current, orders, done) && now.current == Reduced(start.current, done)
    requires Hit(start.receivables, start.current, orders, row) && row.target in now.receivables
      && row.target in now.current
    ensures AllHit(start.receivables, start.current, orders, done + [row])
    ensures MirrorOne(now, row, reversal, today).current == Reduced(start.current, done + [row])
  {
  }

  lemma {:induction false} PostedNext(start: Mirroring, now: Mirroring, done: seq<Row>, row: Row, reversal: Id,
      today: int)
    requires Unposted(start.receivables, now.receivables, now.current, Targets(done), today)
    requires Mirrored(start.rows, now.rows, done, reversal)
    requires row.target in start.receivables && row.target in now.receivables && row.target in now.current
    ensures var next := MirrorOne(now, row, reversal, today);
      && Unposted(start.receivables, next.receivables, next.current, Targets(done + [row]), today)
      && Mirrored(start.rows, next.rows, done + [row], reversal)
  {
  }

  lemma {:induction false} ProgressNext(
      start: Mirroring, now: Mirroring, orders: map<Id, Order>, done: seq<Row>, row: Row, reversal: Id, today: int)
    requires Progress(start, now, orders, done, reversal, today) && Hit(now.receivables, now.current, orders, row)
    ensures Progress(start, MirrorOne(now, row, reversal, today), orders, done + [row], reversal, today)
  {
    SameOrder(start.receivables, now.receivables, now.current, Targets(done), today, row.target);
    ReducedNext(start, now, orders, done, row, reversal, today);
    PostedNext(start, now, done, row, reversal, today);
  }

  lemma {:induction false} ProgressMisses(
      start: Mirroring, now: Mirroring, orders: map<Id, Order>, done: seq<Row>, row: Row, reversal: Id, today: int)
    requires Progress(start, now, orders, done, reversal, today) && !Hit(now.receivables, now.current, orders, row)
    ensures !Hit(start.receivables, start.current, orders, row)
  {
  }

  /** One mirrored row, with the receivable's new status. */
  method PostReversal(uow: UnitOfWork, row: Row, reversal: Id, current: map<Id, int>, today: int)
        returns (reduced: map<Id, int>)
    requires uow.open && row.target in uow.receivables && row.target in current
    modifies uow`receivables, uow`rows
    ensures Mirroring(uow.receivables, uow.rows, reduced)
      == MirrorOne(Mirroring(old(uow.receivables), old(uow.rows), current), row, reversal, today)
  {
    var receivable := uow.receivables[row.target];
    var total := current[row.target] - row.amount;
    uow.rows := uow.rows + [Row(|uow.rows|, reversal, row.target, Reversal, row.amount, Some(row.id))];
    reduced := current[row.target := total];
    uow.receivables := uow.receivables[row.target := receivable.(
      status := StatusFor(receivable.amount, receivable.due, total, today), paidAt := None)];
  }

  /** The mirroring loop of reverse(); a dictionary miss raises. */
  method PostReversals(uow: UnitOfWork, own: seq<Row>, reversal: Id, orders: map<Id, Order>, totals: map<Id, int>,
      today: int)
      returns (missed: bool, current: map<Id, int>)
    requires uow.open
    modifies uow`receivables, uow`rows
    ensures missed ==> exists row :: row in own && !Hit(old(uow.receivables), totals, orders, row)
    ensures !missed ==> Progress(
      Mirroring(old(uow.receivables), old(uow.rows), totals), Mirroring(uow.receivables, uow.rows, current), orders,
        own, reversal, today)
  {
    ghost var start := Mirroring(uow.receivables, uow.rows, totals);
    current := totals;
    var i := 0;
    while i < |own|
      invariant 0 <= i <= |own|
      invariant Progress(start, Mirroring(uow.receivables, uow.rows, current), orders, own[..i], reversal, today)
    {
      var row := own[i];
      ghost var now := Mirroring(uow.receivables, uow.rows, current);
      if !(row.target in uow.receivables && row.target in current && uow.receivables[row.target].order in orders) {
        ProgressMisses(start, now, orders, own[..i], row, reversal, today);
        return true, current;
      }
      NextPrefix(own, i);
      ProgressNext(start, now, orders, own[..i], row, reversal, today);
      current := PostReversal(uow, row, reversal, current, today);
      i := i + 1;
    }
    assert own[..|own|] == own;
    missed := false;
  }

  predicate AnyCompleted(orders: map<Id, Order>) { exists o :: o in orders && orders[o].status == Completed }

  /** Every check of reverse() on an active receipt, before its mirroring loop. */
  ghost predicate Reversible(c: Command, f: Facts)
    requires c.Reverse?
  {
    && c.payment in f.payments && f.payments[c.payment].kind == Receipt && f.payments[c.payment].status == Active
    && !AnyCompleted(f.orders) && !DepositOnShippedOrder(f)
  }

  lemma {:induction false} UnpostedRow(
      base: map<Id, Receivable>, f: Facts, after: map<Id, Receivable>, p: Id, today: int, r: Id)
    requires LookupsHit(f) && f.receivables == Restrict(base, Targets(f.own)) && r in Targets(f.own)
    requires forall row :: row in f.own ==> row.payment == p
    requires Unposted(base, after, Reduced(f.totals, f.own), Targets(f.own), today)
    ensures r in after && after[r] == Unsettled(f.receivables[r], f.totals[r] - UsedOn(f.own, p, r), today)
  {
    ReducedShare(f.totals, f.own, p, r);
  }

  lemma {:induction false} UnpostedMerges(
      base: map<Id, Receivable>, f: Facts, unsettled: map<Id, Receivable>, after: map<Id, Receivable>, p: Id,
      today: int)
    requires LookupsHit(f) && f.receivables == Restrict(base, Targets(f.own))
    requires forall row :: row in f.own ==> row.payment == p
    requires unsettled == map x | x in Targets(f.own) ::
      Unsettled(f.receivables[x], f.totals[x] - UsedOn(f.own, p, x), today)
    requires Unposted(base, after, Reduced(f.totals, f.own), Targets(f.own), today)
    ensures base + unsettled == after
  {
    forall r | r in base ensures after[r] == if r in unsettled then unsettled[r] else base[r] {
      if r in Targets(f.own) {
        UnpostedRow(base, f, after, p, today, r);
      }
    }
    MergesTo(base, unsettled, after);
  }

  lemma {:induction false} MirroredCommits(s: Ledger, c: Command, f: Facts, now: Mirroring)
    requires c.Reverse? && ReadsReverse(s, c, f) && Reversible(c, f) && LookupsHit(f)
    requires Progress(Mirroring(s.receivables, s.rows, f.totals), now, f.orders, f.own, c.reversal, c.today)
    ensures s.receivables + ReverseDelta(c, f).receivables == now.receivables
    ensures s.rows + Stamp(|s.rows|, ReverseDelta(c, f).rows) == now.rows
  {
    UnpostedMerges(s.receivables, f, ReverseDelta(c, f).receivables, now.receivables, c.payment, c.today);
  }

  lemma {:induction false} ReversalMissed(s: Ledger, c: Command, f: Facts, row: Row)
    requires c.Reverse? && ReadsReverse(s, c, f) && Reversible(c, f)
    requires row in f.own && !Hit(s.receivables, f.totals, f.orders, row)
    ensures DecideReverse(c, f) == Reject(LookupMissed)
  {
    assert row.target in Targets(f.own);
    if row.target in f.receivables {
      assert f.receivables[row.target].order in OrderIds(f.receivables);
    }
    assert !LookupsHit(f);
  }

  lemma {:induction false} ReversalAccepted(s: Ledger, c: Command, f: Facts)
    requires c.Reverse? && ReadsReverse(s, c, f) && Reversible(c, f) && AllHit(s.receivables, f.totals, f.orders, f.own)
    ensures LookupsHit(f) && DecideReverse(c, f) == Accept(ReverseDelta(c, f), [c.reversal])
  {
  }

  lemma {:induction false} ReversalPayments(payments: map<Id, Payment>, c: Command, f: Facts)
    requires c.Reverse? && c.payment in f.payments && f.payments == Restrict(payments, {c.payment})
      && c.reversal !in payments
    requires Targets(f.own) <= f.receivables.Keys && Targets(f.own) <= f.totals.Keys
    ensures payments + ReverseDelta(c, f).payments == ReversedPayments(payments, c.payment, c.reversal)
  {
  }

  lemma {:induction false} ReversalDone(s: Ledger, c: Command, f: Facts, now: Mirroring)
    requires c.Reverse? && ReadsReverse(s, c, f) && Reversible(c, f) && c.reversal !in s.payments
    requires Progress(Mirroring(s.receivables, s.rows, f.totals), now, f.orders, f.own, c.reversal, c.today)
    ensures DecideReverse(c, f).Accept? && DecideReverse(c, f).reply == [c.reversal]
    ensures Commit(s, DecideReverse(c, f).delta)
      == s.(receivables := now.receivables, rows := now.rows,
        payments := ReversedPayments(s.payments, c.payment, c.reversal))
  {
    ReversalAccepted(s, c, f);
    MirroredCommits(s, c, f, now);
    ReversalPayments(s.payments, c, f);
    MergeNothing(s.orders);
  }

  /** The checks of reverse() on an active receipt, in the order in which they are made. */
  method CheckReverse(uow: UnitOfWork, c: Command, own: seq<Row>, orders: map<Id, Order>, ghost f: Facts)
        returns (refusal: Option<Error>)
    requires uow.open && c.Reverse? && ReadsReverse(uow.Tables(), c, f) && own == f.own && orders == f.orders
    requires c.payment in uow.payments && uow.payments[c.payment].kind == Receipt
      && uow.payments[c.payment].status == Active
    ensures refusal.Some? ==> DecideReverse(c, f) == Reject(refusal.value)
    ensures refusal.None? ==> Reversible(c, f)
  {
    if AnyCompleted(orders) {
      return Some(ReversalRequiresReview);
    }
    var receivables := Restrict(uow.receivables, Targets(own));
    if exists r :: r in receivables && receivables[r].installment == Deposit
         && receivables[r].order in orders && orders[receivables[r].order].hasShipments {
      return Some(ReversalRequiresReview);
    }
    return None;
  }

  /** The reversal payment, its mirrored rows, and the original's new status. */
  method MirrorReceipt(uow: UnitOfWork, c: Command, own: seq<Row>, orders: map<Id, Order>, totals: map<Id, int>)
      returns (missed: bool, current: map<Id, int>)
    requires uow.open && c.Reverse? && c.payment in uow.payments && c.reversal !in uow.payments
    modifies uow`receivables, uow`rows, uow`payments
    ensures missed ==> exists row :: row in own && !Hit(old(uow.receivables), totals, orders, row)
    ensures !missed ==> Progress(
      Mirroring(old(uow.receivables), old(uow.rows), totals), Mirroring(uow.receivables, uow.rows, current),
      orders, own, c.reversal, c.today)
    ensures !missed ==> uow.payments == ReversedPayments(old(uow.payments), c.payment, c.reversal)
  {
    var original := uow.payments[c.payment];
    uow.payments := uow.payments[
      c.reversal := Payment(original.company, original.currency, original.amount, ReversalPayment, Active,
        Some(c.payment))];
    missed, current := PostReversals(uow, own, c.reversal, orders, totals, c.today);
    if !missed {
      uow.payments := uow.payments[c.payment := original.(status := Reversed)];
    }
  }

  /** reverse() of an active receipt, inside its transaction. */
  method ReverseActive(uow: UnitOfWork, c: Command, ghost f: Facts) returns (result: Result<Resource, Error>)
    requires uow.open && c.Reverse? && c.reversal !in uow.payments && RowsLinked(uow.Tables())
      && ReadsReverse(uow.Tables(), c, f)
    requires c.payment in uow.payments && uow.payments[c.payment].kind == Receipt
      && uow.payments[c.payment].status == Active
    modifies uow`receivables, uow`rows, uow`payments
    ensures result.Err? ==> DecideReverse(c, f) == Reject(result.error)
    ensures result.Ok? ==> DecideReverse(c, f).Accept? && DecideReverse(c, f).reply == result.value
    ensures result.Ok? ==> uow.Tables() == Commit(old(uow.Tables()), DecideReverse(c, f).delta)
  {
    ghost var s := uow.Tables();
    ReceiptRows(s, c.payment);
    var own := AllocationsIn(RowsOf(uow.rows, c.payment));
    var orders := LockReceivableOrders(uow, Targets(own));
    var refusal := CheckReverse(uow, c, own, orders, f);
    if refusal.Some? {
      return Err(refusal.value);
    }
    var missed, current := MirrorReceipt(uow, c, own, orders, NetTotals(uow.rows, Targets(own)));
    if missed {
      ghost var row :| row in own && !Hit(s.receivables, f.totals, f.orders, row);
      ReversalMissed(s, c, f, row);
      return Err(LookupMissed);
    }
    ReversalDone(s, c, f, Mirroring(uow.receivables, uow.rows, current));
    return Ok([c.reversal]);
  }

  /** reverse() inside its transaction, against the ledger's decision. */
  method ReverseReceipt(uow: UnitOfWork, c: Command, ghost f: Facts) returns (result: Result<Resource, Error>)
    requires uow.open && c.Reverse? && c.reversal !in uow.payments && RowsLinked(uow.Tables())
      && ReadsReverse(uow.Tables(), c, f)
    modifies uow`receivables, uow`rows, uow`payments
    ensures result.Err? ==> DecideReverse(c, f) == Reject(result.error)
    ensures result.Ok? ==> DecideReverse(c, f).Accept? && DecideReverse(c, f).reply == result.value
    ensures result.Ok? ==> uow.Tables() == Commit(old(uow.Tables()), DecideReverse(c, f).delta)
  {
    if c.payment !in uow.payments {
      return Err(PaymentNotFound);
    }
    var original := uow.payments[c.payment];
    if original.kind != Receipt {
      return Err(ReversalNotReversible);
    }
    if original.status == Reversed {
      var found := ReversalOf(uow.payments, c.payment);
      NoChangeCommits(uow.Tables());
      return if found.None? then Err(ReversalInconsistent) else Ok([found.value]);
    }
    result := ReverseActive(uow, c, f);
  }

  method ExecuteReverse(uow: UnitOfWork, c: Command) returns (result: Result<Resource, Error>)
    requires uow.open && c.Reverse? && c.reversal !in uow.payments && RowsLinked(uow.Tables())
    modifies uow`receivables, uow`rows, uow`payments
    ensures PAYMENTS.exec(old(uow.Tables()), c) == (if result.Ok? then uow.Tables() else old(uow.Tables()), result)
  {
    ghost var s := uow.Tables();
    ObservesReverse(s, c);
    ReverseApplies(s, c);
    result := ReverseReceipt(uow, c, Observe(s, c));
  }

  /** reverse(): the atomic command, although its loop may raise with half the mirrors written. */
  method Reverse(database: Database, payment: Id, reversal: Id, today: int) returns (result: Result<Resource, Error>)
    requires reversal !in database.ledger.payments && RowsLinked(database.ledger)
    modifies database
    ensures (database.ledger, result) == PAYMENTS.exec(old(database.ledger), Command.Reverse(payment, reversal, today))
    ensures database.keys == old(database.keys)
  {
    var uow := new UnitOfWork(database);
    result := ExecuteReverse(uow, Command.Reverse(payment, reversal, today));
    if result.Ok? {
      uow.Commit();
    }
    uow.Exit();
  }
}
