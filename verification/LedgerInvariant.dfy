/** What every command of the customer ledger keeps, over every run. */
module LedgerInvariant {
  import opened Prelude
  import opened Settlement
  import opened CustomerLedger

  // ---- The invariant ----------------------------------------------------------------------------

  function ReversedReceipts(payments: map<Id, Payment>): set<Id> {
    set p | p in payments && payments[p].status == Reversed
  }

  function ActiveReceipts(payments: map<Id, Payment>): set<Id> {
    set p | p in payments && payments[p].kind == Receipt && payments[p].status == Active
  }

  ghost predicate HasReversal(payments: map<Id, Payment>, original: Id) {
    exists q :: q in payments && payments[q].reversalOf == Some(original)
  }

  /** A reversed receipt has a reversal payment, and only receipts are reversed. */
  ghost predicate Linked(payments: map<Id, Payment>, p: Id)
    requires p in payments
  {
    var payment := payments[p];
    && payment.amount > 0
    && match payment.kind
       case Receipt =>
         payment.reversalOf == None && (payment.status == Reversed ==> HasReversal(payments, p))
       case ReversalPayment =>
         && payment.status == Active && payment.reversalOf.Some? && payment.reversalOf.value in payments
         && payments[payment.reversalOf.value].kind == Receipt
         && payments[payment.reversalOf.value].status == Reversed
  }

  /** The partial unique index on reversal_of_payment_id. */
  ghost predicate OneReversalEach(payments: map<Id, Payment>) {
    forall q, q' :: q in payments && q' in payments && payments[q].reversalOf.Some?
      && payments[q].reversalOf == payments[q'].reversalOf
      ==> q == q'
  }

  ghost predicate PaymentsLinked(payments: map<Id, Payment>) {
    && (forall p {:trigger Linked(payments, p)} :: p in payments ==> Linked(payments, p))
    && OneReversalEach(payments)
  }

  /** Allocation rows belong to receipts, reversal rows to reversal payments. */
  ghost predicate RowsLinked(s: Ledger) {
    && (forall i :: 0 <= i < |s.rows| ==> s.rows[i].id == i)
    && (forall row :: row in s.rows ==>
          && row.amount > 0 && row.payment in s.payments && row.target in s.receivables
          && (row.kind == Allocation <==> s.payments[row.payment].kind == Receipt))
  }

  /** Reversal row `i` mirrors an allocation row of the receipt its payment reverses. */
  ghost predicate Mirrors(s: Ledger, i: nat)
    requires i < |s.rows|
  {
    var row := s.rows[i];
    match row.reversalOf
    case None => row.kind == Allocation
    case Some(j) =>
      && row.kind == Reversal && j < i
      && s.rows[j].kind == Allocation && s.rows[j].target == row.target && s.rows[j].amount == row.amount
      && row.payment in s.payments && s.payments[row.payment].reversalOf == Some(s.rows[j].payment)
  }

  ghost predicate RowsMirrored(s: Ledger) {
    && (forall i :: 0 <= i < |s.rows| ==> Mirrors(s, i))
    && (forall i, j :: 0 <= i < j < |s.rows| && s.rows[i].reversalOf.Some? ==>
      s.rows[i].reversalOf != s.rows[j].reversalOf)
  }

  ghost predicate WithinReceipts(payments: map<Id, Payment>, rows: seq<Row>) {
    forall p :: p in payments && payments[p].kind == Receipt ==> Used(rows, p) <= payments[p].amount
  }

  /** A receivable's net is what unreversed receipts have put on it. */
  ghost predicate NetIsLive(s: Ledger) {
    forall r :: r in s.receivables ==> Net(s.rows, r) == Live(s.rows, ReversedReceipts(s.payments), r)
  }

  /** A reversal takes back from every receivable exactly what its receipt put there. */
  ghost predicate ReversalsCancel(payments: map<Id, Payment>, rows: seq<Row>) {
    forall q, r :: q in payments && payments[q].reversalOf.Some? ==>
      UsedOn(rows, q, r) == UsedOn(rows, payments[q].reversalOf.value, r)
  }

  ghost predicate StatusAgrees(r: Receivable, net: int) {
    && 0 <= net <= r.amount && r.amount > 0
    && (r.status == Paid <==> net == r.amount)
    && (r.paidAt.Some? <==> net == r.amount)
    && (r.status == PartiallyPaid <==> 0 < net < r.amount)
  }

  ghost predicate StatusesAgree(s: Ledger) {
    forall r :: r in s.receivables ==> StatusAgrees(s.receivables[r], Net(s.rows, r))
  }

  ghost predicate Invariant(s: Ledger) {
    && PaymentsLinked(s.payments)
    && RowsLinked(s)
    && RowsMirrored(s)
    && WithinReceipts(s.payments, s.rows)
    && NetIsLive(s)
    && ReversalsCancel(s.payments, s.rows)
    && StatusesAgree(s)
  }

  /** What request validation and fresh UUIDs give a command. */
  ghost predicate Admissible(s: Ledger, c: Command) {
    match c
    case Create(id, _, _, amount) => id !in s.payments && amount > 0
    case Allocate(_, items, _, _) => forall item :: item in items ==> item.amount > 0
    case Reverse(_, reversal, _) => reversal !in s.payments
    case Generate(_, _, _, depositId, balanceId, _) =>
      depositId != balanceId && depositId !in s.receivables && balanceId !in s.receivables
    case PlaceOrder(order, placed) => order !in s.orders && 0 <= placed.deposit <= placed.total
    case _ => true
  }

  ghost predicate AdmissibleRun(s: Ledger, commands: seq<Command>)
    decreases |commands|
  {
    commands == [] ||
    (AdmissibleRun(s, commands[..|commands| - 1])
      && Admissible(Run(s, commands[..|commands| - 1]), commands[|commands| - 1]))
  }

  predicate Empty(s: Ledger) {
    s.orders == map[] && s.receivables == map[] && s.payments == map[] && s.rows == []
  }

  // ---- Growing the table ------------------------------------------------------------------------

  /** Payments stay, with their kind and link; only a receipt's status may change. */
  ghost predicate PaymentsGrow(before: map<Id, Payment>, after: map<Id, Payment>) {
    forall p :: p in before ==>
      p in after && after[p].kind == before[p].kind && after[p].reversalOf == before[p].reversalOf
  }

  lemma {:induction false} LinkedGrows(s: Ledger, s': Ledger, drafts: seq<Row>)
    requires RowsLinked(s) && PaymentsGrow(s.payments, s'.payments) && s.receivables.Keys <= s'.receivables.Keys
    requires s'.rows == s.rows + Stamp(|s.rows|, drafts)
    requires forall row :: row in drafts ==>
      && row.amount > 0 && row.payment in s'.payments && row.target in s'.receivables
      && (row.kind == Allocation <==> s'.payments[row.payment].kind == Receipt)
    ensures RowsLinked(s')
  {
  }

  lemma {:induction false} MirrorsStay(s: Ledger, s': Ledger, drafts: seq<Row>)
    requires RowsMirrored(s) && PaymentsGrow(s.payments, s'.payments)
    requires s'.rows == s.rows + Stamp(|s.rows|, drafts)
    ensures forall i :: 0 <= i < |s.rows| ==> Mirrors(s', i)
  {
    forall i | 0 <= i < |s.rows| ensures Mirrors(s', i) {
      assert Mirrors(s, i) && s'.rows[i] == s.rows[i];
    }
  }

  // ---- Recording a receipt ----------------------------------------------------------------------

  lemma {:induction false} CreateLinks(payments: map<Id, Payment>, id: Id, payment: Payment)
    requires PaymentsLinked(payments) && id !in payments
    requires payment.kind == Receipt && payment.status == Active && payment.amount > 0 && payment.reversalOf == None
    ensures PaymentsLinked(payments[id := payment])
  {
    var after := payments[id := payment];
    forall p | p in after ensures Linked(after, p) {
      if p != id {
        assert Linked(payments, p);
        if payments[p].status == Reversed {
          var q :| q in payments && payments[q].reversalOf == Some(p);
          assert after[q].reversalOf == Some(p);
        }
      }
    }
  }

  lemma {:induction false} CreateKeeps(s: Ledger, id: Id, payment: Payment)
    requires Invariant(s) && id !in s.payments
    requires payment.kind == Receipt && payment.status == Active && payment.amount > 0 && payment.reversalOf == None
    ensures Invariant(s.(payments := s.payments[id := payment]))
  {
    var s' := s.(payments := s.payments[id := payment]);
    CreateLinks(s.payments, id, payment);
    assert ReversedReceipts(s'.payments) == ReversedReceipts(s.payments);
    assert s'.rows == s.rows + Stamp(|s.rows|, []);
    LinkedGrows(s, s', []);
    MirrorsStay(s, s', []);
    assert Used(s.rows, id) == 0 by {
      assert RowsLinked(s);
      TotalZero(s.rows, Charge(id));
    }
  }

  // ---- Allocating a receipt ---------------------------------------------------------------------

  function AfterAllocation(s: Ledger, amounts: map<Id, int>, r: Id, now: int, today: int): Receivable
    requires r in s.receivables
  {
    if r in amounts then Settled(s.receivables[r], Net(s.rows, r) + amounts[r], now, today) else s.receivables[r]
  }

  ghost predicate Allocates(s: Ledger, s': Ledger, p: Id, amounts: map<Id, int>, q: seq<Id>, now: int, today: int) {
    && p in ActiveReceipts(s.payments)
    && amounts.Keys <= s.receivables.Keys
    && Increasing(q) && Elements(q) == amounts.Keys && (forall r :: r in q ==> r in amounts)
    && (forall r :: r in amounts ==> amounts[r] > 0)
    && Used(s.rows, p) + SumOver(amounts.Keys, AmountIn(amounts)) <= s.payments[p].amount
    && (forall r :: r in amounts ==> Net(s.rows, r) + amounts[r] <= s.receivables[r].amount)
    && s'.payments == s.payments
    && s'.rows == s.rows + Stamp(|s.rows|, AllocationRows(p, amounts, q))
    && s'.receivables.Keys == s.receivables.Keys
    && (forall r :: r in s.receivables ==> s'.receivables[r] == AfterAllocation(s, amounts, r, now, today))
  }

  lemma {:induction false} AllocateKeepsRows(s: Ledger, s': Ledger, p: Id, amounts: map<Id, int>, q: seq<Id>, now: int,
      today: int)
    requires RowsLinked(s) && RowsMirrored(s) && Allocates(s, s', p, amounts, q, now, today)
    ensures RowsLinked(s') && RowsMirrored(s')
  {
    var drafts := AllocationRows(p, amounts, q);
    assert forall row :: row in drafts ==>
      row.payment == p && row.target in amounts && row.amount == amounts[row.target];
    LinkedGrows(s, s', drafts);
    assert forall i :: 0 <= i < |drafts| ==> drafts[i].kind == Allocation && drafts[i].reversalOf == None;
    AllocationsUnmirrored(s, s', drafts);
  }

  lemma {:induction false} AllocationsUnmirrored(s: Ledger, s': Ledger, drafts: seq<Row>)
    requires RowsMirrored(s) && PaymentsGrow(s.payments, s'.payments)
    requires s'.rows == s.rows + Stamp(|s.rows|, drafts)
    requires forall i :: 0 <= i < |drafts| ==> drafts[i].kind == Allocation && drafts[i].reversalOf == None
    ensures RowsMirrored(s')
  {
    MirrorsStay(s, s', drafts);
    forall i | |s.rows| <= i < |s'.rows| ensures Mirrors(s', i) && s'.rows[i].reversalOf == None {
      assert s'.rows[i] == drafts[i - |s.rows|].(id := i);
    }
  }

  lemma {:induction false} AllocateKeepsCharges(s: Ledger, s': Ledger, p: Id, amounts: map<Id, int>, q: seq<Id>,
      now: int, today: int)
    requires PaymentsLinked(s.payments) && WithinReceipts(s.payments, s.rows) && ReversalsCancel(s.payments, s.rows)
    requires Allocates(s, s', p, amounts, q, now, today)
    ensures WithinReceipts(s'.payments, s'.rows) && ReversalsCancel(s'.payments, s'.rows)
  {
    var drafts := AllocationRows(p, amounts, q);
    AllocateUsed(s.rows, p, amounts, q);
    forall x | x != p ensures Used(s'.rows, x) == Used(s.rows, x) {
      OthersUntouched(s.rows, drafts, p, x, 0);
    }
    forall x, r | x != p ensures UsedOn(s'.rows, x, r) == UsedOn(s.rows, x, r) {
      OthersUntouched(s.rows, drafts, p, x, r);
    }
    forall x, r | x in s.payments && s.payments[x].reversalOf.Some?
      ensures UsedOn(s'.rows, x, r) == UsedOn(s'.rows, s.payments[x].reversalOf.value, r)
    {
      assert Linked(s.payments, x);
    }
  }

  lemma {:induction false} AllocateKeepsNet(s: Ledger, s': Ledger, p: Id, amounts: map<Id, int>, q: seq<Id>, now: int,
      today: int, r: Id)
    requires NetIsLive(s) && StatusesAgree(s) && Allocates(s, s', p, amounts, q, now, today)
    requires r in s.receivables
    ensures Net(s'.rows, r) == Live(s'.rows, ReversedReceipts(s.payments), r)
    ensures StatusAgrees(s'.receivables[r], Net(s'.rows, r))
  {
    AllocateNet(s.rows, p, amounts, q, r, ReversedReceipts(s.payments));
    assert StatusAgrees(s.receivables[r], Net(s.rows, r));
    assert Net(s.rows, r) == Live(s.rows, ReversedReceipts(s.payments), r);
  }

  lemma {:induction false} AllocateKeeps(s: Ledger, s': Ledger, p: Id, amounts: map<Id, int>, q: seq<Id>, now: int,
      today: int)
    requires Invariant(s) && Allocates(s, s', p, amounts, q, now, today)
    ensures Invariant(s')
  {
    AllocateKeepsRows(s, s', p, amounts, q, now, today);
    AllocateKeepsCharges(s, s', p, amounts, q, now, today);
    forall r | r in s.receivables
      ensures Net(s'.rows, r) == Live(s'.rows, ReversedReceipts(s.payments), r)
      ensures StatusAgrees(s'.receivables[r], Net(s'.rows, r))
    {
      AllocateKeepsNet(s, s', p, amounts, q, now, today, r);
    }
  }

  // ---- Reversing a receipt ----------------------------------------------------------------------

  function AfterReversal(s: Ledger, p: Id, r: Id, today: int): Receivable
    requires r in s.receivables
  {
    if r in Targets(RowsOf(s.rows, p)) then Unsettled(s.receivables[r], Net(s.rows, r) - UsedOn(s.rows, p, r), today)
    else s.receivables[r]
  }

  ghost predicate Reverses(s: Ledger, s': Ledger, p: Id, q: Id, today: int) {
    && p in ActiveReceipts(s.payments) && q !in s.payments
    && s'.payments == ReversedPayments(s.payments, p, q)
    && s'.rows == s.rows + Stamp(|s.rows|, Mirror(RowsOf(s.rows, p), q))
    && s'.receivables.Keys == s.receivables.Keys
    && (forall r :: r in s.receivables ==> s'.receivables[r] == AfterReversal(s, p, r, today))
  }

  function ReversedPayments(payments: map<Id, Payment>, p: Id, q: Id): map<Id, Payment>
    requires p in payments
  {
    var original := payments[p];
    payments[p := original.(status := Reversed)]
      [q := Payment(original.company, original.currency, original.amount, ReversalPayment, Active, Some(p))]
  }

  lemma {:induction false} ReverseLinks(payments: map<Id, Payment>, p: Id, q: Id)
    requires PaymentsLinked(payments) && p in ActiveReceipts(payments) && q !in payments
    ensures PaymentsLinked(ReversedPayments(payments, p, q))
  {
    var after := ReversedPayments(payments, p, q);
    forall x | x in payments && payments[x].reversalOf.Some? ensures payments[x].reversalOf.value != p {
      assert Linked(payments, x);
    }
    forall x | x in after ensures Linked(after, x) {
      if x == p {
        assert Linked(payments, p);
        assert after[q].reversalOf == Some(p);
      } else if x == q {
        assert Linked(payments, p);
      } else {
        assert Linked(payments, x);
        if payments[x].status == Reversed {
          var y :| y in payments && payments[y].reversalOf == Some(x);
          assert after[y].reversalOf == Some(x);
        }
      }
    }
  }

  lemma {:induction false} ReverseGrows(payments: map<Id, Payment>, p: Id, q: Id)
    requires p in ActiveReceipts(payments) && q !in payments
    ensures PaymentsGrow(payments, ReversedPayments(payments, p, q))
    ensures ReversedReceipts(ReversedPayments(payments, p, q)) == ReversedReceipts(payments) + {p}
  {
  }

  lemma {:induction false} ReverseKeepsLinks(s: Ledger, s': Ledger, p: Id, q: Id, today: int)
    requires RowsLinked(s) && Reverses(s, s', p, q, today)
    ensures RowsLinked(s')
  {
  }

  /** The inserted rows mirror the receipt's rows, in their order. */
  lemma {:induction false} InsertedMirror(s: Ledger, s': Ledger, p: Id, q: Id, today: int, i: nat)
    requires RowsLinked(s) && Reverses(s, s', p, q, today) && |s.rows| <= i < |s'.rows|
    ensures Mirrors(s', i)
    ensures i - |s.rows| < |RowsOf(s.rows, p)| && s'.rows[i].reversalOf == Some(RowsOf(s.rows, p)[i - |s.rows|].id)
    ensures s'.rows[i].reversalOf.value < |s.rows| && s.rows[s'.rows[i].reversalOf.value].payment == p
  {
    var own := RowsOf(s.rows, p);
    assert s'.rows[i] == Mirror(own, q)[i - |s.rows|].(id := i);
    OwnRow(s, p, own[i - |s.rows|]);
  }

  /** No allocation row is mirrored twice: p's rows had no mirror before, and are distinct. */
  lemma {:induction false} MirroredOnce(s: Ledger, s': Ledger, p: Id, q: Id, today: int, i: nat, j: nat)
    requires PaymentsLinked(s.payments) && RowsLinked(s) && RowsMirrored(s) && Reverses(s, s', p, q, today)
    requires i < j < |s'.rows| && s'.rows[i].reversalOf.Some?
    ensures s'.rows[i].reversalOf != s'.rows[j].reversalOf
  {
    if j >= |s.rows| {
      InsertedMirror(s, s', p, q, today, j);
      if i >= |s.rows| {
        InsertedMirror(s, s', p, q, today, i);
        RowsOfDistinct(s.rows, p);
      } else {
        MirroredWasReversed(s, i);
      }
    }
  }

  lemma {:induction false} ReverseKeepsMirrors(s: Ledger, s': Ledger, p: Id, q: Id, today: int)
    requires PaymentsLinked(s.payments) && RowsLinked(s) && RowsMirrored(s) && Reverses(s, s', p, q, today)
    ensures RowsMirrored(s')
  {
    ReverseGrows(s.payments, p, q);
    MirrorsStay(s, s', Mirror(RowsOf(s.rows, p), q));
    forall i | |s.rows| <= i < |s'.rows| ensures Mirrors(s', i) {
      InsertedMirror(s, s', p, q, today, i);
    }
    forall i, j | 0 <= i < j < |s'.rows| && s'.rows[i].reversalOf.Some?
      ensures s'.rows[i].reversalOf != s'.rows[j].reversalOf
    {
      MirroredOnce(s, s', p, q, today, i, j);
    }
  }

  lemma {:induction false} OwnRow(s: Ledger, p: Id, row: Row)
    requires RowsLinked(s) && p in ActiveReceipts(s.payments) && row in RowsOf(s.rows, p)
    ensures row.id < |s.rows| && s.rows[row.id] == row && row.payment == p && row.kind == Allocation
  {
  }

  /** The kind filter of reverse() keeps every row of a receipt. */
  lemma {:induction false} ReceiptRows(s: Ledger, p: Id)
    requires RowsLinked(s) && p in s.payments && s.payments[p].kind == Receipt
    ensures AllocationsIn(RowsOf(s.rows, p)) == RowsOf(s.rows, p)
  {
    AllAllocations(RowsOf(s.rows, p));
  }

  /** A row that has a mirror belongs to a reversed receipt. */
  lemma {:induction false} MirroredWasReversed(s: Ledger, i: nat)
    requires PaymentsLinked(s.payments) && RowsMirrored(s) && i < |s.rows|
    ensures var mirrored := s.rows[i].reversalOf;
      mirrored.Some? ==> mirrored.value < i && s.rows[mirrored.value].payment in ReversedReceipts(s.payments)
  {
    assert Mirrors(s, i);
    if s.rows[i].reversalOf.Some? {
      assert Linked(s.payments, s.rows[i].payment);
    }
  }

  lemma {:induction false} ReverseKeepsCharges(s: Ledger, s': Ledger, p: Id, q: Id, today: int)
    requires PaymentsLinked(s.payments) && RowsLinked(s) && Reverses(s, s', p, q, today)
    requires WithinReceipts(s.payments, s.rows) && ReversalsCancel(s.payments, s.rows)
    ensures WithinReceipts(s'.payments, s'.rows) && ReversalsCancel(s'.payments, s'.rows)
  {
    var drafts := Mirror(RowsOf(s.rows, p), q);
    assert forall i :: 0 <= i < |drafts| ==> drafts[i].payment == q;
    forall x | x != q ensures Used(s'.rows, x) == Used(s.rows, x) {
      OthersUntouched(s.rows, drafts, q, x, 0);
    }
    forall x, r | x in s'.payments && s'.payments[x].reversalOf.Some?
      ensures UsedOn(s'.rows, x, r) == UsedOn(s'.rows, s'.payments[x].reversalOf.value, r)
    {
      if x == q {
        ReversalCancels(s.rows, p, q, r);
      } else {
        assert Linked(s.payments, x);
        OthersUntouched(s.rows, drafts, q, x, r);
        OthersUntouched(s.rows, drafts, q, s.payments[x].reversalOf.value, r);
      }
    }
  }

  lemma {:induction false} ReverseKeepsNet(s: Ledger, s': Ledger, p: Id, q: Id, today: int, r: Id)
    requires RowsLinked(s) && NetIsLive(s) && StatusesAgree(s) && Reverses(s, s', p, q, today) && r in s.receivables
    ensures Net(s'.rows, r) == Live(s'.rows, ReversedReceipts(s.payments) + {p}, r)
    ensures StatusAgrees(s'.receivables[r], Net(s'.rows, r))
  {
    ReverseTakesBack(s.rows, p, q, r);
    ReverseLive(s.rows, p, q, r, ReversedReceipts(s.payments));
    assert StatusAgrees(s.receivables[r], Net(s.rows, r));
    assert Net(s.rows, r) == Live(s.rows, ReversedReceipts(s.payments), r);
    if r in Targets(RowsOf(s.rows, p)) {
      SomeShare(s.rows, p, r);
    } else {
      NoShare(s.rows, p, r);
    }
  }

  lemma {:induction false} ReverseKeeps(s: Ledger, s': Ledger, p: Id, q: Id, today: int)
    requires Invariant(s) && Reverses(s, s', p, q, today)
    ensures Invariant(s')
  {
    ReverseLinks(s.payments, p, q);
    ReverseGrows(s.payments, p, q);
    ReverseKeepsLinks(s, s', p, q, today);
    ReverseKeepsMirrors(s, s', p, q, today);
    ReverseKeepsCharges(s, s', p, q, today);
    forall r | r in s.receivables
      ensures Net(s'.rows, r) == Live(s'.rows, ReversedReceipts(s.payments) + {p}, r)
      ensures StatusAgrees(s'.receivables[r], Net(s'.rows, r))
    {
      ReverseKeepsNet(s, s', p, q, today, r);
    }
  }

  // ---- Generating and refreshing receivables, moving orders -------------------------------------

  lemma {:induction false} GenerateKeeps(s: Ledger, issued: map<Id, Receivable>)
    requires Invariant(s) && issued.Keys !! s.receivables.Keys
    requires forall r :: r in issued ==> StatusAgrees(issued[r], 0)
    ensures Invariant(s.(receivables := s.receivables + issued))
  {
    var s' := s.(receivables := s.receivables + issued);
    assert s'.rows == s.rows + Stamp(|s.rows|, []);
    LinkedGrows(s, s', []);
    MirrorsStay(s, s', []);
    forall r | r in issued ensures Net(s.rows, r) == 0 && Live(s.rows, ReversedReceipts(s.payments), r) == 0 {
      NoRowsNoNet(s.rows, r);
      TotalZero(s.rows, LiveOn(ReversedReceipts(s.payments), r));
    }
  }

  lemma {:induction false} RefreshKeeps(s: Ledger, refreshed: map<Id, Receivable>)
    requires Invariant(s) && refreshed.Keys <= s.receivables.Keys
    requires forall r :: r in refreshed ==> StatusAgrees(refreshed[r], Net(s.rows, r))
    ensures Invariant(s.(receivables := s.receivables + refreshed))
  {
    var s' := s.(receivables := s.receivables + refreshed);
    assert s'.rows == s.rows + Stamp(|s.rows|, []);
    LinkedGrows(s, s', []);
    MirrorsStay(s, s', []);
  }

  lemma {:induction false} OrdersKeep(s: Ledger, orders: map<Id, Order>)
    requires Invariant(s)
    ensures Invariant(s.(orders := orders))
  {
    var s' := s.(orders := orders);
    assert s'.rows == s.rows + Stamp(|s.rows|, []);
    MirrorsStay(s, s', []);
  }

  // ---- From decisions to the shapes above -------------------------------------------------------

  lemma {:induction false} AllocateShape(c: Command, f: Facts)
    requires c.Allocate? && f.Ordered() && DecideAllocate(c, f).Accept?
    ensures var amounts := AmountById(c.items);
      && |amounts.Keys| == |c.items| && f.receivables.Keys == amounts.Keys
      && c.payment in f.payments && f.payments[c.payment].kind == Receipt && f.payments[c.payment].status == Active
      && Used(f.own, c.payment) + Requested(c.items) <= f.payments[c.payment].amount
      && (forall r :: r in amounts ==> GetOr(f.totals, r, 0) + amounts[r] <= f.receivables[r].amount)
      && DecideAllocate(c, f).delta == AllocateDelta(c, f, amounts)
  {
  }

  ghost predicate SeesAllocation(s: Ledger, p: Id, ids: set<Id>, f: Facts) {
    && f.own == RowsOf(s.rows, p)
    && f.payments == Restrict(s.payments, {p})
    && f.receivables == Restrict(s.receivables, ids)
    && f.totals == NetTotals(s.rows, ids)
  }

  lemma {:induction false} SettledCommitted(s: Ledger, d: Delta, f: Facts, amounts: map<Id, int>, now: int, today: int,
      r: Id)
    requires f.receivables == Restrict(s.receivables, amounts.Keys) && f.receivables.Keys == amounts.Keys
    requires f.totals == NetTotals(s.rows, amounts.Keys) && r in s.receivables
    requires d.receivables == map x | x in amounts.Keys ::
      Settled(f.receivables[x], GetOr(f.totals, x, 0) + amounts[x], now, today)
    ensures (s.receivables + d.receivables)[r] == AfterAllocation(s, amounts, r, now, today)
  {
    if r in amounts {
      NetTotalsGet(s.rows, amounts.Keys, r);
    }
  }

  lemma {:induction false} AllocateReads(s: Ledger, p: Id, f: Facts, amounts: map<Id, int>)
    requires SeesAllocation(s, p, amounts.Keys, f) && f.receivables.Keys == amounts.Keys
    ensures Used(f.own, p) == Used(s.rows, p)
    ensures forall r :: r in amounts ==>
      r in s.receivables && f.receivables[r] == s.receivables[r] && GetOr(f.totals, r, 0) == Net(s.rows, r)
  {
    OwnSums(s.rows, p, 0);
    forall r | r in amounts ensures r in s.receivables && GetOr(f.totals, r, 0) == Net(s.rows, r) {
      NetTotalsGet(s.rows, amounts.Keys, r);
      assert r in f.receivables;
    }
  }

  lemma {:induction false} AllocateWrites(s: Ledger, c: Command, f: Facts, amounts: map<Id, int>, d: Delta)
    requires c.Allocate? && f.Ordered() && SeesAllocation(s, c.payment, amounts.Keys, f)
      && f.receivables.Keys == amounts.Keys
    requires d == AllocateDelta(c, f, amounts)
    ensures s.payments + d.payments == s.payments && (s.receivables + d.receivables).Keys == s.receivables.Keys
    ensures forall r :: r in s.receivables ==>
      (s.receivables + d.receivables)[r] == AfterAllocation(s, amounts, r, c.now, c.today)
  {
    forall r | r in s.receivables
      ensures (s.receivables + d.receivables)[r] == AfterAllocation(s, amounts, r, c.now, c.today)
    {
      SettledCommitted(s, d, f, amounts, c.now, c.today, r);
    }
  }

  lemma {:induction false} AllocateCommitted(s: Ledger, c: Command, f: Facts, amounts: map<Id, int>, d: Delta)
    requires c.Allocate? && f.Ordered() && SeesAllocation(s, c.payment, amounts.Keys, f)
      && f.receivables.Keys == amounts.Keys
    requires c.payment in f.payments && f.payments[c.payment].kind == Receipt && f.payments[c.payment].status == Active
    requires forall r :: r in amounts ==> amounts[r] > 0
    requires Used(f.own, c.payment) + SumOver(amounts.Keys, AmountIn(amounts)) <= f.payments[c.payment].amount
    requires forall r :: r in amounts ==> GetOr(f.totals, r, 0) + amounts[r] <= f.receivables[r].amount
    requires d == AllocateDelta(c, f, amounts)
    ensures Allocates(s, Commit(s, d), c.payment, amounts, f.locked, c.now, c.today)
  {
    AllocateReads(s, c.payment, f, amounts);
    AllocateWrites(s, c, f, amounts, d);
    assert forall r :: r in f.locked ==> r in Elements(f.locked);
  }

  lemma {:induction false} AllocateApplyKeeps(s: Ledger, c: Command, f: Facts)
    requires Invariant(s) && c.Allocate? && Admissible(s, c)
    requires f.Ordered() && SeesAllocation(s, c.payment, AmountById(c.items).Keys, f) && DecideAllocate(c, f).Accept?
    ensures Invariant(Commit(s, DecideAllocate(c, f).delta))
  {
    var amounts := AmountById(c.items);
    AllocateShape(c, f);
    RequestedSum(c.items);
    AmountsPositive(c.items);
    var d := AllocateDelta(c, f, amounts);
    AllocateCommitted(s, c, f, amounts, d);
    AllocateKeeps(s, Commit(s, d), c.payment, amounts, f.locked, c.now, c.today);
  }

  /** `f` is what reverse() reads from the tables `s` after it has taken its locks. */
  ghost predicate ReadsReverse(s: Ledger, c: Command, f: Facts)
    requires c.Reverse?
  {
    && f.payments == Restrict(s.payments, {c.payment})
    && f.reversal == ReversalOf(s.payments, c.payment)
    && (c.payment in s.payments && s.payments[c.payment].status == Active ==>
          && f.own == RowsOf(s.rows, c.payment)
          && f.receivables == Restrict(s.receivables, Targets(f.own))
          && f.orders == Restrict(s.orders, OrderIds(f.receivables))
          && f.totals == NetTotals(s.rows, Targets(f.own)))
  }

  lemma {:induction false} ObservesReverse(s: Ledger, c: Command)
    requires c.Reverse?
    ensures ReadsReverse(s, c, Observe(s, c))
  {
  }

  lemma {:induction false} ReverseApplies(s: Ledger, c: Command)
    requires c.Reverse?
    ensures Apply(s, c) ==
      match DecideReverse(c, Observe(s, c))
      case Reject(error) => (s, Err(error))
      case Accept(delta, reply) => (Commit(s, delta), Ok(reply))
  {
  }

  lemma {:induction false} ReverseShape(c: Command, f: Facts)
    requires c.Reverse? && DecideReverse(c, f).Accept?
    ensures c.payment in f.payments && f.payments[c.payment].kind == Receipt
    ensures f.payments[c.payment].status == Reversed ==>
      f.reversal.Some? && DecideReverse(c, f) == Accept(NoChange, [f.reversal.value])
    ensures f.payments[c.payment].status == Active ==>
      && Targets(f.own) <= f.receivables.Keys && Targets(f.own) <= f.totals.Keys
      && DecideReverse(c, f) == Accept(ReverseDelta(c, f), [c.reversal])
  {
  }

  ghost predicate SeesReversal(s: Ledger, p: Id, f: Facts) {
    && f.own == RowsOf(s.rows, p)
    && f.payments == Restrict(s.payments, {p})
    && f.receivables == Restrict(s.receivables, Targets(f.own))
    && f.totals == NetTotals(s.rows, Targets(f.own))
  }

  lemma {:induction false} UnsettledCommitted(s: Ledger, d: Delta, f: Facts, p: Id, today: int, r: Id)
    requires SeesReversal(s, p, f) && r in s.receivables
    requires Targets(f.own) <= f.receivables.Keys && Targets(f.own) <= f.totals.Keys
    requires d.receivables == map x | x in Targets(f.own) ::
      Unsettled(f.receivables[x], f.totals[x] - UsedOn(f.own, p, x), today)
    ensures (s.receivables + d.receivables)[r] == AfterReversal(s, p, r, today)
  {
    OwnSums(s.rows, p, r);
  }

  lemma {:induction false} ReverseWrites(s: Ledger, c: Command, f: Facts, d: Delta)
    requires c.Reverse? && SeesReversal(s, c.payment, f) && c.payment in f.payments
    requires Targets(f.own) <= f.receivables.Keys && Targets(f.own) <= f.totals.Keys
    requires d == ReverseDelta(c, f)
    ensures Commit(s, d).receivables.Keys == s.receivables.Keys
    ensures forall r :: r in s.receivables ==> Commit(s, d).receivables[r] == AfterReversal(s, c.payment, r, c.today)
  {
    forall r | r in s.receivables ensures Commit(s, d).receivables[r] == AfterReversal(s, c.payment, r, c.today) {
      UnsettledCommitted(s, d, f, c.payment, c.today, r);
    }
  }

  lemma {:induction false} ReverseCommitted(s: Ledger, c: Command, f: Facts, d: Delta)
    requires c.Reverse? && c.reversal !in s.payments && SeesReversal(s, c.payment, f)
    requires c.payment in f.payments && c.payment in ActiveReceipts(s.payments)
    requires Targets(f.own) <= f.receivables.Keys && Targets(f.own) <= f.totals.Keys
    requires d == ReverseDelta(c, f)
    ensures Reverses(s, Commit(s, d), c.payment, c.reversal, c.today)
  {
    ReverseWrites(s, c, f, d);
    assert Commit(s, d).payments == ReversedPayments(s.payments, c.payment, c.reversal);
  }

  lemma {:induction false} NoChangeCommits(s: Ledger)
    ensures Commit(s, NoChange) == s
  {
  }

  lemma {:induction false} ReverseApplyKeeps(s: Ledger, c: Command, f: Facts)
    requires Invariant(s) && c.Reverse? && Admissible(s, c) && DecideReverse(c, f).Accept?
    requires f.payments == Restrict(s.payments, {c.payment})
    requires c.payment in ActiveReceipts(s.payments) ==> SeesReversal(s, c.payment, f)
    ensures Invariant(Commit(s, DecideReverse(c, f).delta))
  {
    ReverseShape(c, f);
    if s.payments[c.payment].status == Active {
      var d := ReverseDelta(c, f);
      ReverseCommitted(s, c, f, d);
      ReverseKeeps(s, Commit(s, d), c.payment, c.reversal, c.today);
    } else {
      NoChangeCommits(s);
    }
  }

  lemma {:induction false} GenerateShape(c: Command, f: Facts)
    requires c.Generate? && c.depositId != c.balanceId && DecideGenerate(c, f).Accept?
    ensures var d := DecideGenerate(c, f).delta;
      && d == NoChange.(receivables := d.receivables)
      && d.receivables.Keys <= {c.depositId, c.balanceId}
      && forall r :: r in d.receivables ==> StatusAgrees(d.receivables[r], 0)
  {
  }

  lemma {:induction false} GenerateApplyKeeps(s: Ledger, c: Command, f: Facts)
    requires Invariant(s) && c.Generate? && Admissible(s, c) && DecideGenerate(c, f).Accept?
    ensures Invariant(Commit(s, DecideGenerate(c, f).delta))
  {
    var d := DecideGenerate(c, f).delta;
    GenerateShape(c, f);
    GenerateKeeps(s, d.receivables);
    PlainCommit(s, d);
  }

  lemma {:induction false} RefreshAgrees(s: Ledger, c: Command, f: Facts)
    requires StatusesAgree(s) && c.RefreshRows?
    requires f.receivables == Restrict(s.receivables, c.picked) && f.totals == NetTotals(s.rows, c.picked)
    ensures var refreshed := DecideRefresh(c, f).delta.receivables;
      refreshed.Keys <= s.receivables.Keys && forall r :: r in refreshed ==> StatusAgrees(refreshed[r], Net(s.rows, r))
  {
  }

  lemma {:induction false} RefreshApplyKeeps(s: Ledger, c: Command, f: Facts)
    requires Invariant(s) && c.RefreshRows?
    requires f.receivables == Restrict(s.receivables, c.picked) && f.totals == NetTotals(s.rows, c.picked)
    ensures Invariant(Commit(s, DecideRefresh(c, f).delta))
  {
    RefreshAgrees(s, c, f);
    RefreshKeeps(s, DecideRefresh(c, f).delta.receivables);
    PlainCommit(s, DecideRefresh(c, f).delta);
  }

  // ---- Every command, every run -----------------------------------------------------------------

  lemma {:induction false} PlainCommit(s: Ledger, d: Delta)
    requires d.rows == []
    ensures Commit(s, d) == Ledger(s.companies, s.orders + d.orders, s.receivables + d.receivables,
      s.payments + d.payments, s.rows)
    ensures s.orders + map[] == s.orders && s.receivables + map[] == s.receivables && s.payments + map[] == s.payments
  {
  }

  lemma {:induction false} CreateApplyKeeps(s: Ledger, c: Command)
    requires Invariant(s) && c.Create? && Admissible(s, c) && DecideCreate(c, s.companies).Accept?
    ensures Invariant(Commit(s, DecideCreate(c, s.companies).delta))
  {
    var payment := Payment(c.company, c.currency, c.amount, Receipt, Active, None);
    CreateKeeps(s, c.id, payment);
    PlainCommit(s, DecideCreate(c, s.companies).delta);
    assert s.payments + map[c.id := payment] == s.payments[c.id := payment];
  }

  lemma {:induction false} OrderApplyKeeps(s: Ledger, c: Command, f: Facts)
    requires Invariant(s) && (c.PlaceOrder? || c.MoveOrder?) && DecideOrder(c, f).Accept?
    ensures Invariant(Commit(s, DecideOrder(c, f).delta))
  {
    var d := DecideOrder(c, f).delta;
    OrdersKeep(s, s.orders + d.orders);
    PlainCommit(s, d);
  }

  /** What the facts a command decides on have to say about the tables. */
  ghost predicate Sees(s: Ledger, c: Command, f: Facts) {
    && f.Ordered()
    && (c.Allocate? ==> SeesAllocation(s, c.payment, AmountById(c.items).Keys, f))
    && (c.Reverse? ==> f.payments == Restrict(s.payments, {c.payment}))
    && (c.Reverse? && c.payment in ActiveReceipts(s.payments) ==> SeesReversal(s, c.payment, f))
    && (c.RefreshRows? ==>
      f.receivables == Restrict(s.receivables, c.picked) && f.totals == NetTotals(s.rows, c.picked))
  }

  lemma {:induction false} DecisionKeeps(s: Ledger, c: Command, f: Facts)
    requires Invariant(s) && Admissible(s, c) && Sees(s, c, f) && Decide(c, s.companies, f).Accept?
    ensures Invariant(Commit(s, Decide(c, s.companies, f).delta))
  {
    match c
    case Create(_, _, _, _) => CreateApplyKeeps(s, c);
    case Allocate(_, _, _, _) => AllocateApplyKeeps(s, c, f);
    case Reverse(_, _, _) => ReverseApplyKeeps(s, c, f);
    case Generate(_, _, _, _, _, _) => GenerateApplyKeeps(s, c, f);
    case RefreshRows(_, _) => RefreshApplyKeeps(s, c, f);
    case PlaceOrder(_, _) => OrderApplyKeeps(s, c, f);
    case MoveOrder(_, _, _) => OrderApplyKeeps(s, c, f);
  }

  lemma {:induction false} ObservesTables(s: Ledger, c: Command)
    ensures Sees(s, c, Observe(s, c))
  {
  }

  /** Which payment rows a decision writes. */
  lemma {:induction false} DecisionPayments(c: Command, companies: set<Id>, f: Facts)
    requires f.Ordered() && Decide(c, companies, f).Accept? && (c.Generate? ==> c.depositId != c.balanceId)
    ensures var written := Decide(c, companies, f).delta.payments.Keys;
      || written == {}
      || (c.Create? && written == {c.id})
      || (c.Reverse? && written == {c.payment, c.reversal} && c.payment in f.payments
        && f.payments[c.payment].status == Active)
  {
    match c
    case Create(_, _, _, _) =>
    case Allocate(_, _, _, _) => AllocateShape(c, f);
    case Reverse(_, _, _) => ReverseShape(c, f);
    case Generate(_, _, _, _, _, _) => GenerateShape(c, f);
    case RefreshRows(_, _) =>
    case PlaceOrder(_, _) =>
    case MoveOrder(_, _, _) =>
  }

  lemma {:induction false} ReverseApplied(s: Ledger, c: Command)
    requires c.Reverse? && Admissible(s, c) && c.payment in ActiveReceipts(s.payments) && Apply(s, c).1.Ok?
    ensures Reverses(s, Apply(s, c).0, c.payment, c.reversal, c.today) && Apply(s, c).1 == Ok([c.reversal])
  {
    var f := Observe(s, c);
    ObservesTables(s, c);
    ReverseShape(c, f);
    ReverseCommitted(s, c, f, ReverseDelta(c, f));
  }

  /** One command, one step. */
  lemma {:induction false} ApplyKeeps(s: Ledger, c: Command)
    requires Invariant(s) && Admissible(s, c)
    ensures Invariant(Apply(s, c).0)
  {
    ObservesTables(s, c);
    var f := Observe(s, c);
    if Decide(c, s.companies, f).Accept? {
      DecisionKeeps(s, c, f);
    }
  }

  lemma {:induction false} RunKeepsInvariant(s: Ledger, commands: seq<Command>)
    requires Invariant(s) && AdmissibleRun(s, commands)
    ensures Invariant(Run(s, commands))
    decreases |commands|
  {
    if commands != [] {
      RunKeepsInvariant(s, commands[..|commands| - 1]);
      ApplyKeeps(Run(s, commands[..|commands| - 1]), commands[|commands| - 1]);
    }
  }

  /** The ledger and status invariant, in every reachable ledger. */
  lemma {:induction false} RunKeeps(s: Ledger, commands: seq<Command>)
    requires Empty(s) && AdmissibleRun(s, commands)
    ensures Invariant(Run(s, commands))
  {
    assert Invariant(s);
    RunKeepsInvariant(s, commands);
  }
}
