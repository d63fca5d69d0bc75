/** What every command of the supplier ledger keeps, and what the reachable ledgers add up to. */
module SupplierInvariant {
  import opened Prelude
  import opened Settlement
  import opened SupplierLedger

  // ---- The rows of one allocation ---------------------------------------------------------------

  ghost function AmountOn(items: seq<Item>, x: Id): int {
    if items == [] then 0 else
      var last := items[|items| - 1];
      AmountOn(items[..|items| - 1], x) + if last.target == x then last.amount else 0
  }

  lemma {:induction false} ItemRowsWeigh(p: Id, items: seq<Item>, x: Id, w: Row -> int)
    requires forall item :: item in items ==>
      w(Row(0, p, item.target, Allocation, item.amount, None)) == if item.target == x then item.amount else 0
    ensures Total(ItemRows(p, items), w) == AmountOn(items, x)
  {
    if items != [] {
      ItemRowsWeigh(p, items[..|items| - 1], x, w);
      assert ItemRows(p, items)[..|items| - 1] == ItemRows(p, items[..|items| - 1]);
    }
  }

  lemma {:induction false} ItemRowsCharge(p: Id, items: seq<Item>)
    ensures Total(ItemRows(p, items), Charge(p)) == Requested(items)
  {
    if items != [] {
      ItemRowsCharge(p, items[..|items| - 1]);
      assert ItemRows(p, items)[..|items| - 1] == ItemRows(p, items[..|items| - 1]);
    }
  }

  /** Payables are unique in a request, so an item is all the request puts on its payable. */
  lemma {:induction false} AmountOnUnique(items: seq<Item>, x: Id)
    requires DistinctTargets(items)
    ensures x !in ItemTargets(items) ==> AmountOn(items, x) == 0
    ensures forall item :: item in items && item.target == x ==> AmountOn(items, x) == item.amount
  {
    if items != [] {
      var init, last := items[..|items| - 1], items[|items| - 1];
      AmountOnUnique(init, x);
      assert items == init + [last];
      assert forall item :: item in init ==> item in items;
      if last.target == x {
        assert x !in ItemTargets(init);
      }
    }
  }

  lemma {:induction false} ItemsAdd(rows: seq<Row>, p: Id, items: seq<Item>, x: Id, reversed: set<Id>)
    requires p !in reversed
    ensures var rows' := rows + Stamp(|rows|, ItemRows(p, items));
      Net(rows', x) == Net(rows, x) + AmountOn(items, x)
        && Live(rows', reversed, x) == Live(rows, reversed, x) + AmountOn(items, x)
  {
    InsertRows(rows, ItemRows(p, items), Signed(x));
    ItemRowsWeigh(p, items, x, Signed(x));
    InsertRows(rows, ItemRows(p, items), LiveOn(reversed, x));
    ItemRowsWeigh(p, items, x, LiveOn(reversed, x));
  }

  lemma {:induction false} AllPass(s: Books, payment: SupplierPayment, items: seq<Item>, versions: map<Id, int>, i: nat)
    requires (forall item :: item in items ==> item.target in s.payables) && i < |items|
    requires FirstRefusal(s, payment, items, versions) == None
    ensures ItemRefusal(s, payment, items[i], GetOr(versions, items[i].target, 0)) == None
  {
    assert forall item :: item in items[1..] ==> item in items;
    if i > 0 {
      AllPass(s, payment, items[1..], versions, i - 1);
    }
  }

  // ---- What a command changes -------------------------------------------------------------------

  ghost predicate SamePayable(a: Payable, b: Payable) { a.(version := 0) == b.(version := 0) }

  ghost predicate SamePayables(before: map<Id, Payable>, after: map<Id, Payable>) {
    after.Keys == before.Keys && forall x :: x in before ==> SamePayable(after[x], before[x])
  }

  lemma {:induction false} CapKept(s: Books, s': Books)
    requires WithinPurchases(s) && s'.purchases == s.purchases && SamePayables(s.payables, s'.payables)
    ensures WithinPurchases(s')
  {
    forall u | u in s.purchases ensures ActivePrincipal(s'.payables, u) == ActivePrincipal(s.payables, u) {
      assert ActivePayables(s'.payables, u) == ActivePayables(s.payables, u);
      SumOverAgree(ActivePayables(s.payables, u), Principal(s.payables), Principal(s'.payables));
    }
  }

  lemma {:induction false} RowsGrow(s: Books, s': Books, drafts: seq<Row>)
    requires RowsLinked(s) && s'.rows == s.rows + Stamp(|s.rows|, drafts) && s.payables.Keys <= s'.payables.Keys
    requires forall p :: p in s.payments ==> p in s'.payments && s'.payments[p].reversalOf == s.payments[p].reversalOf
    requires forall row :: row in drafts ==>
      && row.amount > 0 && row.payment in s'.payments && row.target in s'.payables
      && (row.kind == Allocation <==> s'.payments[row.payment].reversalOf.None?)
    ensures RowsLinked(s')
  {
  }

  // ---- Purchases, payables and payments ---------------------------------------------------------

  lemma {:induction false} PurchasesKeep(s: Books, u: Id, purchase: Purchase)
    requires Invariant(s)
    requires if u in s.purchases then purchase.total == s.purchases[u].total else purchase.total >= 0
    ensures Invariant(s.(purchases := s.purchases[u := purchase]))
  {
  }

  /** Commands on payables alone leave rows and payments as they were. */
  lemma {:induction false} LedgerSame(s: Books, payables: map<Id, Payable>)
    requires RowsLinked(s) && WithinPayments(s) && s.payables.Keys <= payables.Keys
    ensures RowsLinked(s.(payables := payables)) && WithinPayments(s.(payables := payables))
  {
  }

  lemma {:induction false} NewPayableNet(s: Books, id: Id, payable: Payable)
    requires RowsLinked(s) && NetIsLive(s) && AllSettle(s) && id !in s.payables && payable.amount > 0 && !payable.voided
    ensures NetIsLive(s.(payables := s.payables[id := payable])) && AllSettle(s.(payables := s.payables[id := payable]))
  {
    NoRowsNoNet(s.rows, id);
    TotalZero(s.rows, LiveOn(ReversedPayments(s.payments), id));
  }

  lemma {:induction false} AddedPrincipal(payables: map<Id, Payable>, id: Id, payable: Payable, u: Id)
    requires id !in payables && !payable.voided
    ensures ActivePrincipal(payables[id := payable], u)
      == ActivePrincipal(payables, u) + if u == payable.purchase then payable.amount else 0
  {
    var after := payables[id := payable];
    var ids := ActivePayables(payables, u);
    SumOverAgree(ids, Principal(payables), Principal(after));
    if u == payable.purchase {
      assert ActivePayables(after, u) == ids + {id};
      SumOverPick(ids + {id}, id, Principal(after));
      assert ids + {id} - {id} == ids;
    } else {
      assert ActivePayables(after, u) == ids;
    }
  }

  lemma {:induction false} NewPayableCap(s: Books, id: Id, payable: Payable)
    requires WithinPurchases(s) && id !in s.payables && !payable.voided && payable.purchase in s.purchases
    requires ActivePrincipal(s.payables, payable.purchase) + payable.amount <= s.purchases[payable.purchase].total
    ensures WithinPurchases(s.(payables := s.payables[id := payable]))
  {
    forall u | u in s.purchases ensures ActivePrincipal(s.payables[id := payable], u) <= s.purchases[u].total {
      AddedPrincipal(s.payables, id, payable, u);
    }
  }

  lemma {:induction false} PayableKeeps(s: Books, id: Id, payable: Payable)
    requires Invariant(s) && id !in s.payables && payable.amount > 0 && !payable.voided
      && payable.purchase in s.purchases
    requires ActivePrincipal(s.payables, payable.purchase) + payable.amount <= s.purchases[payable.purchase].total
    ensures Invariant(s.(payables := s.payables[id := payable]))
  {
    LedgerSame(s, s.payables[id := payable]);
    NewPayableNet(s, id, payable);
    NewPayableCap(s, id, payable);
  }

  lemma {:induction false} VoidedPrincipal(payables: map<Id, Payable>, id: Id, u: Id)
    requires id in payables && !payables[id].voided && payables[id].amount > 0
    ensures ActivePrincipal(payables[id := payables[id].(voided := true)], u) <= ActivePrincipal(payables, u)
  {
    var after := payables[id := payables[id].(voided := true)];
    var ids := ActivePayables(payables, u);
    assert ActivePayables(after, u) == ids - {id};
    SumOverAgree(ids - {id}, Principal(payables), Principal(after));
    if id in ids {
      SumOverPick(ids, id, Principal(payables));
    } else {
      assert ids - {id} == ids;
    }
  }

  lemma {:induction false} VoidedNet(s: Books, id: Id)
    requires NetIsLive(s) && AllSettle(s) && id in s.payables && Net(s.rows, id) == 0
    ensures var s' := s.(payables := s.payables[id := s.payables[id].(voided := true)]); NetIsLive(s') && AllSettle(s')
  {
  }

  lemma {:induction false} VoidedCap(s: Books, id: Id)
    requires WithinPurchases(s) && id in s.payables && !s.payables[id].voided && s.payables[id].amount > 0
    ensures WithinPurchases(s.(payables := s.payables[id := s.payables[id].(voided := true)]))
  {
    forall u | u in s.purchases
      ensures ActivePrincipal(s.payables[id := s.payables[id].(voided := true)], u) <= s.purchases[u].total
    {
      VoidedPrincipal(s.payables, id, u);
    }
  }

  lemma {:induction false} VoidKeeps(s: Books, id: Id)
    requires Invariant(s) && id in s.payables && !s.payables[id].voided && Net(s.rows, id) == 0
    ensures Invariant(s.(payables := s.payables[id := s.payables[id].(voided := true)]))
  {
    assert Settles(s.payables[id], Net(s.rows, id));
    LedgerSame(s, s.payables[id := s.payables[id].(voided := true)]);
    VoidedNet(s, id);
    VoidedCap(s, id);
  }

  lemma {:induction false} RecordedLinks(payments: map<Id, SupplierPayment>, id: Id, payment: SupplierPayment)
    requires PaymentsLinked(payments) && id !in payments && payment.reversalOf.None?
    ensures PaymentsLinked(payments[id := payment])
    ensures ReversedPayments(payments[id := payment]) == ReversedPayments(payments)
  {
    var after := payments[id := payment];
    forall q | q in ReversedPayments(payments) ensures q in ReversedPayments(after) {
      var x :| x in payments && payments[x].reversalOf == Some(q);
      assert x in after && after[x].reversalOf == Some(q);
    }
  }

  lemma {:induction false} RecordedUsed(s: Books, id: Id, payment: SupplierPayment)
    requires RowsLinked(s) && WithinPayments(s) && id !in s.payments && payment.amount > 0
    ensures RowsLinked(s.(payments := s.payments[id := payment]))
      && WithinPayments(s.(payments := s.payments[id := payment]))
  {
    TotalZero(s.rows, Charge(id));
  }

  lemma {:induction false} RecordKeeps(s: Books, id: Id, payment: SupplierPayment)
    requires Invariant(s) && id !in s.payments && payment.reversalOf.None? && payment.amount > 0
    ensures Invariant(s.(payments := s.payments[id := payment]))
  {
    RecordedLinks(s.payments, id, payment);
    RecordedUsed(s, id, payment);
  }

  // ---- Allocation -------------------------------------------------------------------------------

  ghost predicate Allocates(s: Books, s': Books, p: Id, items: seq<Item>) {
    && p in LivePayments(s.payments) && DistinctTargets(items)
    && (forall i :: 0 <= i < |items| ==>
          && items[i].target in s.payables && items[i].amount > 0 && !s.payables[items[i].target].voided
          && Net(s.rows, items[i].target) + items[i].amount <= s.payables[items[i].target].amount)
    && Used(s.rows, p) + Requested(items) <= s.payments[p].amount
    && s'.purchases == s.purchases && SamePayables(s.payables, s'.payables)
    && s'.payments == s.payments[p := s.payments[p].(version := s.payments[p].version + 1)]
    && s'.rows == s.rows + Stamp(|s.rows|, ItemRows(p, items))
  }

  lemma {:induction false} AllocatedUsed(s: Books, s': Books, p: Id, items: seq<Item>)
    requires WithinPayments(s) && Allocates(s, s', p, items)
    ensures WithinPayments(s')
  {
    forall x | x in s'.payments && s'.payments[x].reversalOf.None? ensures Used(s'.rows, x) <= s'.payments[x].amount {
      if x == p {
        InsertRows(s.rows, ItemRows(p, items), Charge(p));
        ItemRowsCharge(p, items);
      } else {
        OthersUntouched(s.rows, ItemRows(p, items), p, x, 0);
      }
    }
  }

  lemma {:induction false} AllocatedNet(s: Books, s': Books, p: Id, items: seq<Item>, x: Id)
    requires NetIsLive(s) && AllSettle(s) && Allocates(s, s', p, items) && x in s.payables
    ensures Net(s'.rows, x) == Live(s'.rows, ReversedPayments(s.payments), x)
    ensures Settles(s'.payables[x], Net(s'.rows, x))
  {
    ItemsAdd(s.rows, p, items, x, ReversedPayments(s.payments));
    AmountOnUnique(items, x);
    assert Settles(s.payables[x], Net(s.rows, x)) && SamePayable(s'.payables[x], s.payables[x]);
    if x in ItemTargets(items) {
      var i :| 0 <= i < |items| && items[i].target == x;
      assert items[i] in items;
    }
  }

  lemma {:induction false} AllocatedPayments(payments: map<Id, SupplierPayment>, p: Id, payment: SupplierPayment)
    requires PaymentsLinked(payments) && p in payments && payment.reversalOf == payments[p].reversalOf
    ensures PaymentsLinked(payments[p := payment])
    ensures ReversedPayments(payments[p := payment]) == ReversedPayments(payments)
  {
    var after := payments[p := payment];
    forall q | q in ReversedPayments(payments) ensures q in ReversedPayments(after) {
      var x :| x in payments && payments[x].reversalOf == Some(q);
      assert x in after && after[x].reversalOf == Some(q);
    }
    forall q | q in ReversedPayments(after) ensures q in ReversedPayments(payments) {
      var x :| x in after && after[x].reversalOf == Some(q);
      assert x in payments && payments[x].reversalOf == Some(q);
    }
  }

  lemma {:induction false} AllocateKeeps(s: Books, s': Books, p: Id, items: seq<Item>)
    requires Invariant(s) && Allocates(s, s', p, items)
    ensures Invariant(s')
  {
    var drafts := ItemRows(p, items);
    AllocatedPayments(s.payments, p, s'.payments[p]);
    assert forall i :: 0 <= i < |drafts| ==>
      drafts[i].payment == p && drafts[i].target == items[i].target && drafts[i].amount == items[i].amount;
    RowsGrow(s, s', drafts);
    AllocatedUsed(s, s', p, items);
    CapKept(s, s');
    forall x | x in s.payables
      ensures Net(s'.rows, x) == Live(s'.rows, ReversedPayments(s.payments), x)
        && Settles(s'.payables[x], Net(s'.rows, x))
    {
      AllocatedNet(s, s', p, items, x);
    }
  }

  // ---- Reversal ---------------------------------------------------------------------------------

  ghost predicate Reverses(s: Books, s': Books, p: Id, q: Id) {
    && p in LivePayments(s.payments) && q !in s.payments
    && s'.purchases == s.purchases && SamePayables(s.payables, s'.payables)
    && q in s'.payments && s'.payments[q].reversalOf == Some(p) && s'.payments[q].amount == s.payments[p].amount
    && s'.payments == s.payments[q := s'.payments[q]]
    && s'.rows == s.rows + Stamp(|s.rows|, Mirror(RowsOf(s.rows, p), q))
  }

  lemma {:induction false} ReversedLinks(payments: map<Id, SupplierPayment>, p: Id, q: Id, reversal: SupplierPayment)
    requires PaymentsLinked(payments) && p in LivePayments(payments) && q !in payments && reversal.reversalOf == Some(p)
    ensures PaymentsLinked(payments[q := reversal])
    ensures ReversedPayments(payments[q := reversal]) == ReversedPayments(payments) + {p}
  {
    var after := payments[q := reversal];
    forall x | x in payments && payments[x].reversalOf.Some? ensures payments[x].reversalOf.value != p {
      assert payments[x].reversalOf.value in ReversedPayments(payments);
    }
    forall x | x in ReversedPayments(payments) + {p} ensures x in ReversedPayments(after) {
      if x == p {
        assert q in after && after[q].reversalOf == Some(p);
      } else {
        var y :| y in payments && payments[y].reversalOf == Some(x);
        assert y in after && after[y].reversalOf == Some(x);
      }
    }
  }

  lemma {:induction false} ReversedUsed(s: Books, s': Books, p: Id, q: Id)
    requires WithinPayments(s) && Reverses(s, s', p, q)
    ensures WithinPayments(s')
  {
    forall x | x in s'.payments && s'.payments[x].reversalOf.None? ensures Used(s'.rows, x) <= s'.payments[x].amount {
      OthersUntouched(s.rows, Mirror(RowsOf(s.rows, p), q), q, x, 0);
    }
  }

  /** A voided payable has no live rows, so a later reversal takes nothing off it. */
  lemma {:induction false} ReversedNet(s: Books, s': Books, p: Id, q: Id, x: Id)
    requires RowsLinked(s) && NetIsLive(s) && AllSettle(s) && Reverses(s, s', p, q) && x in s.payables
    ensures Net(s'.rows, x) == Live(s'.rows, ReversedPayments(s.payments) + {p}, x)
    ensures Settles(s'.payables[x], Net(s'.rows, x))
  {
    ReverseTakesBack(s.rows, p, q, x);
    ReverseLive(s.rows, p, q, x, ReversedPayments(s.payments));
    assert Settles(s.payables[x], Net(s.rows, x)) && SamePayable(s'.payables[x], s.payables[x]);
    assert Net(s.rows, x) == Live(s.rows, ReversedPayments(s.payments), x);
  }

  lemma {:induction false} ReverseKeeps(s: Books, s': Books, p: Id, q: Id)
    requires Invariant(s) && Reverses(s, s', p, q)
    ensures Invariant(s')
  {
    var own := RowsOf(s.rows, p);
    var drafts := Mirror(own, q);
    ReversedLinks(s.payments, p, q, s'.payments[q]);
    forall i | 0 <= i < |drafts|
      ensures drafts[i].amount > 0 && drafts[i].payment == q && drafts[i].target in s.payables
        && drafts[i].kind == Reversal
    {
      assert own[i] in own;
    }
    RowsGrow(s, s', drafts);
    ReversedUsed(s, s', p, q);
    CapKept(s, s');
    forall x | x in s.payables
      ensures Net(s'.rows, x) == Live(s'.rows, ReversedPayments(s.payments) + {p}, x)
        && Settles(s'.payables[x], Net(s'.rows, x))
    {
      ReversedNet(s, s', p, q, x);
    }
  }

  // ---- Every command, every run -----------------------------------------------------------------

  lemma {:induction false} TouchedSame(payables: map<Id, Payable>, ids: set<Id>)
    ensures SamePayables(payables, Touched(payables, ids))
  {
  }

  lemma {:induction false} AllocateShape(s: Books, c: Command)
    requires c.Allocate? && Admissible(s, c) && ApplyAllocate(s, c).1.Ok?
    ensures Allocates(s, ApplyAllocate(s, c).0, c.payment, c.items)
  {
    TouchedSame(s.payables, ItemTargets(c.items));
    forall i | 0 <= i < |c.items|
      ensures c.items[i].target in s.payables && c.items[i].amount > 0 && !s.payables[c.items[i].target].voided
        && Net(s.rows, c.items[i].target) + c.items[i].amount <= s.payables[c.items[i].target].amount
    {
      assert c.items[i] in c.items && c.items[i].target in ItemTargets(c.items);
      AllPass(s, s.payments[c.payment], c.items, c.versions, i);
    }
  }

  lemma {:induction false} ReverseShape(s: Books, c: Command)
    requires c.Reverse? && Admissible(s, c) && ApplyReverse(s, c).1.Ok?
    ensures Reverses(s, ApplyReverse(s, c).0, c.payment, c.reversal)
  {
  }

  lemma {:induction false} ApplyPurchaseKeeps(s: Books, c: Command)
    requires Invariant(s) && Admissible(s, c) && (c.PlacePurchase? || c.ConfirmPurchase?)
    ensures Invariant(Apply(s, c).0)
  {
    if c.PlacePurchase? {
      PurchasesKeep(s, c.purchase, c.placed);
    } else if c.purchase in s.purchases {
      PurchasesKeep(s, c.purchase, s.purchases[c.purchase].(confirmed := true));
    }
  }

  lemma {:induction false} ApplyCreateKeeps(s: Books, c: Command)
    requires Invariant(s) && Admissible(s, c) && c.CreatePayable?
    ensures Invariant(ApplyCreate(s, c).0)
  {
    if ApplyCreate(s, c).1.Ok? {
      PayableKeeps(s, c.id, ApplyCreate(s, c).0.payables[c.id]);
    }
  }

  lemma {:induction false} ApplyVoidKeeps(s: Books, c: Command)
    requires Invariant(s) && c.VoidPayable?
    ensures Invariant(ApplyVoid(s, c).0)
  {
    if ApplyVoid(s, c).1.Ok? {
      VoidKeeps(s, c.payable);
    }
  }

  lemma {:induction false} ApplyRecordKeeps(s: Books, c: Command)
    requires Invariant(s) && Admissible(s, c) && c.RecordPayment?
    ensures Invariant(ApplyRecord(s, c).0)
  {
    if ApplyRecord(s, c).1.Ok? {
      RecordKeeps(s, c.id, ApplyRecord(s, c).0.payments[c.id]);
    }
  }

  lemma {:induction false} ApplyAllocateKeeps(s: Books, c: Command)
    requires Invariant(s) && Admissible(s, c) && c.Allocate?
    ensures Invariant(ApplyAllocate(s, c).0)
  {
    if ApplyAllocate(s, c).1.Ok? {
      AllocateShape(s, c);
      AllocateKeeps(s, ApplyAllocate(s, c).0, c.payment, c.items);
    }
  }

  lemma {:induction false} ApplyReverseKeeps(s: Books, c: Command)
    requires Invariant(s) && Admissible(s, c) && c.Reverse?
    ensures Invariant(ApplyReverse(s, c).0)
  {
    if ApplyReverse(s, c).1.Ok? {
      ReverseShape(s, c);
      ReverseKeeps(s, ApplyReverse(s, c).0, c.payment, c.reversal);
    }
  }

  lemma {:induction false} ApplyKeeps(s: Books, c: Command)
    requires Invariant(s) && Admissible(s, c)
    ensures Invariant(Apply(s, c).0)
  {
    match c
    case PlacePurchase(_, _) => ApplyPurchaseKeeps(s, c);
    case ConfirmPurchase(_) => ApplyPurchaseKeeps(s, c);
    case CreatePayable(_, _, _, _, _, _) => ApplyCreateKeeps(s, c);
    case VoidPayable(_, _) => ApplyVoidKeeps(s, c);
    case RecordPayment(_, _, _, _, _, _) => ApplyRecordKeeps(s, c);
    case Allocate(_, _, _, _) => ApplyAllocateKeeps(s, c);
    case Reverse(_, _, _) => ApplyReverseKeeps(s, c);
  }

  lemma {:induction false} RunKeeps(s: Books, commands: seq<Command>)
    requires Invariant(s) && AdmissibleRun(s, commands)
    ensures Invariant(Run(s, commands))
    decreases |commands|
  {
    if commands != [] {
      RunKeeps(s, commands[..|commands| - 1]);
      ApplyKeeps(Run(s, commands[..|commands| - 1]), commands[|commands| - 1]);
    }
  }

  lemma {:induction false} EmptyHolds(s: Books)
    requires Empty(s)
    ensures Invariant(s)
  {
  }

  /** In every reachable ledger: 0 <= net <= amount, voided payables have net zero, payments are not
      overspent, and active payables stay within their purchase. */
  lemma {:induction false} ReachableSettles(s: Books, commands: seq<Command>)
    requires Empty(s) && AdmissibleRun(s, commands)
    ensures Invariant(Run(s, commands))
    ensures var now := Run(s, commands);
      forall x :: x in now.payables ==>
        && 0 <= Net(now.rows, x) <= now.payables[x].amount
        && (now.payables[x].voided ==> Net(now.rows, x) == 0)
  {
    EmptyHolds(s);
    RunKeeps(s, commands);
    var now := Run(s, commands);
    forall x | x in now.payables
      ensures 0 <= Net(now.rows, x) <= now.payables[x].amount && (now.payables[x].voided ==> Net(now.rows, x) == 0)
    {
      assert Settles(now.payables[x], Net(now.rows, x));
    }
  }

  // ---- Voided stays at zero, and conservation ---------------------------------------------------

  lemma {:induction false} VoidedStays(s: Books, c: Command, x: Id)
    requires Admissible(s, c) && x in s.payables && s.payables[x].voided
    ensures x in Apply(s, c).0.payables && Apply(s, c).0.payables[x].voided
  {
  }

  /** Once voided, a payable has net settlement zero for ever, even under later reversals. */
  lemma {:induction false} VoidedStaysAtZero(s: Books, commands: seq<Command>, x: Id)
    requires Invariant(s) && AdmissibleRun(s, commands) && x in s.payables && s.payables[x].voided
    ensures x in Run(s, commands).payables && Run(s, commands).payables[x].voided && Net(Run(s, commands).rows, x) == 0
    decreases |commands|
  {
    RunKeeps(s, commands);
    if commands != [] {
      var before := Run(s, commands[..|commands| - 1]);
      VoidedStaysAtZero(s, commands[..|commands| - 1], x);
      VoidedStays(before, commands[|commands| - 1], x);
      assert Settles(Run(s, commands).payables[x], Net(Run(s, commands).rows, x));
    } else {
      assert Settles(s.payables[x], Net(s.rows, x));
    }
  }

  ghost function NetPaid(s: Books): int { SumOver(s.payables.Keys, (x: Id) => Total(s.rows, Signed(x))) }

  ghost function Spent(s: Books): int {
    SumOver(LivePayments(s.payments), (p: Id) => if p in s.payments then s.payments[p].amount - Available(s, p) else 0)
  }

  /** What payables have received is what unreversed payments no longer show as available. */
  lemma {:induction false} Conservation(s: Books)
    requires Invariant(s)
    ensures NetPaid(s) == Spent(s)
  {
    var reversed, live := ReversedPayments(s.payments), LivePayments(s.payments);
    var weight := (row: Row) => if row.kind == Allocation && row.payment !in reversed then row.amount else 0;
    var target, payment := (row: Row) => row.target, (row: Row) => row.payment;
    TotalExchange(s.rows, s.payables.Keys, (x: Id) => LiveOn(reversed, x), target, weight);
    forall row, p | row in s.rows && p in live ensures Charge(p)(row) == if payment(row) == p then weight(row) else 0 {
    }
    TotalExchange(s.rows, live, (p: Id) => Charge(p), payment, weight);
    SumOverAgree(
      s.payables.Keys, (x: Id) => Total(s.rows, Signed(x)),
      (x: Id) => Total(s.rows, ((x: Id) => LiveOn(reversed, x))(x))) by {
      assert forall x :: x in s.payables ==> Net(s.rows, x) == Live(s.rows, reversed, x);
    }
    SumOverAgree(
      live, (p: Id) => if p in s.payments then s.payments[p].amount - Available(s, p) else 0,
      (p: Id) => Total(s.rows, ((p: Id) => Charge(p))(p)));
  }

  // ---- What the pages show ----------------------------------------------------------------------

  datatype Shown = ShownVoided | ShownPaid | ShownPartiallyPaid | ShownOverdue | ShownDue | ShownPending

  /** payable_response. */
  function DisplayedStatus(payable: Payable, paid: int, today: int): Shown {
    if payable.voided then ShownVoided
    else if paid >= payable.amount then ShownPaid
    else if paid > 0 then ShownPartiallyPaid
    else if payable.due < today then ShownOverdue
    else if payable.due == today then ShownDue
    else ShownPending
  }

  function DisplayedBalance(payable: Payable, paid: int): int { if payable.voided then 0 else payable.amount - paid }

  /** In a reachable ledger the displayed balance is never negative, zero exactly for settled or voided
      obligations, and principal is always paid amount plus balance, except where it was voided. */
  lemma {:induction false} DisplayAgrees(s: Books, x: Id, today: int)
    requires Invariant(s) && x in s.payables
    ensures var payable, paid := s.payables[x], Net(s.rows, x);
      && 0 <= DisplayedBalance(payable, paid) <= payable.amount
      && (DisplayedBalance(payable, paid) == 0 <==> DisplayedStatus(payable, paid, today) in {ShownPaid, ShownVoided})
      && (!payable.voided ==> paid + DisplayedBalance(payable, paid) == payable.amount)
      && (payable.voided ==> paid == 0)
      && (DisplayedStatus(payable, paid, today) == ShownPartiallyPaid <==> 0 < paid < payable.amount)
  {
  }
}
