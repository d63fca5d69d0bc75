/** What the supplier finance commands answer and write, said in terms of the books, and the terms every
    settlement row keeps. */
module SupplierAnswers {
  import opened Prelude
  import opened Settlement
  import opened SupplierLedger
  import opened SupplierInvariant

  /** An original payment that no other payment reverses. */
  ghost predicate Unreversed(s: Books, p: Id) {
    p in s.payments && s.payments[p].reversalOf.None? && forall q :: q in s.payments ==>
      s.payments[q].reversalOf != Some(p)
  }

  lemma {:induction false} LiveIs(s: Books, p: Id)
    ensures p in LivePayments(s.payments) <==> Unreversed(s, p)
  {
    if p in s.payments && s.payments[p].reversalOf.None? {
      assert p in ReversedPayments(s.payments) <==> exists q :: q in s.payments && s.payments[q].reversalOf == Some(p);
    }
  }

  // ---- Refusals of an allocation ------------------------------------------------------------------------

  /** What is wrong with paying `item` by payment `p`, in the order of the checks. */
  ghost predicate ItemFault(s: Books, p: Id, item: Item, expected: int, error: Error)
    requires p in s.payments && item.target in s.payables
  {
    var payable, payment := s.payables[item.target], s.payments[p];
    match error
    case VersionConflict => payable.version != expected
    case PayableVoided => payable.version == expected && payable.voided
    case SettlementMismatch =>
      && payable.version == expected && !payable.voided
      && (payable.supplier != payment.supplier || payable.currency != payment.currency)
    case PayableOverallocation =>
      && payable.version == expected && !payable.voided
      && payable.supplier == payment.supplier && payable.currency == payment.currency
      && Net(s.rows, item.target) + item.amount > payable.amount
    case _ => false
  }

  ghost predicate ItemPasses(s: Books, p: Id, item: Item, expected: int)
    requires p in s.payments && item.target in s.payables
  {
    var payable, payment := s.payables[item.target], s.payments[p];
    && payable.version == expected && !payable.voided
    && payable.supplier == payment.supplier && payable.currency == payment.currency
    && Net(s.rows, item.target) + item.amount <= payable.amount
  }

  lemma {:induction false} ItemMeans(s: Books, p: Id, item: Item, expected: int)
    requires p in s.payments && item.target in s.payables
    ensures ItemRefusal(s, s.payments[p], item, expected).None? ==> ItemPasses(s, p, item, expected)
    ensures ItemRefusal(s, s.payments[p], item, expected).Some? ==>
      ItemFault(s, p, item, expected, ItemRefusal(s, s.payments[p], item, expected).value)
  {
  }

  /** The first item that may not be paid, and what is wrong with it. */
  ghost predicate FirstItemFault(s: Books, p: Id, items: seq<Item>, versions: map<Id, int>, k: int, error: Error)
    requires p in s.payments && forall item :: item in items ==> item.target in s.payables
  {
    && 0 <= k < |items|
    && (forall j :: 0 <= j < k ==> ItemPasses(s, p, items[j], GetOr(versions, items[j].target, 0)))
    && ItemFault(s, p, items[k], GetOr(versions, items[k].target, 0), error)
  }

  lemma {:induction false} ItemsMean(s: Books, p: Id, items: seq<Item>, versions: map<Id, int>)
    requires p in s.payments && forall item :: item in items ==> item.target in s.payables
    ensures var refusal := FirstRefusal(s, s.payments[p], items, versions);
      if refusal.None? then
        forall item :: item in items ==> ItemPasses(s, p, item, GetOr(versions, item.target, 0))
      else
        exists k :: FirstItemFault(s, p, items, versions, k, refusal.value)
  {
    if items != [] {
      var rest := items[1..];
      assert forall item :: item in rest ==> item in items;
      ItemMeans(s, p, items[0], GetOr(versions, items[0].target, 0));
      ItemsMean(s, p, rest, versions);
      var here := ItemRefusal(s, s.payments[p], items[0], GetOr(versions, items[0].target, 0));
      var refusal := FirstRefusal(s, s.payments[p], items, versions);
      if here.Some? {
        assert FirstItemFault(s, p, items, versions, 0, here.value);
      } else if refusal.Some? {
        var k :| FirstItemFault(s, p, rest, versions, k, refusal.value);
        ItemFaultLater(s, p, items, versions, k, refusal.value);
      }
    }
  }

  lemma {:induction false} ItemFaultLater(s: Books, p: Id, items: seq<Item>, versions: map<Id, int>, k: int,
      error: Error)
    requires p in s.payments && items != [] && forall item :: item in items ==> item.target in s.payables
    requires forall item :: item in items[1..] ==> item.target in s.payables
    requires ItemPasses(s, p, items[0], GetOr(versions, items[0].target, 0))
    requires FirstItemFault(s, p, items[1..], versions, k, error)
    ensures FirstItemFault(s, p, items, versions, k + 1, error)
  {
    forall j | 0 <= j < k + 1 ensures ItemPasses(s, p, items[j], GetOr(versions, items[j].target, 0)) {
      if j > 0 {
        assert items[j] == items[1..][j - 1];
      }
    }
  }

  // ---- The answers ----------------------------------------------------------------------------------------

  predicate AllKnown(s: Books, items: seq<Item>) { forall item :: item in items ==> item.target in s.payables }

  /** The condition of each answer of allocate(); each holds only where those above it do not. */
  ghost predicate AllocateAnswer(s: Books, c: Command, result: Result<Id, Error>)
    requires c.Allocate?
  {
    if c.payment !in s.payments then result == Err(PaymentMissing)
    else if s.payments[c.payment].version != c.expected then result == Err(VersionConflict)
    else if !Unreversed(s, c.payment) then result == Err(PaymentInactive)
    else if !AllKnown(s, c.items) then result == Err(PayableMissing)
    else if Used(s.rows, c.payment) + Requested(c.items) > s.payments[c.payment].amount then
      result == Err(PaymentOverallocation)
    else if exists item :: item in c.items && !ItemPasses(s, c.payment, item, GetOr(c.versions, item.target, 0)) then
      result.Err? && exists k :: FirstItemFault(s, c.payment, c.items, c.versions, k, result.error)
    else result == Ok(c.payment)
  }

  lemma {:induction false} KnownIs(s: Books, items: seq<Item>)
    ensures ItemTargets(items) <= s.payables.Keys <==> AllKnown(s, items)
  {
    if ItemTargets(items) <= s.payables.Keys {
      assert forall item :: item in items ==> item.target in ItemTargets(items);
    }
  }

  lemma {:induction false} FaultFails(s: Books, p: Id, item: Item, expected: int, error: Error)
    requires p in s.payments && item.target in s.payables && ItemFault(s, p, item, expected, error)
    ensures !ItemPasses(s, p, item, expected)
  {
  }

  lemma {:induction false} AllocateAnswers(s: Books, c: Command)
    requires c.Allocate?
    ensures AllocateAnswer(s, c, ApplyAllocate(s, c).1)
  {
    if c.payment in s.payments {
      LiveIs(s, c.payment);
      KnownIs(s, c.items);
      if AllKnown(s, c.items) {
        ItemsMean(s, c.payment, c.items, c.versions);
        forall k, error | FirstItemFault(s, c.payment, c.items, c.versions, k, error)
          ensures !ItemPasses(s, c.payment, c.items[k], GetOr(c.versions, c.items[k].target, 0))
        {
          FaultFails(s, c.payment, c.items[k], GetOr(c.versions, c.items[k].target, 0), error);
        }
      }
    }
  }

  /** An allocation goes through exactly when the payment is unreversed, at its expected version and has
      the money, and every payable is live, at its expected version, of the payment's supplier and currency,
      and has the balance. */
  lemma {:induction false} AllocateAccepted(s: Books, c: Command)
    requires c.Allocate?
    ensures Apply(s, c).1.Ok? <==>
      && Unreversed(s, c.payment) && s.payments[c.payment].version == c.expected
      && Used(s.rows, c.payment) + Requested(c.items) <= s.payments[c.payment].amount
      && forall item :: item in c.items ==>
          && item.target in s.payables && s.payables[item.target].version == GetOr(c.versions, item.target, 0)
          && !s.payables[item.target].voided
          && s.payables[item.target].supplier == s.payments[c.payment].supplier
          && s.payables[item.target].currency == s.payments[c.payment].currency
          && Net(s.rows, item.target) + item.amount <= s.payables[item.target].amount
  {
    AllocateAnswers(s, c);
  }

  /** What an accepted allocation writes: a row per item in the order of the request, and one version bump of
      the payment and of each payable paid. */
  lemma {:induction false} AllocatePosts(s: Books, c: Command)
    requires c.Allocate? && Apply(s, c).1.Ok?
    ensures c.payment in s.payments
    ensures var s' := Apply(s, c).0;
      && s'.purchases == s.purchases && s'.payables.Keys == s.payables.Keys
      && s'.payments == s.payments[c.payment := s.payments[c.payment].(version := s.payments[c.payment].version + 1)]
      && |s'.rows| == |s.rows| + |c.items| && s'.rows[..|s.rows|] == s.rows
      && (forall k :: 0 <= k < |c.items| ==>
            s'.rows[|s.rows| + k]
            == Row(|s.rows| + k, c.payment, c.items[k].target, Allocation, c.items[k].amount, None))
      && (forall x :: x in s.payables ==>
            s'.payables[x] ==
              if exists item :: item in c.items && item.target == x then
                s.payables[x].(version := s.payables[x].version + 1)
              else s.payables[x])
  {
  }

  /** A payment is reversed exactly when it is unreversed and at its expected version. */
  lemma {:induction false} ReverseAnswers(s: Books, c: Command)
    requires Invariant(s) && c.Reverse?
    ensures c.payment !in s.payments ==> Apply(s, c) == (s, Err(PaymentMissing))
    ensures c.payment in s.payments && s.payments[c.payment].version != c.expected ==>
      Apply(s, c) == (s, Err(VersionConflict))
    ensures c.payment in s.payments && s.payments[c.payment].version == c.expected && !Unreversed(s, c.payment) ==>
      Apply(s, c) == (s, Err(PaymentInactive))
    ensures Unreversed(s, c.payment) && s.payments[c.payment].version == c.expected ==>
      Apply(s, c).1 == Ok(c.reversal)
  {
    LiveIs(s, c.payment);
    assert forall row :: row in RowsOf(s.rows, c.payment) ==> row in s.rows;
  }

  /** An opposite row for each row of the payment, in their order, a reversal of the same supplier, currency
      and amount, and one version bump of each payable the payment had settled. */
  lemma {:induction false} ReversePosts(s: Books, c: Command)
    requires c.Reverse? && Apply(s, c).1.Ok?
    ensures c.payment in s.payments
    ensures var s', original, own := Apply(s, c).0, s.payments[c.payment], RowsOf(s.rows, c.payment);
      && s'.purchases == s.purchases && s'.payables.Keys == s.payables.Keys
      && s'.payments == s.payments[c.reversal :=
           SupplierPayment(original.supplier, original.currency, original.amount, Some(c.payment), 1)]
      && |s'.rows| == |s.rows| + |own| && s'.rows[..|s.rows|] == s.rows
      && (forall k :: 0 <= k < |own| ==>
            s'.rows[|s.rows| + k]
            == Row(|s.rows| + k, c.reversal, own[k].target, Reversal, own[k].amount, Some(own[k].id)))
      && (forall x :: x in s.payables ==>
            s'.payables[x] ==
              if exists row :: row in own && row.target == x then s.payables[x].(version := s.payables[x].version + 1)
              else s.payables[x])
  {
  }

  /** A payable is created exactly for a confirmed purchase with its sales order, incurred by today, and
      within what is left of the purchase; it takes supplier and currency from the purchase. */
  lemma {:induction false} CreateAnswers(s: Books, c: Command)
    requires c.CreatePayable?
    ensures Apply(s, c).1.Ok? <==>
      && c.purchase in s.purchases && s.purchases[c.purchase].order in s.orders && s.purchases[c.purchase].confirmed
      && c.incurredOn <= c.today
      && c.amount <= s.purchases[c.purchase].total - ActivePrincipal(s.payables, c.purchase)
    ensures Apply(s, c).1.Err? ==> Apply(s, c).0 == s
    ensures Apply(s, c).1.Ok? ==>
      var purchase := s.purchases[c.purchase];
      var payable := Payable(c.purchase, purchase.supplier, purchase.currency, c.amount, c.due, false, 1);
      Apply(s, c) == (s.(payables := s.payables[c.id := payable]), Ok(c.id))
  {
  }

  /** A payable is voided exactly when it is live, at its expected version, and nothing is settled on it. */
  lemma {:induction false} VoidAnswers(s: Books, c: Command)
    requires c.VoidPayable?
    ensures Apply(s, c).1.Ok? <==>
      && c.payable in s.payables && s.payables[c.payable].version == c.expected
      && !s.payables[c.payable].voided && Net(s.rows, c.payable) == 0
    ensures Apply(s, c).1.Err? ==> Apply(s, c).0 == s
    ensures Apply(s, c).1.Ok? ==>
      Apply(s, c).0 == s.(payables := s.payables[c.payable := s.payables[c.payable].(voided := true)])
    ensures c.payable in s.payables && s.payables[c.payable].version == c.expected && Apply(s, c).1.Err? ==>
      Apply(s, c).1 == Err(PayableNotVoidable)
  {
  }

  /** A payment is recorded exactly to a known company with the supplier role, paid by today. */
  lemma {:induction false} RecordAnswers(s: Books, c: Command)
    requires c.RecordPayment?
    ensures Apply(s, c).1.Ok? <==> c.supplier in s.companies && c.supplier in s.suppliers && c.paidOn <= c.today
    ensures c.supplier !in s.companies <==> Apply(s, c).1 == Err(SupplierMissing)
    ensures c.supplier in s.companies && c.supplier !in s.suppliers <==> Apply(s, c).1 == Err(CompanyNotSupplier)
    ensures Apply(s, c).1.Err? ==> Apply(s, c).0 == s
    ensures Apply(s, c).1.Ok? ==>
      Apply(s, c).0 ==
        s.(payments := s.payments[c.id := SupplierPayment(c.supplier, c.currency, c.amount, None, 1)])
  {
  }

  // ---- Terms --------------------------------------------------------------------------------------------------

  /** A row joins a payment and a payable of one supplier and one currency. */
  ghost predicate SameTerms(s: Books, row: Row) {
    && row.payment in s.payments && row.target in s.payables
    && s.payments[row.payment].supplier == s.payables[row.target].supplier
    && s.payments[row.payment].currency == s.payables[row.target].currency
  }

  ghost predicate TermsHold(s: Books) { forall row :: row in s.rows ==> SameTerms(s, row) }

  ghost predicate TermsStay(s: Books, s': Books) {
    && (forall p :: p in s.payments ==>
          && p in s'.payments && s'.payments[p].supplier == s.payments[p].supplier
          && s'.payments[p].currency == s.payments[p].currency)
    && (forall x :: x in s.payables ==>
          && x in s'.payables && s'.payables[x].supplier == s.payables[x].supplier
          && s'.payables[x].currency == s.payables[x].currency)
  }

  lemma {:induction false} OthersStay(s: Books, c: Command)
    requires Admissible(s, c) && !c.Allocate? && !c.Reverse?
    ensures TermsStay(s, Apply(s, c).0) && Apply(s, c).0.rows == s.rows
  {
    match c
    case CreatePayable(_, _, _, _, _, _) => CreateAnswers(s, c);
    case VoidPayable(_, _) => VoidAnswers(s, c);
    case RecordPayment(_, _, _, _, _, _) => RecordAnswers(s, c);
    case _ =>
  }

  lemma {:induction false} RowStays(s: Books, s': Books, row: Row)
    requires SameTerms(s, row) && TermsStay(s, s')
    ensures SameTerms(s', row)
  {
  }

  lemma {:induction false} PostingStays(s: Books, c: Command)
    requires (c.Allocate? || c.Reverse?) && Admissible(s, c) && Apply(s, c).1.Ok?
    ensures TermsStay(s, Apply(s, c).0)
  {
    if c.Allocate? {
      AllocatePosts(s, c);
    } else {
      ReversePosts(s, c);
    }
  }

  /** Rows are only added, so the terms hold when they hold for the new rows. */
  lemma {:induction false} NewRowsHold(s: Books, s': Books)
    requires TermsHold(s) && TermsStay(s, s') && |s.rows| <= |s'.rows| && s'.rows[..|s.rows|] == s.rows
    requires forall i :: |s.rows| <= i < |s'.rows| ==> SameTerms(s', s'.rows[i])
    ensures TermsHold(s')
  {
    forall i | 0 <= i < |s'.rows| ensures SameTerms(s', s'.rows[i]) {
      if i < |s.rows| {
        assert s'.rows[i] == s'.rows[..|s.rows|][i];
        RowStays(s, s', s'.rows[i]);
      }
    }
  }

  lemma {:induction false} PaidTerms(s: Books, s': Books, c: Command)
    requires c.Allocate? && c.payment in s.payments && TermsStay(s, s') && |s'.rows| == |s.rows| + |c.items|
    requires forall k :: 0 <= k < |c.items| ==>
      s'.rows[|s.rows| + k].payment == c.payment && s'.rows[|s.rows| + k].target == c.items[k].target
    requires forall item :: item in c.items ==>
      && item.target in s.payables && s.payables[item.target].supplier == s.payments[c.payment].supplier
      && s.payables[item.target].currency == s.payments[c.payment].currency
    ensures forall i :: |s.rows| <= i < |s'.rows| ==> SameTerms(s', s'.rows[i])
  {
    forall i | |s.rows| <= i < |s'.rows| ensures SameTerms(s', s'.rows[i]) {
      var k := i - |s.rows|;
      assert c.items[k] in c.items && s'.rows[|s.rows| + k] == s'.rows[i];
    }
  }

  lemma {:induction false} AllocateTerms(s: Books, c: Command)
    requires TermsHold(s) && c.Allocate? && Admissible(s, c) && Apply(s, c).1.Ok?
    ensures TermsHold(Apply(s, c).0)
  {
    var s' := Apply(s, c).0;
    PostingStays(s, c);
    AllocatePosts(s, c);
    AllocateAccepted(s, c);
    PaidTerms(s, s', c);
    NewRowsHold(s, s');
  }

  lemma {:induction false} MirrorTerms(s: Books, s': Books, original: Row, q: Id, mirror: Row)
    requires SameTerms(s, original) && TermsStay(s, s') && mirror.payment == q && mirror.target == original.target
    requires q in s'.payments && s'.payments[q].supplier == s.payments[original.payment].supplier
    requires s'.payments[q].currency == s.payments[original.payment].currency
    ensures SameTerms(s', mirror)
  {
  }

  lemma {:induction false} MirrorsHold(s: Books, s': Books, p: Id, q: Id, own: seq<Row>)
    requires TermsHold(s) && TermsStay(s, s') && p in s.payments && q in s'.payments
    requires s'.payments[q].supplier == s.payments[p].supplier && s'.payments[q].currency == s.payments[p].currency
    requires forall row :: row in own ==> row in s.rows && row.payment == p
    requires |s'.rows| == |s.rows| + |own|
    requires forall k :: 0 <= k < |own| ==>
      s'.rows[|s.rows| + k].payment == q && s'.rows[|s.rows| + k].target == own[k].target
    ensures forall i :: |s.rows| <= i < |s'.rows| ==> SameTerms(s', s'.rows[i])
  {
    forall i | |s.rows| <= i < |s'.rows| ensures SameTerms(s', s'.rows[i]) {
      var k := i - |s.rows|;
      assert own[k] in own && s'.rows[|s.rows| + k] == s'.rows[i];
      MirrorTerms(s, s', own[k], q, s'.rows[i]);
    }
  }

  lemma {:induction false} ReverseTerms(s: Books, c: Command)
    requires TermsHold(s) && c.Reverse? && Admissible(s, c) && Apply(s, c).1.Ok?
    ensures TermsHold(Apply(s, c).0)
  {
    var s' := Apply(s, c).0;
    PostingStays(s, c);
    ReversePosts(s, c);
    MirrorsHold(s, s', c.payment, c.reversal, RowsOf(s.rows, c.payment));
    NewRowsHold(s, s');
  }

  lemma {:induction false} ApplyTerms(s: Books, c: Command)
    requires TermsHold(s) && Admissible(s, c)
    ensures TermsHold(Apply(s, c).0)
  {
    if c.Allocate? {
      if Apply(s, c).1.Ok? {
        AllocateTerms(s, c);
      }
    } else if c.Reverse? {
      if Apply(s, c).1.Ok? {
        ReverseTerms(s, c);
      }
    } else {
      OthersStay(s, c);
      forall row | row in s.rows ensures SameTerms(Apply(s, c).0, row) {
        RowStays(s, Apply(s, c).0, row);
      }
    }
  }

  lemma {:induction false} RunTerms(s: Books, commands: seq<Command>)
    requires Empty(s) && AdmissibleRun(s, commands)
    ensures TermsHold(Run(s, commands))
    decreases |commands|
  {
    if commands != [] {
      RunTerms(s, commands[..|commands| - 1]);
      ApplyTerms(Run(s, commands[..|commands| - 1]), commands[|commands| - 1]);
    }
  }

  /** In every reachable ledger a payment settles only payables of its own supplier, in its own currency. */
  lemma {:induction false} RowsKeepTerms(s: Books, commands: seq<Command>, row: Row)
    requires Empty(s) && AdmissibleRun(s, commands) && row in Run(s, commands).rows
    ensures var now := Run(s, commands);
      && row.payment in now.payments && row.target in now.payables
      && now.payments[row.payment].supplier == now.payables[row.target].supplier
      && now.payments[row.payment].currency == now.payables[row.target].currency
  {
    RunTerms(s, commands);
    assert SameTerms(Run(s, commands), row);
  }

  /** What the page shows for a payable on a day. */
  lemma {:induction false} ShownStatus(s: Books, x: Id, today: int)
    requires Invariant(s) && x in s.payables
    ensures var payable, net, shown := s.payables[x], Net(s.rows, x),
      DisplayedStatus(s.payables[x], Net(s.rows, x), today);
      && (shown == ShownVoided <==> payable.voided)
      && (shown == ShownPaid <==> !payable.voided && net == payable.amount)
      && (shown == ShownPartiallyPaid <==> !payable.voided && 0 < net < payable.amount)
      && (shown == ShownOverdue <==> !payable.voided && net == 0 && payable.due < today)
      && (shown == ShownDue <==> !payable.voided && net == 0 && payable.due == today)
      && (shown == ShownPending <==> !payable.voided && net == 0 && today < payable.due)
  {
    assert Settles(s.payables[x], Net(s.rows, x));
  }
}
