/** Currencies and companies: a receipt settles only receivables in its currency, of its company's orders. */
module LedgerTerms {
  import opened Prelude
  import opened Settlement
  import opened CustomerLedger
  import opened LedgerInvariant
  import opened InstallmentPlan
  import opened AllocationAnswers
  import opened ReversalAnswers

  ghost predicate RowMatches(s: Ledger, row: Row) {
    && row.payment in s.payments && row.target in s.receivables && s.receivables[row.target].order in s.orders
    && s.payments[row.payment].currency == s.receivables[row.target].currency
    && s.payments[row.payment].company == s.orders[s.receivables[row.target].order].company
  }

  ghost predicate RowsMatch(s: Ledger) { forall row :: row in s.rows ==> RowMatches(s, row) }

  ghost predicate BilledInOrderCurrency(s: Ledger) {
    forall r :: r in s.receivables ==>
      s.receivables[r].order in s.orders && s.receivables[r].currency == s.orders[s.receivables[r].order].currency
  }

  // ---- What no command changes ----------------------------------------------------------------------------

  ghost predicate PaymentTermsStay(before: map<Id, Payment>, after: map<Id, Payment>) {
    forall p :: p in before ==>
      p in after && after[p].company == before[p].company && after[p].currency == before[p].currency
  }

  ghost predicate OrderTermsStay(before: map<Id, Order>, after: map<Id, Order>) {
    forall o :: o in before ==>
      o in after && after[o].company == before[o].company && after[o].currency == before[o].currency
  }

  ghost predicate ReceivableTermsStay(before: map<Id, Receivable>, after: map<Id, Receivable>) {
    forall r :: r in before ==>
      r in after && after[r].order == before[r].order && after[r].currency == before[r].currency
  }

  ghost predicate TermsStay(s: Ledger, s': Ledger) {
    && PaymentTermsStay(s.payments, s'.payments)
    && OrderTermsStay(s.orders, s'.orders)
    && ReceivableTermsStay(s.receivables, s'.receivables)
  }

  lemma {:induction false} DecisionPaymentTerms(c: Command, companies: set<Id>, f: Facts)
    requires f.Ordered() && Decide(c, companies, f).Accept? && (c.Generate? ==> c.depositId != c.balanceId)
    ensures var written := Decide(c, companies, f).delta.payments;
      forall p :: p in written ==>
        || (p in f.payments && written[p].company == f.payments[p].company
          && written[p].currency == f.payments[p].currency)
        || (c.Create? && p == c.id) || (c.Reverse? && p == c.reversal)
  {
    match c
    case Create(_, _, _, _) =>
    case Allocate(_, _, _, _) => AllocateShape(c, f);
    case Reverse(_, _, _) => ReverseShape(c, f);
    case Generate(_, _, _, _, _, _) => GenerateShape(c, f);
    case RefreshRows(_, _) =>
    case PlaceOrder(_, _) =>
    case MoveOrder(_, _, _) =>
  }

  lemma {:induction false} CommitTerms(s: Ledger, c: Command, f: Facts)
    requires Admissible(s, c) && f.Ordered() && Decide(c, s.companies, f).Accept?
    requires forall p :: p in f.payments ==> p in s.payments && f.payments[p] == s.payments[p]
    requires forall r :: r in f.receivables ==> r in s.receivables && f.receivables[r] == s.receivables[r]
    requires forall o :: o in f.orders ==> o in s.orders && f.orders[o] == s.orders[o]
    ensures TermsStay(s, Commit(s, Decide(c, s.companies, f).delta))
  {
    DecisionPaymentTerms(c, s.companies, f);
    DecisionOrders(c, s.companies, f);
    if c.Generate? {
      GenerateShape(c, f);
    } else {
      DecisionKeepsFaces(c, s.companies, f);
    }
  }

  lemma {:induction false} ApplyTerms(s: Ledger, c: Command)
    requires Admissible(s, c)
    ensures TermsStay(s, Apply(s, c).0)
  {
    if Decide(c, s.companies, Observe(s, c)).Accept? {
      CommitTerms(s, c, Observe(s, c));
    }
  }

  // ---- Rows -------------------------------------------------------------------------------------------------

  lemma {:induction false} RowStays(s: Ledger, s': Ledger, row: Row)
    requires RowMatches(s, row) && TermsStay(s, s')
    ensures RowMatches(s', row)
  {
  }

  lemma {:induction false} OldRows(s: Ledger, s': Ledger, row: Row)
    requires RowsMatch(s) && TermsStay(s, s') && row in s.rows
    ensures RowMatches(s', row)
  {
    RowStays(s, s', row);
  }

  lemma {:induction false} AllocateMatches(s: Ledger, c: Command)
    requires Invariant(s) && RowsMatch(s) && c.Allocate? && Admissible(s, c) && Apply(s, c).1.Ok?
    requires TermsStay(s, Apply(s, c).0)
    ensures RowsMatch(Apply(s, c).0)
  {
    var s' := Apply(s, c).0;
    AllocatePosts(s, c);
    AllocateAccepted(s, c);
    forall i | 0 <= i < |s'.rows| ensures RowMatches(s', s'.rows[i]) {
      if i < |s.rows| {
        assert s'.rows[i] == s'.rows[..|s.rows|][i];
        OldRows(s, s', s'.rows[i]);
      } else {
        var item := Item(s'.rows[i].target, s'.rows[i].amount);
        assert item in c.items && item.target in s.receivables;
      }
    }
  }

  lemma {:induction false} MirrorMatches(s: Ledger, s': Ledger, p: Id, q: Id, original: Row, mirror: Row)
    requires RowMatches(s, original) && original.payment == p && TermsStay(s, s')
    requires mirror.payment == q && mirror.target == original.target
    requires q in s'.payments && s'.payments[q].company == s.payments[p].company
    requires s'.payments[q].currency == s.payments[p].currency
    ensures RowMatches(s', mirror)
  {
    RowStays(s, s', original);
  }

  lemma {:induction false} ReverseMatches(s: Ledger, c: Command)
    requires Invariant(s) && RowsMatch(s) && c.Reverse? && Admissible(s, c) && Apply(s, c).1.Ok?
    requires c.payment in ActiveReceipts(s.payments) && TermsStay(s, Apply(s, c).0)
    ensures RowsMatch(Apply(s, c).0)
  {
    var s', own := Apply(s, c).0, RowsOf(s.rows, c.payment);
    ReversePosts(s, c);
    forall i | 0 <= i < |s'.rows| ensures RowMatches(s', s'.rows[i]) {
      if i < |s.rows| {
        assert s'.rows[i] == s'.rows[..|s.rows|][i];
        OldRows(s, s', s'.rows[i]);
      } else {
        var k := i - |s.rows|;
        assert own[k] in own && own[k] in s.rows;
        assert s'.rows[|s.rows| + k].target == own[k].target;
        MirrorMatches(s, s', c.payment, c.reversal, own[k], s'.rows[i]);
      }
    }
  }

  lemma {:induction false} OthersAddNoRows(s: Ledger, c: Command)
    requires Admissible(s, c) && !c.Allocate? && !(c.Reverse? && c.payment in ActiveReceipts(s.payments))
    ensures Apply(s, c).0.rows == s.rows
  {
    var f := Observe(s, c);
    if Decide(c, s.companies, f).Accept? {
      if c.Reverse? {
        ReverseShape(c, f);
      } else if c.Generate? {
        GenerateShape(c, f);
      }
    }
  }

  lemma {:induction false} IssuedCurrency(s: Ledger, c: Command, f: Facts)
    requires c.Generate? && Admissible(s, c) && DecideGenerate(c, f).Accept?
    requires f.orders == Restrict(s.orders, {c.order})
    ensures var written := DecideGenerate(c, f).delta.receivables;
      forall r :: r in written ==>
        && r !in s.receivables && written[r].order in s.orders
        && written[r].currency == s.orders[written[r].order].currency
  {
    GenerateIssues(c, f);
  }

  lemma {:induction false} BillingKept(s: Ledger, c: Command, f: Facts)
    requires BilledInOrderCurrency(s) && Admissible(s, c) && f.Ordered() && Decide(c, s.companies, f).Accept?
    requires TermsStay(s, Commit(s, Decide(c, s.companies, f).delta))
    requires forall r :: r in f.receivables ==> r in s.receivables && f.receivables[r] == s.receivables[r]
    requires c.Generate? ==> f.orders == Restrict(s.orders, {c.order})
    ensures BilledInOrderCurrency(Commit(s, Decide(c, s.companies, f).delta))
  {
    if c.Generate? {
      IssuedCurrency(s, c, f);
      PlainCommit(s, DecideGenerate(c, f).delta);
    } else {
      DecisionKeepsFaces(c, s.companies, f);
    }
  }

  lemma {:induction false} ApplyMatches(s: Ledger, c: Command)
    requires Invariant(s) && RowsMatch(s) && BilledInOrderCurrency(s) && Admissible(s, c)
    ensures RowsMatch(Apply(s, c).0) && BilledInOrderCurrency(Apply(s, c).0)
  {
    ApplyTerms(s, c);
    if Apply(s, c).1.Ok? {
      BillingKept(s, c, Observe(s, c));
    }
    if c.Allocate? && Apply(s, c).1.Ok? {
      AllocateMatches(s, c);
    } else if c.Reverse? && Apply(s, c).1.Ok? && c.payment in ActiveReceipts(s.payments) {
      ReverseMatches(s, c);
    } else if !c.Allocate? && !(c.Reverse? && c.payment in ActiveReceipts(s.payments)) {
      OthersAddNoRows(s, c);
      forall row | row in s.rows ensures RowMatches(Apply(s, c).0, row) {
        RowStays(s, Apply(s, c).0, row);
      }
    }
  }

  lemma {:induction false} RunMatches(s: Ledger, commands: seq<Command>)
    requires Empty(s) && AdmissibleRun(s, commands)
    ensures RowsMatch(Run(s, commands)) && BilledInOrderCurrency(Run(s, commands))
    decreases |commands|
  {
    if commands != [] {
      RunKeeps(s, commands[..|commands| - 1]);
      RunMatches(s, commands[..|commands| - 1]);
      ApplyMatches(Run(s, commands[..|commands| - 1]), commands[|commands| - 1]);
    }
  }

  /** In every reachable ledger each row joins a payment and a receivable of one currency, of the company
      that placed the receivable's order, and in that order's currency. */
  lemma {:induction false} RowsKeepTerms(s: Ledger, commands: seq<Command>, row: Row)
    requires Empty(s) && AdmissibleRun(s, commands) && row in Run(s, commands).rows
    ensures var now := Run(s, commands);
      && row.payment in now.payments && row.target in now.receivables
      && now.receivables[row.target].order in now.orders
      && var payment, receivable := now.payments[row.payment], now.receivables[row.target];
         && payment.currency == receivable.currency == now.orders[receivable.order].currency
         && payment.company == now.orders[receivable.order].company
  {
    RunMatches(s, commands);
    assert RowMatches(Run(s, commands), row);
  }
}
