/** What the reachable customer ledgers add up to. */
module LedgerLaws {
  import opened Prelude
  import opened Settlement
  import opened CustomerLedger
  import opened LedgerInvariant

  // ---- Conservation -----------------------------------------------------------------------------

  ghost function SettledOnReceivables(s: Ledger): int {
    SumOver(s.receivables.Keys, (r: Id) => Total(s.rows, Signed(r)))
  }

  ghost function SpentFromActiveReceipts(s: Ledger): int {
    SumOver(ActiveReceipts(s.payments), (p: Id) => Total(s.rows, Charge(p)))
  }

  /** Money is neither created nor lost between the two sides of the ledger. */
  lemma {:induction false} Conservation(s: Ledger)
    requires Invariant(s)
    ensures SettledOnReceivables(s) == SpentFromActiveReceipts(s)
  {
    var reversed, active := ReversedReceipts(s.payments), ActiveReceipts(s.payments);
    var live := (row: Row) => if row.kind == Allocation && row.payment !in reversed then row.amount else 0;
    var target, payment := (row: Row) => row.target, (row: Row) => row.payment;
    TotalExchange(s.rows, s.receivables.Keys, (r: Id) => LiveOn(reversed, r), target, live);
    forall row, p | row in s.rows && p in active ensures Charge(p)(row) == if payment(row) == p then live(row) else 0 {
    }
    forall row | row in s.rows && payment(row) !in active ensures live(row) == 0 {
      assert Linked(s.payments, row.payment);
    }
    TotalExchange(s.rows, active, (p: Id) => Charge(p), payment, live);
    SumOverAgree(
      s.receivables.Keys, (r: Id) => Total(s.rows, Signed(r)),
      (r: Id) => Total(s.rows, ((r: Id) => LiveOn(reversed, r))(r))) by {
      assert forall r :: r in s.receivables ==> Net(s.rows, r) == Live(s.rows, reversed, r);
    }
    SumOverAgree(active, (p: Id) => Total(s.rows, Charge(p)), (p: Id) => Total(s.rows, ((p: Id) => Charge(p))(p)));
  }

  // ---- Reversal erases --------------------------------------------------------------------------

  lemma {:induction false} NetWithout(rows: seq<Row>, p: Id, r: Id)
    requires forall row :: row in rows && row.payment == p ==> row.kind == Allocation
    ensures Net(Without(rows, {p}), r) == Net(rows, r) - UsedOn(rows, p, r)
  {
    var rest := (row: Row) => if row.payment == p then 0 else Signed(r)(row);
    TotalOfWithout(rows, {p}, Signed(r), rest);
    TotalPlus(rows, rest, ChargeOn(p, r), Signed(r));
  }

  /** What reverse(p) makes of receivable `r` if p's rows had never been there. */
  function WithoutPayment(s: Ledger, p: Id, r: Id, today: int): Receivable
    requires r in s.receivables
  {
    if r in Targets(RowsOf(s.rows, p)) then Unsettled(s.receivables[r], Net(Without(s.rows, {p}), r), today)
    else s.receivables[r]
  }

  lemma {:induction false} ErasedNet(s: Ledger, s': Ledger, p: Id, q: Id, today: int, r: Id)
    requires RowsLinked(s) && Reverses(s, s', p, q, today) && r in s.receivables
    ensures Net(s'.rows, r) == Net(Without(s.rows, {p}), r)
    ensures s'.receivables[r] == WithoutPayment(s, p, r, today)
  {
    assert forall row :: row in s.rows && row.payment == p ==> row.kind == Allocation;
    NetWithout(s.rows, p, r);
    ReverseTakesBack(s.rows, p, q, r);
  }

  /** Right after reverse(p) every net, and every status and paid_at it touched, is what the table
      without p's rows would give, however often p was allocated and whatever else was paid. */
  lemma {:induction false} ReverseErases(s: Ledger, c: Command)
    requires Invariant(s) && c.Reverse? && Admissible(s, c) && c.payment in ActiveReceipts(s.payments)
    requires Apply(s, c).1.Ok?
    ensures var s' := Apply(s, c).0;
      && s'.receivables.Keys == s.receivables.Keys
      && (forall r :: r in s.receivables ==> Net(s'.rows, r) == Net(Without(s.rows, {c.payment}), r))
      && (forall r :: r in s.receivables ==> s'.receivables[r] == WithoutPayment(s, c.payment, r, c.today))
  {
    ReverseApplied(s, c);
    var s' := Apply(s, c).0;
    forall r | r in s.receivables
      ensures Net(s'.rows, r) == Net(Without(s.rows, {c.payment}), r)
        && s'.receivables[r] == WithoutPayment(s, c.payment, r, c.today)
    {
      ErasedNet(s, s', c.payment, c.reversal, c.today, r);
    }
  }

  /** A row of the pair weighs the same in the net as in the difference of the pair's shares. */
  lemma {:induction false} PairCancels(rows: seq<Row>, p: Id, q: Id, r: Id)
    requires p != q
    requires forall row :: row in rows ==>
      (row.payment == p ==> row.kind == Allocation) && (row.payment == q ==> row.kind == Reversal)
    ensures Net(Without(rows, {p, q}), r) == Net(rows, r) - UsedOn(rows, p, r) + UsedOn(rows, q, r)
  {
    var rest := (row: Row) => if row.payment in {p, q} then 0 else Signed(r)(row);
    var upToP := (row: Row) => if row.payment == q then 0 else Signed(r)(row);
    TotalOfWithout(rows, {p, q}, Signed(r), rest);
    TotalPlus(rows, rest, ChargeOn(p, r), upToP);
    TotalPlus(rows, Signed(r), ChargeOn(q, r), upToP);
  }

  /** And it stays so: at any later time the pair of payments can be left out of every net. */
  lemma {:induction false} ErasedForGood(s: Ledger, p: Id, q: Id, r: Id)
    requires Invariant(s) && q in s.payments && s.payments[q].reversalOf == Some(p)
    ensures Net(Without(s.rows, {p, q}), r) == Net(s.rows, r)
  {
    assert Linked(s.payments, q);
    assert UsedOn(s.rows, q, r) == UsedOn(s.rows, p, r);
    PairCancels(s.rows, p, q, r);
  }

  lemma {:induction false} UntouchedByDecision(s: Ledger, c: Command, f: Facts, x: Id)
    requires Admissible(s, c) && Sees(s, c, f) && Decide(c, s.companies, f).Accept?
    requires x in s.payments && !(c.Reverse? && c.payment == x && x in ActiveReceipts(s.payments))
    ensures x !in Decide(c, s.companies, f).delta.payments
  {
    DecisionPayments(c, s.companies, f);
    if c.Reverse? {
      ReverseShape(c, f);
    }
  }

  lemma {:induction false} Untouched(s: Ledger, c: Command, x: Id)
    requires Admissible(s, c)
    requires x in s.payments && !(c.Reverse? && c.payment == x && x in ActiveReceipts(s.payments))
    ensures x in Apply(s, c).0.payments && Apply(s, c).0.payments[x] == s.payments[x]
  {
    ObservesTables(s, c);
    var f := Observe(s, c);
    if Decide(c, s.companies, f).Accept? {
      UntouchedByDecision(s, c, f, x);
    }
  }

  lemma {:induction false} ReversalStays(s: Ledger, c: Command, p: Id, q: Id)
    requires Admissible(s, c)
    requires p in s.payments && s.payments[p].status == Reversed && s.payments[p].kind == Receipt
    requires q in s.payments && s.payments[q].reversalOf == Some(p) && s.payments[q].kind == ReversalPayment
    ensures var payments := Apply(s, c).0.payments;
      && p in payments && payments[p].status == Reversed && payments[p].kind == Receipt
      && q in payments && payments[q].reversalOf == Some(p) && payments[q].kind == ReversalPayment
  {
    Untouched(s, c, p);
    Untouched(s, c, q);
  }

  lemma {:induction false} ReversalStaysOverRun(s: Ledger, commands: seq<Command>, p: Id, q: Id)
    requires AdmissibleRun(s, commands)
    requires p in s.payments && s.payments[p].status == Reversed && s.payments[p].kind == Receipt
    requires q in s.payments && s.payments[q].reversalOf == Some(p) && s.payments[q].kind == ReversalPayment
    ensures var payments := Run(s, commands).payments;
      && p in payments && payments[p].status == Reversed && payments[p].kind == Receipt
      && q in payments && payments[q].reversalOf == Some(p) && payments[q].kind == ReversalPayment
    decreases |commands|
  {
    if commands != [] {
      var init := commands[..|commands| - 1];
      ReversalStaysOverRun(s, init, p, q);
      ReversalStays(Run(s, init), commands[|commands| - 1], p, q);
    }
  }

  lemma {:induction false} RepeatedReverse(s: Ledger, c: Command, q: Id)
    requires Invariant(s) && c.Reverse? && c.payment in s.payments && s.payments[c.payment].kind == Receipt
    requires s.payments[c.payment].status == Reversed && q in s.payments && s.payments[q].reversalOf == Some(c.payment)
    ensures Apply(s, c) == (s, Ok([q]))
  {
    assert OneReversalEach(s.payments);
    assert ReversalOf(s.payments, c.payment) == Some(q);
    NoChangeCommits(s);
  }

  /** A second reverse, any number of commands later, adds nothing and returns the first reversal. */
  lemma {:induction false} SecondReverse(s: Ledger, c: Command, between: seq<Command>, again: Command)
    requires Invariant(s) && c.Reverse? && Admissible(s, c) && Apply(s, c).1.Ok?
      && c.payment in ActiveReceipts(s.payments)
    requires AdmissibleRun(Apply(s, c).0, between)
    requires again.Reverse? && again.payment == c.payment
    ensures Apply(Run(Apply(s, c).0, between), again) == (Run(Apply(s, c).0, between), Ok([c.reversal]))
  {
    var s1 := Apply(s, c).0;
    ReverseApplied(s, c);
    ApplyKeeps(s, c);
    ReversalStaysOverRun(s1, between, c.payment, c.reversal);
    RunKeepsInvariant(s1, between);
    RepeatedReverse(Run(s1, between), again, c.reversal);
  }
}
