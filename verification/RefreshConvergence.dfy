/** refresh_statuses: bounded batches that converge on the day's statuses. */
module RefreshConvergence {
  import opened Prelude
  import opened Settlement
  import opened CustomerLedger
  import opened LedgerInvariant

  const BATCH: nat := 500

  function LaggingIds(s: Ledger, today: int): set<Id> {
    set r | r in s.receivables && Lagging(s.receivables[r], today)
  }

  /** ORDER BY id LIMIT 500. */
  function Picked(s: Ledger, today: int): (picked: seq<Id>)
    ensures Increasing(picked) && Elements(picked) <= LaggingIds(s, today)
    ensures |Elements(picked)| == if |LaggingIds(s, today)| < BATCH then |LaggingIds(s, today)| else BATCH
    ensures forall r, x :: r in picked && x in LaggingIds(s, today) && x !in picked ==> r < x
  {
    var q := Sorted(LaggingIds(s, today));
    var picked := if |q| < BATCH then q else q[..BATCH];
    IncreasingSize(picked);
    assert picked + q[|picked|..] == q;
    picked
  }

  lemma {:induction false} IncreasingSize(q: seq<Id>)
    requires Increasing(q)
    ensures |Elements(q)| == |q|
  {
    if q != [] {
      var init, last := q[..|q| - 1], q[|q| - 1];
      IncreasingSize(init);
      assert Elements(q) == Elements(init) + {last};
    }
  }

  /** The status a reader of the row should see. */
  function Derived(s: Ledger, r: Id, today: int): ReceivableStatus
    requires r in s.receivables
  {
    StatusFor(s.receivables[r].amount, s.receivables[r].due, Net(s.rows, r), today)
  }

  function Rederived(s: Ledger, picked: set<Id>, today: int): Ledger {
    s.(receivables := map r | r in s.receivables ::
      if r in picked then s.receivables[r].(status := Derived(s, r, today)) else s.receivables[r])
  }

  function Refresh(s: Ledger, today: int): Ledger {
    Rederived(s, Elements(Picked(s, today)), today)
  }

  function Refreshing(today: int): Ledger -> Ledger { (s: Ledger) => Refresh(s, today) }

  function RefreshTimes(s: Ledger, today: int, calls: nat): Ledger { Iterate(Refreshing(today), s, calls) }

  // ---- One call ---------------------------------------------------------------------------------

  lemma {:induction false} RefreshDelta(s: Ledger, picked: set<Id>, f: Facts, today: int)
    requires picked <= LaggingIds(s, today)
    requires f.receivables == Restrict(s.receivables, picked) && f.totals == NetTotals(s.rows, picked)
    ensures var d := DecideRefresh(RefreshRows(picked, today), f).delta;
      && d == NoChange.(receivables := d.receivables)
      && s.receivables + d.receivables == Rederived(s, picked, today).receivables
  {
    var d := DecideRefresh(RefreshRows(picked, today), f).delta;
    forall r | r in picked
      ensures r in d.receivables && d.receivables[r] == s.receivables[r].(status := Derived(s, r, today))
    {
      NetTotalsGet(s.rows, picked, r);
      assert r in f.receivables;
    }
    assert d.receivables.Keys <= picked;
  }

  /** The command re-derives exactly the rows it was given, when they lag. */
  lemma {:induction false} RefreshApplied(s: Ledger, picked: set<Id>, today: int)
    requires picked <= LaggingIds(s, today)
    ensures Apply(s, RefreshRows(picked, today)).0 == Rederived(s, picked, today)
  {
    var c := RefreshRows(picked, today);
    var f := Observe(s, c);
    RefreshDelta(s, picked, f, today);
    PlainCommit(s, DecideRefresh(c, f).delta);
  }

  lemma {:induction false} RederivedCatchesUp(s: Ledger, picked: set<Id>, today: int)
    requires StatusesAgree(s) && picked <= LaggingIds(s, today)
    ensures LaggingIds(Rederived(s, picked, today), today) == LaggingIds(s, today) - picked
    ensures forall r :: r in picked ==> Rederived(s, picked, today).receivables[r].status != s.receivables[r].status
  {
  }

  /** Each call changes every row it selects, and shortens the backlog by min(500, n). */
  lemma {:induction false} RefreshProgress(s: Ledger, today: int)
    requires StatusesAgree(s)
    ensures Apply(s, RefreshRows(Elements(Picked(s, today)), today)).0 == Refresh(s, today)
    ensures forall r :: r in Picked(s, today) ==>
      r in s.receivables && Refresh(s, today).receivables[r].status != s.receivables[r].status
    ensures var n := |LaggingIds(s, today)|;
      |LaggingIds(Refresh(s, today), today)| == if n < BATCH then 0 else n - BATCH
  {
    var picked := Elements(Picked(s, today));
    RefreshApplied(s, picked, today);
    RederivedCatchesUp(s, picked, today);
    assert forall r :: r in Picked(s, today) ==> r in picked;
  }

  lemma {:induction false} RefreshKeepsInvariant(s: Ledger, today: int)
    requires Invariant(s)
    ensures Invariant(Refresh(s, today))
  {
    RefreshProgress(s, today);
    ApplyKeeps(s, RefreshRows(Elements(Picked(s, today)), today));
  }

  // ---- Several calls on one day -----------------------------------------------------------------

  lemma {:induction false} RefreshTimesKeepsInvariant(s: Ledger, today: int, calls: nat)
    requires Invariant(s)
    ensures Invariant(RefreshTimes(s, today, calls))
  {
    forall x: Ledger | Invariant(x) ensures Invariant(Refresh(x, today)) { RefreshKeepsInvariant(x, today); }
    IterateKeeps(Refreshing(today), s, calls, (x: Ledger) => Invariant(x));
  }

  function BacklogSize(today: int): Ledger -> nat { (s: Ledger) => |LaggingIds(s, today)| }

  lemma {:induction false} BacklogShrinks(s: Ledger, today: int)
    requires Invariant(s)
    ensures Invariant(Refresh(s, today))
    ensures var n := BacklogSize(today)(s); BacklogSize(today)(Refresh(s, today)) == if n < BATCH then 0 else n - BATCH
  {
    RefreshProgress(s, today);
    RefreshKeepsInvariant(s, today);
  }

  lemma {:induction false} Backlog(s: Ledger, today: int, calls: nat)
    requires Invariant(s)
    ensures var n := |LaggingIds(s, today)|;
      |LaggingIds(RefreshTimes(s, today, calls), today)| == if n < BATCH * calls then 0 else n - BATCH * calls
  {
    var step, size := Refreshing(today), BacklogSize(today);
    forall x: Ledger | Invariant(x)
      ensures Invariant(step(x)) && size(step(x)) == if size(x) < BATCH then 0 else size(x) - BATCH
    {
      BacklogShrinks(x, today);
    }
    IterateShrinks(step, s, calls, (x: Ledger) => Invariant(x), size, BATCH);
  }

  /** A stored DUE or OVERDUE that the day has not reached: refresh never looks at such a row. */
  ghost predicate NotAhead(r: Receivable, today: int) {
    (r.status == Due ==> r.due <= today) && (r.status == Overdue ==> r.due < today)
  }

  ghost predicate NoneAhead(s: Ledger, today: int) {
    forall r :: r in s.receivables ==> NotAhead(s.receivables[r], today)
  }

  ghost predicate AllDerived(s: Ledger, today: int) {
    forall r :: r in s.receivables ==> s.receivables[r].status == Derived(s, r, today)
  }

  lemma {:induction false} CaughtUp(s: Ledger, today: int)
    requires StatusesAgree(s) && LaggingIds(s, today) == {}
    ensures AllDerived(s, today) <==> NoneAhead(s, today)
  {
    forall r | r in s.receivables
      ensures s.receivables[r].status == Derived(s, r, today) <==> NotAhead(s.receivables[r], today)
    {
      assert StatusAgrees(s.receivables[r], Net(s.rows, r));
      assert r !in LaggingIds(s, today);
    }
  }

  lemma {:induction false} RefreshKeepsAhead(s: Ledger, today: int)
    requires StatusesAgree(s)
    ensures NoneAhead(Refresh(s, today), today) <==> NoneAhead(s, today)
  {
    var s' := Refresh(s, today);
    forall r | r in s.receivables ensures NotAhead(s'.receivables[r], today) <==> NotAhead(s.receivables[r], today) {
      assert StatusAgrees(s.receivables[r], Net(s.rows, r));
    }
  }

  lemma {:induction false} RefreshTimesKeepsAhead(s: Ledger, today: int, calls: nat)
    requires Invariant(s)
    ensures NoneAhead(RefreshTimes(s, today, calls), today) <==> NoneAhead(s, today)
  {
    var kept := (x: Ledger) => Invariant(x) && (NoneAhead(x, today) <==> NoneAhead(s, today));
    forall x: Ledger | kept(x) ensures kept(Refresh(x, today)) {
      RefreshKeepsInvariant(x, today);
      RefreshKeepsAhead(x, today);
    }
    IterateKeeps(Refreshing(today), s, calls, kept);
  }

  /** ceil(n / 500) calls on one day make every stored status the derived one, exactly when no stored
      status is ahead of that day. */
  lemma {:induction false} Convergence(s: Ledger, today: int, calls: nat)
    requires Invariant(s) && BATCH * calls >= |LaggingIds(s, today)|
    ensures LaggingIds(RefreshTimes(s, today, calls), today) == {}
    ensures AllDerived(RefreshTimes(s, today, calls), today) <==> NoneAhead(s, today)
  {
    Backlog(s, today, calls);
    RefreshTimesKeepsInvariant(s, today, calls);
    RefreshTimesKeepsAhead(s, today, calls);
    CaughtUp(RefreshTimes(s, today, calls), today);
  }

  // ---- The day does not go backwards ------------------------------------------------------------

  function DayOf(c: Command): Option<int> {
    match c
    case Allocate(_, _, _, today) => Some(today)
    case Reverse(_, _, today) => Some(today)
    case Generate(_, _, _, _, _, today) => Some(today)
    case RefreshRows(_, today) => Some(today)
    case _ => None
  }

  /** No command took a later day than `today`. They may have taken their days in any order: a command
      reads the day before it waits for its locks, so an earlier day can be committed later. */
  ghost predicate DaysUpTo(commands: seq<Command>, today: int) {
    forall i :: 0 <= i < |commands| && DayOf(commands[i]).Some? ==> DayOf(commands[i]).value <= today
  }

  lemma {:induction false} DeltaNotAhead(c: Command, f: Facts, amounts: map<Id, int>)
    ensures c.Allocate? && f.Ordered() && f.receivables.Keys == amounts.Keys ==>
      forall r :: r in amounts ==> NotAhead(AllocateDelta(c, f, amounts).receivables[r], c.today)
    ensures
      c.Reverse? && c.payment in f.payments && Targets(f.own) <= f.receivables.Keys
      && Targets(f.own) <= f.totals.Keys ==>
      forall r :: r in Targets(f.own) ==> NotAhead(ReverseDelta(c, f).receivables[r], c.today)
  {
  }

  lemma {:induction false} GenerateNotAhead(c: Command, f: Facts)
    requires c.Generate? && DecideGenerate(c, f).Accept?
    ensures var written := DecideGenerate(c, f).delta.receivables;
      forall r :: r in written ==> NotAhead(written[r], c.today)
  {
  }

  lemma {:induction false} DecisionNotAhead(c: Command, companies: set<Id>, f: Facts)
    requires f.Ordered() && Decide(c, companies, f).Accept?
    ensures var written := Decide(c, companies, f).delta.receivables;
      && (DayOf(c).None? ==> written == map[])
      && (DayOf(c).Some? ==> forall r :: r in written ==> NotAhead(written[r], DayOf(c).value))
  {
    match c
    case Create(_, _, _, _) =>
    case Allocate(_, items, _, _) =>
      AllocateShape(c, f);
      DeltaNotAhead(c, f, AmountById(items));
    case Reverse(_, _, _) =>
      ReverseShape(c, f);
      DeltaNotAhead(c, f, map[]);
    case Generate(_, _, _, _, _, _) => GenerateNotAhead(c, f);
    case RefreshRows(_, _) =>
    case PlaceOrder(_, _) =>
    case MoveOrder(_, _, _) =>
  }

  lemma {:induction false} CommitNotAhead(s: Ledger, d: Delta, today: int)
    requires NoneAhead(s, today) && forall r :: r in d.receivables ==> NotAhead(d.receivables[r], today)
    ensures NoneAhead(Commit(s, d), today)
  {
  }

  lemma {:induction false} StepNotAhead(s: Ledger, c: Command, today: int)
    requires NoneAhead(s, today) && (DayOf(c).Some? ==> DayOf(c).value <= today)
    ensures NoneAhead(Apply(s, c).0, today)
  {
    var f := Observe(s, c);
    if Decide(c, s.companies, f).Accept? {
      DecisionNotAhead(c, s.companies, f);
      CommitNotAhead(s, Decide(c, s.companies, f).delta, today);
    }
  }

  /** As long as no day lies after today, no stored status is ahead of today. */
  lemma {:induction false} NeverAhead(s: Ledger, commands: seq<Command>, today: int)
    requires Empty(s) && DaysUpTo(commands, today)
    ensures NoneAhead(Run(s, commands), today)
    decreases |commands|
  {
    if commands != [] {
      var init, c := commands[..|commands| - 1], commands[|commands| - 1];
      NeverAhead(s, init, today);
      StepNotAhead(Run(s, init), c, today);
    }
  }

  /** So when today is the latest day any command has taken, ceil(n / 500) calls make every status right. */
  lemma {:induction false} DailyRefreshConverges(s: Ledger, commands: seq<Command>, today: int, calls: nat)
    requires Empty(s) && AdmissibleRun(s, commands) && DaysUpTo(commands, today)
    requires BATCH * calls >= |LaggingIds(Run(s, commands), today)|
    ensures AllDerived(RefreshTimes(Run(s, commands), today, calls), today)
  {
    RunKeeps(s, commands);
    NeverAhead(s, commands, today);
    Convergence(Run(s, commands), today, calls);
  }

  /** When the day does go backwards (the organization's time zone is editable) a stored OVERDUE stays
      wrong however often the refresh runs. */
  lemma {:induction false} BackwardsDayStaysWrong(s: Ledger, r: Id, today: int, calls: nat)
    requires Invariant(s) && r in s.receivables && s.receivables[r].status == Overdue && s.receivables[r].due >= today
    ensures r in RefreshTimes(s, today, calls).receivables
    ensures RefreshTimes(s, today, calls).receivables[r].status == Overdue
    ensures Derived(RefreshTimes(s, today, calls), r, today) != Overdue
  {
    OverdueUntouched(s, r, today, calls);
    assert StatusAgrees(s.receivables[r], Net(s.rows, r));
  }

  const SMALL_ORDER := Order(Confirmed, 0, 0, 10, 0, None, false)
  const PLACE := PlaceOrder(1, SMALL_ORDER)
  const ISSUE := Generate(1, None, 4, 2, 3, 5)
  const ISSUED_LATE := Receivable(1, Balance, Overdue, 10, 0, 4, None)

  lemma {:induction false} Placed(s: Ledger)
    requires Empty(s)
    ensures Admissible(s, PLACE) && Apply(s, PLACE).0 == s.(orders := map[1 := SMALL_ORDER])
  {
    PlainCommit(s, DecideOrder(PLACE, Observe(s, PLACE)).delta);
  }

  lemma {:induction false} IssuesLate(f: Facts)
    requires f.orders == map[1 := SMALL_ORDER] && f.receivables == map[]
    ensures DecideGenerate(ISSUE, f) == Accept(NoChange.(receivables := map[3 := ISSUED_LATE]), [3])
  {
    assert IssuedDeposit(ISSUE, SMALL_ORDER, None) == map[]
      && IssuedBalance(ISSUE, SMALL_ORDER) == map[3 := ISSUED_LATE];
    assert map[] + map[3 := ISSUED_LATE] == map[3 := ISSUED_LATE];
  }

  lemma {:induction false} IssuedAfterDue(s: Ledger)
    requires s.orders == map[1 := SMALL_ORDER] && s.receivables == map[] && s.rows == []
    ensures Admissible(s, ISSUE) && Apply(s, ISSUE).0 == s.(receivables := map[3 := ISSUED_LATE])
  {
    var f := Observe(s, ISSUE);
    assert f.orders == map[1 := SMALL_ORDER] && f.receivables == map[];
    IssuesLate(f);
    PlainCommit(s, NoChange.(receivables := map[3 := ISSUED_LATE]));
  }

  lemma {:induction false} TwoCommands(s: Ledger, c: Command, d: Command)
    requires Admissible(s, c) && Admissible(Apply(s, c).0, d)
    ensures AdmissibleRun(s, [c, d]) && Run(s, [c, d]) == Apply(Apply(s, c).0, d).0
  {
    assert [c, d][..1] == [c] && [c][..0] == [];
    assert Run(s, [c]) == Apply(s, c).0 && AdmissibleRun(s, [c]);
  }

  lemma {:induction false} LateLedger(s: Ledger)
    requires Empty(s)
    ensures AdmissibleRun(s, [PLACE, ISSUE])
    ensures Run(s, [PLACE, ISSUE]) == s.(orders := map[1 := SMALL_ORDER], receivables := map[3 := ISSUED_LATE])
  {
    Placed(s);
    IssuedAfterDue(Apply(s, PLACE).0);
    TwoCommands(s, PLACE, ISSUE);
  }

  /** Such a ledger is reached from the empty one: an order is placed, and its balance, due on day 4, is
      issued on day 5. Back on day 4 it stays OVERDUE, while it is only due. */
  lemma {:induction false} BackwardsDayHappens(s: Ledger, calls: nat)
    requires Empty(s)
    ensures AdmissibleRun(s, [PLACE, ISSUE])
    ensures var late := RefreshTimes(Run(s, [PLACE, ISSUE]), 4, calls);
      3 in late.receivables && late.receivables[3].status == Overdue && Derived(late, 3, 4) == Due
  {
    LateLedger(s);
    OverdueUntouched(Run(s, [PLACE, ISSUE]), 3, 4, calls);
  }

  lemma {:induction false} OverdueUntouched(s: Ledger, r: Id, today: int, calls: nat)
    requires r in s.receivables && s.receivables[r].status == Overdue
    ensures var s' := RefreshTimes(s, today, calls);
      s'.rows == s.rows && r in s'.receivables && s'.receivables[r] == s.receivables[r]
  {
    var kept := (x: Ledger) => x.rows == s.rows && r in x.receivables && x.receivables[r] == s.receivables[r];
    forall x: Ledger | kept(x) ensures kept(Refresh(x, today)) { RefreshSkips(x, r, today); }
    IterateKeeps(Refreshing(today), s, calls, kept);
  }

  lemma {:induction false} RefreshSkips(s: Ledger, r: Id, today: int)
    requires r in s.receivables && s.receivables[r].status == Overdue
    ensures Refresh(s, today).rows == s.rows
    ensures r in Refresh(s, today).receivables && Refresh(s, today).receivables[r] == s.receivables[r]
  {
  }
}
