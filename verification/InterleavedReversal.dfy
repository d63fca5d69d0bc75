/** A reversal among other transactions: the dictionaries it builds under its locks have an entry for every
    row it mirrors, because receivables keep their order and rows of a locked receipt do not grow. */
module InterleavedReversal {
  import opened Prelude
  import opened Settlement
  import opened CustomerLedger
  import opened LedgerInvariant
  import opened InstallmentPlan
  import opened LedgerConcurrency

  /** The transaction reverses an active receipt that it has locked, and has read its rows. */
  ghost predicate Reversing(tx: Tx) {
    var c, f := tx.command, tx.facts;
    tx.stage >= 1 && c.Reverse? && c.payment in f.payments && f.payments[c.payment].status == Active
  }

  ghost predicate OrderTaken(tx: Tx, o: Id) { o in tx.facts.orders || LedgerConcurrency.Pending(tx, OrderLock(o)) }

  /** Every receivable of the receipt, and its order, is locked or waits in the list of locks to take. */
  ghost predicate Findable(db: Ledger, tx: Tx) {
    Reversing(tx) ==>
      && (tx.stage >= 2 ==> forall r :: r in Targets(tx.facts.own) && r in db.receivables ==>
        OrderTaken(tx, db.receivables[r].order))
      && (tx.stage >= 3 ==> Targets(tx.facts.own) <= tx.receivableIds)
  }

  ghost predicate Linked(db: Ledger) { RowsLinked(db) && PaymentsLinked(db.payments) && Plan(db) }

  lemma {:induction false} ReceivablesLinked(db: Ledger, p: Id)
    requires Linked(db)
    ensures Targets(RowsOf(db.rows, p)) <= db.receivables.Keys
    ensures forall r :: r in db.receivables ==> db.receivables[r].order in db.orders
  {
    forall r | r in db.receivables ensures db.receivables[r].order in db.orders {
      assert Planned(db, r);
    }
  }

  // ---- Kept by every step -----------------------------------------------------------------------

  lemma {:induction false} ReadFindable(db: Ledger, owner: map<Lock, Id>, t: Id, tx: Tx)
    requires Linked(db) && Current(db, owner, t, tx) && Findable(db, tx) && tx.todo == [] && tx.stage < 4
    ensures Findable(db, Read(db, tx))
  {
    if Reversing(tx) {
      ReceivablesLinked(db, tx.command.payment);
      if tx.stage == 1 {
        OrdersFindable(db, tx);
      } else if tx.stage == 2 {
        assert Restrict(db.receivables, Targets(tx.facts.own)).Keys == Targets(tx.facts.own);
        assert forall o :: !LedgerConcurrency.Pending(tx, OrderLock(o));
      }
    }
  }

  lemma {:induction false} OrdersFindable(db: Ledger, tx: Tx)
    requires Reversing(tx) && tx.stage == 1
    ensures Findable(db, ReadOrders(db, tx))
  {
    var tx' := ReadOrders(db, tx);
    OrderLocksAre(tx'.orderIds);
    forall r | r in Targets(tx.facts.own) && r in db.receivables ensures OrderTaken(tx', db.receivables[r].order) {
      assert r in Restrict(db.receivables, Named(tx.command, tx.facts));
      assert db.receivables[r].order in tx'.orderIds;
    }
  }

  lemma {:induction false} AcquireFindable(db: Ledger, owner: map<Lock, Id>, t: Id, tx: Tx)
    requires Linked(db) && Current(db, owner, t, tx) && Findable(db, tx) && tx.todo != []
    ensures var k := tx.todo[0];
      Findable(db, if Exists(db, k) then tx.(todo := tx.todo[1..], facts := Capture(db, tx.facts, k))
        else tx.(todo := tx.todo[1..]))
  {
    var k := tx.todo[0];
    var f := if Exists(db, k) then Capture(db, tx.facts, k) else tx.facts;
    var tx' := tx.(todo := tx.todo[1..], facts := f);
    Popped(tx, f);
    assert Fits(tx.command, tx.stage, k);
    if Reversing(tx') && tx.stage >= 2 {
      forall r | r in Targets(f.own) && r in db.receivables ensures OrderTaken(tx', db.receivables[r].order) {
        assert Planned(db, r) && OrderTaken(tx, db.receivables[r].order);
      }
    }
  }

  /** Another transaction's commit leaves every receivable with its order. */
  lemma {:induction false} CommitFindable(db: Ledger, owner: map<Lock, Id>, t: Id, tx: Tx, f: Facts, d: Delta)
    requires Linked(db) && Current(db, owner, t, tx) && Findable(db, tx) && ReceivableWrites(db, f, d)
    requires forall r :: r in f.receivables ==> r in db.receivables && db.receivables[r] == f.receivables[r]
    ensures Findable(Commit(db, d), tx)
  {
    if Reversing(tx) {
      ReceivablesLinked(db, tx.command.payment);
    }
  }

  ghost predicate AllFindable(s: System) {
    forall t {:trigger Findable(s.db, s.txs[t])} :: t in s.txs ==> Findable(s.db, s.txs[t])
  }

  lemma {:induction false} StepFindable(s: System, e: Event)
    requires Consistent(s) && Linked(s.db) && AllFindable(s)
    ensures AllFindable(Step(s, e))
  {
    var s' := Step(s, e);
    forall x | x in s'.txs ensures Findable(s'.db, s'.txs[x]) {
      if x in s.txs {
        assert Current(s.db, s.owner, x, s.txs[x]) && Findable(s.db, s.txs[x]);
        TxFindable(s, e, x);
      }
    }
  }

  lemma {:induction false} TxFindable(s: System, e: Event, x: Id)
    requires Consistent(s) && Linked(s.db) && x in s.txs && x in Step(s, e).txs
    requires Current(s.db, s.owner, x, s.txs[x]) && Findable(s.db, s.txs[x])
    ensures Findable(Step(s, e).db, Step(s, e).txs[x])
  {
    match e
    case Begin(_, _, _) =>
    case Acquire(t) =>
      if t == x && CanAcquire(s, t) {
        AcquireFindable(s.db, s.owner, t, s.txs[t]);
      }
    case Advance(t) =>
      if t == x && s.txs[t].todo == [] && s.txs[t].stage < 4 {
        ReadFindable(s.db, s.owner, t, s.txs[t]);
      }
    case Finish(t) =>
      if Commits(s, t) {
        assert Current(s.db, s.owner, t, s.txs[t]);
        DecisionWritesOwn(s.db, s.txs[t].command, s.txs[t].facts);
        CommitFindable(
          s.db, s.owner, x, s.txs[x], s.txs[t].facts, Decide(s.txs[t].command, s.db.companies, s.txs[t].facts).delta);
      }
    case Abort(_) =>
  }

  lemma {:induction false} AlwaysFindable(db: Ledger, events: seq<Event>)
    requires Empty(db)
    ensures var s := Interleave(Start(db), events); Serial(db, s) && Linked(s.db) && AllFindable(s)
    decreases |events|
  {
    Serializable(db, events);
    var s := Interleave(Start(db), events);
    RunKeeps(db, s.log);
    RunKeepsPlan(db, s.log);
    if events != [] {
      AlwaysFindable(db, events[..|events| - 1]);
      StepFindable(Interleave(Start(db), events[..|events| - 1]), events[|events| - 1]);
    }
  }

  // ---- What a reversal has read when it decides -------------------------------------------------

  lemma {:induction false} AllTaken(db: Ledger, tx: Tx)
    requires Findable(db, tx) && Reversing(tx) && tx.stage == 4 && tx.todo == []
    ensures forall r :: r in Targets(tx.facts.own) && r in db.receivables ==> db.receivables[r].order in tx.facts.orders
    ensures Targets(tx.facts.own) <= tx.receivableIds
  {
    forall r | r in Targets(tx.facts.own) && r in db.receivables ensures db.receivables[r].order in tx.facts.orders {
      assert OrderTaken(tx, db.receivables[r].order);
    }
  }

  lemma {:induction false} TargetsTaken(db: Ledger, tx: Tx)
    requires IdsCurrent(db, tx) && Reversing(tx) && tx.stage == 4
    requires Targets(tx.facts.own) <= tx.receivableIds
    ensures tx.receivableIds == Targets(tx.facts.own)
    ensures tx.orderIds <= OrderIds(Restrict(db.receivables, Targets(tx.facts.own)))
  {
  }

  lemma {:induction false} OrdersTaken(db: Ledger, owner: map<Lock, Id>, t: Id, tx: Tx)
    requires Ready(db, owner, t, tx) && tx.facts.receivables == Restrict(db.receivables, Targets(tx.facts.own))
    requires tx.orderIds <= OrderIds(tx.facts.receivables)
    requires forall r :: r in Targets(tx.facts.own) && r in db.receivables ==>
      db.receivables[r].order in tx.facts.orders
    ensures tx.facts.orders == Restrict(db.orders, OrderIds(tx.facts.receivables))
  {
    OrderReading(db, owner, t, tx, OrderIds(tx.facts.receivables));
  }

  /** Accepted or refused, a reversal of a receipt it found decides on one reading of the tables. */
  lemma {:induction false} ReversalReads(db: Ledger, owner: map<Lock, Id>, t: Id, tx: Tx)
    requires Linked(db) && Ready(db, owner, t, tx) && Findable(db, tx) && tx.command.Reverse?
      && tx.command.payment in tx.facts.payments
    ensures ReadsReverse(db, tx.command, tx.facts)
  {
    var c, f := tx.command, tx.facts;
    PaymentReading(db, owner, t, tx);
    ReceivableReading(db, owner, t, tx);
    if Reversing(tx) {
      AllTaken(db, tx);
      TargetsTaken(db, tx);
      OrdersTaken(db, owner, t, tx);
    }
  }

  /** However a reversal is interleaved with other transactions, none of its lookups misses, and the
      reversal of a reversed receipt is found. */
  lemma {:induction false} InterleavedLookupsNeverMiss(db: Ledger, events: seq<Event>, t: Id)
    requires Empty(db)
    requires var s := Interleave(Start(db), events); Decided(s, t) && s.txs[t].command.Reverse?
    ensures var tx := Interleave(Start(db), events).txs[t];
      && DecideReverse(tx.command, tx.facts) != Reject(LookupMissed)
      && DecideReverse(tx.command, tx.facts) != Reject(ReversalInconsistent)
  {
    AlwaysFindable(db, events);
    var s := Interleave(Start(db), events);
    var tx := s.txs[t];
    assert Current(s.db, s.owner, t, tx) && Findable(s.db, tx);
    if tx.command.payment in tx.facts.payments {
      ReversalReads(s.db, s.owner, t, tx);
      FactsSuffice(s.db, tx.command, tx.facts);
    }
  }
}
