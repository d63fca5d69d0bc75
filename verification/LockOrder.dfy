/** Locks are taken in one order, so transactions never wait for each other in a circle. */
module LockOrder {
  import opened Prelude
  import opened CustomerLedger
  import opened LedgerConcurrency

  /** The highest lock rank a transaction can hold at a stage. */
  function Top(stage: nat): nat { if stage <= 1 then 1 else stage }

  /** What it holds comes before what it still wants. */
  ghost predicate Sequenced(owner: map<Lock, Id>, t: Id, tx: Tx) {
    && TodoFits(tx)
    && (forall i, j :: 0 <= i < j < |tx.todo| ==> Before(tx.todo[i], tx.todo[j]))
    && (forall k {:trigger Owns(owner, k, t)} :: Owns(owner, k, t) ==>
          k.Rank() <= Top(tx.stage) && forall i :: 0 <= i < |tx.todo| ==> Before(k, tx.todo[i]))
  }

  ghost predicate LockOrdered(s: System) {
    && (forall t {:trigger Sequenced(s.owner, t, s.txs[t])} :: t in s.txs ==> Sequenced(s.owner, t, s.txs[t]))
    && (forall k :: k in s.owner ==> s.owner[k] in s.txs)
  }

  // ---- Kept by every step -----------------------------------------------------------------------

  lemma {:induction false} LocksIncrease(make: Id -> Lock, ids: seq<Id>, rank: nat)
    requires Increasing(ids) && forall x :: make(x).Rank() == rank && make(x).id == x
    ensures forall i, j :: 0 <= i < j < |ids| ==> Before(LocksOf(make, ids)[i], LocksOf(make, ids)[j])
  {
  }

  lemma {:induction false} NextStage(db: Ledger, owner: map<Lock, Id>, t: Id, tx: Tx)
    requires Sequenced(owner, t, tx) && tx.todo == [] && tx.stage < 4
    ensures Sequenced(owner, t, Read(db, tx))
  {
    if tx.stage == 1 {
      var ids := OrdersWanted(db, tx.command, tx.facts);
      OrderLocksAre(ids);
      LocksIncrease((x: Id) => OrderLock(x), Sorted(ids), 2);
      NextLocks(owner, t, tx, ReadOrders(db, tx), 2);
    } else if tx.stage == 2 {
      var ids := ReceivablesWanted(db, tx.command, tx.facts);
      ReceivableLocksAre(ids);
      LocksIncrease((x: Id) => ReceivableLock(x), Sorted(ids), 3);
      NextLocks(owner, t, tx, ReadReceivables(db, tx), 3);
    } else if tx.stage == 3 {
      NextLocks(owner, t, tx, ReadTotals(db, tx), 4);
    } else {
      var none: seq<Lock> := [];
      NextLocks(owner, t, tx, ReadOwn(db, tx), 2);
    }
  }

  lemma {:induction false} NextLocks(owner: map<Lock, Id>, t: Id, tx: Tx, tx': Tx, rank: nat)
    requires Sequenced(owner, t, tx) && tx'.stage == tx.stage + 1 && tx'.stage <= 4 && Top(tx.stage) < rank
    requires forall i :: 0 <= i < |tx'.todo| ==> Fits(tx'.command, tx'.stage, tx'.todo[i]) && tx'.todo[i].Rank() == rank
    requires forall i, j :: 0 <= i < j < |tx'.todo| ==> Before(tx'.todo[i], tx'.todo[j])
    ensures Sequenced(owner, t, tx')
  {
  }

  lemma {:induction false} LockNext(owner: map<Lock, Id>, t: Id, tx: Tx, f: Facts)
    requires Sequenced(owner, t, tx) && tx.todo != [] && tx.todo[0] !in owner
    ensures Sequenced(owner[tx.todo[0] := t], t, tx.(todo := tx.todo[1..], facts := f))
  {
    var tx', owner' := tx.(todo := tx.todo[1..], facts := f), owner[tx.todo[0] := t];
    assert Fits(tx.command, tx.stage, tx.todo[0]);
    forall k | Owns(owner', k, t)
      ensures k.Rank() <= Top(tx.stage) && forall i :: 0 <= i < |tx'.todo| ==> Before(k, tx'.todo[i])
    {
      if k != tx.todo[0] {
        assert Owns(owner, k, t);
      }
    }
  }

  lemma {:induction false} DropNext(owner: map<Lock, Id>, t: Id, tx: Tx)
    requires Sequenced(owner, t, tx) && tx.todo != []
    ensures Sequenced(owner, t, tx.(todo := tx.todo[1..]))
  {
  }

  lemma {:induction false} OthersSequenced(s: System, s': System, t: Id)
    requires LockOrdered(s) && (forall x :: x != t && x in s'.txs ==> x in s.txs && s'.txs[x] == s.txs[x])
    requires forall k, x :: x != t && Owns(s'.owner, k, x) ==> Owns(s.owner, k, x)
    requires t in s'.txs ==> Sequenced(s'.owner, t, s'.txs[t])
    requires forall k :: k in s'.owner ==> s'.owner[k] in s'.txs
    ensures LockOrdered(s')
  {
    forall x | x in s'.txs ensures Sequenced(s'.owner, x, s'.txs[x]) {
      if x != t {
        assert Sequenced(s.owner, x, s.txs[x]);
      }
    }
  }

  lemma {:induction false} StepOrdered(s: System, e: Event)
    requires LockOrdered(s)
    ensures LockOrdered(Step(s, e))
  {
    var s', t := Step(s, e), e.tx;
    if t in s.txs {
      assert Sequenced(s.owner, t, s.txs[t]);
    }
    match e
    case Begin(_, c, key) =>
      if s' != s {
        FirstLocksFit(c, key);
        assert forall k :: !Owns(s.owner, k, t);
        OthersSequenced(s, s', t);
      }
    case Acquire(_) =>
      if CanAcquire(s, t) {
        if Exists(s.db, s.txs[t].todo[0]) {
          LockNext(s.owner, t, s.txs[t], Capture(s.db, s.txs[t].facts, s.txs[t].todo[0]));
        } else {
          DropNext(s.owner, t, s.txs[t]);
        }
        OthersSequenced(s, s', t);
      }
    case Advance(_) =>
      if t in s.txs && s.txs[t].todo == [] && s.txs[t].stage < 4 {
        NextStage(s.db, s.owner, t, s.txs[t]);
        OthersSequenced(s, s', t);
      }
    case Finish(_) =>
      if Commits(s, t) {
        OthersSequenced(s, s', t);
      }
    case Abort(_) => OthersSequenced(s, s', t);
  }

  lemma {:induction false} AlwaysOrdered(db: Ledger, events: seq<Event>)
    ensures LockOrdered(Interleave(Start(db), events))
    decreases |events|
  {
    if events == [] {
      assert LockOrdered(Start(db));
    } else {
      AlwaysOrdered(db, events[..|events| - 1]);
      StepOrdered(Interleave(Start(db), events[..|events| - 1]), events[|events| - 1]);
    }
  }

  // ---- No wait cycle ----------------------------------------------------------------------------

  /** `t` waits for a lock that `u` holds. */
  ghost predicate WaitsFor(s: System, t: Id, u: Id) {
    && t in s.txs && s.txs[t].todo != [] && Exists(s.db, s.txs[t].todo[0])
    && Owns(s.owner, s.txs[t].todo[0], u)
  }

  ghost predicate WaitChain(s: System, q: seq<Id>) {
    forall i :: 0 <= i < |q| - 1 ==> WaitsFor(s, q[i], q[i + 1])
  }

  /** Along a chain of waiting transactions the wanted locks increase. */
  lemma {:induction false} WantedIncreases(s: System, q: seq<Id>)
    requires LockOrdered(s) && WaitChain(s, q) && |q| >= 2
    requires q[|q| - 1] in s.txs && s.txs[q[|q| - 1]].todo != []
    ensures q[0] in s.txs && s.txs[q[0]].todo != []
    ensures Before(s.txs[q[0]].todo[0], s.txs[q[|q| - 1]].todo[0])
    decreases |q|
  {
    var n := |q|;
    assert WaitsFor(s, q[n - 2], q[n - 1]);
    assert Sequenced(s.owner, q[n - 1], s.txs[q[n - 1]]);
    assert Before(s.txs[q[n - 2]].todo[0], s.txs[q[n - 1]].todo[0]);
    if n > 2 {
      WantedIncreases(s, q[..n - 1]);
    }
  }

  /** No set of transactions waits in a circle, in any interleaving. */
  lemma {:induction false} NoWaitCycle(db: Ledger, events: seq<Event>, q: seq<Id>)
    requires |q| >= 2 && q[0] == q[|q| - 1]
    ensures !WaitChain(Interleave(Start(db), events), q)
  {
    var s := Interleave(Start(db), events);
    AlwaysOrdered(db, events);
    if WaitChain(s, q) {
      assert WaitsFor(s, q[0], q[1]);
      WantedIncreases(s, q);
    }
  }

  ghost function HeldAfter(s: System, k: Lock): set<Lock> { set x | x in s.owner && Before(k, x) }

  predicate Unblocked(s: System, t: Id) { t in s.txs && (s.txs[t].todo == [] || CanAcquire(s, t)) }

  /** Follow the waiting: it ends at a transaction that can take its next step. */
  lemma {:induction false} SomeoneMoves(s: System, t: Id) returns (u: Id)
    requires LockOrdered(s) && t in s.txs
    ensures Unblocked(s, u)
    decreases if s.txs[t].todo == [] then 0 else 1 + |HeldAfter(s, s.txs[t].todo[0])|
  {
    if Unblocked(s, t) {
      return t;
    }
    var k := s.txs[t].todo[0];
    var holder := s.owner[k];
    assert Owns(s.owner, k, holder) && Sequenced(s.owner, holder, s.txs[holder]);
    if s.txs[holder].todo == [] {
      return holder;
    }
    var wanted := s.txs[holder].todo[0];
    assert Before(k, wanted);
    assert HeldAfter(s, wanted) <= HeldAfter(s, k);
    if Unblocked(s, holder) {
      return holder;
    }
    assert wanted in HeldAfter(s, k) && wanted !in HeldAfter(s, wanted);
    Smaller(HeldAfter(s, wanted), HeldAfter(s, k), wanted);
    u := SomeoneMoves(s, holder);
  }

  lemma {:induction false} Smaller<T>(a: set<T>, b: set<T>, x: T)
    requires a <= b && x in b && x !in a
    ensures |a| < |b|
  {
    assert a <= b - {x};
    assert |b - {x}| == |b| - 1;
    Included(a, b - {x});
  }

  lemma {:induction false} Included<T>(a: set<T>, b: set<T>)
    requires a <= b
    ensures |a| <= |b|
  {
    assert b == a + (b - a);
  }
}
