/** Interleaved transactions on the customer ledger. Every statement is atomic, a row lock is held until
    its transaction ends, and a command decides on what it has read since it took its locks. */
module LedgerConcurrency {
  import opened Prelude
  import opened Settlement
  import opened CustomerLedger
  import opened LedgerInvariant
  import opened RefreshConvergence

  /** The advisory lock of a command key, row locks, and the row lock of a document number sequence. */
  datatype Lock =
    | CommandLock(id: nat)
    | PaymentLock(id: Id)
    | OrderLock(id: Id)
    | ReceivableLock(id: Id)
    | SequenceLock(id: nat)
  {
    function Rank(): nat {
      match this
      case CommandLock(_) => 0
      case PaymentLock(_) => 1
      case OrderLock(_) => 2
      case ReceivableLock(_) => 3
      case SequenceLock(_) => 4
    }
  }

  predicate Before(a: Lock, b: Lock) { a.Rank() < b.Rank() || (a.Rank() == b.Rank() && a.id < b.id) }

  /** `todo` are the locks of the current stage still to be taken. Stage 0 locks the payment; 1 has read
      its rows; 2 locks the orders `orderIds`; 3 locks the receivables `receivableIds`; 4 has read the
      totals and locks the sequence. */
  datatype Tx = Tx(
    command: Command, stage: nat, todo: seq<Lock>, orderIds: set<Id>, receivableIds: set<Id>, facts: Facts)

  datatype System = System(db: Ledger, txs: map<Id, Tx>, owner: map<Lock, Id>, log: seq<Command>)

  datatype Event =
    | Begin(tx: Id, command: Command, key: Option<nat>)
    | Acquire(tx: Id)
    | Advance(tx: Id)
    | Finish(tx: Id)
    | Abort(tx: Id)

  const NOTHING_READ := Facts(map[], [], None, map[], [], map[], map[])

  // ---- What a transaction reads -----------------------------------------------------------------

  function LocksOf(make: Id -> Lock, ids: seq<Id>): (locks: seq<Lock>)
    ensures |locks| == |ids| && forall i :: 0 <= i < |ids| ==> locks[i] == make(ids[i])
  {
    seq(|ids|, i requires 0 <= i < |ids| => make(ids[i]))
  }

  function OrderLocks(ids: set<Id>): seq<Lock> { LocksOf((x: Id) => OrderLock(x), Sorted(ids)) }

  function ReceivableLocks(ids: set<Id>): seq<Lock> { LocksOf((x: Id) => ReceivableLock(x), Sorted(ids)) }

  function FirstLocks(c: Command, key: Option<nat>): seq<Lock> {
    (if key.Some? then [CommandLock(key.value)] else []) +
    (if c.Allocate? || c.Reverse? then [PaymentLock(c.payment)] else [])
  }

  /** next_document_number: payments, reversals and receivables have their own sequences. */
  function LastLocks(c: Command): seq<Lock> {
    match c
    case Create(_, _, _, _) => [SequenceLock(0)]
    case Reverse(_, _, _) => [SequenceLock(1)]
    case Generate(_, _, _, _, _, _) => [SequenceLock(2)]
    case _ => []
  }

  /** The receivable ids a command names, or finds in the rows it has read. */
  function Named(c: Command, f: Facts): set<Id> {
    match c
    case Allocate(_, items, _, _) => AmountById(items).Keys
    case Reverse(p, _, _) => if p in f.payments && f.payments[p].status == Active then Targets(f.own) else {}
    case RefreshRows(picked, _) => picked
    case _ => {}
  }

  function OrdersWanted(db: Ledger, c: Command, f: Facts): set<Id> {
    match c
    case Allocate(_, _, _, _) => OrderIds(Restrict(db.receivables, Named(c, f)))
    case Reverse(_, _, _) => OrderIds(Restrict(db.receivables, Named(c, f)))
    case Generate(o, _, _, _, _, _) => {o}
    case MoveOrder(o, _, _) => {o}
    case _ => {}
  }

  function ReceivablesWanted(db: Ledger, c: Command, f: Facts): set<Id> {
    if c.Generate? then set r | r in db.receivables && db.receivables[r].order == c.order
    else Restrict(db.receivables, Named(c, f)).Keys
  }

  function ReadOwn(db: Ledger, tx: Tx): Tx {
    var c := tx.command;
    tx.(
      stage := 1,
      facts := tx.facts.(
        own := if c.Allocate? || c.Reverse? then RowsOf(db.rows, c.payment) else [],
        reversal := if c.Reverse? then ReversalOf(db.payments, c.payment) else None))
  }

  function ReadOrders(db: Ledger, tx: Tx): Tx {
    var ids := OrdersWanted(db, tx.command, tx.facts);
    tx.(stage := 2, orderIds := ids, todo := OrderLocks(ids))
  }

  function ReadReceivables(db: Ledger, tx: Tx): Tx {
    var ids := ReceivablesWanted(db, tx.command, tx.facts);
    tx.(stage := 3, receivableIds := ids, todo := ReceivableLocks(ids))
  }

  function ReadTotals(db: Ledger, tx: Tx): Tx {
    var ids := tx.facts.receivables.Keys;
    tx.(stage := 4, todo := LastLocks(tx.command),
      facts := tx.facts.(locked := Sorted(ids), totals := NetTotals(db.rows, ids)))
  }

  /** The statement between two groups of locks. */
  function Read(db: Ledger, tx: Tx): Tx {
    if tx.stage == 0 then ReadOwn(db, tx)
    else if tx.stage == 1 then ReadOrders(db, tx)
    else if tx.stage == 2 then ReadReceivables(db, tx)
    else ReadTotals(db, tx)
  }

  /** A row lock is taken only on a row that exists; the row is read under it. */
  predicate Exists(db: Ledger, k: Lock) {
    match k
    case PaymentLock(p) => p in db.payments
    case OrderLock(o) => o in db.orders
    case ReceivableLock(r) => r in db.receivables
    case _ => true
  }

  function Capture(db: Ledger, f: Facts, k: Lock): Facts
    requires Exists(db, k)
  {
    match k
    case PaymentLock(p) => f.(payments := f.payments[p := db.payments[p]])
    case OrderLock(o) => f.(orders := f.orders[o := db.orders[o]])
    case ReceivableLock(r) => f.(receivables := f.receivables[r := db.receivables[r]])
    case _ => f
  }

  // ---- Steps ------------------------------------------------------------------------------------

  /** refresh_statuses picks at most 500 lagging rows. */
  predicate PicksLagging(db: Ledger, c: Command) {
    c.RefreshRows? ==> c.picked <= LaggingIds(db, c.today) && |c.picked| <= BATCH
  }

  predicate Running(s: System, t: Id) { t in s.txs }

  predicate Decided(s: System, t: Id) {
    Running(s, t) && s.txs[t].stage == 4 && s.txs[t].todo == []
  }

  predicate CanAcquire(s: System, t: Id) {
    Running(s, t) && s.txs[t].todo != [] && (Exists(s.db, s.txs[t].todo[0]) ==> s.txs[t].todo[0] !in s.owner)
  }

  function Released(owner: map<Lock, Id>, t: Id): map<Lock, Id> {
    map k | k in owner && owner[k] != t :: owner[k]
  }

  function Ended(s: System, t: Id): System { s.(txs := s.txs - {t}, owner := Released(s.owner, t)) }

  function Acquired(s: System, t: Id): System
    requires CanAcquire(s, t)
  {
    var tx := s.txs[t];
    var k := tx.todo[0];
    if Exists(s.db, k) then
      s.(txs := s.txs[t := tx.(todo := tx.todo[1..], facts := Capture(s.db, tx.facts, k))], owner := s.owner[k := t])
    else
      s.(txs := s.txs[t := tx.(todo := tx.todo[1..])])
  }

  /** Whether the command of a transaction that has read everything goes through. */
  ghost predicate Commits(s: System, t: Id) {
    && Decided(s, t)
    && s.txs[t].facts.Ordered()
    && Admissible(s.db, s.txs[t].command)
    && Decide(s.txs[t].command, s.db.companies, s.txs[t].facts).Accept?
  }

  ghost function Finished(s: System, t: Id): System
    requires Commits(s, t)
  {
    var tx := s.txs[t];
    Ended(s, t).(db := Commit(s.db, Decide(tx.command, s.db.companies, tx.facts).delta), log := s.log + [tx.command])
  }

  /** An event that is not enabled leaves the system as it is: the transaction waits. */
  ghost function Step(s: System, e: Event): System {
    match e
    case Begin(t, c, key) =>
      if t in s.txs || !PicksLagging(s.db, c) then s
      else s.(txs := s.txs[t := Tx(c, 0, FirstLocks(c, key), {}, {}, NOTHING_READ)])
    case Acquire(t) => if CanAcquire(s, t) then Acquired(s, t) else s
    case Advance(t) =>
      if t in s.txs && s.txs[t].todo == [] && s.txs[t].stage < 4 then s.(txs := s.txs[t := Read(s.db, s.txs[t])]) else s
    case Finish(t) => if Commits(s, t) then Finished(s, t) else s
    case Abort(t) => if t in s.txs then Ended(s, t) else s
  }

  ghost function Interleave(s: System, events: seq<Event>): System {
    if events == [] then s else Step(Interleave(s, events[..|events| - 1]), events[|events| - 1])
  }

  function Start(db: Ledger): System { System(db, map[], map[], []) }

  // ---- What a transaction knows is still true ---------------------------------------------------

  ghost predicate Owns(owner: map<Lock, Id>, k: Lock, t: Id) { k in owner && owner[k] == t }

  /** Every row read under lock is still locked and still the same. */
  ghost predicate PaymentsCurrent(db: Ledger, owner: map<Lock, Id>, t: Id, f: Facts) {
    forall p :: p in f.payments ==>
      Owns(owner, PaymentLock(p), t) && p in db.payments && db.payments[p] == f.payments[p]
  }

  ghost predicate OrdersCurrent(db: Ledger, owner: map<Lock, Id>, t: Id, f: Facts) {
    forall o :: o in f.orders ==> Owns(owner, OrderLock(o), t) && o in db.orders && db.orders[o] == f.orders[o]
  }

  ghost predicate ReceivablesCurrent(db: Ledger, owner: map<Lock, Id>, t: Id, f: Facts) {
    forall r :: r in f.receivables ==>
      Owns(owner, ReceivableLock(r), t) && r in db.receivables && db.receivables[r] == f.receivables[r]
  }

  /** The rows of a locked payment have not grown, nor has it been reversed. */
  ghost predicate OwnCurrent(db: Ledger, tx: Tx) {
    var c, f := tx.command, tx.facts;
    && f.payments.Keys <= PaymentsOf(c)
    && (tx.stage == 0 ==> f.own == [] && f.reversal == None)
    && (!(c.Allocate? || c.Reverse?) ==> f.own == [])
    && (!c.Reverse? ==> f.reversal == None)
    && (tx.stage >= 1 && f.payments != map[] ==>
          && (c.Allocate? || c.Reverse? ==> f.own == RowsOf(db.rows, c.payment))
          && (c.Reverse? ==> f.reversal == ReversalOf(db.payments, c.payment)))
  }

  /** The totals of locked receivables have not moved. */
  ghost predicate TotalsCurrent(db: Ledger, tx: Tx) {
    && (tx.stage < 4 ==> tx.facts.totals == map[])
    && (tx.stage == 4 ==>
          tx.facts.locked == Sorted(tx.facts.receivables.Keys)
            && tx.facts.totals == NetTotals(db.rows, tx.facts.receivables.Keys))
  }

  ghost predicate Pending(tx: Tx, k: Lock) { k in tx.todo }

  /** Locked rows and locks to take make up what the statements returned; a missing order is dropped. */
  ghost predicate InScope(tx: Tx) {
    && (tx.stage < 2 ==> tx.orderIds == {})
    && (tx.stage < 3 ==> tx.receivableIds == {})
    && tx.facts.orders.Keys <= tx.orderIds && tx.facts.receivables.Keys <= tx.receivableIds
    && (forall o {:trigger Pending(tx, OrderLock(o))} :: Pending(tx, OrderLock(o)) ==> o in tx.orderIds)
    && (forall r {:trigger Pending(tx, ReceivableLock(r))} {:trigger r in tx.receivableIds} ::
          (Pending(tx, ReceivableLock(r)) ==> r in tx.receivableIds) &&
          (r in tx.receivableIds ==> r in tx.facts.receivables || Pending(tx, ReceivableLock(r))))
  }

  /** What the statements returned is still so. Under its order's lock, the receivables of an order are
      all known: there are no phantoms. */
  ghost predicate IdsCurrent(db: Ledger, tx: Tx) {
    && tx.receivableIds <= db.receivables.Keys
    && (tx.command.RefreshRows? ==> tx.command.picked <= db.receivables.Keys)
    && (tx.stage >= 2 ==> tx.orderIds <= OrdersWanted(db, tx.command, tx.facts))
    && (tx.stage >= 3 ==> ReceivablesStill(db, tx))
  }

  ghost predicate ReceivablesStill(db: Ledger, tx: Tx) {
    var wanted := ReceivablesWanted(db, tx.command, tx.facts);
    if tx.command.Generate? then tx.facts.orders != map[] ==> tx.receivableIds == wanted
    else if tx.command.RefreshRows? then tx.receivableIds == wanted
    else tx.receivableIds <= wanted
  }

  predicate Fits(c: Command, stage: nat, k: Lock) {
    match k
    case CommandLock(_) => stage == 0
    case PaymentLock(p) => stage == 0 && p in PaymentsOf(c)
    case OrderLock(_) => stage == 2
    case ReceivableLock(_) => stage == 3
    case SequenceLock(_) => stage == 4
  }

  ghost predicate TodoFits(tx: Tx) {
    tx.stage <= 4 && forall i :: 0 <= i < |tx.todo| ==> Fits(tx.command, tx.stage, tx.todo[i])
  }

  ghost predicate Current(db: Ledger, owner: map<Lock, Id>, t: Id, tx: Tx) {
    && TodoFits(tx)
    && RowsCurrent(db, owner, t, tx.facts)
    && OwnCurrent(db, tx)
    && TotalsCurrent(db, tx)
    && InScope(tx)
    && IdsCurrent(db, tx)
  }

  ghost predicate RowsCurrent(db: Ledger, owner: map<Lock, Id>, t: Id, f: Facts) {
    PaymentsCurrent(db, owner, t, f) && OrdersCurrent(db, owner, t, f) && ReceivablesCurrent(db, owner, t, f)
  }

  ghost predicate AllCurrent(s: System) {
    forall t {:trigger Current(s.db, s.owner, t, s.txs[t])} :: t in s.txs ==> Current(s.db, s.owner, t, s.txs[t])
  }

  // ---- Steps that leave the tables alone --------------------------------------------------------

  lemma {:induction false} OtherKept(db: Ledger, owner: map<Lock, Id>, owner': map<Lock, Id>, x: Id, tx: Tx)
    requires Current(db, owner, x, tx)
    requires forall k :: Owns(owner, k, x) ==> Owns(owner', k, x)
    ensures Current(db, owner', x, tx)
  {
  }

  lemma {:induction false} FirstLocksFit(c: Command, key: Option<nat>)
    ensures forall i :: 0 <= i < |FirstLocks(c, key)| ==> Fits(c, 0, FirstLocks(c, key)[i])
  {
  }

  lemma {:induction false} OrderLocksAre(ids: set<Id>)
    ensures forall i :: 0 <= i < |OrderLocks(ids)| ==> OrderLocks(ids)[i].OrderLock? && OrderLocks(ids)[i].id in ids
    ensures forall x :: x in ids ==> OrderLock(x) in OrderLocks(ids)
  {
  }

  lemma {:induction false} ReceivableLocksAre(ids: set<Id>)
    ensures forall i :: 0 <= i < |ReceivableLocks(ids)| ==>
      ReceivableLocks(ids)[i].ReceivableLock? && ReceivableLocks(ids)[i].id in ids
    ensures forall x :: x in ids ==> ReceivableLock(x) in ReceivableLocks(ids)
  {
  }

  lemma {:induction false} OwnRead(db: Ledger, owner: map<Lock, Id>, t: Id, tx: Tx)
    requires Current(db, owner, t, tx) && tx.todo == [] && tx.stage == 0
    ensures Current(db, owner, t, ReadOwn(db, tx))
  {
  }

  lemma {:induction false} OrdersRead(db: Ledger, owner: map<Lock, Id>, t: Id, tx: Tx)
    requires Current(db, owner, t, tx) && tx.todo == [] && tx.stage == 1
    ensures Current(db, owner, t, ReadOrders(db, tx))
  {
  }

  lemma {:induction false} ReceivablesInScope(tx: Tx, ids: set<Id>)
    requires InScope(tx) && tx.todo == [] && tx.stage == 2
    ensures InScope(tx.(stage := 3, receivableIds := ids, todo := ReceivableLocks(ids)))
    ensures TodoFits(tx.(stage := 3, receivableIds := ids, todo := ReceivableLocks(ids)))
  {
  }

  lemma {:induction false} ReceivablesRead(db: Ledger, owner: map<Lock, Id>, t: Id, tx: Tx)
    requires Current(db, owner, t, tx) && tx.todo == [] && tx.stage == 2
    ensures Current(db, owner, t, ReadReceivables(db, tx))
  {
    ReceivablesInScope(tx, ReceivablesWanted(db, tx.command, tx.facts));
  }

  /** What a transaction wants depends only on its payment and that payment's rows. */
  lemma {:induction false} SameWanted(db: Ledger, c: Command, f: Facts, g: Facts)
    requires f.own == g.own && f.payments == g.payments
    ensures OrdersWanted(db, c, f) == OrdersWanted(db, c, g)
    ensures ReceivablesWanted(db, c, f) == ReceivablesWanted(db, c, g)
  {
  }

  lemma {:induction false} TotalsInScope(tx: Tx, f: Facts)
    requires InScope(tx) && tx.todo == [] && tx.stage == 3 && f.orders == tx.facts.orders
      && f.receivables == tx.facts.receivables
    ensures InScope(tx.(stage := 4, todo := LastLocks(tx.command), facts := f))
    ensures TodoFits(tx.(stage := 4, todo := LastLocks(tx.command), facts := f))
  {
  }

  lemma {:induction false} TotalsRead(db: Ledger, owner: map<Lock, Id>, t: Id, tx: Tx)
    requires Current(db, owner, t, tx) && tx.todo == [] && tx.stage == 3
    ensures Current(db, owner, t, ReadTotals(db, tx))
  {
    var tx' := ReadTotals(db, tx);
    SameWanted(db, tx.command, tx.facts, tx'.facts);
    TotalsInScope(tx, tx'.facts);
  }

  lemma {:induction false} AdvanceCurrent(db: Ledger, owner: map<Lock, Id>, t: Id, tx: Tx)
    requires Current(db, owner, t, tx) && tx.todo == [] && tx.stage < 4
    ensures Current(db, owner, t, Read(db, tx))
  {
    if tx.stage == 0 {
      OwnRead(db, owner, t, tx);
    } else if tx.stage == 1 {
      OrdersRead(db, owner, t, tx);
    } else if tx.stage == 2 {
      ReceivablesRead(db, owner, t, tx);
    } else {
      TotalsRead(db, owner, t, tx);
    }
  }

  // ---- Taking a lock ----------------------------------------------------------------------------

  lemma {:induction false} Popped(tx: Tx, f: Facts)
    requires tx.todo != [] && TodoFits(tx)
    ensures var tx' := tx.(todo := tx.todo[1..], facts := f);
      && TodoFits(tx')
      && (forall k {:trigger Pending(tx', k)} :: Pending(tx', k) ==> Pending(tx, k))
      && (forall k {:trigger Pending(tx, k)} :: Pending(tx, k) ==> k == tx.todo[0] || Pending(tx', k))
  {
  }

  lemma {:induction false} MissingDropped(db: Ledger, owner: map<Lock, Id>, t: Id, tx: Tx)
    requires Current(db, owner, t, tx) && tx.todo != [] && !Exists(db, tx.todo[0])
    ensures Current(db, owner, t, tx.(todo := tx.todo[1..]))
  {
    Popped(tx, tx.facts);
    assert Pending(tx, tx.todo[0]);
  }

  lemma {:induction false} RowCaptured(db: Ledger, owner: map<Lock, Id>, t: Id, f: Facts, k: Lock)
    requires RowsCurrent(db, owner, t, f) && Exists(db, k) && k !in owner
    ensures RowsCurrent(db, owner[k := t], t, Capture(db, f, k))
  {
  }

  lemma {:induction false} CapturedInScope(db: Ledger, tx: Tx)
    requires TodoFits(tx) && InScope(tx) && tx.todo != [] && Exists(db, tx.todo[0])
    ensures InScope(tx.(todo := tx.todo[1..], facts := Capture(db, tx.facts, tx.todo[0])))
  {
    Popped(tx, Capture(db, tx.facts, tx.todo[0]));
    assert Pending(tx, tx.todo[0]);
    assert Fits(tx.command, tx.stage, tx.todo[0]);
  }

  lemma {:induction false} CapturedOwn(db: Ledger, tx: Tx)
    requires TodoFits(tx) && OwnCurrent(db, tx) && TotalsCurrent(db, tx) && tx.todo != [] && Exists(db, tx.todo[0])
    ensures OwnCurrent(db, tx.(todo := tx.todo[1..], facts := Capture(db, tx.facts, tx.todo[0])))
    ensures TotalsCurrent(db, tx.(todo := tx.todo[1..], facts := Capture(db, tx.facts, tx.todo[0])))
  {
  }

  lemma {:induction false} CapturedIds(db: Ledger, tx: Tx)
    requires TodoFits(tx) && InScope(tx) && IdsCurrent(db, tx) && tx.todo != [] && Exists(db, tx.todo[0])
    ensures IdsCurrent(db, tx.(todo := tx.todo[1..], facts := Capture(db, tx.facts, tx.todo[0])))
  {
  }

  lemma {:induction false} LockTaken(db: Ledger, owner: map<Lock, Id>, t: Id, tx: Tx)
    requires Current(db, owner, t, tx) && tx.todo != [] && Exists(db, tx.todo[0]) && tx.todo[0] !in owner
    ensures Current(db, owner[tx.todo[0] := t], t,
      tx.(todo := tx.todo[1..], facts := Capture(db, tx.facts, tx.todo[0])))
  {
    Popped(tx, Capture(db, tx.facts, tx.todo[0]));
    RowCaptured(db, owner, t, tx.facts, tx.todo[0]);
    CapturedInScope(db, tx);
    CapturedOwn(db, tx);
    CapturedIds(db, tx);
  }

  // ---- A commit writes only what its transaction has locked, or inserts -------------------------

  ghost predicate PaymentWrites(db: Ledger, f: Facts, d: Delta) {
    forall p :: p in d.payments ==>
      if p in f.payments then d.payments[p].reversalOf == f.payments[p].reversalOf
      else p !in db.payments && (d.payments[p].reversalOf.Some? ==> d.payments[p].reversalOf.value in f.payments)
  }

  ghost predicate OrderWrites(db: Ledger, f: Facts, d: Delta) {
    forall o :: o in d.orders ==> o in f.orders || o !in db.orders
  }

  ghost predicate ReceivableWrites(db: Ledger, f: Facts, d: Delta) {
    forall r :: r in d.receivables ==>
      if r in f.receivables then d.receivables[r].order == f.receivables[r].order
      else r !in db.receivables && d.receivables[r].order in f.orders
  }

  ghost predicate RowWrites(db: Ledger, f: Facts, d: Delta) {
    forall row :: row in d.rows ==>
      (row.payment in f.payments || row.payment !in db.payments) && row.target in f.receivables
  }

  ghost predicate WritesOwn(db: Ledger, f: Facts, d: Delta) {
    PaymentWrites(db, f, d) && OrderWrites(db, f, d) && ReceivableWrites(db, f, d) && RowWrites(db, f, d)
  }

  lemma {:induction false} AllocateDeltaOwn(db: Ledger, c: Command, f: Facts, amounts: map<Id, int>)
    requires c.Allocate? && f.Ordered() && f.receivables.Keys == amounts.Keys && c.payment in f.payments
    ensures WritesOwn(db, f, AllocateDelta(c, f, amounts))
  {
  }

  lemma {:induction false} AllocateWritesOwn(db: Ledger, c: Command, f: Facts)
    requires c.Allocate? && f.Ordered() && DecideAllocate(c, f).Accept?
    ensures WritesOwn(db, f, DecideAllocate(c, f).delta)
  {
    AllocateShape(c, f);
    AllocateDeltaOwn(db, c, f, AmountById(c.items));
  }

  lemma {:induction false} ReverseWritesOwn(db: Ledger, c: Command, f: Facts)
    requires c.Reverse? && c.reversal !in db.payments && (forall p :: p in f.payments ==> p in db.payments)
      && DecideReverse(c, f).Accept?
    ensures WritesOwn(db, f, DecideReverse(c, f).delta)
  {
  }

  lemma {:induction false} GenerateWritesOwn(db: Ledger, c: Command, f: Facts)
    requires c.Generate? && c.depositId !in db.receivables && c.balanceId !in db.receivables
      && DecideGenerate(c, f).Accept?
    requires forall r :: r in f.receivables ==> r in db.receivables
    ensures WritesOwn(db, f, DecideGenerate(c, f).delta)
  {
  }

  lemma {:induction false} DecisionWritesOwn(db: Ledger, c: Command, f: Facts)
    requires Admissible(db, c) && f.Ordered() && Decide(c, db.companies, f).Accept?
    requires (forall p :: p in f.payments ==> p in db.payments)
      && (forall r :: r in f.receivables ==> r in db.receivables)
    ensures WritesOwn(db, f, Decide(c, db.companies, f).delta)
  {
    match c
    case Create(_, _, _, _) =>
    case Allocate(_, _, _, _) => AllocateWritesOwn(db, c, f);
    case Reverse(_, _, _) => ReverseWritesOwn(db, c, f);
    case Generate(_, _, _, _, _, _) => GenerateWritesOwn(db, c, f);
    case RefreshRows(_, _) =>
    case PlaceOrder(_, _) =>
    case MoveOrder(_, _, _) =>
  }

  // ---- What other transactions know survives a commit -------------------------------------------

  ghost predicate Apart(f: Facts, g: Facts) {
    f.payments.Keys !! g.payments.Keys && f.orders.Keys !! g.orders.Keys && f.receivables.Keys !! g.receivables.Keys
  }

  lemma {:induction false} LocksKeepApart(db: Ledger, owner: map<Lock, Id>, t: Id, u: Id, f: Facts, g: Facts)
    requires t != u && RowsCurrent(db, owner, t, f) && RowsCurrent(db, owner, u, g)
    ensures Apart(f, g)
  {
  }

  lemma {:induction false} RowsSurvive(db: Ledger, owner: map<Lock, Id>, x: Id, g: Facts, f: Facts, d: Delta)
    requires RowsCurrent(db, owner, x, g) && Apart(f, g) && WritesOwn(db, f, d)
    ensures RowsCurrent(Commit(db, d), owner, x, g)
  {
  }

  lemma {:induction false} RowsOfOthers(rows: seq<Row>, added: seq<Row>, p: Id)
    requires forall row :: row in added ==> row.payment != p
    ensures RowsOf(rows + added, p) == RowsOf(rows, p)
  {
    if added == [] {
      assert rows + added == rows;
    } else {
      assert (rows + added)[..|rows + added| - 1] == rows + added[..|added| - 1];
      assert added[|added| - 1] in added;
      RowsOfOthers(rows, added[..|added| - 1], p);
    }
  }

  lemma {:induction false} StampedRow(base: nat, drafts: seq<Row>, row: Row)
    requires row in Stamp(base, drafts)
    ensures exists draft :: draft in drafts && draft.payment == row.payment && draft.target == row.target
  {
  }

  lemma {:induction false} OwnRowsSurvive(db: Ledger, f: Facts, d: Delta, p: Id)
    requires WritesOwn(db, f, d) && p in db.payments && p !in f.payments
    ensures RowsOf(Commit(db, d).rows, p) == RowsOf(db.rows, p)
  {
    forall row | row in Stamp(|db.rows|, d.rows) ensures row.payment != p {
      StampedRow(|db.rows|, d.rows, row);
    }
    RowsOfOthers(db.rows, Stamp(|db.rows|, d.rows), p);
  }

  lemma {:induction false} ReversalOfSame(payments: map<Id, Payment>, after: map<Id, Payment>, p: Id)
    requires forall q :: (q in payments && payments[q].reversalOf == Some(p)) <==>
      (q in after && after[q].reversalOf == Some(p))
    ensures ReversalOf(after, p) == ReversalOf(payments, p)
  {
    assert ReversalsOf(payments, p) == ReversalsOf(after, p);
  }

  lemma {:induction false} ReversalSurvives(db: Ledger, f: Facts, d: Delta, p: Id)
    requires PaymentWrites(db, f, d) && p !in f.payments
    requires forall q :: q in f.payments ==> q in db.payments && db.payments[q] == f.payments[q]
    ensures ReversalOf(Commit(db, d).payments, p) == ReversalOf(db.payments, p)
  {
    ReversalOfSame(db.payments, Commit(db, d).payments, p);
  }

  lemma {:induction false} TotalsSurvive(db: Ledger, f: Facts, d: Delta, ids: set<Id>)
    requires RowWrites(db, f, d) && ids !! f.receivables.Keys
    ensures NetTotals(Commit(db, d).rows, ids) == NetTotals(db.rows, ids)
  {
    var added := Stamp(|db.rows|, d.rows);
    forall row | row in added ensures row.target !in ids {
      StampedRow(|db.rows|, d.rows, row);
    }
    forall r | r in ids ensures Net(db.rows + added, r) == Net(db.rows, r) {
      TotalConcat(db.rows, added, Signed(r));
      NoRowsNoNet(added, r);
    }
    forall r | r in ids
      ensures (exists row :: row in db.rows + added && row.target == r) <==>
        (exists row :: row in db.rows && row.target == r)
    {
      if exists row :: row in db.rows && row.target == r {
        var row :| row in db.rows && row.target == r;
        assert row in db.rows + added;
      }
    }
  }

  lemma {:induction false} OwnSurvives(db: Ledger, tx: Tx, f: Facts, d: Delta)
    requires OwnCurrent(db, tx) && WritesOwn(db, f, d) && Apart(f, tx.facts)
    requires forall p :: p in tx.facts.payments ==> p in db.payments
    requires forall q :: q in f.payments ==> q in db.payments && db.payments[q] == f.payments[q]
    ensures OwnCurrent(Commit(db, d), tx)
  {
    if (tx.command.Allocate? || tx.command.Reverse?) && tx.facts.payments != map[] {
      assert tx.command.payment in tx.facts.payments;
      OwnRowsSurvive(db, f, d, tx.command.payment);
      ReversalSurvives(db, f, d, tx.command.payment);
    }
  }

  lemma {:induction false} OrderIdsGrow(a: map<Id, Receivable>, b: map<Id, Receivable>)
    requires forall r :: r in a ==> r in b && b[r].order == a[r].order
    ensures OrderIds(a) <= OrderIds(b)
  {
  }

  /** Receivables keep their order, so an order's receivables grow only under its lock. */
  lemma {:induction false} OrdersStillWanted(db: Ledger, c: Command, g: Facts, f: Facts, d: Delta)
    requires ReceivableWrites(db, f, d)
    requires forall r :: r in f.receivables ==> r in db.receivables && db.receivables[r] == f.receivables[r]
    ensures OrdersWanted(db, c, g) <= OrdersWanted(Commit(db, d), c, g)
  {
    OrderIdsGrow(Restrict(db.receivables, Named(c, g)), Restrict(Commit(db, d).receivables, Named(c, g)));
  }

  lemma {:induction false} SameOrderReceivables(db: Ledger, o: Id, f: Facts, d: Delta)
    requires ReceivableWrites(db, f, d)
    requires forall r :: r in f.receivables ==> r in db.receivables && db.receivables[r] == f.receivables[r]
    requires o !in f.orders
    ensures (set r | r in Commit(db, d).receivables && Commit(db, d).receivables[r].order == o)
      == (set r | r in db.receivables && db.receivables[r].order == o)
  {
  }

  lemma {:induction false} PickedStillWanted(db: Ledger, db': Ledger, c: Command, g: Facts)
    requires c.RefreshRows? && c.picked <= db.receivables.Keys && db.receivables.Keys <= db'.receivables.Keys
    ensures ReceivablesWanted(db, c, g) == c.picked && ReceivablesWanted(db', c, g) == c.picked
  {
  }

  lemma {:induction false} ReceivablesStillWanted(db: Ledger, db': Ledger, c: Command, g: Facts)
    requires !c.Generate? && db.receivables.Keys <= db'.receivables.Keys
    ensures ReceivablesWanted(db, c, g) <= ReceivablesWanted(db', c, g)
  {
  }

  lemma {:induction false} IdsSurvive(db: Ledger, tx: Tx, f: Facts, d: Delta)
    requires IdsCurrent(db, tx) && ReceivableWrites(db, f, d) && Apart(f, tx.facts)
    requires tx.facts.orders.Keys <= tx.orderIds
    requires forall r :: r in f.receivables ==> r in db.receivables && db.receivables[r] == f.receivables[r]
    ensures IdsCurrent(Commit(db, d), tx)
  {
    OrdersStillWanted(db, tx.command, tx.facts, f, d);
    if tx.command.Generate? {
      if tx.stage >= 3 && tx.facts.orders != map[] {
        assert tx.facts.orders.Keys != {};
        assert tx.facts.orders.Keys <= {tx.command.order};
        assert tx.command.order in tx.facts.orders;
        SameOrderReceivables(db, tx.command.order, f, d);
      }
    } else {
      ReceivablesStillWanted(db, Commit(db, d), tx.command, tx.facts);
      if tx.command.RefreshRows? {
        PickedStillWanted(db, Commit(db, d), tx.command, tx.facts);
      }
    }
  }

  lemma {:induction false} KnowledgeSurvives(db: Ledger, owner: map<Lock, Id>, u: Id, x: Id, tx: Tx, f: Facts, d: Delta)
    requires u != x && RowsCurrent(db, owner, u, f) && Current(db, owner, x, tx) && WritesOwn(db, f, d)
    ensures Current(Commit(db, d), owner, x, tx)
  {
    LocksKeepApart(db, owner, u, x, f, tx.facts);
    RowsSurvive(db, owner, x, tx.facts, f, d);
    OwnSurvives(db, tx, f, d);
    TotalsSurvive(db, f, d, tx.facts.receivables.Keys);
    IdsSurvive(db, tx, f, d);
  }

  // ---- A decision is the decision on the committed tables ---------------------------------------

  lemma {:induction false} AllocateFound(c: Command, f: Facts)
    requires c.Allocate? && f.Ordered() && DecideAllocate(c, f).Accept?
    ensures c.payment in f.payments && f.receivables.Keys == AmountById(c.items).Keys
      && OrderIds(f.receivables) == f.orders.Keys
  {
  }

  lemma {:induction false} ReverseFound(c: Command, f: Facts)
    requires c.Reverse? && DecideReverse(c, f).Accept?
    ensures c.payment in f.payments && (f.payments[c.payment].status == Active ==> LookupsHit(f))
  {
  }

  /** The facts of a transaction that is ready to commit, as one reading of the tables `db`. */
  ghost predicate OneReading(db: Ledger, c: Command, f: Facts, ids: set<Id>, orders: set<Id>) {
    && f.payments == Restrict(db.payments, PaymentsOf(c))
    && f.receivables == Restrict(db.receivables, ids)
    && f.orders == Restrict(db.orders, orders)
    && f.locked == Sorted(f.receivables.Keys)
    && f.totals == NetTotals(db.rows, ids)
    && f.own == (if c.Allocate? || c.Reverse? then RowsOf(db.rows, c.payment) else [])
    && f.reversal == (if c.Reverse? then ReversalOf(db.payments, c.payment) else None)
  }

  lemma {:induction false} OneReadingObserves(db: Ledger, c: Command, f: Facts)
    requires OneReading(db, c, f, ReceivablesOf(db, c), OrdersOf(db, c))
    ensures f == Observe(db, c)
  {
  }

  ghost predicate Ready(db: Ledger, owner: map<Lock, Id>, t: Id, tx: Tx) {
    Current(db, owner, t, tx) && tx.stage == 4 && tx.todo == []
  }

  /** The payment a command locked, its rows and its reversal. */
  lemma {:induction false} PaymentReading(db: Ledger, owner: map<Lock, Id>, t: Id, tx: Tx)
    requires Ready(db, owner, t, tx)
    requires tx.command.Allocate? || tx.command.Reverse? ==> tx.command.payment in tx.facts.payments
    ensures var c, f := tx.command, tx.facts;
      && f.payments == Restrict(db.payments, PaymentsOf(c))
      && f.own == (if c.Allocate? || c.Reverse? then RowsOf(db.rows, c.payment) else [])
      && f.reversal == (if c.Reverse? then ReversalOf(db.payments, c.payment) else None)
  {
  }

  lemma {:induction false} NothingPending(tx: Tx)
    requires InScope(tx) && tx.todo == []
    ensures tx.facts.receivables.Keys == tx.receivableIds
  {
    forall r | r in tx.receivableIds ensures r in tx.facts.receivables {
      assert !Pending(tx, ReceivableLock(r));
    }
  }

  lemma {:induction false} ReceivableReading(db: Ledger, owner: map<Lock, Id>, t: Id, tx: Tx)
    requires Ready(db, owner, t, tx)
    ensures tx.facts.receivables.Keys == tx.receivableIds
    ensures tx.facts.receivables == Restrict(db.receivables, tx.receivableIds)
    ensures tx.facts.locked == Sorted(tx.facts.receivables.Keys)
      && tx.facts.totals == NetTotals(db.rows, tx.receivableIds)
  {
    NothingPending(tx);
  }

  lemma {:induction false} OrderReading(db: Ledger, owner: map<Lock, Id>, t: Id, tx: Tx, orders: set<Id>)
    requires Ready(db, owner, t, tx)
    requires tx.facts.orders.Keys <= orders && forall o :: o in orders && o in db.orders ==> o in tx.facts.orders
    ensures tx.facts.orders == Restrict(db.orders, orders)
  {
  }

  lemma {:induction false} AllocateReading(db: Ledger, owner: map<Lock, Id>, t: Id, tx: Tx)
    requires Ready(db, owner, t, tx) && tx.command.Allocate? && tx.facts.Ordered()
      && DecideAllocate(tx.command, tx.facts).Accept?
    ensures OneReading(db, tx.command, tx.facts, ReceivablesOf(db, tx.command), OrdersOf(db, tx.command))
  {
    AllocateFound(tx.command, tx.facts);
    PaymentReading(db, owner, t, tx);
    ReceivableReading(db, owner, t, tx);
    OrderReading(db, owner, t, tx, OrdersOf(db, tx.command));
  }

  lemma {:induction false} ReverseScope(db: Ledger, tx: Tx)
    requires IdsCurrent(db, tx) && tx.command.Reverse? && tx.stage == 4 && tx.command.payment in tx.facts.payments
    requires tx.facts.payments == Restrict(db.payments, {tx.command.payment})
      && tx.facts.own == RowsOf(db.rows, tx.command.payment)
    requires tx.facts.receivables == Restrict(db.receivables, tx.receivableIds)
      && tx.facts.receivables.Keys == tx.receivableIds
    requires tx.facts.payments[tx.command.payment].status == Active ==> LookupsHit(tx.facts)
    ensures tx.receivableIds == ReceivablesOf(db, tx.command)
    ensures tx.orderIds <= OrdersOf(db, tx.command)
    ensures OrdersOf(db, tx.command) == OrderIds(tx.facts.receivables)
  {
  }

  lemma {:induction false} ReverseReading(db: Ledger, owner: map<Lock, Id>, t: Id, tx: Tx)
    requires Ready(db, owner, t, tx) && tx.command.Reverse? && DecideReverse(tx.command, tx.facts).Accept?
    ensures OneReading(db, tx.command, tx.facts, ReceivablesOf(db, tx.command), OrdersOf(db, tx.command))
  {
    ReverseFound(tx.command, tx.facts);
    PaymentReading(db, owner, t, tx);
    ReceivableReading(db, owner, t, tx);
    ReverseScope(db, tx);
    if tx.facts.payments[tx.command.payment].status != Active {
      assert OrderIds(tx.facts.receivables) == {};
    }
    OrderReading(db, owner, t, tx, OrdersOf(db, tx.command));
  }

  lemma {:induction false} OtherReceivables(db: Ledger, tx: Tx)
    requires IdsCurrent(db, tx) && tx.stage == 4 && !tx.command.Allocate? && !tx.command.Reverse?
    requires tx.command.Generate? ==> tx.facts.orders != map[]
    ensures tx.receivableIds == ReceivablesOf(db, tx.command)
  {
  }

  lemma {:induction false} OtherOrders(db: Ledger, tx: Tx)
    requires InScope(tx) && IdsCurrent(db, tx) && tx.stage == 4 && !tx.command.Allocate? && !tx.command.Reverse?
    requires tx.command.Generate? || tx.command.MoveOrder? ==> tx.command.order in tx.facts.orders
    requires tx.command.PlaceOrder? ==> tx.command.order !in db.orders
    ensures tx.facts.orders.Keys <= OrdersOf(db, tx.command)
    ensures forall o :: o in OrdersOf(db, tx.command) && o in db.orders ==> o in tx.facts.orders
  {
  }

  lemma {:induction false} OtherReading(db: Ledger, owner: map<Lock, Id>, t: Id, tx: Tx)
    requires Ready(db, owner, t, tx) && !tx.command.Allocate? && !tx.command.Reverse?
    requires tx.command.Generate? || tx.command.MoveOrder? ==> tx.command.order in tx.facts.orders
    requires tx.command.PlaceOrder? ==> tx.command.order !in db.orders
    ensures OneReading(db, tx.command, tx.facts, ReceivablesOf(db, tx.command), OrdersOf(db, tx.command))
  {
    PaymentReading(db, owner, t, tx);
    ReceivableReading(db, owner, t, tx);
    OtherReceivables(db, tx);
    OtherOrders(db, tx);
    OrderReading(db, owner, t, tx, OrdersOf(db, tx.command));
  }

  lemma {:induction false} OrderFound(c: Command, companies: set<Id>, f: Facts)
    requires f.Ordered() && Decide(c, companies, f).Accept? && (c.Generate? || c.MoveOrder?)
    ensures c.order in f.orders
  {
  }

  /** However the transactions were interleaved, a command that goes through has decided on exactly what
      one atomic reading of the committed tables would show it. */
  lemma {:induction false} DecidesOnCommitted(db: Ledger, owner: map<Lock, Id>, t: Id, tx: Tx)
    requires Ready(db, owner, t, tx) && Admissible(db, tx.command) && tx.facts.Ordered()
    requires Decide(tx.command, db.companies, tx.facts).Accept?
    ensures tx.facts == Observe(db, tx.command)
  {
    var c, f := tx.command, tx.facts;
    if c.Allocate? {
      AllocateReading(db, owner, t, tx);
    } else if c.Reverse? {
      ReverseReading(db, owner, t, tx);
    } else {
      if c.Generate? || c.MoveOrder? {
        OrderFound(c, db.companies, f);
      }
      OtherReading(db, owner, t, tx);
    }
    OneReadingObserves(db, c, f);
  }

  // ---- Every interleaving is a serial run -------------------------------------------------------

  ghost predicate Consistent(s: System) {
    && AllCurrent(s)
    && (forall k :: k in s.owner ==> s.owner[k] in s.txs)
  }

  lemma {:induction false} OneChanges(s: System, s': System, t: Id)
    requires Consistent(s) && s'.db == s.db
      && (forall x :: x != t && x in s'.txs ==> x in s.txs && s'.txs[x] == s.txs[x])
    requires forall k, x :: x != t && Owns(s.owner, k, x) ==> Owns(s'.owner, k, x)
    requires t in s'.txs ==> Current(s'.db, s'.owner, t, s'.txs[t])
    requires forall k :: k in s'.owner ==> s'.owner[k] in s'.txs
    ensures Consistent(s')
  {
    forall x | x in s'.txs ensures Current(s'.db, s'.owner, x, s'.txs[x]) {
      if x != t {
        assert Current(s.db, s.owner, x, s.txs[x]);
        OtherKept(s.db, s.owner, s'.owner, x, s.txs[x]);
      }
    }
  }

  lemma {:induction false} BeginKeeps(s: System, t: Id, c: Command, key: Option<nat>)
    requires Consistent(s)
    ensures Consistent(Step(s, Begin(t, c, key)))
  {
  }

  lemma {:induction false} AcquireKeeps(s: System, t: Id)
    requires Consistent(s)
    ensures Consistent(Step(s, Acquire(t)))
  {
    if CanAcquire(s, t) {
      assert Current(s.db, s.owner, t, s.txs[t]);
      if Exists(s.db, s.txs[t].todo[0]) {
        LockTaken(s.db, s.owner, t, s.txs[t]);
      } else {
        MissingDropped(s.db, s.owner, t, s.txs[t]);
      }
      OneChanges(s, Acquired(s, t), t);
    }
  }

  lemma {:induction false} AdvanceKeeps(s: System, t: Id)
    requires Consistent(s)
    ensures Consistent(Step(s, Advance(t)))
  {
    if t in s.txs && s.txs[t].todo == [] && s.txs[t].stage < 4 {
      assert Current(s.db, s.owner, t, s.txs[t]);
      AdvanceCurrent(s.db, s.owner, t, s.txs[t]);
      OneChanges(s, Step(s, Advance(t)), t);
    }
  }

  lemma {:induction false} EndKeeps(s: System, t: Id)
    requires Consistent(s)
    ensures Consistent(Ended(s, t))
  {
    OneChanges(s, Ended(s, t), t);
  }

  /** The tables change under the others; what they know survives. */
  lemma {:induction false} CommitKeeps(s: System, t: Id)
    requires Consistent(s) && Commits(s, t)
    ensures Consistent(Finished(s, t))
  {
    var tx := s.txs[t];
    var d := Decide(tx.command, s.db.companies, tx.facts).delta;
    assert Current(s.db, s.owner, t, tx);
    DecisionWritesOwn(s.db, tx.command, tx.facts);
    var s1 := s.(db := Commit(s.db, d), txs := s.txs - {t});
    forall x | x in s1.txs ensures Current(s1.db, s1.owner, x, s1.txs[x]) {
      assert Current(s.db, s.owner, x, s.txs[x]);
      KnowledgeSurvives(s.db, s.owner, t, x, s.txs[x], tx.facts, d);
    }
    var s' := Finished(s, t);
    forall x | x in s'.txs ensures Current(s'.db, s'.owner, x, s'.txs[x]) {
      OtherKept(s1.db, s1.owner, s'.owner, x, s1.txs[x]);
    }
  }

  lemma {:induction false} StepKeeps(s: System, e: Event)
    requires Consistent(s)
    ensures Consistent(Step(s, e))
  {
    match e
    case Begin(t, c, key) => BeginKeeps(s, t, c, key);
    case Acquire(t) => AcquireKeeps(s, t);
    case Advance(t) => AdvanceKeeps(s, t);
    case Finish(t) =>
      if Commits(s, t) {
        CommitKeeps(s, t);
      }
    case Abort(t) => EndKeeps(s, t);
  }

  lemma {:induction false} CommitApplies(s: System, t: Id)
    requires Consistent(s) && Commits(s, t)
    ensures Apply(s.db, s.txs[t].command)
      == (Finished(s, t).db, Ok(Decide(s.txs[t].command, s.db.companies, s.txs[t].facts).reply))
  {
    assert Current(s.db, s.owner, t, s.txs[t]);
    DecidesOnCommitted(s.db, s.owner, t, s.txs[t]);
  }

  lemma {:induction false} RunNext(db: Ledger, log: seq<Command>, c: Command)
    requires AdmissibleRun(db, log) && Admissible(Run(db, log), c)
    ensures AdmissibleRun(db, log + [c]) && Run(db, log + [c]) == Apply(Run(db, log), c).0
  {
  }

  ghost predicate Serial(db: Ledger, s: System) {
    Consistent(s) && AdmissibleRun(db, s.log) && s.db == Run(db, s.log)
  }

  lemma {:induction false} FinishSerial(db: Ledger, s: System, t: Id)
    requires Serial(db, s) && Commits(s, t)
    ensures Serial(db, Finished(s, t))
  {
    CommitKeeps(s, t);
    CommitApplies(s, t);
    RunNext(db, s.log, s.txs[t].command);
  }

  lemma {:induction false} StepSerial(db: Ledger, s: System, e: Event)
    requires Serial(db, s)
    ensures Serial(db, Step(s, e))
  {
    if e.Finish? && Commits(s, e.tx) {
      FinishSerial(db, s, e.tx);
    } else {
      StepKeeps(s, e);
    }
  }

  /** Serializability: whatever the interleaving of begins, locks, reads, commits and aborts, the tables
      are those of the committed commands run one after the other in commit order. */
  lemma {:induction false} Serializable(db: Ledger, events: seq<Event>)
    ensures Serial(db, Interleave(Start(db), events))
    decreases |events|
  {
    if events == [] {
      assert Consistent(Start(db));
    } else {
      Serializable(db, events[..|events| - 1]);
      StepSerial(db, Interleave(Start(db), events[..|events| - 1]), events[|events| - 1]);
    }
  }

  /** So no interleaving allocates a receipt beyond its amount or a receivable beyond its balance. */
  lemma {:induction false} NeverOverAllocated(db: Ledger, events: seq<Event>)
    requires Empty(db)
    ensures Invariant(Interleave(Start(db), events).db)
    ensures var s := Interleave(Start(db), events).db;
      && (forall p :: p in s.payments && s.payments[p].kind == Receipt ==> Used(s.rows, p) <= s.payments[p].amount)
      && (forall r :: r in s.receivables ==> 0 <= Net(s.rows, r) <= s.receivables[r].amount)
  {
    Serializable(db, events);
    var s := Interleave(Start(db), events);
    RunKeeps(db, s.log);
    WithinLimits(s.db);
  }

  lemma {:induction false} WithinLimits(s: Ledger)
    requires Invariant(s)
    ensures forall p :: p in s.payments && s.payments[p].kind == Receipt ==> Used(s.rows, p) <= s.payments[p].amount
    ensures forall r :: r in s.receivables ==> 0 <= Net(s.rows, r) <= s.receivables[r].amount
  {
  }
}
