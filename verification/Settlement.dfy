/** The append-only allocation table that both settlement ledgers share, and its aggregates. */
module Settlement {
  import opened Prelude

  datatype Kind = Allocation | Reversal

  /** One row of payment_allocations or supplier_payment_allocations; `target` is the receivable or
      payable it settles, `id` its position in the table. Amounts are in units of 10^-4. */
  datatype Row = Row(id: nat, payment: Id, target: Id, kind: Kind, amount: int, reversalOf: Option<nat>)

  function Total(rows: seq<Row>, weight: Row -> int): int {
    if rows == [] then 0 else Total(rows[..|rows| - 1], weight) + weight(rows[|rows| - 1])
  }

  /** +amount for an allocation, -amount for a reversal row. */
  function Signed(target: Id): Row -> int {
    (row: Row) => if row.target != target then 0 else if row.kind == Allocation then row.amount else -row.amount
  }

  function Charge(payment: Id): Row -> int {
    (row: Row) => if row.payment == payment then row.amount else 0
  }

  function ChargeOn(payment: Id, target: Id): Row -> int {
    (row: Row) => if row.payment == payment && row.target == target then row.amount else 0
  }

  /** Allocation rows whose payment is not in `reversed`. */
  function LiveOn(reversed: set<Id>, target: Id): Row -> int {
    (row: Row) => if row.kind == Allocation && row.payment !in reversed && row.target == target then row.amount else 0
  }

  /** allocated_totals / paid_totals for one receivable or payable. */
  function Net(rows: seq<Row>, target: Id): int { Total(rows, Signed(target)) }

  /** allocated_amount: the unsigned total a payment has been allocated. */
  function Used(rows: seq<Row>, payment: Id): int { Total(rows, Charge(payment)) }

  function UsedOn(rows: seq<Row>, payment: Id, target: Id): int { Total(rows, ChargeOn(payment, target)) }

  function Live(rows: seq<Row>, reversed: set<Id>, target: Id): int { Total(rows, LiveOn(reversed, target)) }

  /** The GROUP BY result: a target without rows has no entry. */
  function NetTotals(rows: seq<Row>, targets: set<Id>): map<Id, int> {
    map t | t in targets && (exists row :: row in rows && row.target == t) :: Net(rows, t)
  }

  function RowsOf(rows: seq<Row>, payment: Id): (own: seq<Row>)
    ensures forall row :: row in own <==> row in rows && row.payment == payment
  {
    if rows == [] then [] else
      var last := rows[|rows| - 1];
      var rest := RowsOf(rows[..|rows| - 1], payment);
      assert rows == rows[..|rows| - 1] + [last];
      if last.payment == payment then rest + [last] else rest
  }

  /** Rows come back in table order, each once. */
  lemma {:induction false} RowsOfInOrder(rows: seq<Row>, payment: Id)
    requires forall i :: 0 <= i < |rows| ==> rows[i].id == i
    ensures var own := RowsOf(rows, payment);
      && (forall i, j :: 0 <= i < j < |own| ==> own[i].id < own[j].id)
      && (forall row :: row in own <==> row in rows && row.payment == payment)
  {
    if rows != [] {
      var init, last := rows[..|rows| - 1], rows[|rows| - 1];
      RowsOfInOrder(init, payment);
      var rest := RowsOf(init, payment);
      forall i | 0 <= i < |rest| ensures rest[i].id < last.id {
        assert rest[i] in init;
      }
    }
  }

  function Without(rows: seq<Row>, payments: set<Id>): (kept: seq<Row>)
    ensures forall row :: row in kept <==> row in rows && row.payment !in payments
  {
    if rows == [] then [] else
      var last := rows[|rows| - 1];
      var rest := Without(rows[..|rows| - 1], payments);
      assert rows == rows[..|rows| - 1] + [last];
      if last.payment in payments then rest else rest + [last]
  }

  /** The rows of kind ALLOCATION. */
  function AllocationsIn(rows: seq<Row>): seq<Row> {
    if rows == [] then [] else
      AllocationsIn(rows[..|rows| - 1]) + if rows[|rows| - 1].kind == Allocation then [rows[|rows| - 1]] else []
  }

  /** Ids are given when the rows are inserted. */
  function Stamp(base: nat, drafts: seq<Row>): (rows: seq<Row>)
    ensures |rows| == |drafts|
    ensures forall i :: 0 <= i < |rows| ==> rows[i] == drafts[i].(id := base + i)
  {
    seq(|drafts|, i requires 0 <= i < |drafts| => drafts[i].(id := base + i))
  }

  /** reverse(): one opposite row for every original row. */
  function Mirror(own: seq<Row>, reversal: Id): (drafts: seq<Row>)
    ensures |drafts| == |own|
    ensures forall i :: 0 <= i < |own| ==>
      drafts[i] == Row(0, reversal, own[i].target, Reversal, own[i].amount, Some(own[i].id))
  {
    seq(|own|, i requires 0 <= i < |own| => Row(0, reversal, own[i].target, Reversal, own[i].amount, Some(own[i].id)))
  }

  function Targets(rows: seq<Row>): set<Id> { set row | row in rows :: row.target }

  // ---- Allocation commands ----------------------------------------------------------------------

  datatype Item = Item(target: Id, amount: int)

  function Requested(items: seq<Item>): int {
    if items == [] then 0 else Requested(items[..|items| - 1]) + items[|items| - 1].amount
  }

  function AmountById(items: seq<Item>): map<Id, int> {
    if items == [] then map[] else
      var last := items[|items| - 1];
      AmountById(items[..|items| - 1])[last.target := last.amount]
  }

  function AllocationRow(payment: Id, amounts: map<Id, int>, target: Id): Row
    requires target in amounts
  {
    Row(0, payment, target, Allocation, amounts[target], None)
  }

  function AllocationRows(payment: Id, amounts: map<Id, int>, ids: seq<Id>): (rows: seq<Row>)
    requires forall r :: r in ids ==> r in amounts
    ensures |rows| == |ids|
    ensures forall i :: 0 <= i < |ids| ==> rows[i] == AllocationRow(payment, amounts, ids[i])
  {
    seq(|ids|, i requires 0 <= i < |ids| => AllocationRow(payment, amounts, ids[i]))
  }

  // ---- Laws of the aggregates -------------------------------------------------------------------

  lemma {:induction false} TotalConcat(a: seq<Row>, b: seq<Row>, w: Row -> int)
    ensures Total(a + b, w) == Total(a, w) + Total(b, w)
  {
    if b == [] {
      assert a + b == a;
    } else {
      TotalConcat(a, b[..|b| - 1], w);
      assert (a + b)[..|a + b| - 1] == a + b[..|b| - 1];
    }
  }

  lemma {:induction false} TotalAgree(a: seq<Row>, b: seq<Row>, v: Row -> int, w: Row -> int)
    requires |a| == |b| && forall i :: 0 <= i < |a| ==> v(a[i]) == w(b[i])
    ensures Total(a, v) == Total(b, w)
  {
    if a != [] {
      TotalAgree(a[..|a| - 1], b[..|b| - 1], v, w);
    }
  }

  lemma {:induction false} TotalPlus(a: seq<Row>, u: Row -> int, v: Row -> int, w: Row -> int)
    requires forall i :: 0 <= i < |a| ==> w(a[i]) == u(a[i]) + v(a[i])
    ensures Total(a, w) == Total(a, u) + Total(a, v)
  {
    if a != [] {
      TotalPlus(a[..|a| - 1], u, v, w);
    }
  }

  lemma {:induction false} TotalZero(a: seq<Row>, w: Row -> int)
    requires forall i :: 0 <= i < |a| ==> w(a[i]) == 0
    ensures Total(a, w) == 0
  {
    if a != [] {
      TotalZero(a[..|a| - 1], w);
    }
  }

  lemma {:induction false} TotalBounds(a: seq<Row>, w: Row -> int)
    requires forall i :: 0 <= i < |a| ==> w(a[i]) >= 0
    ensures Total(a, w) >= 0
    ensures forall i :: 0 <= i < |a| ==> w(a[i]) <= Total(a, w)
  {
    if a != [] {
      TotalBounds(a[..|a| - 1], w);
    }
  }

  /** Restricting the table to one payment's rows keeps every sum that only weighs those rows. */
  lemma {:induction false} TotalOfRowsOf(rows: seq<Row>, payment: Id, v: Row -> int, w: Row -> int)
    requires forall row :: row in rows ==> w(row) == if row.payment == payment then v(row) else 0
    ensures Total(RowsOf(rows, payment), v) == Total(rows, w)
  {
    if rows != [] {
      var init, last := rows[..|rows| - 1], rows[|rows| - 1];
      TotalOfRowsOf(init, payment, v, w);
      TotalConcat(RowsOf(init, payment), [last], v);
      assert Total([last], v) == v(last) by { assert [last][..0] == []; }
    }
  }

  lemma {:induction false} TotalOfWithout(rows: seq<Row>, payments: set<Id>, v: Row -> int, w: Row -> int)
    requires forall row :: row in rows ==> w(row) == if row.payment in payments then 0 else v(row)
    ensures Total(Without(rows, payments), v) == Total(rows, w)
  {
    if rows != [] {
      var init, last := rows[..|rows| - 1], rows[|rows| - 1];
      TotalOfWithout(init, payments, v, w);
      TotalConcat(Without(init, payments), [last], v);
      assert Total([last], v) == v(last) by { assert [last][..0] == []; }
    }
  }

  /** Double summation: adding up per-key sums over all keys counts every row once. */
  lemma {:induction false} TotalExchange(rows: seq<Row>, keys: set<Id>, per: Id -> Row -> int, key: Row -> Id,
      w: Row -> int)
    requires forall row, k :: row in rows && k in keys ==> per(k)(row) == if key(row) == k then w(row) else 0
    requires forall row :: row in rows && key(row) !in keys ==> w(row) == 0
    ensures SumOver(keys, (k: Id) => Total(rows, per(k))) == Total(rows, w)
  {
    var sums := (k: Id) => Total(rows, per(k));
    if rows == [] {
      SumOverZero(keys, sums);
    } else {
      var init, last := rows[..|rows| - 1], rows[|rows| - 1];
      var before, here := (k: Id) => Total(init, per(k)), (k: Id) => per(k)(last);
      TotalExchange(init, keys, per, key, w);
      SumOverPlus(keys, before, here, sums);
      if key(last) in keys {
        SumOverPick(keys, key(last), here);
        SumOverZero(keys - {key(last)}, here);
      } else {
        SumOverZero(keys, here);
      }
    }
  }

  lemma {:induction false} NoRowsNoNet(rows: seq<Row>, target: Id)
    requires forall row :: row in rows ==> row.target != target
    ensures Net(rows, target) == 0
  {
    TotalZero(rows, Signed(target));
  }

  /** `.get(id, 0)` on the grouped totals is the signed sum of the id's rows. */
  lemma {:induction false} NetTotalsGet(rows: seq<Row>, targets: set<Id>, target: Id)
    requires target in targets
    ensures GetOr(NetTotals(rows, targets), target, 0) == Net(rows, target)
  {
    if target !in NetTotals(rows, targets) {
      NoRowsNoNet(rows, target);
    }
  }

  /** Mirroring a payment takes exactly its own share off every target's net. */
  lemma {:induction false} MirrorNet(rows: seq<Row>, payment: Id, reversal: Id, target: Id)
    requires forall row :: row in rows && row.payment == payment ==> row.kind == Allocation
    ensures var mirrors := Stamp(|rows|, Mirror(RowsOf(rows, payment), reversal));
      && Net(mirrors, target) == -UsedOn(rows, payment, target)
      && UsedOn(mirrors, reversal, target) == UsedOn(rows, payment, target)
  {
    var own := RowsOf(rows, payment);
    var mirrors := Stamp(|rows|, Mirror(own, reversal));
    TotalOfRowsOf(rows, payment, ChargeOn(payment, target), ChargeOn(payment, target));
    TotalAgree(mirrors, own, ChargeOn(reversal, target), ChargeOn(payment, target));
    var negated := (row: Row) => -ChargeOn(payment, target)(row);
    var none := (row: Row) => 0;
    TotalAgree(mirrors, own, Signed(target), negated);
    TotalPlus(own, ChargeOn(payment, target), negated, none);
    TotalZero(own, none);
  }

  lemma {:induction false} AllAllocations(rows: seq<Row>)
    requires forall row :: row in rows ==> row.kind == Allocation
    ensures AllocationsIn(rows) == rows
  {
    if rows != [] {
      var init := rows[..|rows| - 1];
      assert rows == init + [rows[|rows| - 1]];
      AllAllocations(init);
    }
  }

  lemma {:induction false} OwnSums(rows: seq<Row>, p: Id, r: Id)
    ensures Used(RowsOf(rows, p), p) == Used(rows, p)
    ensures UsedOn(RowsOf(rows, p), p, r) == UsedOn(rows, p, r)
  {
    TotalOfRowsOf(rows, p, Charge(p), Charge(p));
    TotalOfRowsOf(rows, p, ChargeOn(p, r), ChargeOn(p, r));
  }

  // ---- Sums over the rows of one allocation command ---------------------------------------------

  ghost function AmountIn(amounts: map<Id, int>): Id -> int {
    (r: Id) => if r in amounts then amounts[r] else 0
  }

  lemma {:induction false} AmountByIdSize(items: seq<Item>)
    ensures |AmountById(items)| <= |items|
  {
    if items != [] {
      var init, last := items[..|items| - 1], items[|items| - 1];
      AmountByIdSize(init);
      assert AmountById(items).Keys == AmountById(init).Keys + {last.target};
      assert |AmountById(items).Keys| <= |AmountById(init).Keys| + 1;
    }
  }

  /** With no receivable named twice, the requested total is the sum of the per-receivable amounts. */
  lemma {:induction false} RequestedSum(items: seq<Item>)
    requires |AmountById(items).Keys| == |items|
    ensures Requested(items) == SumOver(AmountById(items).Keys, AmountIn(AmountById(items)))
  {
    if items != [] {
      var init, last := items[..|items| - 1], items[|items| - 1];
      var before, after := AmountById(init), AmountById(items);
      AmountByIdSize(init);
      assert after.Keys == before.Keys + {last.target};
      assert last.target !in before.Keys by {
        assert last.target in before.Keys ==> after.Keys == before.Keys;
      }
      assert after.Keys - {last.target} == before.Keys;
      RequestedSum(init);
      SumOverPick(after.Keys, last.target, AmountIn(after));
      SumOverAgree(before.Keys, AmountIn(before), AmountIn(after));
    }
  }

  lemma {:induction false} AmountsPositive(items: seq<Item>)
    requires forall item :: item in items ==> item.amount > 0
    ensures forall r :: r in AmountById(items) ==> AmountById(items)[r] > 0
  {
    if items != [] {
      AmountsPositive(items[..|items| - 1]);
    }
  }

  lemma {:induction false} ChargeOfRows(p: Id, amounts: map<Id, int>, q: seq<Id>)
    requires Distinct(q) && forall r :: r in q ==> r in amounts
    ensures Total(AllocationRows(p, amounts, q), Charge(p)) == SumOver(Elements(q), AmountIn(amounts))
  {
    if q != [] {
      var init, last := q[..|q| - 1], q[|q| - 1];
      ChargeOfRows(p, amounts, init);
      assert AllocationRows(p, amounts, q)[..|q| - 1] == AllocationRows(p, amounts, init);
      assert Elements(q) - {last} == Elements(init);
      SumOverPick(Elements(q), last, AmountIn(amounts));
    }
  }

  /** At most one row of the command weighs on a given receivable. */
  lemma {:induction false} OneRowEach(p: Id, amounts: map<Id, int>, q: seq<Id>, r: Id, w: Row -> int)
    requires Distinct(q) && forall x :: x in q ==> x in amounts
    requires forall x :: x in q ==> w(AllocationRow(p, amounts, x)) == if x == r then amounts[x] else 0
    ensures Total(AllocationRows(p, amounts, q), w) == if r in q then amounts[r] else 0
  {
    if q != [] {
      var init, last := q[..|q| - 1], q[|q| - 1];
      OneRowEach(p, amounts, init, r, w);
      assert AllocationRows(p, amounts, q)[..|q| - 1] == AllocationRows(p, amounts, init);
    }
  }

  ghost predicate IdFree(w: Row -> int) {
    forall row: Row, i: nat :: w(row.(id := i)) == w(row)
  }

  /** Inserting stamped rows adds their weight to every sum that does not look at ids. */
  lemma {:induction false} InsertRows(rows: seq<Row>, drafts: seq<Row>, w: Row -> int)
    requires IdFree(w)
    ensures Total(rows + Stamp(|rows|, drafts), w) == Total(rows, w) + Total(drafts, w)
  {
    TotalConcat(rows, Stamp(|rows|, drafts), w);
    TotalAgree(Stamp(|rows|, drafts), drafts, w, w);
  }

  /** The sums an allocation command changes, and by how much. */
  lemma {:induction false} AllocateUsed(rows: seq<Row>, p: Id, amounts: map<Id, int>, q: seq<Id>)
    requires Distinct(q) && Elements(q) == amounts.Keys && forall r :: r in q ==> r in amounts
    ensures Used(rows + Stamp(|rows|, AllocationRows(p, amounts, q)), p)
      == Used(rows, p) + SumOver(amounts.Keys, AmountIn(amounts))
  {
    InsertRows(rows, AllocationRows(p, amounts, q), Charge(p));
    ChargeOfRows(p, amounts, q);
  }

  /** Rows that a weight ignores can be inserted freely. */
  lemma {:induction false} InsertIgnored(rows: seq<Row>, drafts: seq<Row>, w: Row -> int)
    requires IdFree(w) && forall row :: row in drafts ==> w(row) == 0
    ensures Total(rows + Stamp(|rows|, drafts), w) == Total(rows, w)
  {
    InsertRows(rows, drafts, w);
    TotalZero(drafts, w);
  }

  lemma {:induction false} OthersUntouched(rows: seq<Row>, drafts: seq<Row>, p: Id, x: Id, r: Id)
    requires x != p && forall row :: row in drafts ==> row.payment == p
    ensures Used(rows + Stamp(|rows|, drafts), x) == Used(rows, x)
    ensures UsedOn(rows + Stamp(|rows|, drafts), x, r) == UsedOn(rows, x, r)
  {
    InsertIgnored(rows, drafts, Charge(x));
    InsertIgnored(rows, drafts, ChargeOn(x, r));
  }

  lemma {:induction false} AllocateNet(rows: seq<Row>, p: Id, amounts: map<Id, int>, q: seq<Id>, r: Id,
      reversed: set<Id>)
    requires Distinct(q) && Elements(q) == amounts.Keys && forall r :: r in q ==> r in amounts
    requires p !in reversed
    ensures var rows' := rows + Stamp(|rows|, AllocationRows(p, amounts, q));
      && Net(rows', r) == Net(rows, r) + AmountIn(amounts)(r)
      && Live(rows', reversed, r) == Live(rows, reversed, r) + AmountIn(amounts)(r)
  {
    var drafts := AllocationRows(p, amounts, q);
    assert r in q <==> r in Elements(q);
    InsertRows(rows, drafts, Signed(r));
    OneRowEach(p, amounts, q, r, Signed(r));
    InsertRows(rows, drafts, LiveOn(reversed, r));
    OneRowEach(p, amounts, q, r, LiveOn(reversed, r));
  }

  // ---- Sums over the rows a reversal inserts ----------------------------------------------------

  lemma {:induction false} RowsOfDistinct(rows: seq<Row>, p: Id)
    requires forall i :: 0 <= i < |rows| ==> rows[i].id == i
    ensures forall i, j :: 0 <= i < j < |RowsOf(rows, p)| ==> RowsOf(rows, p)[i].id < RowsOf(rows, p)[j].id
    ensures forall row :: row in RowsOf(rows, p) ==> row.id < |rows|
  {
    if rows != [] {
      RowsOfDistinct(rows[..|rows| - 1], p);
    }
  }

  lemma {:induction false} ReversalCancels(rows: seq<Row>, p: Id, q: Id, r: Id)
    requires p != q && forall row :: row in rows ==> row.payment != q && (row.payment == p ==> row.kind == Allocation)
    ensures var rows' := rows + Stamp(|rows|, Mirror(RowsOf(rows, p), q));
      UsedOn(rows', q, r) == UsedOn(rows', p, r)
  {
    var drafts := Mirror(RowsOf(rows, p), q);
    MirrorNet(rows, p, q, r);
    TotalConcat(rows, Stamp(|rows|, drafts), ChargeOn(q, r));
    TotalZero(rows, ChargeOn(q, r));
    OthersUntouched(rows, drafts, q, p, r);
  }

  lemma {:induction false} ReverseTakesBack(rows: seq<Row>, p: Id, q: Id, r: Id)
    requires forall row :: row in rows && row.payment == p ==> row.kind == Allocation
    ensures Net(rows + Stamp(|rows|, Mirror(RowsOf(rows, p), q)), r) == Net(rows, r) - UsedOn(rows, p, r)
  {
    MirrorNet(rows, p, q, r);
    TotalConcat(rows, Stamp(|rows|, Mirror(RowsOf(rows, p), q)), Signed(r));
  }

  lemma {:induction false} ReverseLive(rows: seq<Row>, p: Id, q: Id, r: Id, reversed: set<Id>)
    requires forall row :: row in rows && row.payment == p ==> row.kind == Allocation
    requires forall row :: row in rows ==> row.amount > 0
    requires p !in reversed
    ensures Live(rows + Stamp(|rows|, Mirror(RowsOf(rows, p), q)), reversed + {p}, r)
      == Live(rows, reversed, r) - UsedOn(rows, p, r)
    ensures 0 <= UsedOn(rows, p, r) <= Live(rows, reversed, r)
  {
    MirrorsNotLive(rows, Mirror(RowsOf(rows, p), q), reversed + {p}, r);
    TotalPlus(rows, LiveOn(reversed + {p}, r), ChargeOn(p, r), LiveOn(reversed, r));
    TotalBounds(rows, LiveOn(reversed + {p}, r));
    TotalBounds(rows, ChargeOn(p, r));
  }

  lemma {:induction false} MirrorsNotLive(rows: seq<Row>, drafts: seq<Row>, reversed: set<Id>, r: Id)
    requires forall row :: row in drafts ==> row.kind == Reversal
    ensures Live(rows + Stamp(|rows|, drafts), reversed, r) == Live(rows, reversed, r)
  {
    InsertIgnored(rows, drafts, LiveOn(reversed, r));
  }

  lemma {:induction false} NoShare(rows: seq<Row>, p: Id, r: Id)
    requires r !in Targets(RowsOf(rows, p))
    ensures UsedOn(rows, p, r) == 0
  {
    forall i | 0 <= i < |rows| ensures ChargeOn(p, r)(rows[i]) == 0 {
      assert rows[i].payment == p ==> rows[i] in RowsOf(rows, p);
    }
    TotalZero(rows, ChargeOn(p, r));
  }

  lemma {:induction false} SomeShare(rows: seq<Row>, p: Id, r: Id)
    requires (forall row :: row in rows ==> row.amount > 0) && r in Targets(RowsOf(rows, p))
    ensures UsedOn(rows, p, r) > 0
  {
    TotalBounds(rows, ChargeOn(p, r));
    var row :| row in RowsOf(rows, p) && row.target == r;
    var i :| 0 <= i < |rows| && rows[i] == row;
    assert ChargeOn(p, r)(rows[i]) > 0;
  }
}
