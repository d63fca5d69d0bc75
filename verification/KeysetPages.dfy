/** Keyset pagination of payments, and the client's merging of pages. */
module KeysetPages {
  import opened Prelude

  /** `info` stands for everything the filters look at. */
  datatype Row = Row(received: int, created: int, id: Id, info: Id)

  type Filter = Row -> bool

  datatype Page = Page(items: seq<Row>, nextCursor: Option<Id>)

  datatype PageError = CursorNotFound

  /** The row comparison (received_at, created_at, id) < (...). */
  predicate Less(a: Row, b: Row) {
    a.received < b.received || (a.received == b.received
      && (a.created < b.created || (a.created == b.created && a.id < b.id)))
  }

  ghost predicate UniqueIds(rows: set<Row>) {
    forall a, b :: a in rows && b in rows && a.id == b.id ==> a == b
  }

  predicate Greatest(rows: set<Row>, m: Row) { m in rows && forall r :: r in rows ==> r == m || Less(r, m) }

  ghost predicate Descends(q: seq<Row>) { forall i, j :: 0 <= i < j < |q| ==> Less(q[j], q[i]) }

  function Items(q: seq<Row>): set<Row> { set r | r in q }

  lemma {:induction false} GreatestExists(rows: set<Row>)
    requires UniqueIds(rows) && rows != {}
    ensures exists m :: Greatest(rows, m)
  {
    var x :| x in rows;
    var rest := rows - {x};
    if rest == {} {
      assert forall r :: r in rows ==> r == x || r in rest;
      assert Greatest(rows, x);
    } else {
      GreatestExists(rest);
      var m :| Greatest(rest, m);
      assert forall r :: r in rows ==> r == x || r in rest;
      assert Greatest(rows, if Less(m, x) then x else m);
    }
  }

  lemma {:induction false} DescendsFrom(m: Row, rest: seq<Row>, rows: set<Row>)
    requires Greatest(rows, m) && Descends(rest) && Items(rest) == rows - {m}
    ensures Descends([m] + rest) && Items([m] + rest) == rows
  {
    var q := [m] + rest;
    assert forall r :: r in q <==> r == m || r in rest;
    assert Items(q) == {m} + Items(rest);
    forall i, j | 0 <= i < j < |q| ensures Less(q[j], q[i]) {
      assert q[j] == rest[j - 1] && q[j] in Items(rest);
      if i > 0 {
        assert q[i] == rest[i - 1];
      }
    }
  }

  /** ORDER BY received_at DESC, created_at DESC, id DESC. */
  ghost function Descending(rows: set<Row>): (q: seq<Row>)
    requires UniqueIds(rows)
    ensures Descends(q) && Items(q) == rows && |q| == |rows|
  {
    if rows == {} then [] else
      GreatestExists(rows);
      var m :| Greatest(rows, m);
      var rest := Descending(rows - {m});
      DescendsFrom(m, rest, rows);
      [m] + rest
  }

  // ---- One page ---------------------------------------------------------------------------------

  /** The filtered rows after the anchor. */
  function Remaining(table: set<Row>, keep: Filter, anchor: Option<Row>): set<Row> {
    set r | r in table && keep(r) && (anchor.Some? ==> Less(r, anchor.value))
  }

  /** list_recent: the anchor is looked up within the filtered rows. */
  ghost function ListRecent(table: set<Row>, keep: Filter, cursor: Option<Id>, limit: nat): Result<seq<Row>, PageError>
    requires UniqueIds(table)
  {
    if cursor.Some? && !(exists a :: a in table && keep(a) && a.id == cursor.value) then Err(CursorNotFound)
    else
      var anchor := if cursor.None? then None else var a :| a in table && keep(a) && a.id == cursor.value; Some(a);
      var q := Descending(Remaining(table, keep, anchor));
      Ok(if |q| <= limit then q else q[..limit])
  }

  /** list_payments: one row more than the page tells whether there is another. */
  ghost function ListPayments(table: set<Row>, keep: Filter, cursor: Option<Id>, limit: nat): Result<Page, PageError>
    requires UniqueIds(table) && limit >= 1
  {
    match ListRecent(table, keep, cursor, limit + 1)
    case Err(error) => Err(error)
    case Ok(rows) => Ok(PageFrom(rows, limit))
  }

  function PageFrom(rows: seq<Row>, limit: nat): Page
    requires limit >= 1
  {
    var items := if |rows| <= limit then rows else rows[..limit];
    Page(items, if |rows| > limit then Some(items[|items| - 1].id) else None)
  }

  // ---- Sorted sequences are unique --------------------------------------------------------------

  lemma {:induction false} DescendingUnique(p: seq<Row>, q: seq<Row>)
    requires Descends(p) && Descends(q) && Items(p) == Items(q)
    ensures p == q
  {
    if p == [] {
      assert forall i :: 0 <= i < |q| ==> q[i] in Items(p);
    } else {
      assert p[0] in Items(q) && q != [];
      assert q[0] in Items(p);
      assert p[0] == q[0];
      ItemsTail(p);
      ItemsTail(q);
      DescendingUnique(p[1..], q[1..]);
    }
  }

  lemma {:induction false} ItemsTail(q: seq<Row>)
    requires Descends(q) && q != []
    ensures Items(q[1..]) == Items(q) - {q[0]} && Descends(q[1..])
  {
  }

  lemma {:induction false} TailDescends(q: seq<Row>, rows: set<Row>, k: nat)
    requires Descends(q) && Items(q) == rows && 1 <= k <= |q|
    ensures Descends(q[k..]) && Items(q[k..]) == set r | r in rows && Less(r, q[k - 1])
  {
  }

  lemma {:induction false} RemainingBelow(table: set<Row>, keep: Filter, anchor: Option<Row>, last: Row)
    requires last in Remaining(table, keep, anchor)
    ensures Remaining(table, keep, Some(last)) == set r | r in Remaining(table, keep, anchor) && Less(r, last)
  {
  }

  /** What follows the k-th row is everything below it. */
  lemma {:induction false} TailIsRemaining(table: set<Row>, keep: Filter, anchor: Option<Row>, q: seq<Row>, k: nat)
    requires UniqueIds(table) && q == Descending(Remaining(table, keep, anchor)) && 1 <= k <= |q|
    ensures q[k - 1] in Remaining(table, keep, anchor)
    ensures q[k..] == Descending(Remaining(table, keep, Some(q[k - 1])))
  {
    assert q[k - 1] in Items(q);
    TailDescends(q, Remaining(table, keep, anchor), k);
    RemainingBelow(table, keep, anchor, q[k - 1]);
    DescendingUnique(q[k..], Descending(Remaining(table, keep, Some(q[k - 1]))));
  }

  // ---- Following the cursors --------------------------------------------------------------------

  /** Rows that arrive between two requests of a walk: new ids, above the cursor. */
  function Arrived(table: set<Row>, arriving: set<Row>, anchor: Row): set<Row> {
    set r | r in arriving && Less(anchor, r) && forall x :: x in table ==> x.id != r.id
  }

  ghost predicate ArrivalsUnique(arrivals: nat -> set<Row>) {
    forall i {:trigger arrivals(i)} :: UniqueIds(arrivals(i))
  }

  ghost predicate AnchoredIn(table: set<Row>, keep: Filter, anchor: Option<Row>) {
    anchor.Some? ==> anchor.value in table && keep(anchor.value)
  }

  function CursorOf(anchor: Option<Row>): Option<Id> { if anchor.Some? then Some(anchor.value.id) else None }

  function FirstPage(q: seq<Row>, limit: nat): Page
    requires limit >= 1
  {
    if |q| <= limit then Page(q, None) else Page(q[..limit], Some(q[limit - 1].id))
  }

  lemma {:induction false} RecentAt(table: set<Row>, keep: Filter, anchor: Option<Row>, limit: nat, q: seq<Row>)
    requires UniqueIds(table) && AnchoredIn(table, keep, anchor) && q == Descending(Remaining(table, keep, anchor))
    ensures ListRecent(table, keep, CursorOf(anchor), limit) == Ok(if |q| <= limit then q else q[..limit])
  {
  }

  lemma {:induction false} AnchorFound(table: set<Row>, keep: Filter, anchor: Option<Row>, limit: nat, q: seq<Row>)
    requires UniqueIds(table) && limit >= 1 && AnchoredIn(table, keep, anchor)
      && q == Descending(Remaining(table, keep, anchor))
    ensures ListPayments(table, keep, CursorOf(anchor), limit) == Ok(FirstPage(q, limit))
  {
    RecentAt(table, keep, anchor, limit + 1, q);
    OneMore(q, limit);
  }

  /** The extra row only tells that there is another page. */
  lemma {:induction false} OneMore(q: seq<Row>, limit: nat)
    requires limit >= 1
    ensures PageFrom(if |q| <= limit + 1 then q else q[..limit + 1], limit) == FirstPage(q, limit)
  {
  }

  /** The pages a client gets by following next cursors while rows keep arriving above its cursor. */
  ghost function Walk(table: set<Row>, keep: Filter, anchor: Option<Row>, limit: nat, arrivals: nat -> set<Row>, i: nat)
      : seq<Page>
    requires UniqueIds(table) && limit >= 1 && ArrivalsUnique(arrivals) && AnchoredIn(table, keep, anchor)
    decreases |Remaining(table, keep, anchor)|
  {
    var q := Descending(Remaining(table, keep, anchor));
    var listed := ListPayments(table, keep, CursorOf(anchor), limit);
    assert listed == Ok(FirstPage(q, limit)) by { AnchorFound(table, keep, anchor, limit, q); }
    var page := listed.value;
    if page.nextCursor.None? then [page]
    else
      var last := page.items[|page.items| - 1];
      assert last == q[limit - 1];
      WalkShrinks(table, keep, anchor, limit, arrivals(i), q);
      [page] + Walk(table + Arrived(table, arrivals(i), last), keep, Some(last), limit, arrivals, i + 1)
  }

  lemma {:induction false} LaterTable(table: set<Row>, keep: Filter, arriving: set<Row>, last: Row)
    requires UniqueIds(table) && UniqueIds(arriving) && last in table && keep(last)
    ensures var later := table + Arrived(table, arriving, last);
      && UniqueIds(later) && AnchoredIn(later, keep, Some(last))
      && Remaining(later, keep, Some(last)) == Remaining(table, keep, Some(last))
  {
  }

  lemma {:induction false} WalkShrinks(table: set<Row>, keep: Filter, anchor: Option<Row>, limit: nat,
      arriving: set<Row>, q: seq<Row>)
    requires UniqueIds(table) && UniqueIds(arriving) && limit >= 1
    requires q == Descending(Remaining(table, keep, anchor)) && |q| > limit
    ensures var last := q[limit - 1]; var later := table + Arrived(table, arriving, last);
      && UniqueIds(later) && AnchoredIn(later, keep, Some(last))
      && |Remaining(later, keep, Some(last))| < |Remaining(table, keep, anchor)|
      && Descending(Remaining(later, keep, Some(last))) == q[limit..]
  {
    TailIsRemaining(table, keep, anchor, q, limit);
    LaterTable(table, keep, arriving, q[limit - 1]);
  }

  function Joined(pages: seq<Page>): seq<Row> {
    if pages == [] then [] else pages[0].items + Joined(pages[1..])
  }

  lemma {:induction false} WalkEnds(table: set<Row>, keep: Filter, anchor: Option<Row>, limit: nat,
    arrivals: nat -> set<Row>, i: nat, q: seq<Row>)
    requires UniqueIds(table) && limit >= 1 && ArrivalsUnique(arrivals) && AnchoredIn(table, keep, anchor)
    requires q == Descending(Remaining(table, keep, anchor)) && |q| <= limit
    ensures Walk(table, keep, anchor, limit, arrivals, i) == [Page(q, None)]
  {
    AnchorFound(table, keep, anchor, limit, q);
  }

  lemma {:induction false} WalkGoesOn(
      table: set<Row>, keep: Filter, anchor: Option<Row>, limit: nat, arrivals: nat -> set<Row>, i: nat, q: seq<Row>,
      later: set<Row>)
    requires UniqueIds(table) && limit >= 1 && ArrivalsUnique(arrivals) && AnchoredIn(table, keep, anchor)
    requires q == Descending(Remaining(table, keep, anchor)) && |q| > limit
    requires later == table + Arrived(table, arrivals(i), q[limit - 1])
    requires UniqueIds(later) && AnchoredIn(later, keep, Some(q[limit - 1]))
    ensures Walk(table, keep, anchor, limit, arrivals, i)
      == [Page(q[..limit], Some(q[limit - 1].id))] + Walk(later, keep, Some(q[limit - 1]), limit, arrivals, i + 1)
  {
    AnchorFound(table, keep, anchor, limit, q);
  }

  ghost predicate FullPages(pages: seq<Page>, limit: nat) {
    && pages != []
    && (forall k :: 0 <= k < |pages| - 1 ==> |pages[k].items| == limit && pages[k].nextCursor.Some?)
    && pages[|pages| - 1].nextCursor.None? && |pages[|pages| - 1].items| <= limit
  }

  /** No skip and no repeat: the pages together are the list as it was at the first request, in order,
      and only the last page may be short. */
  lemma {:induction false} WalkComplete(table: set<Row>, keep: Filter, anchor: Option<Row>, limit: nat,
      arrivals: nat -> set<Row>, i: nat)
    requires UniqueIds(table) && limit >= 1 && ArrivalsUnique(arrivals) && AnchoredIn(table, keep, anchor)
    ensures Joined(Walk(table, keep, anchor, limit, arrivals, i)) == Descending(Remaining(table, keep, anchor))
    ensures FullPages(Walk(table, keep, anchor, limit, arrivals, i), limit)
    decreases |Remaining(table, keep, anchor)|
  {
    var q := Descending(Remaining(table, keep, anchor));
    if |q| <= limit {
      WalkEnds(table, keep, anchor, limit, arrivals, i, q);
      OnlyPage(q, limit);
    } else {
      var last := q[limit - 1];
      var later := table + Arrived(table, arrivals(i), last);
      WalkShrinks(table, keep, anchor, limit, arrivals(i), q);
      WalkGoesOn(table, keep, anchor, limit, arrivals, i, q, later);
      WalkComplete(later, keep, Some(last), limit, arrivals, i + 1);
      AddPage(q, limit, last.id, Walk(later, keep, Some(last), limit, arrivals, i + 1));
    }
  }

  lemma {:induction false} OnlyPage(q: seq<Row>, limit: nat)
    requires |q| <= limit
    ensures Joined([Page(q, None)]) == q && FullPages([Page(q, None)], limit)
  {
  }

  lemma {:induction false} AddPage(q: seq<Row>, limit: nat, cursor: Id, rest: seq<Page>)
    requires |q| > limit && FullPages(rest, limit) && Joined(rest) == q[limit..]
    ensures var pages := [Page(q[..limit], Some(cursor))] + rest; Joined(pages) == q && FullPages(pages, limit)
  {
  }

  // ---- collectCursorItems -----------------------------------------------------------------------

  function IdsOf(q: seq<Row>): set<Id> { set r | r in q :: r.id }

  /** Array.from(new Map(items.map(item => [item.id, item])).values()): a repeated id keeps its place and
      takes the later item. */
  function Collect(items: seq<Row>): seq<Row> {
    if items == [] then [] else
      var kept, last := Collect(items[..|items| - 1]), items[|items| - 1];
      if last.id in IdsOf(kept) then Replace(kept, last) else kept + [last]
  }

  function Replace(q: seq<Row>, item: Row): (r: seq<Row>)
    ensures |r| == |q| && forall i :: 0 <= i < |q| ==> r[i] == if q[i].id == item.id then item else q[i]
  {
    seq(|q|, i requires 0 <= i < |q| => if q[i].id == item.id then item else q[i])
  }

  ghost predicate DistinctIds(q: seq<Row>) { forall i, j :: 0 <= i < j < |q| ==> q[i].id != q[j].id }

  lemma {:induction false} ReplaceIds(q: seq<Row>, item: Row)
    requires item.id in IdsOf(q)
    ensures IdsOf(Replace(q, item)) == IdsOf(q) && (DistinctIds(q) ==> DistinctIds(Replace(q, item)))
      && item in Replace(q, item)
  {
  }

  /** Merging loses no id and repeats none. */
  lemma {:induction false} CollectKeepsIds(items: seq<Row>)
    ensures IdsOf(Collect(items)) == IdsOf(items) && DistinctIds(Collect(items))
  {
    if items != [] {
      var init, last := items[..|items| - 1], items[|items| - 1];
      CollectKeepsIds(init);
      assert items == init + [last];
      assert IdsOf(items) == IdsOf(init) + {last.id};
      var kept := Collect(init);
      if last.id in IdsOf(kept) {
        ReplaceIds(kept, last);
      } else {
        assert IdsOf(kept + [last]) == IdsOf(kept) + {last.id};
        assert forall r :: r in kept ==> r.id in IdsOf(kept);
      }
    }
  }

  /** Pages without repeats are merged unchanged. */
  lemma {:induction false} CollectUnchanged(items: seq<Row>)
    requires DistinctIds(items)
    ensures Collect(items) == items
  {
    if items != [] {
      var init, last := items[..|items| - 1], items[|items| - 1];
      CollectUnchanged(init);
      assert last.id !in IdsOf(init);
      assert items == init + [last];
    }
  }

  /** What the client shows after following all cursors is the whole list, once, in order. */
  lemma {:induction false} ClientSeesAll(table: set<Row>, keep: Filter, limit: nat, arrivals: nat -> set<Row>)
    requires UniqueIds(table) && limit >= 1 && ArrivalsUnique(arrivals)
    ensures Collect(Joined(Walk(table, keep, None, limit, arrivals, 0))) == Descending(Remaining(table, keep, None))
  {
    var q := Descending(Remaining(table, keep, None));
    WalkComplete(table, keep, None, limit, arrivals, 0);
    forall i, j | 0 <= i < j < |q| ensures q[i].id != q[j].id {
      assert q[i] in Items(q) && q[j] in Items(q);
    }
    CollectUnchanged(q);
  }

  // ---- The order of the list ----------------------------------------------------------------------

  /** Newest first: by receipt time, then by creation time, then by id, each descending. */
  lemma {:induction false} NewestFirst(table: set<Row>, keep: Filter, i: nat, j: nat)
    requires UniqueIds(table) && i < j < |Descending(Remaining(table, keep, None))|
    ensures var a, b := Descending(Remaining(table, keep, None))[i], Descending(Remaining(table, keep, None))[j];
      && a.received >= b.received
      && (a.received == b.received ==> a.created >= b.created)
      && (a.received == b.received && a.created == b.created ==> a.id > b.id)
  {
  }

  /** The rows listed are the filtered ones; after a cursor, only those that come later in that order. */
  lemma {:induction false} ListedRows(table: set<Row>, keep: Filter, anchor: Option<Row>, r: Row)
    requires UniqueIds(table)
    ensures r in Descending(Remaining(table, keep, anchor)) <==>
      && r in table && keep(r)
      && (anchor.Some? ==>
            || r.received < anchor.value.received
            || (r.received == anchor.value.received && r.created < anchor.value.created)
            || (r.received == anchor.value.received && r.created == anchor.value.created && r.id < anchor.value.id))
  {
    assert r in Descending(Remaining(table, keep, anchor)) <==> r in Items(Descending(Remaining(table, keep, anchor)));
  }

  /** A cursor that is no longer among the filtered rows is refused; any other gives at most `limit` rows. */
  lemma {:induction false} PageAnswers(table: set<Row>, keep: Filter, cursor: Option<Id>, limit: nat)
    requires UniqueIds(table) && limit >= 1
    ensures ListPayments(table, keep, cursor, limit).Err? <==>
      cursor.Some? && forall r :: r in table && keep(r) ==> r.id != cursor.value
    ensures ListPayments(table, keep, cursor, limit).Ok? ==>
      var page := ListPayments(table, keep, cursor, limit).value;
      && |page.items| <= limit
      && (page.nextCursor.Some? ==> |page.items| == limit && page.nextCursor.value == page.items[limit - 1].id)
  {
  }
}
