/** What the shipment commands answer and write, said in terms of orders, lines, shipments and items. */
module ShipmentAnswers {
  import opened Prelude
  import opened Shipments

  // ---- Planning a shipment -------------------------------------------------------------------------------

  predicate Distinct(wanted: seq<Wanted>) {
    forall i, j :: 0 <= i < j < |wanted| ==> wanted[i].line != wanted[j].line
  }

  lemma {:induction false} DistinctLines(wanted: seq<Wanted>)
    ensures |WantedLines(wanted)| == |wanted| <==> Distinct(wanted)
  {
    if wanted != [] {
      var init, last := wanted[..|wanted| - 1], wanted[|wanted| - 1];
      DistinctLines(init);
      LinesAtMost(init);
      assert wanted == init + [last];
      assert WantedLines(wanted) == WantedLines(init) + {last.line};
      assert last.line in WantedLines(init) <==> exists w :: w in init && w.line == last.line;
      assert last.line in WantedLines(init) ==> WantedLines(wanted) == WantedLines(init);
    }
  }

  predicate LinesKnown(y: Yard, wanted: seq<Wanted>) { forall w :: w in wanted ==> w.line in y.lines }

  predicate OrdersKnown(y: Yard, wanted: seq<Wanted>) {
    forall w :: w in wanted ==> w.line in y.lines && y.lines[w.line].order in y.orders
  }

  predicate OrdersReady(y: Yard, wanted: seq<Wanted>) {
    forall w :: w in wanted ==>
      && w.line in y.lines && y.lines[w.line].order in y.orders
      && (y.orders[y.lines[w.line].order] == Executing || y.orders[y.lines[w.line].order] == ReadyToShip)
  }

  predicate Fits(y: Yard, wanted: seq<Wanted>) {
    forall w :: w in wanted ==> w.line in y.lines && Planned(y, w.line) + w.quantity <= y.lines[w.line].quantity
  }

  /** Why a plan is refused: the first reason that applies. */
  function PlanRefusal(y: Yard, wanted: seq<Wanted>): Option<Error> {
    if !Distinct(wanted) then Some(DuplicateLine)
    else if !LinesKnown(y, wanted) then Some(LineNotFound)
    else if !OrdersKnown(y, wanted) then Some(OrderNotFound)
    else if !OrdersReady(y, wanted) then Some(OrderNotExecuting)
    else if !Fits(y, wanted) then Some(QuantityExceeded)
    else None
  }

  lemma {:induction false} LinesOfWanted(y: Yard, wanted: seq<Wanted>)
    ensures WantedLines(wanted) <= y.lines.Keys <==> LinesKnown(y, wanted)
    ensures LinesKnown(y, wanted) ==>
      (OrdersOf(y, WantedLines(wanted)) <= y.orders.Keys <==> OrdersKnown(y, wanted))
  {
    assert forall w :: w in wanted ==> w.line in WantedLines(wanted);
    if LinesKnown(y, wanted) {
      assert forall w :: w in wanted ==> y.lines[w.line].order in OrdersOf(y, WantedLines(wanted));
    }
  }

  lemma {:induction false} OrdersOfWanted(y: Yard, wanted: seq<Wanted>)
    requires OrdersKnown(y, wanted)
    ensures OrdersOf(y, WantedLines(wanted)) <= y.orders.Keys
    ensures (exists o :: o in OrdersOf(y, WantedLines(wanted)) && y.orders[o] !in {Executing, ReadyToShip}) <==>
      !OrdersReady(y, wanted)
  {
    assert forall w :: w in wanted ==> y.lines[w.line].order in OrdersOf(y, WantedLines(wanted));
  }

  lemma {:induction false} Plans(y: Yard, c: Command)
    requires c.Create?
    ensures var refusal := PlanRefusal(y, c.wanted);
      if refusal.Some? then ApplyCreate(y, c) == (y, Err(refusal.value)) else ApplyCreate(y, c).1 == Ok(c.id)
  {
    DistinctLines(c.wanted);
    LinesOfWanted(y, c.wanted);
    if OrdersKnown(y, c.wanted) {
      OrdersOfWanted(y, c.wanted);
    }
  }

  /** A shipment is planned exactly for distinct known lines of executing orders, each within what its line
      has left; it starts in planning with one item per line, and nothing else changes. */
  lemma {:induction false} CreateAnswers(y: Yard, c: Command)
    requires c.Create?
    ensures Apply(y, c).1.Ok? <==>
      && (forall i, j :: 0 <= i < j < |c.wanted| ==> c.wanted[i].line != c.wanted[j].line)
      && forall w :: w in c.wanted ==>
          && w.line in y.lines && y.lines[w.line].order in y.orders
          && (y.orders[y.lines[w.line].order] == Executing || y.orders[y.lines[w.line].order] == ReadyToShip)
          && w.quantity <= y.lines[w.line].quantity - Planned(y, w.line)
    ensures Apply(y, c).1.Err? ==> Apply(y, c) == (y, Err(PlanRefusal(y, c.wanted).value))
    ensures Apply(y, c).1.Ok? ==>
      var y' := Apply(y, c).0;
      && y' == y.(shipments := y.shipments[c.id := Shipment(Planning, map[], None, 1)], items := y'.items)
      && |y'.items| == |y.items| + |c.wanted| && y'.items[..|y.items|] == y.items
      && forall k :: 0 <= k < |c.wanted| ==>
           y'.items[|y.items| + k] == Item(c.id, c.wanted[k].line, c.wanted[k].quantity)
  {
    Plans(y, c);
  }

  // ---- Milestones -------------------------------------------------------------------------------------------

  /** Milestones come in one order. */
  predicate Precedes(before: Status, after: Status) {
    || (before == Planning && after == Booked) || (before == Booked && after == Ready)
    || (before == Ready && after == Customs) || (before == Customs && after == Departed)
    || (before == Departed && after == InTransit) || (before == InTransit && after == Arrived)
    || (before == Arrived && after == Delivered)
  }

  lemma {:induction false} StagesAre(before: Status, after: Status)
    ensures Stage(after) == Stage(before) + 1 <==> Precedes(before, after)
  {
  }

  /** The lines of a shipment. */
  predicate Carries(y: Yard, shipment: Id, line: Id) {
    exists item :: item in y.items && item.shipment == shipment && item.line == line
  }

  lemma {:induction false} CarriesIs(y: Yard, shipment: Id)
    ensures forall line :: line in LinesOf(y, shipment) <==> Carries(y, shipment, line)
  {
  }

  ghost predicate SourcesKnown(y: Yard, shipment: Id) {
    && (exists line :: Carries(y, shipment, line))
    && forall line :: Carries(y, shipment, line) ==> line in y.lines && y.lines[line].order in y.orders
  }

  ghost predicate SomeOrder(y: Yard, shipment: Id, statuses: set<OrderStatus>) {
    exists line :: Carries(y, shipment, line) && line in y.lines && y.lines[line].order in y.orders
                   && y.orders[y.lines[line].order] in statuses
  }

  ghost predicate Overplanned(y: Yard, shipment: Id) {
    exists line :: Carries(y, shipment, line) && line in y.lines && Planned(y, line) > y.lines[line].quantity
  }

  /** Why the sources of a shipment stop a milestone: the first reason that applies. */
  ghost function SourceProblem(y: Yard, shipment: Id): Option<Error> {
    if !SourcesKnown(y, shipment) then Some(LineNotFound)
    else if SomeOrder(y, shipment, {Completed, Cancelled}) then Some(OrderFinalized)
    else if SomeOrder(y, shipment, {Draft, Confirmed, DepositPending}) then Some(OrderNotExecuting)
    else if Overplanned(y, shipment) then Some(QuantityExceeded)
    else None
  }

  lemma {:induction false} KnownSources(y: Yard, shipment: Id)
    ensures var lines := LinesOf(y, shipment);
      lines == {} || !(lines <= y.lines.Keys) || !(OrdersOf(y, lines) <= y.orders.Keys) <==> !SourcesKnown(y, shipment)
  {
    CarriesIs(y, shipment);
    var lines := LinesOf(y, shipment);
    if lines != {} {
      var line :| line in lines;
      assert Carries(y, shipment, line);
    }
    assert forall line :: line in lines && line in y.lines ==> y.lines[line].order in OrdersOf(y, lines);
  }

  lemma {:induction false} SourceOrders(y: Yard, shipment: Id, statuses: set<OrderStatus>)
    requires SourcesKnown(y, shipment)
    ensures var orders := OrdersOf(y, LinesOf(y, shipment));
      orders <= y.orders.Keys && ((exists o :: o in orders && y.orders[o] in statuses) <==>
        SomeOrder(y, shipment, statuses))
  {
    CarriesIs(y, shipment);
    KnownSources(y, shipment);
    assert forall line :: line in LinesOf(y, shipment) ==> y.lines[line].order in OrdersOf(y, LinesOf(y, shipment));
  }

  predicate InTransitStatus(status: OrderStatus) {
    status in {Executing, ReadyToShip, Shipped} <==>
      status !in {Completed, Cancelled} && status !in {Draft, Confirmed, DepositPending}
  }

  lemma {:induction false} StatusKinds(status: OrderStatus)
    ensures InTransitStatus(status)
  {
    match status
    case Draft =>
    case Confirmed =>
    case DepositPending =>
    case Executing =>
    case ReadyToShip =>
    case Shipped =>
    case Completed =>
    case Cancelled =>
  }

  lemma {:induction false} SourcesAre(y: Yard, shipment: Id)
    ensures SourceRefusal(y, LinesOf(y, shipment)) == SourceProblem(y, shipment)
  {
    KnownSources(y, shipment);
    CarriesIs(y, shipment);
    if SourcesKnown(y, shipment) {
      SourceOrders(y, shipment, {Completed, Cancelled});
      SourceOrders(y, shipment, {Draft, Confirmed, DepositPending});
      forall o | o in y.orders ensures InTransitStatus(y.orders[o]) { StatusKinds(y.orders[o]); }
    }
  }

  /** A milestone is reached exactly from the one before it, at the expected version, with sources in order,
      and, from readiness to departure, with its documents complete. */
  lemma {:induction false} MoveAnswers(y: Yard, c: Command)
    requires c.Move? && c.shipment in y.shipments && y.shipments[c.shipment].status != c.target
    ensures Apply(y, c).1.Ok? <==>
      && y.shipments[c.shipment].version == c.version && SourceProblem(y, c.shipment).None?
      && Precedes(y.shipments[c.shipment].status, c.target)
      && (c.target == Ready || c.target == Customs || c.target == Departed ==> c.documents)
    ensures Apply(y, c).1.Err? ==> Apply(y, c).0 == y
    ensures Apply(y, c).1.Ok? ==>
      var row := y.shipments[c.shipment];
      Apply(y, c).0 == y.(shipments := y.shipments[c.shipment := row.(
        status := c.target, stamps := row.stamps[c.target := c.now], version := row.version + 1,
        reference := if c.target == Booked then c.reference else row.reference)])
  {
    SourcesAre(y, c.shipment);
    StagesAre(y.shipments[c.shipment].status, c.target);
  }

  /** Which refusal: the first reason that applies. */
  lemma {:induction false} MoveRefused(y: Yard, c: Command)
    requires c.Move? && Apply(y, c).1.Err?
    ensures Apply(y, c).1.error ==
      if c.shipment !in y.shipments then ShipmentNotFound
      else if y.shipments[c.shipment].version != c.version then VersionConflict
      else if SourceProblem(y, c.shipment).Some? then SourceProblem(y, c.shipment).value
      else if y.shipments[c.shipment].status == c.target then ReferenceConflict
      else if !Precedes(y.shipments[c.shipment].status, c.target) then InvalidTransition
      else DocumentsIncomplete
  {
    if c.shipment in y.shipments {
      SourcesAre(y, c.shipment);
      StagesAre(y.shipments[c.shipment].status, c.target);
    }
  }

  /** A repeat changes nothing; a booking may not be repeated with another reference. */
  lemma {:induction false} RepeatAnswers(y: Yard, c: Command)
    requires c.Move? && c.shipment in y.shipments && y.shipments[c.shipment].status == c.target
    ensures Apply(y, c).0 == y
    ensures Apply(y, c).1.Ok? <==>
      && y.shipments[c.shipment].version == c.version && SourceProblem(y, c.shipment).None?
      && (c.target == Booked ==> c.reference == y.shipments[c.shipment].reference)
  {
    SourcesAre(y, c.shipment);
  }

  /** What counts as ready and as departed. */
  lemma {:induction false} CountedAtStage(y: Yard, item: Item)
    requires item.shipment in y.shipments
    ensures var status := y.shipments[item.shipment].status;
      && AtStage(y.shipments, item.line, 2)(item) == (if status in {Planning, Booked} then 0 else item.quantity)
      && AtStage(y.shipments, item.line, 4)(item)
         == (if status in {Planning, Booked, Ready, Customs} then 0 else item.quantity)
  {
  }
}
