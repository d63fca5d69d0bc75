/** Shipments of sales order lines: cumulative quantities, and the milestone machine. */
module Shipments {
  import opened Prelude

  datatype Status = Planning | Booked | Ready | Customs | Departed | InTransit | Arrived | Delivered

  datatype OrderStatus = Draft | Confirmed | DepositPending | Executing | ReadyToShip | Shipped | Completed | Cancelled

  /** A sales order line; it is not changed once the order executes. Quantities are in units of 10^-4. */
  datatype Line = Line(order: Id, quantity: int)

  /** `stamps` holds the milestone timestamp fields that are set. */
  datatype Shipment = Shipment(status: Status, stamps: map<Status, int>, reference: Option<Id>, version: int)

  datatype Item = Item(shipment: Id, line: Id, quantity: int)

  datatype Wanted = Wanted(line: Id, quantity: int)

  datatype Yard = Yard(orders: map<Id, OrderStatus>, lines: map<Id, Line>, shipments: map<Id, Shipment>,
    items: seq<Item>)

  /** Placing orders and moving them between statuses stands for the sales module. */
  datatype Command =
    | SetOrder(order: Id, status: OrderStatus)
    | AddLine(line: Id, added: Line)
    | Create(id: Id, wanted: seq<Wanted>)
    | Move(shipment: Id, target: Status, version: int, reference: Option<Id>, documents: bool, now: int)

  datatype Error =
    | DuplicateLine | LineNotFound | OrderNotFound | OrderNotExecuting | QuantityExceeded
    | ShipmentNotFound | VersionConflict | OrderFinalized | ReferenceConflict | InvalidTransition | DocumentsIncomplete

  function Stage(s: Status): nat {
    match s
    case Planning => 0
    case Booked => 1
    case Ready => 2
    case Customs => 3
    case Departed => 4
    case InTransit => 5
    case Arrived => 6
    case Delivered => 7
  }

  // ---- Sums over shipment items -----------------------------------------------------------------

  function Sum(items: seq<Item>, weight: Item -> int): int {
    if items == [] then 0 else Sum(items[..|items| - 1], weight) + weight(items[|items| - 1])
  }

  function OnLine(line: Id): Item -> int { (item: Item) => if item.line == line then item.quantity else 0 }

  /** Items of `line` whose shipment has reached `stage`. */
  function AtStage(shipments: map<Id, Shipment>, line: Id, stage: nat): Item -> int {
    (item: Item) =>
      if item.line == line && item.shipment in shipments
        && Stage(shipments[item.shipment].status) >= stage then item.quantity else 0
  }

  function Planned(y: Yard, line: Id): int { Sum(y.items, OnLine(line)) }

  /** milestone_quantities(departed=False) and (departed=True). */
  function ReadyQuantity(y: Yard, line: Id): int { Sum(y.items, AtStage(y.shipments, line, 2)) }

  function DepartedQuantity(y: Yard, line: Id): int { Sum(y.items, AtStage(y.shipments, line, 4)) }

  // ---- Commands ---------------------------------------------------------------------------------

  function WantedLines(wanted: seq<Wanted>): set<Id> { set w | w in wanted :: w.line }

  function ItemsFor(id: Id, wanted: seq<Wanted>): (items: seq<Item>)
    ensures |items| == |wanted|
    ensures forall i :: 0 <= i < |wanted| ==> items[i] == Item(id, wanted[i].line, wanted[i].quantity)
  {
    seq(|wanted|, i requires 0 <= i < |wanted| => Item(id, wanted[i].line, wanted[i].quantity))
  }

  predicate AnyExceeds(y: Yard, wanted: seq<Wanted>) {
    exists w :: w in wanted && w.line in y.lines && Planned(y, w.line) + w.quantity > y.lines[w.line].quantity
  }

  function OrdersOf(y: Yard, lines: set<Id>): set<Id> { set l | l in lines && l in y.lines :: y.lines[l].order }

  function ApplyCreate(y: Yard, c: Command): (Yard, Result<Id, Error>)
    requires c.Create?
  {
    var lines := WantedLines(c.wanted);
    if |lines| != |c.wanted| then (y, Err(DuplicateLine))
    else if !(lines <= y.lines.Keys) then (y, Err(LineNotFound))
    else if !(OrdersOf(y, lines) <= y.orders.Keys) then (y, Err(OrderNotFound))
    else if exists o :: o in OrdersOf(y, lines) && y.orders[o] !in {Executing, ReadyToShip} then
      (y, Err(OrderNotExecuting))
    else if AnyExceeds(y, c.wanted) then (y, Err(QuantityExceeded))
    else
      (y.(shipments := y.shipments[c.id := Shipment(Planning, map[], None, 1)],
        items := y.items + ItemsFor(c.id, c.wanted)), Ok(c.id))
  }

  function LinesOf(y: Yard, shipment: Id): set<Id> {
    set item | item in y.items && item.shipment == shipment :: item.line
  }

  /** _validate_execution_sources. */
  function SourceRefusal(y: Yard, lines: set<Id>): Option<Error> {
    var orders := OrdersOf(y, lines);
    if lines == {} || !(lines <= y.lines.Keys) || !(orders <= y.orders.Keys) then Some(LineNotFound)
    else if exists o :: o in orders && y.orders[o] in {Completed, Cancelled} then Some(OrderFinalized)
    else if exists o :: o in orders && y.orders[o] !in {Executing, ReadyToShip, Shipped} then Some(OrderNotExecuting)
    else if exists l :: l in lines && Planned(y, l) > y.lines[l].quantity then Some(QuantityExceeded)
    else None
  }

  predicate NeedsDocuments(target: Status) { target in {Ready, Customs, Departed} }

  function Moved(shipment: Shipment, c: Command): Shipment
    requires c.Move?
  {
    shipment.(
      status := c.target, stamps := shipment.stamps[c.target := c.now], version := shipment.version + 1,
      reference := if c.target == Booked then c.reference else shipment.reference)
  }

  /** _transition: each target is reached only from the stage before it, and a repeat does nothing. */
  function ApplyMove(y: Yard, c: Command): (Yard, Result<Id, Error>)
    requires c.Move?
  {
    if c.shipment !in y.shipments then (y, Err(ShipmentNotFound))
    else
      var shipment := y.shipments[c.shipment];
      var refusal := SourceRefusal(y, LinesOf(y, c.shipment));
      if shipment.version != c.version then (y, Err(VersionConflict))
      else if refusal.Some? then (y, Err(refusal.value))
      else if shipment.status == c.target then
        if c.target == Booked && shipment.reference != c.reference then (y, Err(ReferenceConflict))
        else (y, Ok(c.shipment))
      else if Stage(c.target) != Stage(shipment.status) + 1 then (y, Err(InvalidTransition))
      else if NeedsDocuments(c.target) && !c.documents then (y, Err(DocumentsIncomplete))
      else (y.(shipments := y.shipments[c.shipment := Moved(shipment, c)]), Ok(c.shipment))
  }

  function Apply(y: Yard, c: Command): (Yard, Result<Id, Error>) {
    match c
    case SetOrder(order, status) => (y.(orders := y.orders[order := status]), Ok(order))
    case AddLine(line, added) => (y.(lines := y.lines[line := added]), Ok(line))
    case Create(_, _) => ApplyCreate(y, c)
    case Move(_, _, _, _, _, _) => ApplyMove(y, c)
  }

  function Run(y: Yard, commands: seq<Command>): Yard {
    if commands == [] then y else Apply(Run(y, commands[..|commands| - 1]), commands[|commands| - 1]).0
  }

  /** Fresh ids, positive quantities, and no milestone endpoint for PLANNING. */
  ghost predicate Admissible(y: Yard, c: Command) {
    match c
    case AddLine(line, added) => line !in y.lines && added.quantity >= 0
    case Create(id, wanted) => id !in y.shipments && forall w :: w in wanted ==> w.quantity > 0
    case Move(_, target, _, _, _, _) => target != Planning
    case _ => true
  }

  ghost predicate AdmissibleRun(y: Yard, commands: seq<Command>)
    decreases |commands|
  {
    commands == [] ||
    (AdmissibleRun(y, commands[..|commands| - 1])
      && Admissible(Run(y, commands[..|commands| - 1]), commands[|commands| - 1]))
  }

  predicate Empty(y: Yard) { y.orders == map[] && y.lines == map[] && y.shipments == map[] && y.items == [] }

  // ---- The invariant ----------------------------------------------------------------------------

  ghost predicate ItemsLinked(y: Yard) {
    forall item :: item in y.items ==> item.quantity > 0 && item.shipment in y.shipments && item.line in y.lines
  }

  ghost predicate WithinOrdered(y: Yard) {
    forall line :: line in y.lines ==> Planned(y, line) <= y.lines[line].quantity
  }

  /** A shipment at stage k has exactly its first k milestone timestamps. */
  ghost predicate Stamped(shipment: Shipment) {
    forall s: Status :: s in shipment.stamps <==> 1 <= Stage(s) <= Stage(shipment.status)
  }

  ghost predicate Invariant(y: Yard) {
    && ItemsLinked(y) && WithinOrdered(y)
    && (forall id :: id in y.shipments ==> Stamped(y.shipments[id]))
  }

  // ---- Laws of the sums -------------------------------------------------------------------------

  lemma {:induction false} SumConcat(a: seq<Item>, b: seq<Item>, w: Item -> int)
    ensures Sum(a + b, w) == Sum(a, w) + Sum(b, w)
  {
    if b == [] {
      assert a + b == a;
    } else {
      SumConcat(a, b[..|b| - 1], w);
      assert (a + b)[..|a + b| - 1] == a + b[..|b| - 1];
    }
  }

  lemma {:induction false} SumLess(items: seq<Item>, v: Item -> int, w: Item -> int)
    requires forall item :: item in items ==> 0 <= v(item) <= w(item)
    ensures 0 <= Sum(items, v) <= Sum(items, w)
  {
    if items != [] {
      var init := items[..|items| - 1];
      assert forall item :: item in init ==> item in items;
      assert items[|items| - 1] in items;
      SumLess(init, v, w);
    }
  }

  /** Lines are distinct in a request, so at most one new item falls on each. */
  lemma {:induction false} WantedOnLine(id: Id, wanted: seq<Wanted>, line: Id)
    requires |WantedLines(wanted)| == |wanted|
    ensures line !in WantedLines(wanted) ==> Sum(ItemsFor(id, wanted), OnLine(line)) == 0
    ensures forall w :: w in wanted && w.line == line ==> Sum(ItemsFor(id, wanted), OnLine(line)) == w.quantity
  {
    if wanted != [] {
      var init, last := wanted[..|wanted| - 1], wanted[|wanted| - 1];
      assert wanted == init + [last];
      assert WantedLines(wanted) == WantedLines(init) + {last.line};
      LinesAtMost(init);
      assert last.line !in WantedLines(init) by {
        assert last.line in WantedLines(init) ==> WantedLines(wanted) == WantedLines(init);
      }
      WantedOnLine(id, init, line);
      assert ItemsFor(id, wanted)[..|wanted| - 1] == ItemsFor(id, init);
    }
  }

  lemma {:induction false} LinesAtMost(wanted: seq<Wanted>)
    ensures |WantedLines(wanted)| <= |wanted|
  {
    if wanted != [] {
      var init, last := wanted[..|wanted| - 1], wanted[|wanted| - 1];
      LinesAtMost(init);
      assert wanted == init + [last];
      assert WantedLines(wanted) == WantedLines(init) + {last.line};
    }
  }

  // ---- Every command keeps it -------------------------------------------------------------------

  lemma {:induction false} CreateKeeps(y: Yard, c: Command)
    requires Invariant(y) && c.Create? && Admissible(y, c) && ApplyCreate(y, c).1.Ok?
    ensures Invariant(ApplyCreate(y, c).0)
  {
    var y' := ApplyCreate(y, c).0;
    var added := ItemsFor(c.id, c.wanted);
    forall item | item in y'.items ensures item.quantity > 0 && item.shipment in y'.shipments && item.line in y'.lines {
      if item !in y.items {
        var i :| 0 <= i < |added| && item == added[i];
        assert c.wanted[i] in c.wanted && c.wanted[i].line in WantedLines(c.wanted);
      }
    }
    forall line | line in y'.lines ensures Planned(y', line) <= y'.lines[line].quantity {
      SumConcat(y.items, added, OnLine(line));
      WantedOnLine(c.id, c.wanted, line);
      if line in WantedLines(c.wanted) {
        var w :| w in c.wanted && w.line == line;
      }
    }
  }

  lemma {:induction false} MoveShape(y: Yard, c: Command)
    requires c.Move?
    ensures ApplyMove(y, c).0 == y ||
      (c.shipment in y.shipments && Stage(c.target) == Stage(y.shipments[c.shipment].status) + 1
       && ApplyMove(y, c).0 == y.(shipments := y.shipments[c.shipment := Moved(y.shipments[c.shipment], c)]))
  {
  }

  lemma {:induction false} MovedStamps(shipment: Shipment, c: Command)
    requires c.Move? && Stamped(shipment) && Stage(c.target) == Stage(shipment.status) + 1
    ensures Stamped(Moved(shipment, c)) && c.target !in shipment.stamps
  {
  }

  lemma {:induction false} MoveKeeps(y: Yard, c: Command)
    requires Invariant(y) && c.Move? && Admissible(y, c)
    ensures Invariant(ApplyMove(y, c).0)
  {
    var y' := ApplyMove(y, c).0;
    MoveShape(y, c);
    if y' != y {
      assert Stamped(y.shipments[c.shipment]);
      MovedStamps(y.shipments[c.shipment], c);
    }
  }

  lemma {:induction false} OrdersKeep(y: Yard, y': Yard)
    requires Invariant(y) && y'.shipments == y.shipments && y'.items == y.items
    requires forall line :: line in y.lines ==> line in y'.lines && y'.lines[line] == y.lines[line]
    requires forall line :: line in y'.lines && line !in y.lines ==> y'.lines[line].quantity >= 0
    ensures Invariant(y')
  {
    forall line | line in y'.lines ensures Planned(y', line) <= y'.lines[line].quantity {
      if line !in y.lines {
        SumNone(y.items, OnLine(line));
      }
    }
  }

  lemma {:induction false} SumNone(items: seq<Item>, w: Item -> int)
    requires forall item :: item in items ==> w(item) == 0
    ensures Sum(items, w) == 0
  {
    if items != [] {
      var init := items[..|items| - 1];
      assert forall item :: item in init ==> item in items;
      assert items[|items| - 1] in items;
      SumNone(init, w);
    }
  }

  lemma {:induction false} ApplyKeeps(y: Yard, c: Command)
    requires Invariant(y) && Admissible(y, c)
    ensures Invariant(Apply(y, c).0)
  {
    match c
    case SetOrder(order, status) => OrdersKeep(y, Apply(y, c).0);
    case AddLine(line, added) => OrdersKeep(y, Apply(y, c).0);
    case Create(_, _) =>
      if ApplyCreate(y, c).1.Ok? {
        CreateKeeps(y, c);
      }
    case Move(_, _, _, _, _, _) => MoveKeeps(y, c);
  }

  lemma {:induction false} RunKeeps(y: Yard, commands: seq<Command>)
    requires Invariant(y) && AdmissibleRun(y, commands)
    ensures Invariant(Run(y, commands))
    decreases |commands|
  {
    if commands != [] {
      RunKeeps(y, commands[..|commands| - 1]);
      ApplyKeeps(Run(y, commands[..|commands| - 1]), commands[|commands| - 1]);
    }
  }

  /** Over every run: a shipment at stage k has exactly its first k milestone timestamps. */
  lemma {:induction false} TimestampsExact(y: Yard, commands: seq<Command>, id: Id)
    requires Empty(y) && AdmissibleRun(y, commands) && id in Run(y, commands).shipments
    ensures var shipment := Run(y, commands).shipments[id];
      forall s: Status :: s in shipment.stamps <==> 1 <= Stage(s) <= Stage(shipment.status)
  {
    RunKeeps(y, commands);
    assert Stamped(Run(y, commands).shipments[id]);
  }

  /** Over every run: departed <= ready <= planned <= ordered. */
  lemma {:induction false} QuantitiesNest(y: Yard, commands: seq<Command>, line: Id)
    requires Empty(y) && AdmissibleRun(y, commands)
    ensures Invariant(Run(y, commands))
    ensures var y' := Run(y, commands);
      line in y'.lines ==>
        0 <= DepartedQuantity(y', line) <= ReadyQuantity(y', line) <= Planned(y', line) <= y'.lines[line].quantity
  {
    RunKeeps(y, commands);
    var y' := Run(y, commands);
    SumLess(y'.items, AtStage(y'.shipments, line, 4), AtStage(y'.shipments, line, 2));
    SumLess(y'.items, AtStage(y'.shipments, line, 2), OnLine(line));
  }

  // ---- Nothing is taken back --------------------------------------------------------------------

  /** Items are only appended, and shipments only advance, by one stage at a time. */
  ghost predicate Advances(y: Yard, y': Yard) {
    && y.items <= y'.items
    && forall id :: id in y.shipments ==>
        && id in y'.shipments
        && Stage(y.shipments[id].status) <= Stage(y'.shipments[id].status) <= Stage(y.shipments[id].status) + 1
        && forall s :: s in y.shipments[id].stamps ==>
          s in y'.shipments[id].stamps && y'.shipments[id].stamps[s] == y.shipments[id].stamps[s]
  }

  lemma {:induction false} MoveAdvances(y: Yard, c: Command)
    requires Invariant(y) && c.Move?
    ensures Advances(y, ApplyMove(y, c).0)
  {
    MoveShape(y, c);
    if ApplyMove(y, c).0 != y {
      assert Stamped(y.shipments[c.shipment]);
      MovedStamps(y.shipments[c.shipment], c);
    }
  }

  lemma {:induction false} ShipmentsKept(y: Yard, y': Yard)
    requires y.items <= y'.items
    requires forall id :: id in y.shipments ==> id in y'.shipments && y'.shipments[id] == y.shipments[id]
    ensures Advances(y, y')
  {
  }

  lemma {:induction false} ApplyAdvances(y: Yard, c: Command)
    requires Invariant(y) && Admissible(y, c)
    ensures Advances(y, Apply(y, c).0)
  {
    match c
    case SetOrder(_, _) => ShipmentsKept(y, Apply(y, c).0);
    case AddLine(_, _) => ShipmentsKept(y, Apply(y, c).0);
    case Create(_, _) => ShipmentsKept(y, ApplyCreate(y, c).0);
    case Move(_, _, _, _, _, _) => MoveAdvances(y, c);
  }

  lemma {:induction false} SumGrows(items: seq<Item>, items': seq<Item>, v: Item -> int, w: Item -> int)
    requires items <= items'
    requires forall item :: item in items ==> v(item) <= w(item)
    requires forall item :: item in items' ==> 0 <= w(item)
    ensures Sum(items, v) <= Sum(items', w)
  {
    var rest := items'[|items|..];
    assert items' == items + rest;
    SumConcat(items, rest, w);
    SumLess(rest, (item: Item) => 0, w);
    SumNone(rest, (item: Item) => 0);
    SumPointwise(items, v, w);
  }

  lemma {:induction false} SumPointwise(items: seq<Item>, v: Item -> int, w: Item -> int)
    requires forall item :: item in items ==> v(item) <= w(item)
    ensures Sum(items, v) <= Sum(items, w)
  {
    if items != [] {
      var init := items[..|items| - 1];
      assert forall item :: item in init ==> item in items;
      assert items[|items| - 1] in items;
      SumPointwise(init, v, w);
    }
  }

  lemma {:induction false} StageGrows(y: Yard, y': Yard, line: Id, stage: nat)
    requires Advances(y, y') && ItemsLinked(y')
    ensures Sum(y.items, AtStage(y.shipments, line, stage)) <= Sum(y'.items, AtStage(y'.shipments, line, stage))
  {
    SumGrows(y.items, y'.items, AtStage(y.shipments, line, stage), AtStage(y'.shipments, line, stage));
  }

  /** No command lowers what a line has planned, ready or departed. */
  lemma {:induction false} QuantitiesGrow(y: Yard, c: Command, line: Id)
    requires Invariant(y) && Admissible(y, c)
    ensures var y' := Apply(y, c).0;
      && Planned(y, line) <= Planned(y', line)
      && ReadyQuantity(y, line) <= ReadyQuantity(y', line)
      && DepartedQuantity(y, line) <= DepartedQuantity(y', line)
  {
    var y' := Apply(y, c).0;
    ApplyKeeps(y, c);
    ApplyAdvances(y, c);
    SumGrows(y.items, y'.items, OnLine(line), OnLine(line));
    StageGrows(y, y', line, 2);
    StageGrows(y, y', line, 4);
  }

  /** What one line has planned, ready and departed never falls, over any run. */
  lemma {:induction false} QuantitiesNeverFall(y: Yard, commands: seq<Command>, line: Id)
    requires Invariant(y) && AdmissibleRun(y, commands)
    ensures var y' := Run(y, commands);
      && Planned(y, line) <= Planned(y', line)
      && ReadyQuantity(y, line) <= ReadyQuantity(y', line)
      && DepartedQuantity(y, line) <= DepartedQuantity(y', line)
    decreases |commands|
  {
    if commands != [] {
      var init := commands[..|commands| - 1];
      QuantitiesNeverFall(y, init, line);
      RunKeeps(y, init);
      QuantitiesGrow(Run(y, init), commands[|commands| - 1], line);
    }
  }

  // ---- The service ------------------------------------------------------------------------------

  ghost predicate Added(items: seq<Item>, items': seq<Item>, id: Id, done: seq<Wanted>) {
    items' == items + ItemsFor(id, done)
  }

  lemma {:induction false} AddNext(items: seq<Item>, items': seq<Item>, id: Id, done: seq<Wanted>, w: Wanted)
    requires Added(items, items', id, done)
    ensures Added(items, items' + [Item(id, w.line, w.quantity)], id, done + [w])
  {
  }

  class ShipmentService {
    var orders: map<Id, OrderStatus>
    var lines: map<Id, Line>
    var shipments: map<Id, Shipment>
    var items: seq<Item>

    constructor ()
      ensures Empty(State())
    {
      orders, lines, shipments, items := map[], map[], map[], [];
    }

    function State(): Yard
      reads this
    {
      Yard(orders, lines, shipments, items)
    }

    /** The item loop of create(), against the totals committed before it; it may raise half way. */
    method AddItems(id: Id, wanted: seq<Wanted>, committed: map<Id, int>) returns (exceeded: bool)
      requires forall w :: w in wanted ==> w.line in lines && w.line in committed
      modifies this`items
      ensures exceeded <==> exists w :: w in wanted && committed[w.line] + w.quantity > lines[w.line].quantity
      ensures !exceeded ==> Added(old(items), items, id, wanted)
    {
      var i := 0;
      while i < |wanted|
        invariant 0 <= i <= |wanted| && Added(old(items), items, id, wanted[..i])
        invariant forall j :: 0 <= j < i ==>
          committed[wanted[j].line] + wanted[j].quantity <= lines[wanted[j].line].quantity
      {
        var w := wanted[i];
        if committed[w.line] + w.quantity > lines[w.line].quantity {
          return true;
        }
        NextPrefix(wanted, i);
        AddNext(old(items), items, id, wanted[..i], w);
        items := items + [Item(id, w.line, w.quantity)];
        i := i + 1;
      }
      assert wanted[..|wanted|] == wanted;
      return false;
    }

    /** create(): a refusal half way through the items leaves nothing behind. */
    method Create(id: Id, wanted: seq<Wanted>) returns (result: Result<Id, Error>)
      modifies this`shipments, this`items
      ensures (State(), result) == Apply(old(State()), Command.Create(id, wanted))
    {
      var named := WantedLines(wanted);
      if |named| != |wanted| {
        return Err(DuplicateLine);
      }
      if !(named <= lines.Keys) {
        return Err(LineNotFound);
      }
      var parents := OrdersOf(State(), named);
      if !(parents <= orders.Keys) {
        return Err(OrderNotFound);
      }
      if exists o :: o in parents && orders[o] !in {Executing, ReadyToShip} {
        return Err(OrderNotExecuting);
      }
      var committed := map l | l in named :: Planned(State(), l);
      var before := items;
      assert forall w :: w in wanted ==> w.line in named;
      var exceeded := AddItems(id, wanted, committed);
      if exceeded {
        items := before;
        return Err(QuantityExceeded);
      }
      shipments := shipments[id := Shipment(Planning, map[], None, 1)];
      return Ok(id);
    }

    /** _transition, with the stage it expects given by its target. */
    method Transition(shipment: Id, target: Status, version: int, reference: Option<Id>, documents: bool, now: int)
        returns (result: Result<Id, Error>)
      modifies this`shipments
      ensures (State(), result) == Apply(old(State()),
        Command.Move(shipment, target, version, reference, documents, now))
    {
      if shipment !in shipments {
        return Err(ShipmentNotFound);
      }
      var row := shipments[shipment];
      if row.version != version {
        return Err(VersionConflict);
      }
      var refusal := SourceRefusal(State(), LinesOf(State(), shipment));
      if refusal.Some? {
        return Err(refusal.value);
      }
      if row.status == target {
        return if target == Booked && row.reference != reference then Err(ReferenceConflict) else Ok(shipment);
      }
      if Stage(target) != Stage(row.status) + 1 {
        return Err(InvalidTransition);
      }
      if NeedsDocuments(target) && !documents {
        return Err(DocumentsIncomplete);
      }
      row := row.(status := target, version := row.version + 1);
      row := row.(stamps := row.stamps[target := now]);
      if target == Booked {
        row := row.(reference := reference);
      }
      shipments := shipments[shipment := row];
      return Ok(shipment);
    }
  }
}
