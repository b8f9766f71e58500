// Whole runs of the stock, sales and production services over one shared store.
// Each request is one atomic step: it either succeeds completely or leaves the world as it was.
module Fulfilment {
  import opened Option
  import opened Inventory
  import Decimal
  import Sales
  import Production

  datatype Warehouse = Warehouse(id: string, active: bool)

  // `warehouses` is kept in code order.
  datatype World = World(stock: Stock, sales: seq<Sales.Order>, production: seq<Production.Order>,
                         warehouses: seq<Warehouse>)

  const EMPTY := World(EMPTY_STOCK, [], [], [])

  datatype Event =
    | CreateSales(year: nat, lines: seq<Sales.Line>)
    | ConfirmSales(id: nat)
    | CancelSales(id: nat)
    | ShipSales(id: nat)
    | RecordMove(movement: Movement, unitCost: Option<int>)
    | CreateProduction(year: nat, planned: int, bom: seq<Production.BomLine>)
    | UpdateProduction(id: nat, next: Production.Status)
    | ChangeWarehouses(warehouses: seq<Warehouse>)

  // The first active warehouse in code order.
  function DefaultWarehouse(warehouses: seq<Warehouse>): Option<string> {
    if warehouses == [] then None
    else if warehouses[0].active then Some(warehouses[0].id)
    else DefaultWarehouse(warehouses[1..])
  }

  // The default warehouse is active, and no active one comes before it.
  lemma {:induction false} DefaultIsFirstActive(warehouses: seq<Warehouse>)
    ensures var id := DefaultWarehouse(warehouses);
            && (id.Some? ==> exists k | 0 <= k < |warehouses| ::
                  warehouses[k] == Warehouse(id.value, true) && forall j | 0 <= j < k :: !warehouses[j].active)
            && (id.None? ==> forall k | 0 <= k < |warehouses| :: !warehouses[k].active)
  {
    if warehouses != [] && !warehouses[0].active {
      var rest, id := warehouses[1..], DefaultWarehouse(warehouses);
      DefaultIsFirstActive(rest);
      if id.Some? {
        var k :| 0 <= k < |rest| && rest[k] == Warehouse(id.value, true) && forall j | 0 <= j < k :: !rest[j].active;
        assert warehouses[k + 1] == rest[k] && forall j | 1 <= j < k + 1 :: warehouses[j] == rest[j - 1];
      }
    }
  }

  function WithSales(w: World, change: Sales.Change): Option<World> {
    if change.None? then None else Some(w.(stock := change.value.0, sales := change.value.1))
  }

  // What a request does when it succeeds; None when it is rejected.
  function Try(w: World, e: Event): Option<World> {
    var default := DefaultWarehouse(w.warehouses);
    match e
    case CreateSales(year, lines) =>
      var number := Production.OrderNumber("SO", year, |w.sales|);
      Some(w.(sales := w.sales + [Sales.Order(number, Sales.Draft, lines)]))
    case ConfirmSales(id) => WithSales(w, Sales.Confirm(w.stock, w.sales, id, default))
    case CancelSales(id) => WithSales(w, Sales.Cancel(w.stock, w.sales, id, default))
    case ShipSales(id) => WithSales(w, Sales.ShipOrder(w.stock, w.sales, id, default))
    case RecordMove(m, unitCost) =>
      var stock := RecordMovement(w.stock, m, unitCost);
      if stock.None? then None else Some(w.(stock := stock.value))
    case CreateProduction(year, planned, bom) =>
      if planned < 0 || exists line | line in bom :: line.required < 0 then None
      else
        var number := Production.OrderNumber("PO", year, |w.production|);
        Some(w.(production := w.production + [Production.Order(number, Production.Draft, planned, bom, false)]))
    case UpdateProduction(id, next) =>
      var change := Production.UpdateStatus(w.stock, w.production, id, next, default);
      if change.None? then None else Some(w.(stock := change.value.0, production := change.value.1))
    case ChangeWarehouses(warehouses) => Some(w.(warehouses := warehouses))
  }

  function Step(w: World, e: Event): World {
    var next := Try(w, e);
    if next.Some? then next.value else w
  }

  function Run(w: World, es: seq<Event>): World
    decreases |es|
  {
    if es == [] then w else Run(Step(w, es[0]), es[1..])
  }

  // ----- The ledger, over every run --------------------------------------------------------------

  lemma StepKeepsLedger(w: World, e: Event)
    requires LedgerAgrees(w.stock)
    ensures LedgerAgrees(Step(w, e).stock)
  {
    var default := DefaultWarehouse(w.warehouses);
    if Try(w, e).Some? {
      match e
      case ConfirmSales(id) => BatchKeepsLedger(Reserve, w.stock, RequestsOf(w.sales[id], default.value));
      case CancelSales(id) =>
        if w.sales[id].status.Confirmed? || w.sales[id].status.PartiallyShipped? {
          BatchKeepsLedger(Release, w.stock, RequestsOf(w.sales[id], default.value));
        }
      case ShipSales(id) => BatchKeepsLedger(Ship, w.stock, RequestsOf(w.sales[id], default.value));
      case RecordMove(m, unitCost) => MovementKeepsLedger(w.stock, m, unitCost);
      case UpdateProduction(id, next) =>
        var order := w.production[id];
        if next.InProgress? && order.bom != [] {
          BatchKeepsLedger(Consume, w.stock, Production.BomRequests(order, order.bom, default.value));
        }
      case _ =>
    }
  }

  // From an empty store, on-hand is never negative and always equals the replay of the log without reservation rows;
  // replaying every row overshoots by exactly the reservation traffic.
  lemma {:induction false} LedgerAgreesOverRuns(w: World, es: seq<Event>)
    requires LedgerAgrees(w.stock)
    ensures LedgerAgrees(Run(w, es).stock)
    ensures var end := Run(w, es).stock;
            forall c :: Replay(end.log, c, true) == LevelAt(end.levels, c).onHand + ReservationTraffic(end.log, c)
    decreases |es|
  {
    if es != [] {
      StepKeepsLedger(w, es[0]);
      LedgerAgreesOverRuns(Step(w, es[0]), es[1..]);
    }
    var end := Run(w, es).stock;
    forall c ensures Replay(end.log, c, true) == LevelAt(end.levels, c).onHand + ReservationTraffic(end.log, c) {
      FullReplayOvershoots(end.log, c);
    }
  }

  lemma EmptyLedgerAgrees()
    ensures LedgerAgrees(EMPTY.stock)
  {
  }

  // ----- Reservations against open orders --------------------------------------------------------

  function RequestsOf(order: Sales.Order, default: string): seq<Request> {
    Sales.Requests(order.lines, order.number, default)
  }

  // `homes[i]` is the default warehouse that was in force when order i was confirmed.
  function OrderDemand(order: Sales.Order, home: string, c: Cell): int {
    if order.status.Confirmed? then Sales.LineDemand(order.lines, home, c) else 0
  }

  function OpenDemand(sales: seq<Sales.Order>, homes: seq<string>, c: Cell): int
    requires |sales| == |homes|
  {
    if sales == [] then 0 else OrderDemand(sales[0], homes[0], c) + OpenDemand(sales[1..], homes[1..], c)
  }

  function HomesAfter(w: World, homes: seq<string>, e: Event): seq<string>
    requires |homes| == |w.sales|
    ensures |HomesAfter(w, homes, e)| == |Step(w, e).sales|
  {
    if Try(w, e).None? then homes
    else match e
      case CreateSales(_, _) => homes + [""]
      case ConfirmSales(id) => homes[id := DefaultWarehouse(w.warehouses).value]
      case _ => homes
  }

  function RunHomes(w: World, homes: seq<string>, es: seq<Event>): seq<string>
    requires |homes| == |w.sales|
    ensures |RunHomes(w, homes, es)| == |Run(w, es).sales|
    decreases |es|
  {
    if es == [] then homes else RunHomes(Step(w, es[0]), HomesAfter(w, homes, es[0]), es[1..])
  }

  ghost predicate OrdersSound(w: World, homes: seq<string>) {
    && |homes| == |w.sales|
    && forall i | 0 <= i < |w.sales| ::
         && !w.sales[i].status.PartiallyShipped? && !w.sales[i].status.Invoiced?
         && (w.sales[i].status.Confirmed? ==> Cells(RequestsOf(w.sales[i], homes[i])) <= w.stock.levels.Keys)
  }

  ghost predicate ReservedIsDemand(w: World, homes: seq<string>)
    requires |homes| == |w.sales|
  {
    forall c :: LevelAt(w.stock.levels, c).reserved == OpenDemand(w.sales, homes, c)
  }

  // The event cancels or ships an open order, and succeeds.
  predicate Drives(w: World, e: Event) {
    (e.CancelSales? || e.ShipSales?) && Try(w, e).Some? && w.sales[e.id].status.Confirmed?
  }

  // On every stocked cell, what the clamps forgive when the order is closed is what the change of the default warehouse
  // has moved there since the order was confirmed: nothing at all, as long as nothing moved and no clamp takes effect.
  ghost predicate Settles(w: World, homes: seq<string>, e: Event)
    requires |homes| == |w.sales|
  {
    Drives(w, e) ==>
      var order, default := w.sales[e.id], DefaultWarehouse(w.warehouses).value;
      forall c | c in w.stock.levels ::
        Forgiven(RequestsOf(order, default), c, w.stock.levels[c].reserved) ==
        Sales.LineDemand(order.lines, default, c) - Sales.LineDemand(order.lines, homes[e.id], c)
  }

  // Warehouse resolution is stable for this event.
  predicate Stable(w: World, homes: seq<string>, e: Event)
    requires |homes| == |w.sales|
  {
    Drives(w, e) ==>
      Sales.SameResolution(w.sales[e.id].lines, homes[e.id], DefaultWarehouse(w.warehouses).value)
  }

  ghost predicate SettledRun(w: World, homes: seq<string>, es: seq<Event>)
    requires |homes| == |w.sales|
    decreases |es|
  {
    es == [] || (Settles(w, homes, es[0]) && SettledRun(Step(w, es[0]), HomesAfter(w, homes, es[0]), es[1..]))
  }

  predicate StableRun(w: World, homes: seq<string>, es: seq<Event>)
    requires |homes| == |w.sales|
    decreases |es|
  {
    es == [] || (Stable(w, homes, es[0]) && StableRun(Step(w, es[0]), HomesAfter(w, homes, es[0]), es[1..]))
  }

  // Reserved quantities equal open demand now and after every prefix of the run.
  ghost predicate AgreesThroughout(w: World, homes: seq<string>, es: seq<Event>)
    requires |homes| == |w.sales|
    decreases |es|
  {
    && ReservedIsDemand(w, homes)
    && (es == [] || AgreesThroughout(Step(w, es[0]), HomesAfter(w, homes, es[0]), es[1..]))
  }

  // No order has a line with a negative quantity.
  predicate Orderly(w: World) {
    forall order | order in w.sales :: Sales.ValidLines(order.lines)
  }

  predicate OrderlyRun(es: seq<Event>) {
    forall e | e in es && e.CreateSales? :: Sales.ValidLines(e.lines)
  }

  lemma {:induction false} OpenDemandUpdate(sales: seq<Sales.Order>, homes: seq<string>, id: nat,
                                            order: Sales.Order, home: string, c: Cell)
    requires |sales| == |homes| && id < |sales|
    ensures OpenDemand(sales[id := order], homes[id := home], c) ==
            OpenDemand(sales, homes, c) - OrderDemand(sales[id], homes[id], c) + OrderDemand(order, home, c)
  {
    var sales', homes' := sales[id := order], homes[id := home];
    if id == 0 {
      assert sales'[1..] == sales[1..] && homes'[1..] == homes[1..];
    } else {
      assert sales'[1..] == sales[1..][id - 1 := order] && homes'[1..] == homes[1..][id - 1 := home];
      OpenDemandUpdate(sales[1..], homes[1..], id - 1, order, home, c);
    }
  }

  lemma {:induction false} OpenDemandAppend(sales: seq<Sales.Order>, homes: seq<string>, order: Sales.Order, c: Cell)
    requires |sales| == |homes| && order.status.Draft?
    ensures OpenDemand(sales + [order], homes + [""], c) == OpenDemand(sales, homes, c)
  {
    if sales != [] {
      assert (sales + [order])[1..] == sales[1..] + [order] && (homes + [""])[1..] == homes[1..] + [""];
      OpenDemandAppend(sales[1..], homes[1..], order, c);
    }
  }

  // One open order never asks for more than all of them together.
  lemma {:induction false} OpenDemandCovers(sales: seq<Sales.Order>, homes: seq<string>, id: nat, c: Cell)
    requires |sales| == |homes|
    requires forall order | order in sales :: Sales.ValidLines(order.lines)
    ensures OpenDemand(sales, homes, c) >= 0
    ensures id < |sales| ==> 0 <= OrderDemand(sales[id], homes[id], c) <= OpenDemand(sales, homes, c)
  {
    if sales != [] {
      assert sales[0] in sales && forall order | order in sales[1..] :: order in sales;
      Sales.RequestsDemand(sales[0].lines, "", homes[0], c);
      OpenDemandCovers(sales[1..], homes[1..], if id == 0 then 0 else id - 1, c);
    }
  }

  lemma ConfirmLevelAt(w: World, homes: seq<string>, id: nat, c: Cell)
    requires |homes| == |w.sales| && ReservedIsDemand(w, homes) && Try(w, ConfirmSales(id)).Some?
    ensures var e, next := ConfirmSales(id), Step(w, ConfirmSales(id));
            && LevelAt(next.stock.levels, c).reserved == OpenDemand(next.sales, HomesAfter(w, homes, e), c)
            && (c in w.stock.levels || c in Cells(RequestsOf(w.sales[id], DefaultWarehouse(w.warehouses).value))
                ==> c in next.stock.levels)
  {
    hide ApplyAll, OpenDemand, Sales.Requests;
    var order, default := w.sales[id], DefaultWarehouse(w.warehouses).value;
    ReserveLevelAt(w.stock, RequestsOf(order, default), c);
    Sales.RequestsDemand(order.lines, order.number, default, c);
    OpenDemandUpdate(w.sales, homes, id, Step(w, ConfirmSales(id)).sales[id], default, c);
  }

  lemma ConfirmKeepsReserved(w: World, homes: seq<string>, id: nat)
    requires OrdersSound(w, homes) && ReservedIsDemand(w, homes) && Try(w, ConfirmSales(id)).Some?
    ensures OrdersSound(Step(w, ConfirmSales(id)), HomesAfter(w, homes, ConfirmSales(id)))
    ensures ReservedIsDemand(Step(w, ConfirmSales(id)), HomesAfter(w, homes, ConfirmSales(id)))
  {
    hide ApplyAll, OpenDemand, Sales.Requests;
    forall c {
      ConfirmLevelAt(w, homes, id, c);
    }
  }

  lemma CloseLevelAt(w: World, homes: seq<string>, e: Event, c: Cell)
    requires OrdersSound(w, homes) && ReservedIsDemand(w, homes) && Drives(w, e)
    ensures var next, order, default := Step(w, e), w.sales[e.id], DefaultWarehouse(w.warehouses).value;
            var open, home := OpenDemand(w.sales, homes, c), Sales.LineDemand(order.lines, homes[e.id], c);
            && OpenDemand(next.sales, homes, c) == open - home
            && (c in next.stock.levels <==> c in w.stock.levels)
            && if c in w.stock.levels then
                 LevelAt(next.stock.levels, c).reserved ==
                 open - Sales.LineDemand(order.lines, default, c) + Forgiven(RequestsOf(order, default), c, open)
               else open == home == 0
  {
    hide ApplyAll, OpenDemand, Sales.Requests, Forgiven;
    var order, default := w.sales[e.id], DefaultWarehouse(w.warehouses).value;
    TakenLevelAt(if e.CancelSales? then Release else Ship, w.stock, RequestsOf(order, default), c);
    Sales.RequestsDemand(order.lines, order.number, default, c);
    Sales.RequestsDemand(order.lines, order.number, homes[e.id], c);
    DemandNonNegative(RequestsOf(order, homes[e.id]), c);
    assert homes[e.id := homes[e.id]] == homes;
    OpenDemandUpdate(w.sales, homes, e.id, Step(w, e).sales[e.id], homes[e.id], c);
  }

  // Closing an open order keeps reservations equal to demand exactly when the event settles, whatever the quantities.
  lemma CloseKeepsReservedIff(w: World, homes: seq<string>, e: Event)
    requires OrdersSound(w, homes) && ReservedIsDemand(w, homes) && Drives(w, e)
    ensures OrdersSound(Step(w, e), homes)
    ensures ReservedIsDemand(Step(w, e), homes) <==> Settles(w, homes, e)
  {
    hide OpenDemand, Sales.Requests, Sales.LineDemand, ApplyAll, Forgiven;
    forall c {
      CloseLevelAt(w, homes, e, c);
    }
  }

  // Under a stable resolution an event settles exactly when the reservation covers the order's requests at every point,
  // so that no clamp takes effect.
  lemma StableSettlesIffCovered(w: World, homes: seq<string>, e: Event)
    requires OrdersSound(w, homes) && Drives(w, e) && Stable(w, homes, e)
    ensures Settles(w, homes, e) <==>
            forall c | c in w.stock.levels ::
              Covered(RequestsOf(w.sales[e.id], DefaultWarehouse(w.warehouses).value), c, w.stock.levels[c].reserved)
  {
    hide Sales.Requests, Sales.LineDemand, ApplyAll, Forgiven, Covered;
    var order, default := w.sales[e.id], DefaultWarehouse(w.warehouses).value;
    var rs := RequestsOf(order, default);
    forall c | c in w.stock.levels
      ensures Forgiven(rs, c, w.stock.levels[c].reserved) == 0 <==> Covered(rs, c, w.stock.levels[c].reserved)
      ensures Sales.LineDemand(order.lines, default, c) == Sales.LineDemand(order.lines, homes[e.id], c)
    {
      ForgivenNothingIff(rs, c, w.stock.levels[c].reserved);
      Sales.SameResolutionSameDemand(order.lines, homes[e.id], default, c);
    }
  }

  // The clamps at zero never take effect when an open order without negative lines is closed under a stable resolution.
  lemma ClampsNeverBite(w: World, homes: seq<string>, id: nat, default: string, c: Cell)
    requires |homes| == |w.sales| && ReservedIsDemand(w, homes) && Orderly(w)
    requires id < |w.sales| && w.sales[id].status.Confirmed?
    requires Sales.SameResolution(w.sales[id].lines, homes[id], default)
    ensures var rs, reserved := RequestsOf(w.sales[id], default), LevelAt(w.stock.levels, c).reserved;
            Demand(rs, c) <= reserved && Forgiven(rs, c, reserved) == 0
  {
    var order := w.sales[id];
    Sales.RequestsDemand(order.lines, order.number, default, c);
    Sales.SameResolutionSameDemand(order.lines, homes[id], default, c);
    OpenDemandCovers(w.sales, homes, id, c);
    ForgivenOfNonNegative(RequestsOf(order, default), c, LevelAt(w.stock.levels, c).reserved);
  }

  // A line that relied on the old default leaves its reservation behind.
  lemma DriftIsNotForgiven(w: World, homes: seq<string>, e: Event, line: Sales.Line)
    requires OrdersSound(w, homes) && ReservedIsDemand(w, homes) && Orderly(w) && Drives(w, e)
    requires homes[e.id] != DefaultWarehouse(w.warehouses).value
    requires line in w.sales[e.id].lines && line.product != "" && line.warehouse.None? && line.quantity != 0
    ensures !Settles(w, homes, e)
  {
    hide ApplyAll, Sales.Requests, Forgiven, OpenDemand, Sales.LineDemand;
    var order, default, c := w.sales[e.id], DefaultWarehouse(w.warehouses).value, Cell(line.product, homes[e.id]);
    Sales.RequestsDemand(order.lines, order.number, default, c);
    Sales.DriftLosesDemand(order.lines, homes[e.id], default, c);
    OpenDemandCovers(w.sales, homes, e.id, c);
    assert c in w.stock.levels;
  }

  // Without negative lines an event settles exactly when warehouse resolution is stable for it.
  lemma SettlesIffStable(w: World, homes: seq<string>, e: Event)
    requires OrdersSound(w, homes) && ReservedIsDemand(w, homes) && Orderly(w)
    ensures Settles(w, homes, e) <==> Stable(w, homes, e)
  {
    hide ApplyAll, Sales.Requests, Forgiven, OpenDemand, Sales.LineDemand;
    if Drives(w, e) {
      var order, default := w.sales[e.id], DefaultWarehouse(w.warehouses).value;
      if Stable(w, homes, e) {
        forall c | c in w.stock.levels
          ensures Forgiven(RequestsOf(order, default), c, w.stock.levels[c].reserved) == 0
          ensures Sales.LineDemand(order.lines, default, c) == Sales.LineDemand(order.lines, homes[e.id], c)
        {
          ClampsNeverBite(w, homes, e.id, default, c);
          Sales.SameResolutionSameDemand(order.lines, homes[e.id], default, c);
        }
      } else {
        var line :| line in order.lines && !(line.product == "" || line.warehouse.Some? || line.quantity == 0);
        DriftIsNotForgiven(w, homes, e, line);
      }
    }
  }

  lemma StockOnlyKeepsReserved(w: World, homes: seq<string>, e: Event)
    requires OrdersSound(w, homes) && ReservedIsDemand(w, homes)
    requires (e.RecordMove? || e.UpdateProduction?) && Try(w, e).Some?
    ensures OrdersSound(Step(w, e), homes) && ReservedIsDemand(Step(w, e), homes)
  {
    var next := Step(w, e);
    if e.RecordMove? {
      forall c ensures LevelAt(next.stock.levels, c).reserved == LevelAt(w.stock.levels, c).reserved {
        MovementOnHand(w.stock.levels, e.movement, c);
      }
    } else if e.next.InProgress? && w.production[e.id].bom != [] {
      var order, default := w.production[e.id], DefaultWarehouse(w.warehouses).value;
      ConsumeKeepsReserved(w.stock, Production.BomRequests(order, order.bom, default));
    }
    assert w.stock.levels.Keys <= next.stock.levels.Keys;
  }

  // Every request keeps the orders sound, and keeps agreement exactly when it settles.
  lemma StepKeepsReservedIff(w: World, homes: seq<string>, e: Event)
    requires OrdersSound(w, homes) && ReservedIsDemand(w, homes)
    ensures OrdersSound(Step(w, e), HomesAfter(w, homes, e))
    ensures ReservedIsDemand(Step(w, e), HomesAfter(w, homes, e)) <==> Settles(w, homes, e)
  {
    if Try(w, e).Some? {
      match e
      case CreateSales(year, lines) =>
        forall c {
          OpenDemandAppend(w.sales, homes, Step(w, e).sales[|w.sales|], c);
        }
      case ConfirmSales(id) => ConfirmKeepsReserved(w, homes, id);
      case CancelSales(id) =>
        if Drives(w, e) {
          CloseKeepsReservedIff(w, homes, e);
        } else {
          forall c ensures OpenDemand(Step(w, e).sales, homes, c) == OpenDemand(w.sales, homes, c) {
            assert homes[id := homes[id]] == homes;
            OpenDemandUpdate(w.sales, homes, id, Step(w, e).sales[id], homes[id], c);
          }
        }
      case ShipSales(id) => CloseKeepsReservedIff(w, homes, e);
      case RecordMove(m, unitCost) => StockOnlyKeepsReserved(w, homes, e);
      case UpdateProduction(id, next) => StockOnlyKeepsReserved(w, homes, e);
      case _ =>
    }
  }

  // Over every run: the reserved quantity of each cell is the demand of the open orders after every prefix exactly when
  // every close on the way settles.
  lemma {:induction false} ReservedIsDemandOverRuns(w: World, homes: seq<string>, es: seq<Event>)
    requires OrdersSound(w, homes) && ReservedIsDemand(w, homes)
    ensures AgreesThroughout(w, homes, es) <==> SettledRun(w, homes, es)
    ensures AgreesThroughout(w, homes, es) ==>
              var end, endHomes := Run(w, es), RunHomes(w, homes, es);
              OrdersSound(end, endHomes) && ReservedIsDemand(end, endHomes)
    decreases |es|
  {
    if es != [] {
      StepKeepsReservedIff(w, homes, es[0]);
      if Settles(w, homes, es[0]) {
        ReservedIsDemandOverRuns(Step(w, es[0]), HomesAfter(w, homes, es[0]), es[1..]);
      }
    }
  }

  lemma StepKeepsOrderly(w: World, e: Event)
    requires Orderly(w) && (e.CreateSales? ==> Sales.ValidLines(e.lines))
    ensures Orderly(Step(w, e))
  {
    var sales := Step(w, e).sales;
    forall order | order in sales ensures Sales.ValidLines(order.lines) {
      var i :| 0 <= i < |sales| && sales[i] == order;
      if i < |w.sales| { assert w.sales[i] in w.sales; }
    }
  }

  ghost predicate ReservedNonNegative(w: World) {
    forall c :: LevelAt(w.stock.levels, c).reserved >= 0
  }

  lemma StepKeepsReservedNonNegative(w: World, e: Event)
    requires Orderly(w) && ReservedNonNegative(w)
    ensures ReservedNonNegative(Step(w, e))
  {
    hide ApplyAll, Sales.Requests, Forgiven, Demand, ApplyMovement;
    if Try(w, e).Some? {
      var default, next := DefaultWarehouse(w.warehouses), Step(w, e);
      if e.ConfirmSales? || e.CancelSales? || e.ShipSales? {
        var order := w.sales[e.id];
        if order.status.Confirmed? || order.status.PartiallyShipped? || e.ConfirmSales? {
          var op := if e.ConfirmSales? then Reserve else if e.CancelSales? then Release else Ship;
          forall c ensures LevelAt(next.stock.levels, c).reserved >= 0 {
            OrderKeepsReservedNonNegative(op, w.stock, order, default.value, c);
          }
        }
      } else if e.RecordMove? {
        forall c ensures LevelAt(next.stock.levels, c).reserved >= 0 {
          MovementOnHand(w.stock.levels, e.movement, c);
        }
      } else if e.UpdateProduction? && e.next.InProgress? && w.production[e.id].bom != [] {
        var order := w.production[e.id];
        ConsumeKeepsReserved(w.stock, Production.BomRequests(order, order.bom, default.value));
      }
    }
  }

  lemma OrderKeepsReservedNonNegative(op: BatchOp, s: Stock, order: Sales.Order, default: string, c: Cell)
    requires !op.Consume? && ApplyAll(op, s, RequestsOf(order, default)).Some?
    requires Sales.ValidLines(order.lines) && LevelAt(s.levels, c).reserved >= 0
    ensures LevelAt(ApplyAll(op, s, RequestsOf(order, default)).value.levels, c).reserved >= 0
  {
    var rs := RequestsOf(order, default);
    Sales.RequestsDemand(order.lines, order.number, default, c);
    if op.Reserve? {
      ReserveLevelAt(s, rs, c);
    } else {
      TakenLevelAt(op, s, rs, c);
      ForgivenOfNonNegative(rs, c, LevelAt(s.levels, c).reserved);
    }
  }

  // Over every run without negative lines no reserved quantity is ever negative, even where warehouses drift; so
  // releasing what was just reserved restores every level.
  lemma {:induction false} ReservedNonNegativeOverRuns(w: World, es: seq<Event>)
    requires Orderly(w) && OrderlyRun(es) && ReservedNonNegative(w)
    ensures ReservedNonNegative(Run(w, es))
    decreases |es|
  {
    if es != [] {
      OrderlyRest(es);
      StepKeepsOrderly(w, es[0]);
      StepKeepsReservedNonNegative(w, es[0]);
      ReservedNonNegativeOverRuns(Step(w, es[0]), es[1..]);
    }
  }

  lemma OrderlyRest(es: seq<Event>)
    requires es != [] && OrderlyRun(es)
    ensures (es[0].CreateSales? ==> Sales.ValidLines(es[0].lines)) && OrderlyRun(es[1..])
  {
    assert es[0] in es && forall e | e in es[1..] :: e in es;
  }

  lemma {:induction false} SettledIffStableRun(w: World, homes: seq<string>, es: seq<Event>)
    requires OrdersSound(w, homes) && ReservedIsDemand(w, homes) && Orderly(w) && OrderlyRun(es)
    ensures SettledRun(w, homes, es) <==> StableRun(w, homes, es)
    decreases |es|
  {
    if es != [] {
      SettlesIffStable(w, homes, es[0]);
      if Stable(w, homes, es[0]) {
        OrderlyRest(es);
        StepKeepsOrderly(w, es[0]);
        StepKeepsReservedIff(w, homes, es[0]);
        SettledIffStableRun(Step(w, es[0]), HomesAfter(w, homes, es[0]), es[1..]);
      }
    }
  }

  // Over every run without negative lines: agreement holds throughout exactly when warehouse resolution is stable for
  // every order that is closed.
  lemma AgreesIffStableRun(w: World, homes: seq<string>, es: seq<Event>)
    requires OrdersSound(w, homes) && ReservedIsDemand(w, homes) && Orderly(w) && OrderlyRun(es)
    ensures AgreesThroughout(w, homes, es) <==> StableRun(w, homes, es)
  {
    ReservedIsDemandOverRuns(w, homes, es);
    SettledIffStableRun(w, homes, es);
  }

  lemma EmptyReservedIsDemand()
    ensures OrdersSound(EMPTY, []) && ReservedIsDemand(EMPTY, []) && Orderly(EMPTY)
  {
  }

  function DriftRun(): seq<Event> {
    [ChangeWarehouses([Warehouse("B", true)]),
     RecordMove(Movement("bolt", Inbound, 5, None, Some("B"), "", "", None), Some(1)),
     CreateSales(2026, [Sales.Line("bolt", 5, None)]),
     ConfirmSales(0),
     ChangeWarehouses([Warehouse("A", true), Warehouse("B", true)]),
     CancelSales(0)]
  }

  // The batch of an order with a single defaulted line.
  lemma SingleLine(op: BatchOp, s: Stock, line: Sales.Line, number: string, default: string)
    requires line.product != ""
    ensures var r := Request(Sales.Resolve(line, default), line.quantity, "SO:" + number);
            && Sales.Requests([line], number, default) == [r]
            && ApplyAll(op, s, [r]) == if Admits(op, s.levels, r) then Some(ApplyOne(op, s, r)) else None
  {
    assert [line][..0] == [];
    var r := Request(Sales.Resolve(line, default), line.quantity, "SO:" + number);
    assert [r][1..] == [];
  }

  lemma DriftOpens(es: seq<Event>, w: World)
    requires es == DriftRun() && w == Step(Step(Step(Step(EMPTY, es[0]), es[1]), es[2]), es[3])
    ensures w.stock.levels == map[Cell("bolt", "B") := Level(5, 5)]
    ensures |w.sales| == 1 && w.sales[0].status.Confirmed? && w.sales[0].lines == [Sales.Line("bolt", 5, None)]
  {
    hide Sales.Requests, ApplyAll, Production.OrderNumber;
    var line, w2 := Sales.Line("bolt", 5, None), Step(Step(EMPTY, es[0]), es[1]);
    assert w2.stock.levels == map[Cell("bolt", "B") := Level(5, 0)] && w2.warehouses == [Warehouse("B", true)];
    var number := Production.OrderNumber("SO", 2026, 0);
    assert Step(w2, es[2]) == w2.(sales := [Sales.Order(number, Sales.Draft, [line])]);
    SingleLine(Reserve, w2.stock, line, number, "B");
  }

  lemma DriftCloses(es: seq<Event>, w: World)
    requires es == DriftRun() && w.stock.levels == map[Cell("bolt", "B") := Level(5, 5)]
    requires |w.sales| == 1 && w.sales[0].status.Confirmed? && w.sales[0].lines == [Sales.Line("bolt", 5, None)]
    ensures var end := Step(Step(w, es[4]), es[5]);
            && end.stock.levels == map[Cell("bolt", "B") := Level(5, 5)]
            && |end.sales| == 1 && end.sales[0].status.Cancelled?
  {
    SingleLine(Release, w.stock, Sales.Line("bolt", 5, None), w.sales[0].number, "A");
  }

  // A run in which the default warehouse changes between confirm and cancel: the cancelled order's reservation stays.
  lemma WarehouseDriftLeaksReservation()
    ensures var end := Run(EMPTY, DriftRun());
            && LevelAt(end.stock.levels, Cell("bolt", "B")).reserved == 5
            && |end.sales| == 1 && end.sales[0].status.Cancelled?
  {
    var es := DriftRun();
    var w4 := Step(Step(Step(Step(EMPTY, es[0]), es[1]), es[2]), es[3]);
    DriftOpens(es, w4);
    DriftCloses(es, w4);
    assert es[1..][1..] == es[2..] && es[2..][1..] == es[3..] && es[3..][1..] == es[4..];
    assert es[4..][1..] == es[5..] && es[5..][1..] == [];
    assert Run(EMPTY, es) == Run(Step(Step(EMPTY, es[0]), es[1]), es[2..]) == Run(w4, es[4..]);
  }

  lemma RunNothing(w: World)
    ensures Run(w, []) == w
  {
  }

  lemma RunFrom(w: World, es: seq<Event>, k: nat)
    requires k < |es|
    ensures Run(w, es[k..]) == Run(Step(w, es[k]), es[k + 1..])
  {
    assert es[k..][1..] == es[k + 1..];
  }

  // One warehouse, one product, and orders with one line each for so many bolts.
  ghost predicate Bolts(w: World, onHand: int, reserved: int, bolts: seq<int>, statuses: seq<Sales.Status>) {
    && w.stock.levels == map[Cell("bolt", "B") := Level(onHand, reserved)] && w.warehouses == [Warehouse("B", true)]
    && |w.sales| == |bolts| == |statuses|
    && forall i | 0 <= i < |bolts| ::
         w.sales[i].lines == [Sales.Line("bolt", bolts[i], None)] && w.sales[i].status == statuses[i]
  }

  function BoltsOpened(onHand: int): seq<Event> {
    [ChangeWarehouses([Warehouse("B", true)]),
     RecordMove(Movement("bolt", Inbound, onHand, None, Some("B"), "", "", None), Some(1))]
  }

  function BoltsOrdered(n: int): Event {
    CreateSales(2026, [Sales.Line("bolt", n, None)])
  }

  lemma BoltsOpen(onHand: nat)
    ensures Bolts(Step(Step(EMPTY, BoltsOpened(onHand)[0]), BoltsOpened(onHand)[1]), onHand, 0, [], [])
  {
  }

  lemma BoltsCreated(w: World, onHand: int, reserved: int, bolts: seq<int>, statuses: seq<Sales.Status>, n: int,
                     bolts': seq<int>, statuses': seq<Sales.Status>)
    requires Bolts(w, onHand, reserved, bolts, statuses)
    requires bolts' == bolts + [n] && statuses' == statuses + [Sales.Draft]
    ensures Bolts(Step(w, BoltsOrdered(n)), onHand, reserved, bolts', statuses')
  {
    hide Production.OrderNumber;
  }

  lemma BoltsConfirmed(w: World, onHand: int, reserved: int, bolts: seq<int>, statuses: seq<Sales.Status>, id: nat,
                       statuses': seq<Sales.Status>, reserved': int)
    requires Bolts(w, onHand, reserved, bolts, statuses)
    requires id < |bolts| && statuses[id].Draft? && reserved' == reserved + bolts[id] <= onHand
    requires statuses' == statuses[id := Sales.Confirmed]
    ensures Bolts(Step(w, ConfirmSales(id)), onHand, reserved', bolts, statuses')
  {
    hide Sales.Requests, ApplyAll;
    SingleLine(Reserve, w.stock, Sales.Line("bolt", bolts[id], None), w.sales[id].number, "B");
  }

  lemma BoltsCancelled(w: World, onHand: int, reserved: int, bolts: seq<int>, statuses: seq<Sales.Status>, id: nat,
                       statuses': seq<Sales.Status>, reserved': int)
    requires Bolts(w, onHand, reserved, bolts, statuses) && id < |bolts| && statuses[id].Confirmed?
    requires statuses' == statuses[id := Sales.Cancelled] && reserved' == Max(0, reserved - bolts[id])
    ensures Bolts(Step(w, CancelSales(id)), onHand, reserved', bolts, statuses')
  {
    hide Sales.Requests, ApplyAll;
    SingleLine(Release, w.stock, Sales.Line("bolt", bolts[id], None), w.sales[id].number, "B");
  }

  function BoltsDemand(bolts: seq<int>, statuses: seq<Sales.Status>): int
    requires |bolts| == |statuses|
  {
    if bolts == [] then 0
    else (if statuses[0].Confirmed? then bolts[0] else 0) + BoltsDemand(bolts[1..], statuses[1..])
  }

  lemma {:induction false} BoltsOpenDemand(sales: seq<Sales.Order>, homes: seq<string>, bolts: seq<int>,
                                           statuses: seq<Sales.Status>)
    requires |sales| == |homes| == |bolts| == |statuses| && forall home | home in homes :: home == "B"
    requires forall i | 0 <= i < |bolts| ::
               sales[i].lines == [Sales.Line("bolt", bolts[i], None)] && sales[i].status == statuses[i]
    ensures OpenDemand(sales, homes, Cell("bolt", "B")) == BoltsDemand(bolts, statuses)
  {
    if sales != [] {
      assert homes[0] in homes && forall home | home in homes[1..] :: home in homes;
      OneBoltsDemand(bolts[0]);
      BoltsOpenDemand(sales[1..], homes[1..], bolts[1..], statuses[1..]);
    }
  }

  lemma OneBoltsDemand(n: int)
    ensures Sales.LineDemand([Sales.Line("bolt", n, None)], "B", Cell("bolt", "B")) == n
  {
    var line := Sales.Line("bolt", n, None);
    assert [line][..0] == [] && Sales.LineDemand([], "B", Cell("bolt", "B")) == 0;
  }

  function NegativeRun(): seq<Event> {
    BoltsOpened(10) + [BoltsOrdered(5), BoltsOrdered(-5), ConfirmSales(0), ConfirmSales(1), CancelSales(0)]
  }

  lemma NegativeBolts()
    ensures Bolts(Run(EMPTY, NegativeRun()), 10, 0, [5, -5], [Sales.Cancelled, Sales.Confirmed])
  {
    hide Run, Step, Bolts;
    var es := NegativeRun();
    assert es[0..] == es && es[7..] == [] && es[2] == BoltsOrdered(5) && es[3] == BoltsOrdered(-5);
    assert es[4] == ConfirmSales(0) && es[5] == ConfirmSales(1) && es[6] == CancelSales(0);
    RunFrom(EMPTY, es, 0);
    RunFrom(Step(EMPTY, es[0]), es, 1);
    BoltsOpen(10);
    var w2 := Step(Step(EMPTY, es[0]), es[1]);
    RunFrom(w2, es, 2);
    BoltsCreated(w2, 10, 0, [], [], 5, [5], [Sales.Draft]);
    var w3 := Step(w2, es[2]);
    RunFrom(w3, es, 3);
    BoltsCreated(w3, 10, 0, [5], [Sales.Draft], -5, [5, -5], [Sales.Draft, Sales.Draft]);
    var w4 := Step(w3, es[3]);
    RunFrom(w4, es, 4);
    BoltsConfirmed(w4, 10, 0, [5, -5], [Sales.Draft, Sales.Draft], 0, [Sales.Confirmed, Sales.Draft], 5);
    var w5 := Step(w4, es[4]);
    RunFrom(w5, es, 5);
    BoltsConfirmed(w5, 10, 5, [5, -5], [Sales.Confirmed, Sales.Draft], 1, [Sales.Confirmed, Sales.Confirmed], 0);
    var w6 := Step(w5, es[5]);
    assert Bolts(w6, 10, 0, [5, -5], [Sales.Confirmed, Sales.Confirmed]);
    RunFrom(w6, es, 6);
    BoltsCancelled(w6, 10, 0, [5, -5], [Sales.Confirmed, Sales.Confirmed], 0, [Sales.Cancelled, Sales.Confirmed], 0);
    RunNothing(Step(w6, es[6]));
  }

  // A run in which an order line is negative, as a converted quotation's may be: cancelling the positive order meets
  // the clamp, and the reservation no longer shows the negative demand that stays open.
  lemma NegativeLineBreaksReservation()
    ensures var end := Run(EMPTY, NegativeRun());
            && LevelAt(end.stock.levels, Cell("bolt", "B")).reserved == 0
            && |end.sales| == 2 && OpenDemand(end.sales, ["B", "B"], Cell("bolt", "B")) == -5
  {
    hide Run, OpenDemand;
    var end, bolts, statuses := Run(EMPTY, NegativeRun()), [5, -5], [Sales.Cancelled, Sales.Confirmed];
    NegativeBolts();
    BoltsOpenDemand(end.sales, ["B", "B"], bolts, statuses);
    assert bolts[1..] == [-5] && statuses[1..] == [Sales.Confirmed];
    assert [-5][1..] == [] && [Sales.Confirmed][1..] == [] && BoltsDemand([-5], [Sales.Confirmed]) == -5;
  }

  // ----- Availability ----------------------------------------------------------------------------

  ghost predicate Available(w: World) {
    forall c :: LevelAt(w.stock.levels, c).reserved <= LevelAt(w.stock.levels, c).onHand
  }

  // A movement or the start of a production order takes no more from a cell than what is not reserved there. Holds in
  // particular when on-hand is not lowered at all.
  ghost predicate TakesOnlyFree(w: World, e: Event) {
    match e
    case RecordMove(m, unitCost) =>
      RecordMovement(w.stock, m, unitCost).Some? ==>
        forall c ::
          || Effect(m, c) >= 0
          || -Effect(m, c) <= LevelAt(w.stock.levels, c).onHand - LevelAt(w.stock.levels, c).reserved
    case UpdateProduction(id, next) =>
      Try(w, e).Some? && next.InProgress? && w.production[id].bom != [] ==>
        var default := DefaultWarehouse(w.warehouses).value;
        forall c :: Demand(Production.BomRequests(w.production[id], w.production[id].bom, default), c) <=
                    LevelAt(w.stock.levels, c).onHand - LevelAt(w.stock.levels, c).reserved
    case _ => true
  }

  // The event cancels an order that holds a reservation, and succeeds.
  predicate Releases(w: World, e: Event) {
    && e.CancelSales? && Try(w, e).Some?
    && (w.sales[e.id].status.Confirmed? || w.sales[e.id].status.PartiallyShipped?)
  }

  // A cancellation gives back a negative demand only as far as it is on hand.
  ghost predicate ReleasesWithin(w: World, e: Event) {
    Releases(w, e) ==>
      var rs := RequestsOf(w.sales[e.id], DefaultWarehouse(w.warehouses).value);
      forall c | c in w.stock.levels ::
        var level := w.stock.levels[c];
        level.reserved - Demand(rs, c) + Forgiven(rs, c, level.reserved) <= level.onHand
  }

  ghost predicate Gentle(w: World, e: Event) {
    TakesOnlyFree(w, e) && ReleasesWithin(w, e)
  }

  ghost predicate GentleRun(w: World, es: seq<Event>)
    decreases |es|
  {
    es == [] || (Gentle(w, es[0]) && GentleRun(Step(w, es[0]), es[1..]))
  }

  ghost predicate TakesOnlyFreeRun(w: World, es: seq<Event>)
    decreases |es|
  {
    es == [] || (TakesOnlyFree(w, es[0]) && TakesOnlyFreeRun(Step(w, es[0]), es[1..]))
  }

  // Reserving and shipping keep what is reserved on hand by themselves, whatever the signs.
  lemma {:induction false} BatchKeepsAvailable(op: BatchOp, s: Stock, rs: seq<Request>, c: Cell)
    requires (op.Reserve? || op.Ship?) && ApplyAll(op, s, rs).Some?
    requires LevelAt(s.levels, c).reserved <= LevelAt(s.levels, c).onHand
    ensures var level := LevelAt(ApplyAll(op, s, rs).value.levels, c); level.reserved <= level.onHand
    decreases |rs|
  {
    if rs != [] {
      BatchKeepsAvailable(op, ApplyOne(op, s, rs[0]), rs[1..], c);
    }
  }

  lemma {:induction false} ConsumeOnHand(s: Stock, rs: seq<Request>, c: Cell)
    requires ApplyAll(Consume, s, rs).Some?
    ensures var level := LevelAt(s.levels, c);
            LevelAt(ApplyAll(Consume, s, rs).value.levels, c) == level.(onHand := level.onHand - Demand(rs, c))
    decreases |rs|
  {
    if rs != [] {
      ConsumeOnHand(ApplyOne(Consume, s, rs[0]), rs[1..], c);
    }
  }

  lemma CancelKeepsAvailableIff(w: World, e: Event)
    requires Available(w) && e.CancelSales?
    ensures Available(Step(w, e)) <==> ReleasesWithin(w, e)
  {
    hide ApplyAll, Demand, Forgiven, Sales.Requests;
    if Releases(w, e) {
      var rs, levels := RequestsOf(w.sales[e.id], DefaultWarehouse(w.warehouses).value), w.stock.levels;
      forall c
        ensures LevelAt(Step(w, e).stock.levels, c) ==
                if c in levels then
                  levels[c].(reserved := levels[c].reserved - Demand(rs, c) + Forgiven(rs, c, levels[c].reserved))
                else Level(0, 0)
      {
        TakenLevelAt(Release, w.stock, rs, c);
      }
    }
  }

  lemma StockOnlyKeepsAvailableIff(w: World, e: Event)
    requires Available(w) && (e.RecordMove? || e.UpdateProduction?)
    ensures Available(Step(w, e)) <==> TakesOnlyFree(w, e)
  {
    hide ApplyAll, ApplyMovement, Demand, Effect, Production.BomRequests;
    var next := Step(w, e);
    if Try(w, e).Some? {
      if e.RecordMove? {
        forall c
          ensures LevelAt(next.stock.levels, c).reserved == LevelAt(w.stock.levels, c).reserved
          ensures LevelAt(next.stock.levels, c).onHand == LevelAt(w.stock.levels, c).onHand + Effect(e.movement, c)
        {
          MovementOnHand(w.stock.levels, e.movement, c);
        }
      } else if e.next.InProgress? && w.production[e.id].bom != [] {
        var order, default := w.production[e.id], DefaultWarehouse(w.warehouses).value;
        var rs := Production.BomRequests(order, order.bom, default);
        forall c
          ensures LevelAt(next.stock.levels, c).reserved == LevelAt(w.stock.levels, c).reserved
          ensures LevelAt(next.stock.levels, c).onHand == LevelAt(w.stock.levels, c).onHand - Demand(rs, c)
        {
          ConsumeOnHand(w.stock, rs, c);
        }
      }
    }
  }

  // One request keeps reserved within on-hand exactly when it is gentle, whatever the quantities and the warehouses.
  lemma StepKeepsAvailableIff(w: World, e: Event)
    requires Available(w)
    ensures Available(Step(w, e)) <==> Gentle(w, e)
  {
    hide ApplyAll, Demand, Forgiven, Sales.Requests;
    if e.CancelSales? {
      CancelKeepsAvailableIff(w, e);
    } else if e.RecordMove? || e.UpdateProduction? {
      StockOnlyKeepsAvailableIff(w, e);
    } else if (e.ConfirmSales? || e.ShipSales?) && Try(w, e).Some? {
      var op := if e.ConfirmSales? then Reserve else Ship;
      var rs := RequestsOf(w.sales[e.id], DefaultWarehouse(w.warehouses).value);
      forall c ensures LevelAt(Step(w, e).stock.levels, c).reserved <= LevelAt(Step(w, e).stock.levels, c).onHand {
        BatchKeepsAvailable(op, w.stock, rs, c);
      }
    }
  }

  // Reserved stock is on hand now and after every prefix of the run.
  ghost predicate AvailableThroughout(w: World, es: seq<Event>)
    decreases |es|
  {
    Available(w) && (es == [] || AvailableThroughout(Step(w, es[0]), es[1..]))
  }

  // Over every run: reserved stock is on hand throughout exactly when every request on the way is gentle.
  lemma {:induction false} AvailableOverRuns(w: World, es: seq<Event>)
    requires Available(w)
    ensures AvailableThroughout(w, es) <==> GentleRun(w, es)
    ensures AvailableThroughout(w, es) ==> Available(Run(w, es))
    decreases |es|
  {
    if es != [] {
      StepKeepsAvailableIff(w, es[0]);
      if Gentle(w, es[0]) { AvailableOverRuns(Step(w, es[0]), es[1..]); }
    }
  }

  // Without negative lines a cancellation is always gentle.
  lemma OrderlyReleasesWithin(w: World, e: Event)
    requires Orderly(w) && ReservedNonNegative(w) && Available(w)
    ensures ReleasesWithin(w, e)
  {
    hide ApplyAll, Demand, Forgiven, Sales.Requests;
    if Releases(w, e) {
      var order, default := w.sales[e.id], DefaultWarehouse(w.warehouses).value;
      var rs := RequestsOf(order, default);
      forall c | c in w.stock.levels
        ensures w.stock.levels[c].reserved - Demand(rs, c) + Forgiven(rs, c, w.stock.levels[c].reserved)
                <= w.stock.levels[c].onHand
      {
        assert LevelAt(w.stock.levels, c).reserved >= 0;
        Sales.RequestsDemand(order.lines, order.number, default, c);
        ForgivenOfNonNegative(rs, c, w.stock.levels[c].reserved);
      }
    }
  }

  // Over every run without negative lines, drift included: exactly when no movement and no production start takes
  // reserved stock.
  lemma {:induction false} AvailableIffTakesOnlyFree(w: World, es: seq<Event>)
    requires Orderly(w) && OrderlyRun(es) && ReservedNonNegative(w) && Available(w)
    ensures AvailableThroughout(w, es) <==> TakesOnlyFreeRun(w, es)
    decreases |es|
  {
    if es != [] {
      OrderlyReleasesWithin(w, es[0]);
      StepKeepsAvailableIff(w, es[0]);
      if TakesOnlyFree(w, es[0]) {
        OrderlyRest(es);
        StepKeepsOrderly(w, es[0]);
        StepKeepsReservedNonNegative(w, es[0]);
        AvailableIffTakesOnlyFree(Step(w, es[0]), es[1..]);
      }
    }
  }

  function OvercommitRun(): seq<Event> {
    BoltsOpened(5) + [BoltsOrdered(5), BoltsOrdered(-5), BoltsOrdered(5),
                      ConfirmSales(0), ConfirmSales(1), ConfirmSales(2), CancelSales(1)]
  }

  lemma OvercommitDrafts(w: World)
    requires w == Step(Step(Step(Step(Step(EMPTY, OvercommitRun()[0]), OvercommitRun()[1]), OvercommitRun()[2]),
                            OvercommitRun()[3]), OvercommitRun()[4])
    ensures Bolts(w, 5, 0, [5, -5, 5], [Sales.Draft, Sales.Draft, Sales.Draft])
    ensures Run(EMPTY, OvercommitRun()) == Run(w, OvercommitRun()[5..])
  {
    hide Run, Step, Bolts;
    var es := OvercommitRun();
    assert es[0..] == es;
    RunFrom(EMPTY, es, 0);
    RunFrom(Step(EMPTY, es[0]), es, 1);
    BoltsOpen(5);
    var w2 := Step(Step(EMPTY, es[0]), es[1]);
    RunFrom(w2, es, 2);
    BoltsCreated(w2, 5, 0, [], [], 5, [5], [Sales.Draft]);
    var w3 := Step(w2, es[2]);
    RunFrom(w3, es, 3);
    BoltsCreated(w3, 5, 0, [5], [Sales.Draft], -5, [5, -5], [Sales.Draft, Sales.Draft]);
    var w4 := Step(w3, es[3]);
    RunFrom(w4, es, 4);
    BoltsCreated(w4, 5, 0, [5, -5], [Sales.Draft, Sales.Draft], 5, [5, -5, 5], [Sales.Draft, Sales.Draft, Sales.Draft]);
  }

  lemma OvercommitBolts()
    ensures Bolts(Run(EMPTY, OvercommitRun()), 5, 10, [5, -5, 5], [Sales.Confirmed, Sales.Cancelled, Sales.Confirmed])
  {
    hide Run, Step, Bolts;
    var es, bolts := OvercommitRun(), [5, -5, 5];
    var w5 := Step(Step(Step(Step(Step(EMPTY, es[0]), es[1]), es[2]), es[3]), es[4]);
    OvercommitDrafts(w5);
    RunFrom(w5, es, 5);
    BoltsConfirmed(w5, 5, 0, bolts, [Sales.Draft, Sales.Draft, Sales.Draft], 0,
                   [Sales.Confirmed, Sales.Draft, Sales.Draft], 5);
    var w6 := Step(w5, es[5]);
    RunFrom(w6, es, 6);
    BoltsConfirmed(w6, 5, 5, bolts, [Sales.Confirmed, Sales.Draft, Sales.Draft], 1,
                   [Sales.Confirmed, Sales.Confirmed, Sales.Draft], 0);
    var w7 := Step(w6, es[6]);
    RunFrom(w7, es, 7);
    BoltsConfirmed(w7, 5, 0, bolts, [Sales.Confirmed, Sales.Confirmed, Sales.Draft], 2,
                   [Sales.Confirmed, Sales.Confirmed, Sales.Confirmed], 5);
    var w8 := Step(w7, es[7]);
    RunFrom(w8, es, 8);
    BoltsCancelled(w8, 5, 5, bolts, [Sales.Confirmed, Sales.Confirmed, Sales.Confirmed], 1,
                   [Sales.Confirmed, Sales.Cancelled, Sales.Confirmed], 10);
    assert es[9..] == [];
    RunNothing(Step(w8, es[8]));
  }

  // A run in which cancelling an order with a negative line leaves two confirmed orders for five bolts each on five
  // bolts, though no warehouse changes after the first request and reservations equal open demand.
  lemma NegativeLineOvercommits()
    ensures var end := Run(EMPTY, OvercommitRun());
            && Bolts(end, 5, 10, [5, -5, 5], [Sales.Confirmed, Sales.Cancelled, Sales.Confirmed])
            && OpenDemand(end.sales, ["B", "B", "B"], Cell("bolt", "B")) == 10
            && !Available(end) && !GentleRun(EMPTY, OvercommitRun())
  {
    hide Run, OpenDemand, GentleRun, AvailableThroughout;
    var end, bolts := Run(EMPTY, OvercommitRun()), [5, -5, 5];
    var statuses := [Sales.Confirmed, Sales.Cancelled, Sales.Confirmed];
    OvercommitBolts();
    assert LevelAt(end.stock.levels, Cell("bolt", "B")) == Level(5, 10);
    AvailableOverRuns(EMPTY, OvercommitRun());
    BoltsOpenDemand(end.sales, ["B", "B", "B"], bolts, statuses);
    assert bolts[1..] == [-5, 5] && statuses[1..] == [Sales.Cancelled, Sales.Confirmed];
    assert [-5, 5][1..] == [5] && [Sales.Cancelled, Sales.Confirmed][1..] == [Sales.Confirmed];
    assert [5][1..] == [] && [Sales.Confirmed][1..] == [] && BoltsDemand([5], [Sales.Confirmed]) == 5;
    assert BoltsDemand([-5, 5], [Sales.Cancelled, Sales.Confirmed]) == 5;
  }

  // ----- Shipping --------------------------------------------------------------------------------

  // Shipping an open order succeeds exactly when every cell it asks for has a stock row on which the running demand
  // never exceeds what is on hand, whatever the quantities and the warehouses.
  lemma ConfirmedOrderShips(w: World, id: nat, default: string)
    requires id < |w.sales| && w.sales[id].status.Confirmed? && DefaultWarehouse(w.warehouses) == Some(default)
    ensures var rs := RequestsOf(w.sales[id], default);
            Try(w, ShipSales(id)).Some? <==>
            forall c | c in Cells(rs) :: c in w.stock.levels && Covered(rs, c, w.stock.levels[c].onHand)
  {
    hide Sales.Requests, ApplyAll, Covered;
    BatchSucceedsIffCovered(Ship, w.stock, RequestsOf(w.sales[id], default));
  }

  // For an order without negative lines: exactly when its demand is on hand, cell by cell.
  lemma OrderlyOrderShips(w: World, id: nat, default: string)
    requires id < |w.sales| && w.sales[id].status.Confirmed? && DefaultWarehouse(w.warehouses) == Some(default)
    requires Sales.ValidLines(w.sales[id].lines)
    ensures Try(w, ShipSales(id)).Some? <==>
            forall c | c in Cells(RequestsOf(w.sales[id], default)) ::
              c in w.stock.levels && Sales.LineDemand(w.sales[id].lines, default, c) <= w.stock.levels[c].onHand
  {
    hide Sales.Requests, Sales.LineDemand, ApplyAll, Covered;
    var order, rs := w.sales[id], RequestsOf(w.sales[id], default);
    ConfirmedOrderShips(w, id, default);
    forall c | c in Cells(rs) && c in w.stock.levels
      ensures Covered(rs, c, w.stock.levels[c].onHand) <==>
              Sales.LineDemand(order.lines, default, c) <= w.stock.levels[c].onHand
    {
      Sales.RequestsDemand(order.lines, order.number, default, c);
      CoveredOfNonNegative(rs, c, w.stock.levels[c].onHand);
    }
  }

  // When reservations agree, reserved stock is available and no line is negative, only stock rows can be missing: a
  // line for nothing may resolve to a warehouse that never held the product.
  lemma OnlyRowsCanBeMissing(w: World, homes: seq<string>, id: nat, default: string)
    requires |homes| == |w.sales| && ReservedIsDemand(w, homes) && Orderly(w) && Available(w)
    requires id < |w.sales| && w.sales[id].status.Confirmed?
    requires DefaultWarehouse(w.warehouses) == Some(default)
             && Sales.SameResolution(w.sales[id].lines, homes[id], default)
    ensures Try(w, ShipSales(id)).Some? <==> Cells(RequestsOf(w.sales[id], default)) <= w.stock.levels.Keys
  {
    hide Sales.Requests, Sales.LineDemand, OpenDemand, ApplyAll;
    assert w.sales[id] in w.sales;
    OrderlyOrderShips(w, id, default);
    forall c | c in w.stock.levels
      ensures Sales.LineDemand(w.sales[id].lines, default, c) <= w.stock.levels[c].onHand
    {
      Sales.SameResolutionSameDemand(w.sales[id].lines, homes[id], default, c);
      OpenDemandCovers(w.sales, homes, id, c);
      assert LevelAt(w.stock.levels, c) == w.stock.levels[c];
    }
  }

  // The default warehouse of confirmation always has the rows.
  lemma UnmovedOrderShips(w: World, homes: seq<string>, id: nat)
    requires OrdersSound(w, homes) && ReservedIsDemand(w, homes) && Orderly(w) && Available(w)
    requires id < |w.sales| && w.sales[id].status.Confirmed? && DefaultWarehouse(w.warehouses) == Some(homes[id])
    ensures Try(w, ShipSales(id)).Some?
  {
    OnlyRowsCanBeMissing(w, homes, id, homes[id]);
  }

  // ----- Production orders -----------------------------------------------------------------------

  // Statuses only move up this scale.
  function Rank(status: Production.Status): nat {
    match status
    case Draft => 0
    case Planned => 1
    case Confirmed => 2
    case InProgress => 3
    case Completed | Cancelled => 4
  }

  function RankAt(w: World, id: nat): nat {
    if id < |w.production| then Rank(w.production[id].status) else 0
  }

  predicate HasStarted(w: World, id: nat) {
    id < |w.production| && w.production[id].started
  }

  predicate Changes(w: World, e: Event, id: nat) {
    e.UpdateProduction? && e.id == id && Try(w, e).Some?
  }

  function StatusChanges(w: World, es: seq<Event>, id: nat): nat
    decreases |es|
  {
    if es == [] then 0 else (if Changes(w, es[0], id) then 1 else 0) + StatusChanges(Step(w, es[0]), es[1..], id)
  }

  function Starts(w: World, es: seq<Event>, id: nat): nat
    decreases |es|
  {
    if es == [] then 0
    else (if Changes(w, es[0], id) && es[0].next.InProgress? then 1 else 0) + Starts(Step(w, es[0]), es[1..], id)
  }

  // An order has started exactly when it is past the point of starting; only a cancelled one can be either.
  predicate StartedFits(order: Production.Order) {
    && (order.started ==> Rank(order.status) >= 3)
    && (order.status.InProgress? || order.status.Completed? ==> order.started)
  }

  ghost predicate ProductionFits(w: World) {
    forall order | order in w.production :: StartedFits(order)
  }

  lemma StepKeepsProductionFits(w: World, e: Event, id: nat)
    requires ProductionFits(w)
    ensures ProductionFits(Step(w, e))
    ensures RankAt(Step(w, e), id) >= RankAt(w, id) + if Changes(w, e, id) then 1 else 0
    ensures HasStarted(Step(w, e), id) <==> HasStarted(w, id) || (Changes(w, e, id) && e.next.InProgress?)
    ensures Changes(w, e, id) && e.next.InProgress? ==> !HasStarted(w, id)
  {
    var next := Step(w, e);
    forall order | order in next.production ensures StartedFits(order) {
      var i :| 0 <= i < |next.production| && next.production[i] == order;
      if i < |w.production| {
        assert w.production[i] in w.production;
      }
    }
    if id < |w.production| {
      assert w.production[id] in w.production;
    }
  }

  // Over every run an order changes status at most four times, and it starts at most once: exactly once if it is
  // marked as started at the end.
  lemma {:induction false} ProductionOrderLife(w: World, es: seq<Event>, id: nat)
    requires ProductionFits(w)
    ensures ProductionFits(Run(w, es))
    ensures StatusChanges(w, es, id) <= RankAt(Run(w, es), id) - RankAt(w, id) <= 4
    ensures (if HasStarted(Run(w, es), id) then 1 else 0) == (if HasStarted(w, id) then 1 else 0) + Starts(w, es, id)
    decreases |es|
  {
    if es != [] {
      StepKeepsProductionFits(w, es[0], id);
      ProductionOrderLife(Step(w, es[0]), es[1..], id);
    }
  }

  // ----- What the batches log --------------------------------------------------------------------

  // A row that a batch operation wrote for a product under a reference; the rows of direct movements carry a cost.
  predicate RowOf(op: BatchOp, m: Movement, reference: string, product: string) {
    && m.unitCost.None? && m.reference == reference && m.product == product
    && match op
       case Reserve => m.kind.Adjustment? && m.notes == "Reservation for " + reference
       case Release => m.kind.Adjustment? && m.notes == "Reservation release for " + reference
       case Ship => m.kind.Outbound?
       case Consume => m.kind.ProductionConsumption?
  }

  // Quantity of a product that an operation logged under a reference.
  function Logged(op: BatchOp, log: seq<Movement>, reference: string, product: string): int {
    if log == [] then 0
    else
      var m := log[|log| - 1];
      Logged(op, log[..|log| - 1], reference, product) + if RowOf(op, m, reference, product) then m.quantity else 0
  }

  // Quantity of a product that a batch asks for under a reference.
  function Asked(rs: seq<Request>, reference: string, product: string): int {
    if rs == [] then 0
    else (if rs[0].reference == reference && rs[0].cell.product == product then rs[0].quantity else 0)
         + Asked(rs[1..], reference, product)
  }

  lemma LoggedAppend(op: BatchOp, log: seq<Movement>, m: Movement, reference: string, product: string)
    ensures Logged(op, log + [m], reference, product) ==
            Logged(op, log, reference, product) + if RowOf(op, m, reference, product) then m.quantity else 0
  {
    assert (log + [m])[..|log|] == log;
  }

  lemma EntryIsRowOf(op: BatchOp, r: Request, kind: BatchOp, reference: string, product: string)
    ensures RowOf(kind, Entry(op, r), reference, product) <==>
            op == kind && r.reference == reference && r.cell.product == product
    ensures Entry(op, r).quantity == r.quantity
  {
    assert |"Reservation for " + reference| != |"Reservation release for " + reference|;
  }

  // Every batch but a release, which skips cells without a row, logs exactly what it was asked for.
  lemma {:induction false} BatchLogs(op: BatchOp, s: Stock, rs: seq<Request>, kind: BatchOp, reference: string,
                                     product: string)
    requires ApplyAll(op, s, rs).Some? && !kind.Release?
    ensures Logged(kind, ApplyAll(op, s, rs).value.log, reference, product) ==
            Logged(kind, s.log, reference, product) + if op == kind then Asked(rs, reference, product) else 0
    decreases |rs|
  {
    hide RowOf, Admits, Moved, Entry;
    if rs != [] {
      EntryIsRowOf(op, rs[0], kind, reference, product);
      LoggedAppend(kind, s.log, Entry(op, rs[0]), reference, product);
      BatchLogs(op, ApplyOne(op, s, rs[0]), rs[1..], kind, reference, product);
    }
  }

  function BomNeed(bom: seq<Production.BomLine>, planned: int, material: string): int {
    if bom == [] then 0
    else (if bom[0].material == material then bom[0].required * planned else 0) + BomNeed(bom[1..], planned, material)
  }

  lemma {:induction false} BomAsks(order: Production.Order, bom: seq<Production.BomLine>, default: string,
                                   reference: string, material: string)
    ensures Asked(Production.BomRequests(order, bom, default), reference, material) ==
            if reference == "PO:" + order.number then BomNeed(bom, order.planned, material) else 0
  {
    if bom != [] {
      assert Production.BomRequests(order, bom, default)[1..] == Production.BomRequests(order, bom[1..], default);
      BomAsks(order, bom[1..], default, reference, material);
    }
  }

  // What an order's lines add up to for a product, whatever the warehouses.
  function LineTotal(lines: seq<Sales.Line>, product: string): int {
    if lines == [] then 0
    else
      var last := lines[|lines| - 1];
      LineTotal(lines[..|lines| - 1], product) + if last.product == product != "" then last.quantity else 0
  }

  lemma {:induction false} AskedConcat(a: seq<Request>, b: seq<Request>, reference: string, product: string)
    ensures Asked(a + b, reference, product) == Asked(a, reference, product) + Asked(b, reference, product)
  {
    if a == [] {
      assert a + b == b;
    } else {
      assert (a + b)[1..] == a[1..] + b;
      AskedConcat(a[1..], b, reference, product);
    }
  }

  lemma {:induction false} LinesAsk(lines: seq<Sales.Line>, number: string, default: string, reference: string,
                                    product: string)
    ensures Asked(Sales.Requests(lines, number, default), reference, product) ==
            if reference == "SO:" + number then LineTotal(lines, product) else 0
  {
    if lines != [] {
      var front, last := lines[..|lines| - 1], lines[|lines| - 1];
      LinesAsk(front, number, default, reference, product);
      AskedConcat(Sales.Requests(front, number, default), Sales.LineRequest(last, number, default), reference, product);
      if last.product != "" {
        assert Sales.LineRequest(last, number, default)[1..] == [];
      }
    }
  }

  // What one event adds to the quantity an operation logged under a reference.
  function Adds(w: World, e: Event, op: BatchOp, reference: string, product: string): int {
    if Try(w, e).None? then 0
    else match e
      case ConfirmSales(id) =>
        if op.Reserve? && reference == "SO:" + w.sales[id].number then LineTotal(w.sales[id].lines, product) else 0
      case ShipSales(id) =>
        if op.Ship? && reference == "SO:" + w.sales[id].number then LineTotal(w.sales[id].lines, product) else 0
      case UpdateProduction(id, next) =>
        if op.Consume? && next.InProgress? && reference == "PO:" + w.production[id].number then
          BomNeed(w.production[id].bom, w.production[id].planned, product)
        else 0
      case _ => 0
  }

  lemma StepLogs(w: World, e: Event, op: BatchOp, reference: string, product: string)
    requires !op.Release?
    ensures Logged(op, Step(w, e).stock.log, reference, product) ==
            Logged(op, w.stock.log, reference, product) + Adds(w, e, op, reference, product)
  {
    hide ApplyAll, Logged, Asked, LineTotal, Sales.Requests, Production.BomRequests, BomNeed;
    var default := DefaultWarehouse(w.warehouses);
    if Try(w, e).Some? {
      match e
      case ConfirmSales(id) => OrderLogs(Reserve, w.stock, w.sales[id], default.value, op, reference, product);
      case CancelSales(id) =>
        if w.sales[id].status.Confirmed? || w.sales[id].status.PartiallyShipped? {
          OrderLogs(Release, w.stock, w.sales[id], default.value, op, reference, product);
        }
      case ShipSales(id) => OrderLogs(Ship, w.stock, w.sales[id], default.value, op, reference, product);
      case RecordMove(m, unitCost) => LoggedAppend(op, w.stock.log, m.(unitCost := unitCost), reference, product);
      case UpdateProduction(id, next) =>
        var order := w.production[id];
        if next.InProgress? && order.bom != [] {
          BatchLogs(Consume, w.stock, Production.BomRequests(order, order.bom, default.value), op, reference, product);
          BomAsks(order, order.bom, default.value, reference, product);
        } else {
          NoBomNeed(order.bom, order.planned, product);
        }
      case _ =>
    }
  }

  lemma NoBomNeed(bom: seq<Production.BomLine>, planned: int, material: string)
    ensures bom == [] ==> BomNeed(bom, planned, material) == 0
  {
  }

  lemma OrderLogs(op: BatchOp, s: Stock, order: Sales.Order, default: string, kind: BatchOp, reference: string,
                  product: string)
    requires ApplyAll(op, s, RequestsOf(order, default)).Some? && !kind.Release?
    ensures Logged(kind, ApplyAll(op, s, RequestsOf(order, default)).value.log, reference, product) ==
            Logged(kind, s.log, reference, product)
            + if op == kind && reference == "SO:" + order.number then LineTotal(order.lines, product) else 0
  {
    hide ApplyAll, Logged, Asked, LineTotal, Sales.Requests;
    BatchLogs(op, s, RequestsOf(order, default), kind, reference, product);
    LinesAsk(order.lines, order.number, default, reference, product);
  }

  // ----- What the log says about reservations ----------------------------------------------------

  // What a row of the log takes for reservations at a cell: reserving adds, releasing and shipping subtract.
  function Holds(m: Movement, c: Cell): int {
    if m.unitCost.Some? || m.product != c.product then 0
    else if m.kind.Adjustment? && m.destination == Some(c.warehouse) && m.notes == "Reservation for " + m.reference then
      m.quantity
    else if m.kind.Adjustment? && m.destination == Some(c.warehouse)
         && m.notes == "Reservation release for " + m.reference then -m.quantity
    else if m.kind.Outbound? && m.source == Some(c.warehouse) then -m.quantity
    else 0
  }

  function Held(log: seq<Movement>, c: Cell): int {
    if log == [] then 0 else Held(log[..|log| - 1], c) + Holds(log[|log| - 1], c)
  }

  lemma HeldAppend(log: seq<Movement>, m: Movement, c: Cell)
    ensures Held(log + [m], c) == Held(log, c) + Holds(m, c)
  {
    assert (log + [m])[..|log|] == log;
  }

  lemma EntryHolds(op: BatchOp, r: Request, c: Cell)
    ensures Holds(Entry(op, r), c) ==
            if r.cell != c || op.Consume? then 0 else if op.Reserve? then r.quantity else -r.quantity
  {
    assert |"Reservation for " + r.reference| != |"Reservation release for " + r.reference|;
    assert r.cell == Cell(r.cell.product, r.cell.warehouse) && c == Cell(c.product, c.warehouse);
  }

  // What a batch logs about a cell is its demand there; a release logs nothing where there is no stock row.
  lemma {:induction false} BatchHolds(op: BatchOp, s: Stock, rs: seq<Request>, c: Cell)
    requires ApplyAll(op, s, rs).Some?
    ensures Held(ApplyAll(op, s, rs).value.log, c) == Held(s.log, c)
            + if op.Consume? || (op.Release? && c !in s.levels) then 0
              else if op.Reserve? then Demand(rs, c) else -Demand(rs, c)
    decreases |rs|
  {
    hide Admits, Moved, Entry, Holds;
    if rs != [] {
      EntryHolds(op, rs[0], c);
      HeldAppend(s.log, Entry(op, rs[0]), c);
      BatchHolds(op, ApplyOne(op, s, rs[0]), rs[1..], c);
    }
  }

  // What the clamps forgive at a cell when an order is closed.
  function ForgivenBy(w: World, e: Event, c: Cell): int {
    if (Releases(w, e) || (e.ShipSales? && Try(w, e).Some?)) && c in w.stock.levels then
      Forgiven(RequestsOf(w.sales[e.id], DefaultWarehouse(w.warehouses).value), c, w.stock.levels[c].reserved)
    else 0
  }

  function RunForgiven(w: World, es: seq<Event>, c: Cell): int
    decreases |es|
  {
    if es == [] then 0 else ForgivenBy(w, es[0], c) + RunForgiven(Step(w, es[0]), es[1..], c)
  }

  lemma StepReservedIsLogged(w: World, e: Event, c: Cell)
    ensures var next := Step(w, e);
            LevelAt(next.stock.levels, c).reserved - Held(next.stock.log, c) ==
            LevelAt(w.stock.levels, c).reserved - Held(w.stock.log, c) + ForgivenBy(w, e, c)
  {
    hide ApplyAll, Held, Demand, Forgiven, Sales.Requests, Production.BomRequests;
    if Try(w, e).Some? {
      var default := DefaultWarehouse(w.warehouses);
      match e
      case ConfirmSales(id) =>
        BatchHolds(Reserve, w.stock, RequestsOf(w.sales[id], default.value), c);
        ReserveLevelAt(w.stock, RequestsOf(w.sales[id], default.value), c);
      case CancelSales(id) =>
        if w.sales[id].status.Confirmed? || w.sales[id].status.PartiallyShipped? {
          BatchHolds(Release, w.stock, RequestsOf(w.sales[id], default.value), c);
          TakenLevelAt(Release, w.stock, RequestsOf(w.sales[id], default.value), c);
        }
      case ShipSales(id) =>
        BatchHolds(Ship, w.stock, RequestsOf(w.sales[id], default.value), c);
        TakenLevelAt(Ship, w.stock, RequestsOf(w.sales[id], default.value), c);
        ShippedHasRow(w.stock, RequestsOf(w.sales[id], default.value), c);
      case RecordMove(m, unitCost) => HeldAppend(w.stock.log, m.(unitCost := unitCost), c);
      case UpdateProduction(id, next) =>
        var order := w.production[id];
        if next.InProgress? && order.bom != [] {
          var rs := Production.BomRequests(order, order.bom, default.value);
          BatchHolds(Consume, w.stock, rs, c);
          ConsumeKeepsReserved(w.stock, rs);
        }
      case _ =>
    }
  }

  lemma ShippedHasRow(s: Stock, rs: seq<Request>, c: Cell)
    requires ApplyAll(Ship, s, rs).Some?
    ensures c in s.levels || Demand(rs, c) == 0
  {
    hide Covered;
    BatchSucceedsIffCovered(Ship, s, rs);
    DemandNonNegative(rs, c);
  }

  // Over every run, whatever the quantities and the warehouses: the reserved quantity of a cell is what the log says -
  // reserved less released less shipped - and what the clamps have forgiven.
  lemma {:induction false} ReservedIsLoggedOverRuns(w: World, es: seq<Event>, c: Cell)
    ensures var end := Run(w, es);
            LevelAt(end.stock.levels, c).reserved - Held(end.stock.log, c) ==
            LevelAt(w.stock.levels, c).reserved - Held(w.stock.log, c) + RunForgiven(w, es, c)
    decreases |es|
  {
    hide Step, Held, ForgivenBy;
    if es != [] {
      StepReservedIsLogged(w, es[0], c);
      ReservedIsLoggedOverRuns(Step(w, es[0]), es[1..], c);
    }
  }

  // ----- The life of a sales order ---------------------------------------------------------------

  // No order is in a state that no request leads to.
  predicate OnlyDriven(w: World) {
    forall order | order in w.sales :: !order.status.PartiallyShipped? && !order.status.Invoiced?
  }

  function StatusAt(w: World, id: nat): Sales.Status {
    if id < |w.sales| then w.sales[id].status else Sales.Draft
  }

  // The ways in which one request may change a status.
  predicate MayBecome(from: Sales.Status, to: Sales.Status) {
    || from == to
    || (from.Draft? && (to.Confirmed? || to.Cancelled?))
    || (from.Confirmed? && (to.Shipped? || to.Cancelled?))
  }

  ghost predicate StatusPath(w: World, es: seq<Event>, id: nat)
    decreases |es|
  {
    es == [] || (MayBecome(StatusAt(w, id), StatusAt(Step(w, es[0]), id)) && StatusPath(Step(w, es[0]), es[1..], id))
  }

  // The event confirms (reserves) or ships this order.
  predicate Moves(op: BatchOp, w: World, e: Event, id: nat) {
    Try(w, e).Some? && ((op.Reserve? && e == ConfirmSales(id)) || (op.Ship? && e == ShipSales(id)))
  }

  function MovesOf(op: BatchOp, w: World, es: seq<Event>, id: nat): nat
    decreases |es|
  {
    if es == [] then 0 else (if Moves(op, w, es[0], id) then 1 else 0) + MovesOf(op, Step(w, es[0]), es[1..], id)
  }

  // What one event does to the table of sales orders.
  lemma StepSales(w: World, e: Event, id: nat)
    requires OnlyDriven(w)
    ensures OnlyDriven(Step(w, e)) && |w.sales| <= |Step(w, e).sales|
    ensures MayBecome(StatusAt(w, id), StatusAt(Step(w, e), id))
    ensures Moves(Reserve, w, e, id) <==> StatusAt(w, id).Draft? && StatusAt(Step(w, e), id).Confirmed?
    ensures Moves(Ship, w, e, id) <==> !StatusAt(w, id).Shipped? && StatusAt(Step(w, e), id).Shipped?
    ensures id < |w.sales| ==> Step(w, e).sales[id] == w.sales[id].(status := StatusAt(Step(w, e), id))
  {
    hide ApplyAll, Sales.Requests;
    var next := Step(w, e);
    forall order | order in next.sales ensures !order.status.PartiallyShipped? && !order.status.Invoiced? {
      var i :| 0 <= i < |next.sales| && next.sales[i] == order;
      if i < |w.sales| {
        assert w.sales[i] in w.sales;
      }
    }
    if id < |w.sales| {
      assert w.sales[id] in w.sales;
    }
  }

  // Over every run an order goes from draft to confirmed to shipped, or is cancelled before it ships. It is confirmed
  // at most once, and shipped once if that is where it ends and never otherwise; shipped and cancelled are final.
  lemma {:induction false} SalesOrderLife(w: World, es: seq<Event>, id: nat)
    requires OnlyDriven(w)
    ensures OnlyDriven(Run(w, es)) && StatusPath(w, es, id)
    ensures var from, to := StatusAt(w, id), StatusAt(Run(w, es), id);
            && MovesOf(Ship, w, es, id) == (if to.Shipped? && !from.Shipped? then 1 else 0)
            && MovesOf(Reserve, w, es, id) <= 1
            && (from.Draft? && (to.Confirmed? || to.Shipped?) ==> MovesOf(Reserve, w, es, id) == 1)
            && (to.Draft? || !from.Draft? ==> MovesOf(Reserve, w, es, id) == 0)
            && (from.Shipped? || from.Cancelled? ==> to == from)
            && (to.Draft? ==> from.Draft?)
    decreases |es|
  {
    if es != [] {
      StepSales(w, es[0], id);
      SalesOrderLife(Step(w, es[0]), es[1..], id);
    }
  }

  // When a request about an order succeeds: confirming a draft needs a default warehouse and free stock for every
  // request in turn, shipping a confirmed order needs stock rows and on-hand, cancelling an open one only the
  // warehouse, and a draft or cancelled order can always be cancelled.
  lemma SalesSucceedsIff(w: World, id: nat)
    requires OnlyDriven(w)
    ensures var status, default := StatusAt(w, id), DefaultWarehouse(w.warehouses);
            var known := id < |w.sales|;
            && (Try(w, ConfirmSales(id)).Some? <==>
                known && status.Draft? && default.Some?
                && var rs := RequestsOf(w.sales[id], default.value);
                   forall c | c in Cells(rs) ::
                     Covered(rs, c, LevelAt(w.stock.levels, c).onHand - LevelAt(w.stock.levels, c).reserved))
            && (Try(w, ShipSales(id)).Some? <==>
                known && status.Confirmed? && default.Some?
                && var rs := RequestsOf(w.sales[id], default.value);
                   forall c | c in Cells(rs) :: c in w.stock.levels && Covered(rs, c, w.stock.levels[c].onHand))
            && (Try(w, CancelSales(id)).Some? <==>
                known && !status.Shipped? && (status.Confirmed? ==> default.Some?))
  {
    hide Sales.Requests, ApplyAll, Covered, Cells;
    if id < |w.sales| {
      assert w.sales[id] in w.sales;
      var default := DefaultWarehouse(w.warehouses);
      if default.Some? {
        BatchSucceedsIffCovered(Reserve, w.stock, RequestsOf(w.sales[id], default.value));
        BatchSucceedsIffCovered(Ship, w.stock, RequestsOf(w.sales[id], default.value));
        ReleaseSucceeds(w.stock, RequestsOf(w.sales[id], default.value));
      }
    }
  }

  // Order i's number ends in i + 1.
  predicate SalesNumbered(w: World) {
    forall i | 0 <= i < |w.sales| :: Decimal.TrailingNumber("SO:" + w.sales[i].number) == i + 1
  }

  lemma StepKeepsSalesNumbered(w: World, e: Event)
    requires SalesNumbered(w) && OnlyDriven(w)
    ensures SalesNumbered(Step(w, e))
  {
    hide Step, Decimal.TrailingNumber, OnlyDriven;
    forall i | 0 <= i < |Step(w, e).sales|
      ensures Decimal.TrailingNumber("SO:" + Step(w, e).sales[i].number) == i + 1
    {
      StepSales(w, e, i);
      if i >= |w.sales| { NewSales(w, e, i); }
    }
  }

  lemma NewSales(w: World, e: Event, i: nat)
    requires |w.sales| <= i < |Step(w, e).sales|
    ensures Decimal.TrailingNumber("SO:" + Step(w, e).sales[i].number) == i + 1
  {
    hide ApplyAll, Decimal.TrailingNumber;
    assert e.CreateSales? && i == |w.sales| && Step(w, e).sales[i].number == Production.OrderNumber("SO", e.year, i);
    assert "SO:" + Production.OrderNumber("SO", e.year, i) == Production.OrderNumber("SO:SO", e.year, i);
    Production.OrderNumberSequence("SO:SO", e.year, i);
  }

  // What one event logs under the reference of an order, present or to come.
  lemma StepLogsOrder(w: World, e: Event, op: BatchOp, i: nat, order: Sales.Order, product: string)
    requires SalesNumbered(w) && (op.Reserve? || op.Ship?)
    requires Decimal.TrailingNumber("SO:" + order.number) == i + 1
    requires i < |w.sales| ==> w.sales[i].number == order.number && w.sales[i].lines == order.lines
    ensures Logged(op, Step(w, e).stock.log, "SO:" + order.number, product) ==
            Logged(op, w.stock.log, "SO:" + order.number, product)
            + if Moves(op, w, e, i) then LineTotal(order.lines, product) else 0
  {
    hide Step, Logged, LineTotal, Decimal.TrailingNumber, Sales.Drive, BomNeed;
    StepLogs(w, e, op, "SO:" + order.number, product);
  }

  // Over every run, what was reserved and what was shipped under the reference of an order is, product by product, what
  // its lines add up to for each time it was confirmed or shipped.
  lemma {:induction false} SalesLoggedOverRuns(w: World, es: seq<Event>, op: BatchOp, i: nat, product: string)
    requires OnlyDriven(w) && SalesNumbered(w) && (op.Reserve? || op.Ship?) && i < |Run(w, es).sales|
    ensures var end := Run(w, es);
            var order := end.sales[i];
            && Decimal.TrailingNumber("SO:" + order.number) == i + 1
            && (i < |w.sales| ==> order.number == w.sales[i].number && order.lines == w.sales[i].lines)
            && Logged(op, end.stock.log, "SO:" + order.number, product) ==
               Logged(op, w.stock.log, "SO:" + order.number, product)
               + MovesOf(op, w, es, i) * LineTotal(order.lines, product)
    decreases |es|
  {
    hide Step, Logged, LineTotal, Decimal.TrailingNumber, OnlyDriven;
    if es != [] {
      StepSales(w, es[0], i);
      StepKeepsSalesNumbered(w, es[0]);
      SalesLoggedOverRuns(Step(w, es[0]), es[1..], op, i, product);
      var order := Run(w, es).sales[i];
      StepLogsOrder(w, es[0], op, i, order, product);
      Distribute(if Moves(op, w, es[0], i) then 1 else 0, MovesOf(op, Step(w, es[0]), es[1..], i),
                 LineTotal(order.lines, product));
    }
  }

  lemma Distribute(a: int, b: int, x: int)
    ensures (a + b) * x == a * x + b * x
  {
  }

  // What the log says of an order agrees with its status.
  predicate SalesFit(w: World, i: nat, product: string)
    requires i < |w.sales|
  {
    var order := w.sales[i];
    var reserved := Logged(Reserve, w.stock.log, "SO:" + order.number, product);
    var shipped := Logged(Ship, w.stock.log, "SO:" + order.number, product);
    var total := LineTotal(order.lines, product);
    && Decimal.TrailingNumber("SO:" + order.number) == i + 1
    && shipped == (if order.status.Shipped? then total else 0)
    && match order.status
       case Draft => reserved == 0
       case Confirmed | Shipped => reserved == total
       case Cancelled => reserved == 0 || reserved == total
       case PartiallyShipped | Invoiced => false
  }

  lemma OrdersFitLog(es: seq<Event>, i: nat, product: string)
    requires i < |Run(EMPTY, es).sales|
    ensures SalesFit(Run(EMPTY, es), i, product)
  {
    hide Run, LineTotal, Decimal.TrailingNumber;
    assert OnlyDriven(EMPTY) && SalesNumbered(EMPTY) && StatusAt(EMPTY, i).Draft?;
    SalesOrderLife(EMPTY, es, i);
    assert Run(EMPTY, es).sales[i] in Run(EMPTY, es).sales;
    SalesLoggedOverRuns(EMPTY, es, Reserve, i, product);
    SalesLoggedOverRuns(EMPTY, es, Ship, i, product);
  }

  // ----- What production orders consume ----------------------------------------------------------

  // An order's log entries are what its BOM asked for if it started and nothing otherwise.
  predicate OrderConsumption(w: World, order: Production.Order, i: nat, material: string) {
    && Decimal.TrailingNumber("PO:" + order.number) == i + 1
    && Logged(Consume, w.stock.log, "PO:" + order.number, material) ==
       if order.started then BomNeed(order.bom, order.planned, material) else 0
  }

  // No entry carries the reference of an order still to be created.
  ghost predicate ConsumptionFits(w: World, material: string) {
    && (forall i | 0 <= i < |w.production| :: OrderConsumption(w, w.production[i], i, material))
    && (forall reference | Decimal.TrailingNumber(reference) > |w.production| ::
          Logged(Consume, w.stock.log, reference, material) == 0)
  }

  // What one event does to the table of production orders.
  lemma StepOrder(w: World, e: Event, i: nat)
    requires i < |Step(w, e).production|
    ensures |w.production| <= |Step(w, e).production|
    ensures var order := Step(w, e).production[i];
            if i < |w.production| then
              order == w.production[i].(status := order.status, started := order.started)
              && (order.started <==> w.production[i].started || (Changes(w, e, i) && e.next.InProgress?))
            else
              i == |w.production| && Try(w, e).Some? && e.CreateProduction? && !order.started
              && order.number == Production.OrderNumber("PO", e.year, i)
  {
  }

  lemma StepKeepsOrderConsumption(w: World, e: Event, i: nat, material: string)
    requires ConsumptionFits(w, material) && ProductionFits(w) && i < |Step(w, e).production|
    ensures OrderConsumption(Step(w, e), Step(w, e).production[i], i, material)
  {
    hide Step, ApplyAll, Logged, Sales.Requests, Production.BomRequests, BomNeed, LineTotal, Decimal.TrailingNumber,
      DefaultWarehouse, Sales.Confirm, Sales.ShipOrder, RecordMovement;
    var order := Step(w, e).production[i];
    StepOrder(w, e, i);
    StepLogs(w, e, Consume, "PO:" + order.number, material);
    if i == |w.production| {
      assert "PO:" + Production.OrderNumber("PO", e.year, i) == Production.OrderNumber("PO:PO", e.year, i);
      Production.OrderNumberSequence("PO:PO", e.year, i);
    } else {
      assert OrderConsumption(w, w.production[i], i, material);
      if Changes(w, e, i) && e.next.InProgress? {
        StepKeepsProductionFits(w, e, i);
      } else if e.UpdateProduction? && e.id < |w.production| {
        assert OrderConsumption(w, w.production[e.id], e.id, material);
      }
    }
  }

  lemma StepKeepsConsumption(w: World, e: Event, material: string)
    requires ConsumptionFits(w, material) && ProductionFits(w)
    ensures ConsumptionFits(Step(w, e), material)
  {
    forall i | 0 <= i < |Step(w, e).production|
      ensures OrderConsumption(Step(w, e), Step(w, e).production[i], i, material)
    {
      StepKeepsOrderConsumption(w, e, i, material);
    }
    forall reference | Decimal.TrailingNumber(reference) > |Step(w, e).production|
      ensures Logged(Consume, Step(w, e).stock.log, reference, material) == 0
    {
      StepLogs(w, e, Consume, reference, material);
      if e.UpdateProduction? && e.id < |w.production| {
        assert OrderConsumption(w, w.production[e.id], e.id, material);
      }
    }
  }

  lemma {:induction false} ConsumptionOverRuns(w: World, es: seq<Event>, material: string)
    requires ConsumptionFits(w, material) && ProductionFits(w)
    ensures ConsumptionFits(Run(w, es), material)
    decreases |es|
  {
    if es != [] {
      StepKeepsConsumption(w, es[0], material);
      StepKeepsProductionFits(w, es[0], 0);
      ConsumptionOverRuns(Step(w, es[0]), es[1..], material);
    }
  }

  lemma EmptyConsumptionFits(material: string)
    ensures ConsumptionFits(EMPTY, material) && ProductionFits(EMPTY) && Available(EMPTY)
  {
  }

  // Shipping any open order whose resolution is stable only takes the stock rows it asks for.
  ghost predicate ShipsWhenStocked(w: World, homes: seq<string>)
    requires |homes| == |w.sales|
  {
    forall id, default | 0 <= id < |w.sales| && w.sales[id].status.Confirmed?
                         && DefaultWarehouse(w.warehouses) == Some(default)
                         && Sales.SameResolution(w.sales[id].lines, homes[id], default) ::
      Try(w, ShipSales(id)).Some? <==> Cells(RequestsOf(w.sales[id], default)) <= w.stock.levels.Keys
  }

  lemma AllShipWhenStocked(w: World, homes: seq<string>)
    requires |homes| == |w.sales| && ReservedIsDemand(w, homes) && Orderly(w) && Available(w)
    ensures ShipsWhenStocked(w, homes)
  {
    forall id, default | 0 <= id < |w.sales| && w.sales[id].status.Confirmed?
                         && DefaultWarehouse(w.warehouses) == Some(default)
                         && Sales.SameResolution(w.sales[id].lines, homes[id], default)
      ensures Try(w, ShipSales(id)).Some? <==> Cells(RequestsOf(w.sales[id], default)) <= w.stock.levels.Keys
    {
      OnlyRowsCanBeMissing(w, homes, id, default);
    }
  }

  lemma {:induction false} RunKeepsOrderly(w: World, es: seq<Event>)
    requires Orderly(w) && OrderlyRun(es)
    ensures Orderly(Run(w, es))
    decreases |es|
  {
    if es != [] {
      OrderlyRest(es);
      StepKeepsOrderly(w, es[0]);
      RunKeepsOrderly(Step(w, es[0]), es[1..]);
    }
  }

  // Everything together, for every run from an empty store.
  lemma RunsFromEmpty(es: seq<Event>, material: string, id: nat)
    ensures var w := Run(EMPTY, es);
            && LedgerAgrees(w.stock)
            && ConsumptionFits(w, material)
            && StatusChanges(EMPTY, es, id) <= 4
            && Starts(EMPTY, es, id) == (if HasStarted(w, id) then 1 else 0)
            && (forall c :: LevelAt(w.stock.levels, c).reserved == Held(w.stock.log, c) + RunForgiven(EMPTY, es, c))
            && StatusPath(EMPTY, es, id)
            && (id < |w.sales| ==> SalesFit(w, id, material))
            && (AgreesThroughout(EMPTY, [], es) <==> SettledRun(EMPTY, [], es))
            && (AvailableThroughout(EMPTY, es) <==> GentleRun(EMPTY, es))
            && (OrderlyRun(es) ==>
                  && ReservedNonNegative(w)
                  && (AgreesThroughout(EMPTY, [], es) <==> StableRun(EMPTY, [], es))
                  && (AvailableThroughout(EMPTY, es) <==> TakesOnlyFreeRun(EMPTY, es))
                  && (StableRun(EMPTY, [], es) && TakesOnlyFreeRun(EMPTY, es) ==>
                        ShipsWhenStocked(w, RunHomes(EMPTY, [], es))))
  {
    EmptyLedgerAgrees();
    EmptyReservedIsDemand();
    EmptyConsumptionFits(material);
    LedgerAgreesOverRuns(EMPTY, es);
    ConsumptionOverRuns(EMPTY, es, material);
    ProductionOrderLife(EMPTY, es, id);
    forall c {
      ReservedIsLoggedOverRuns(EMPTY, es, c);
    }
    SalesOrderLife(EMPTY, es, id);
    if id < |Run(EMPTY, es).sales| { OrdersFitLog(es, id, material); }
    ReservedIsDemandOverRuns(EMPTY, [], es);
    AvailableOverRuns(EMPTY, es);
    if OrderlyRun(es) {
      AgreesIffStableRun(EMPTY, [], es);
      AvailableIffTakesOnlyFree(EMPTY, es);
      ReservedNonNegativeOverRuns(EMPTY, es);
      RunKeepsOrderly(EMPTY, es);
      if StableRun(EMPTY, [], es) && TakesOnlyFreeRun(EMPTY, es) {
        AllShipWhenStocked(Run(EMPTY, es), RunHomes(EMPTY, [], es));
      }
    }
  }
}
