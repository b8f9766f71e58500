// Sales orders and how confirming, cancelling and shipping them drives the stock.
// An order's id is its position in the table; an unknown id is a position past the end.
module Sales {
  import opened Option
  import opened Inventory

  datatype Status = Draft | Confirmed | PartiallyShipped | Shipped | Invoiced | Cancelled

  // A line without a product has an empty `product`; a line without a warehouse falls back to the default one.
  datatype Line = Line(product: string, quantity: int, warehouse: Option<string>)

  datatype Order = Order(number: string, status: Status, lines: seq<Line>)

  type Change = Option<(Stock, seq<Order>)>

  function Resolve(line: Line, default: string): Cell {
    Cell(line.product, if line.warehouse.Some? then line.warehouse.value else default)
  }

  // The reservation requests of an order: lines without a product are filtered out.
  function Requests(lines: seq<Line>, number: string, default: string): seq<Request> {
    if lines == [] then []
    else Requests(lines[..|lines| - 1], number, default) + LineRequest(lines[|lines| - 1], number, default)
  }

  function LineRequest(line: Line, number: string, default: string): seq<Request> {
    if line.product == "" then [] else [Request(Resolve(line, default), line.quantity, "SO:" + number)]
  }

  // Runs one batch for an order and moves it to its next status, all or nothing.
  function Drive(op: BatchOp, next: Status, s: Stock, orders: seq<Order>, id: nat, default: Option<string>): Change
    requires id < |orders|
  {
    if default.None? then None
    else
      var after := ApplyAll(op, s, Requests(orders[id].lines, orders[id].number, default.value));
      if after.None? then None else Some((after.value, orders[id := orders[id].(status := next)]))
  }

  function Confirm(s: Stock, orders: seq<Order>, id: nat, default: Option<string>): Change {
    if id >= |orders| || !orders[id].status.Draft? then None
    else Drive(Reserve, Confirmed, s, orders, id, default)
  }

  function Cancel(s: Stock, orders: seq<Order>, id: nat, default: Option<string>): Change {
    if id >= |orders| || orders[id].status.Shipped? || orders[id].status.Invoiced? then None
    else if orders[id].status.Confirmed? || orders[id].status.PartiallyShipped? then
      Drive(Release, Cancelled, s, orders, id, default)
    else Some((s, orders[id := orders[id].(status := Cancelled)]))
  }

  function ShipOrder(s: Stock, orders: seq<Order>, id: nat, default: Option<string>): Change {
    if id >= |orders| || !orders[id].status.Confirmed? then None
    else Drive(Ship, Shipped, s, orders, id, default)
  }

  method BuildRequests(order: Order, default: string) returns (requests: seq<Request>)
    ensures requests == Requests(order.lines, order.number, default)
  {
    requests := [];
    for i := 0 to |order.lines|
      invariant requests == Requests(order.lines[..i], order.number, default)
    {
      assert order.lines[..i + 1][..i] == order.lines[..i];
      requests := requests + LineRequest(order.lines[i], order.number, default);
    }
    assert order.lines[..|order.lines|] == order.lines;
  }

  class SalesService {
    const inventory: InventoryService
    var orders: seq<Order>

    constructor (inventory: InventoryService)
      ensures this.inventory == inventory && orders == []
    {
      this.inventory := inventory;
      orders := [];
    }

    method DriveOrder(op: BatchOp, next: Status, id: nat, default: Option<string>) returns (ok: bool)
      requires id < |orders|
      modifies this, inventory
      ensures var change := old(Drive(op, next, inventory.State(), orders, id, default));
              && ok == change.Some?
              && (inventory.State(), orders) == if ok then change.value else old((inventory.State(), orders))
    {
      if default.None? {
        return false;
      }
      var order := orders[id];
      var requests := BuildRequests(order, default.value);
      if requests != [] {
        ok := inventory.RunBatch(op, requests);
        if !ok {
          return;
        }
      }
      orders := orders[id := order.(status := next)];
      return true;
    }

    method ConfirmSalesOrder(id: nat, default: Option<string>) returns (ok: bool)
      modifies this, inventory
      ensures var change := old(Confirm(inventory.State(), orders, id, default));
              && ok == change.Some?
              && (inventory.State(), orders) == if ok then change.value else old((inventory.State(), orders))
    {
      if id >= |orders| || !orders[id].status.Draft? {
        return false;
      }
      ok := DriveOrder(Reserve, Confirmed, id, default);
    }

    method CancelSalesOrder(id: nat, default: Option<string>) returns (ok: bool)
      modifies this, inventory
      ensures var change := old(Cancel(inventory.State(), orders, id, default));
              && ok == change.Some?
              && (inventory.State(), orders) == if ok then change.value else old((inventory.State(), orders))
    {
      if id >= |orders| || orders[id].status.Shipped? || orders[id].status.Invoiced? {
        return false;
      }
      if orders[id].status.Confirmed? || orders[id].status.PartiallyShipped? {
        ok := DriveOrder(Release, Cancelled, id, default);
      } else {
        orders := orders[id := orders[id].(status := Cancelled)];
        ok := true;
      }
    }

    method ShipSalesOrder(id: nat, default: Option<string>) returns (ok: bool)
      modifies this, inventory
      ensures var change := old(ShipOrder(inventory.State(), orders, id, default));
              && ok == change.Some?
              && (inventory.State(), orders) == if ok then change.value else old((inventory.State(), orders))
    {
      if id >= |orders| || !orders[id].status.Confirmed? {
        return false;
      }
      ok := DriveOrder(Ship, Shipped, id, default);
    }
  }

  // ----- What an order asks of each cell ---------------------------------------------------------

  // Orders entered directly have such lines; those converted from quotations may not.
  predicate ValidLines(lines: seq<Line>) {
    forall line | line in lines :: line.quantity >= 0
  }

  // Demand of an order's lines on a cell, for a given default warehouse.
  function LineDemand(lines: seq<Line>, default: string, c: Cell): int {
    if lines == [] then 0
    else
      var last := lines[|lines| - 1];
      LineDemand(lines[..|lines| - 1], default, c)
      + if last.product != "" && Resolve(last, default) == c then last.quantity else 0
  }

  lemma {:induction false} DemandConcat(a: seq<Request>, b: seq<Request>, c: Cell)
    ensures Demand(a + b, c) == Demand(a, c) + Demand(b, c)
  {
    if a == [] {
      assert a + b == b;
    } else {
      assert (a + b)[1..] == a[1..] + b;
      DemandConcat(a[1..], b, c);
    }
  }

  lemma FrontOf(lines: seq<Line>)
    requires lines != []
    ensures lines[|lines| - 1] in lines
    ensures forall line | line in lines :: line in lines[..|lines| - 1] || line == lines[|lines| - 1]
    ensures forall line | line in lines[..|lines| - 1] :: line in lines
  {
  }

  lemma {:induction false} RequestsDemand(lines: seq<Line>, number: string, default: string, c: Cell)
    ensures Demand(Requests(lines, number, default), c) == LineDemand(lines, default, c)
    ensures ValidLines(lines) ==> NonNegative(Requests(lines, number, default)) && LineDemand(lines, default, c) >= 0
  {
    if lines != [] {
      var front, last := lines[..|lines| - 1], lines[|lines| - 1];
      FrontOf(lines);
      RequestsDemand(front, number, default, c);
      DemandConcat(Requests(front, number, default), LineRequest(last, number, default), c);
      assert Demand(LineRequest(last, number, default), c) ==
             if last.product != "" && Resolve(last, default) == c then last.quantity else 0;
    }
  }

  // Whether two defaults give an order the same demand everywhere: they are equal, or no line with a product and a
  // quantity other than zero relies on the default.
  predicate SameResolution(lines: seq<Line>, d: string, d': string) {
    d == d' || forall line | line in lines :: line.product == "" || line.warehouse.Some? || line.quantity == 0
  }

  lemma {:induction false} SameResolutionSameDemand(lines: seq<Line>, d: string, d': string, c: Cell)
    requires SameResolution(lines, d, d')
    ensures LineDemand(lines, d, c) == LineDemand(lines, d', c)
  {
    if lines != [] {
      FrontOf(lines);
      SameResolutionSameDemand(lines[..|lines| - 1], d, d', c);
    }
  }

  // At the cell of the old default no line can gain demand, and a defaulted line loses its own.
  lemma {:induction false} DriftLosesDemand(lines: seq<Line>, d: string, d': string, c: Cell)
    requires ValidLines(lines) && d != d' && c.warehouse == d
    ensures LineDemand(lines, d', c) <= LineDemand(lines, d, c)
    ensures (exists line | line in lines ::
               line.product == c.product != "" && line.warehouse.None? && line.quantity > 0)
            ==> LineDemand(lines, d', c) < LineDemand(lines, d, c)
  {
    if lines != [] {
      FrontOf(lines);
      DriftLosesDemand(lines[..|lines| - 1], d, d', c);
    }
  }
}
