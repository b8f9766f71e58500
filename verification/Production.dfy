// Production orders: the status table, BOM consumption on start, and order numbers.
module Production {
  import opened Option
  import opened Inventory
  import Decimal

  datatype Status = Draft | Planned | Confirmed | InProgress | Completed | Cancelled

  datatype BomLine = BomLine(material: string, required: int)

  // `started` says that actualStartDate is set.
  datatype Order = Order(number: string, status: Status, planned: int, bom: seq<BomLine>, started: bool)

  type Change = Option<(Stock, seq<Order>)>

  predicate Allowed(from: Status, to: Status) {
    match from
    case Draft => to.Planned? || to.Cancelled?
    case Planned => to.Confirmed? || to.Cancelled?
    case Confirmed => to.InProgress? || to.Cancelled?
    case InProgress => to.Completed? || to.Cancelled?
    case Completed | Cancelled => false
  }

  function OrderNumber(prefix: string, year: nat, count: nat): string {
    prefix + "-" + Decimal.Digits(year) + "-" + Decimal.PadStart(Decimal.Digits(count + 1), 5)
  }

  function BomRequests(order: Order, bom: seq<BomLine>, default: string): seq<Request> {
    if bom == [] then []
    else [Request(Cell(bom[0].material, default), bom[0].required * order.planned, "PO:" + order.number)]
         + BomRequests(order, bom[1..], default)
  }

  function UpdateStatus(s: Stock, orders: seq<Order>, id: nat, next: Status, default: Option<string>): Change {
    if id >= |orders| || !Allowed(orders[id].status, next) then None
    else
      var order := orders[id];
      var updated := orders[id := order.(status := next, started := order.started || next.InProgress?)];
      if next.InProgress? && order.bom != [] then
        if default.None? then None
        else
          var after := ApplyAll(Consume, s, BomRequests(order, order.bom, default.value));
          if after.None? then None else Some((after.value, updated))
      else Some((s, updated))
  }

  class ProductionService {
    const inventory: InventoryService
    var orders: seq<Order>

    constructor (inventory: InventoryService)
      ensures this.inventory == inventory && orders == []
    {
      this.inventory := inventory;
      orders := [];
    }

    method UpdateProductionOrderStatus(id: nat, next: Status, default: Option<string>) returns (ok: bool)
      modifies this, inventory
      ensures var change := old(UpdateStatus(inventory.State(), orders, id, next, default));
              && ok == change.Some?
              && (inventory.State(), orders) == if ok then change.value else old((inventory.State(), orders))
    {
      if id >= |orders| || !Allowed(orders[id].status, next) {
        return false;
      }
      var order := orders[id];
      if next.InProgress? && order.bom != [] {
        if default.None? {
          return false;
        }
        ok := inventory.RunBatch(Consume, BomRequests(order, order.bom, default.value));
        if !ok {
          return;
        }
      }
      order := order.(status := next);
      if next.InProgress? && !order.started {
        order := order.(started := true);
      }
      orders := orders[id := order];
      return true;
    }
  }

  // ----- Status changes --------------------------------------------------------------------------

  // An order goes through draft, planned, confirmed, in progress and completed one by one, and may be cancelled before
  // it is completed.
  function Stage(status: Status): nat {
    match status
    case Draft => 0
    case Planned => 1
    case Confirmed => 2
    case InProgress => 3
    case Completed => 4
    case Cancelled => 5
  }

  // A change succeeds exactly when it follows that course and, on starting with a BOM, there is a default warehouse
  // that has all the material on hand.
  lemma UpdateSucceedsIff(s: Stock, orders: seq<Order>, id: nat, next: Status, default: Option<string>)
    ensures UpdateStatus(s, orders, id, next, default).Some? <==>
            && id < |orders|
            && (Stage(next) == Stage(orders[id].status) + 1 <= 4 || (next.Cancelled? && Stage(orders[id].status) < 4))
            && (next.InProgress? && orders[id].bom != [] ==>
                  && default.Some?
                  && var rs := BomRequests(orders[id], orders[id].bom, default.value);
                     forall c | c in Cells(rs) :: c in s.levels && Covered(rs, c, s.levels[c].onHand))
    ensures UpdateStatus(s, orders, id, next, default).Some? ==>
              UpdateStatus(s, orders, id, next, default).value.1 ==
              orders[id := orders[id].(status := next, started := orders[id].started || next.InProgress?)]
  {
    hide ApplyAll, BomRequests, Covered, Cells;
    if id < |orders| && next.InProgress? && orders[id].bom != [] && default.Some? {
      BatchSucceedsIffCovered(Consume, s, BomRequests(orders[id], orders[id].bom, default.value));
    }
  }

  // ----- Order numbers ---------------------------------------------------------------------------

  // An order number ends in its sequence number, whatever the prefix and year, so numbers are never reused.
  lemma OrderNumberSequence(prefix: string, year: nat, count: nat)
    ensures Decimal.TrailingNumber(OrderNumber(prefix, year, count)) == count + 1
  {
    var head, tail := prefix + "-" + Decimal.Digits(year) + "-", Decimal.PadStart(Decimal.Digits(count + 1), 5);
    Decimal.PadRoundTrip(count + 1, 5);
    Decimal.TrailingDigitsOf(head, tail);
  }
}
