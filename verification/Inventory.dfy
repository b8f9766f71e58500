// Stock levels, the movement log, and the batch operations of the inventory service.
// Quantities are hundredths of a unit (the columns are decimal with two digits), so they are integers here.
module Inventory {
  import opened Option

  datatype Cell = Cell(product: string, warehouse: string)

  datatype Level = Level(onHand: int, reserved: int)

  datatype MovementType =
    | Inbound | Outbound | Transfer | Adjustment | ProductionConsumption | ProductionOutput | Return | Scrap

  // A row of the movement log. `unitCost` is filled in by RecordMovement and left null by every batch operation.
  datatype Movement = Movement(product: string, kind: MovementType, quantity: int, source: Option<string>,
                               destination: Option<string>, reference: string, notes: string, unitCost: Option<int>)

  // One element of a reservation, release, shipment or BOM batch.
  datatype Request = Request(cell: Cell, quantity: int, reference: string)

  type Levels = map<Cell, Level>

  datatype Stock = Stock(levels: Levels, log: seq<Movement>)

  const EMPTY_STOCK := Stock(map[], [])

  // A missing row reads as zero.
  function LevelAt(levels: Levels, c: Cell): Level {
    if c in levels then levels[c] else Level(0, 0)
  }

  function Max(a: int, b: int): int {
    if a < b then b else a
  }

  // ----- Batch operations ------------------------------------------------------------------------

  datatype BatchOp = Reserve | Release | Ship | Consume

  // The log row a batch operation writes for one request.
  function Entry(op: BatchOp, r: Request): Movement {
    match op
    case Reserve => Movement(r.cell.product, Adjustment, r.quantity, None, Some(r.cell.warehouse), r.reference,
                             "Reservation for " + r.reference, None)
    case Release => Movement(r.cell.product, Adjustment, r.quantity, None, Some(r.cell.warehouse), r.reference,
                             "Reservation release for " + r.reference, None)
    case Ship => Movement(r.cell.product, Outbound, r.quantity, Some(r.cell.warehouse), None, r.reference,
                          "Shipment for " + r.reference, None)
    case Consume => Movement(r.cell.product, ProductionConsumption, r.quantity, Some(r.cell.warehouse), None,
                             r.reference, "BOM consumption for " + r.reference, None)
  }

  // The check made before one request is applied; when it fails the whole batch is abandoned.
  // Releasing never fails. Shipping needs a stock row; consuming dereferences one.
  predicate Admits(op: BatchOp, levels: Levels, r: Request) {
    var level := LevelAt(levels, r.cell);
    match op
    case Reserve => level.onHand - level.reserved >= r.quantity
    case Release => true
    case Ship => r.cell in levels && level.onHand >= r.quantity
    case Consume => r.cell in levels && level.onHand >= r.quantity
  }

  // The level of a cell after `quantity` was taken from it by the operation.
  function Moved(op: BatchOp, level: Level, quantity: int): Level {
    match op
    case Reserve => level.(reserved := level.reserved + quantity)
    case Release => level.(reserved := Max(0, level.reserved - quantity))
    case Ship => Level(level.onHand - quantity, Max(0, level.reserved - quantity))
    case Consume => level.(onHand := level.onHand - quantity)
  }

  // Applying one admitted request: releasing skips a cell without a row, reserving creates the row.
  function ApplyOne(op: BatchOp, s: Stock, r: Request): Stock {
    if op.Release? && r.cell !in s.levels then s
    else Stock(s.levels[r.cell := Moved(op, LevelAt(s.levels, r.cell), r.quantity)], s.log + [Entry(op, r)])
  }

  function ApplyAll(op: BatchOp, s: Stock, rs: seq<Request>): Option<Stock>
    decreases |rs|
  {
    if rs == [] then Some(s)
    else if !Admits(op, s.levels, rs[0]) then None
    else ApplyAll(op, ApplyOne(op, s, rs[0]), rs[1..])
  }

  // ----- Direct movements ------------------------------------------------------------------------

  function AdjustStock(levels: Levels, c: Cell, delta: int): Option<Levels> {
    var level := LevelAt(levels, c);
    if level.onHand + delta < 0 then None else Some(levels[c := level.(onHand := level.onHand + delta)])
  }

  function ApplyMovement(levels: Levels, m: Movement): Option<Levels> {
    match m.kind
    case Inbound | ProductionOutput | Return | Adjustment =>
      if m.destination.Some? then AdjustStock(levels, Cell(m.product, m.destination.value), m.quantity)
      else Some(levels)
    case Outbound | ProductionConsumption | Scrap =>
      if m.source.Some? then AdjustStock(levels, Cell(m.product, m.source.value), -m.quantity) else Some(levels)
    case Transfer =>
      if m.source.Some? && m.destination.Some? then
        var out := AdjustStock(levels, Cell(m.product, m.source.value), -m.quantity);
        if out.None? then None else AdjustStock(out.value, Cell(m.product, m.destination.value), m.quantity)
      else Some(levels)
  }

  // `unitCost` is the cost of the product that was looked up, or None when the product is unknown.
  function RecordMovement(s: Stock, m: Movement, unitCost: Option<int>): Option<Stock> {
    if unitCost.None? then None
    else
      var levels := ApplyMovement(s.levels, m);
      if levels.None? then None else Some(Stock(levels.value, s.log + [m.(unitCost := unitCost)]))
  }

  // ----- The service -----------------------------------------------------------------------------

  class InventoryService {
    var levels: Levels
    var log: seq<Movement>

    constructor ()
      ensures State() == EMPTY_STOCK
    {
      levels, log := map[], [];
    }

    function State(): Stock
      reads this
    {
      Stock(levels, log)
    }

    // Runs one batch inside a transaction: the rows and log entries of the loop are committed together or not at all.
    method RunBatch(op: BatchOp, requests: seq<Request>) returns (ok: bool)
      modifies this
      ensures ok == ApplyAll(op, old(State()), requests).Some?
      ensures State() == if ok then ApplyAll(op, old(State()), requests).value else old(State())
    {
      var rows, entries := levels, log;
      var i := 0;
      while i < |requests|
        invariant 0 <= i <= |requests|
        invariant ApplyAll(op, old(State()), requests) == ApplyAll(op, Stock(rows, entries), requests[i..])
        invariant State() == old(State())
      {
        var r := requests[i];
        if !Admits(op, rows, r) {
          return false;
        }
        if !op.Release? || r.cell in rows {
          rows := rows[r.cell := Moved(op, LevelAt(rows, r.cell), r.quantity)];
          entries := entries + [Entry(op, r)];
        }
        assert requests[i..][1..] == requests[i + 1..];
        i := i + 1;
      }
      levels, log := rows, entries;
      return true;
    }

    method RecordStockMovement(m: Movement, unitCost: Option<int>) returns (ok: bool)
      modifies this
      ensures ok == RecordMovement(old(State()), m, unitCost).Some?
      ensures State() == if ok then RecordMovement(old(State()), m, unitCost).value else old(State())
    {
      if unitCost.None? {
        return false;
      }
      var rows := ApplyMovement(levels, m);
      if rows.None? {
        return false;
      }
      levels, log := rows.value, log + [m.(unitCost := unitCost)];
      return true;
    }
  }

  // ----- Batches against an aggregate check ------------------------------------------------------

  function Demand(rs: seq<Request>, c: Cell): int {
    if rs == [] then 0 else (if rs[0].cell == c then rs[0].quantity else 0) + Demand(rs[1..], c)
  }

  function Cells(rs: seq<Request>): set<Cell> {
    set r | r in rs :: r.cell
  }

  predicate NonNegative(rs: seq<Request>) {
    forall r | r in rs :: r.quantity >= 0
  }

  // The check a reader would expect: total demand per cell, with no reference to request order.
  predicate BatchFits(op: BatchOp, levels: Levels, rs: seq<Request>) {
    forall c | c in Cells(rs) :: Admits(op, levels, Request(c, Demand(rs, c), ""))
  }

  function BatchLevels(op: BatchOp, levels: Levels, rs: seq<Request>): Levels {
    map c | c in levels.Keys + (if op.Reserve? then Cells(rs) else {}) ::
      if c in Cells(rs) then Moved(op, LevelAt(levels, c), Demand(rs, c)) else levels[c]
  }

  lemma {:induction false} DemandNonNegative(rs: seq<Request>, c: Cell)
    ensures NonNegative(rs) ==> Demand(rs, c) >= 0
    ensures c !in Cells(rs) ==> Demand(rs, c) == 0
  {
    if rs != [] {
      assert forall r | r in rs[1..] :: r in rs;
      DemandNonNegative(rs[1..], c);
      assert rs[0] in rs;
    }
  }

  lemma CellsUnfold(rs: seq<Request>)
    requires rs != []
    ensures Cells(rs) == {rs[0].cell} + Cells(rs[1..])
    ensures NonNegative(rs) ==> NonNegative(rs[1..]) && rs[0].quantity >= 0
  {
    assert rs[0] in rs;
    forall r | r in rs ensures r == rs[0] || r in rs[1..] {
    }
    forall r | r in rs[1..] ensures r in rs {
    }
  }

  // On one cell, a first request followed by the demand of the rest behaves as their sum.
  lemma CellUnfold(op: BatchOp, levels: Levels, r: Request, c: Cell, rest: int)
    requires Admits(op, levels, r) && r.quantity >= 0 && rest >= 0
    ensures var next := ApplyOne(op, Stock(levels, []), r).levels;
            var total := (if r.cell == c then r.quantity else 0) + rest;
            && (Admits(op, levels, Request(c, total, "")) <==> Admits(op, next, Request(c, rest, "")))
            && Moved(op, LevelAt(next, c), rest) == Moved(op, LevelAt(levels, c), total)
  {
  }

  // On a cell that later requests no longer mention, nothing is left to do.
  lemma LastTouch(op: BatchOp, levels: Levels, r: Request)
    requires Admits(op, levels, r) && r.quantity >= 0
    ensures var next := ApplyOne(op, Stock(levels, []), r).levels;
            r.cell in next ==> next[r.cell] == Moved(op, LevelAt(next, r.cell), 0)
  {
  }

  lemma BatchRowsUnfoldAt(op: BatchOp, levels: Levels, rs: seq<Request>, c: Cell)
    requires rs != [] && Admits(op, levels, rs[0])
    ensures var next := ApplyOne(op, Stock(levels, []), rs[0]).levels;
            c in BatchLevels(op, levels, rs) <==> c in BatchLevels(op, next, rs[1..])
  {
    CellsUnfold(rs);
    hide Moved, Demand, Cells, NonNegative;
  }

  lemma BatchLevelsUnfoldAt(op: BatchOp, levels: Levels, rs: seq<Request>, c: Cell)
    requires rs != [] && NonNegative(rs) && Admits(op, levels, rs[0])
    ensures var next := ApplyOne(op, Stock(levels, []), rs[0]).levels;
            var now, later := BatchLevels(op, levels, rs), BatchLevels(op, next, rs[1..]);
            (c in now <==> c in later) && (c in now ==> now[c] == later[c])
  {
    BatchRowsUnfoldAt(op, levels, rs, c);
    CellsUnfold(rs);
    DemandNonNegative(rs[1..], c);
    assert Demand(rs, c) == (if rs[0].cell == c then rs[0].quantity else 0) + Demand(rs[1..], c);
    CellUnfold(op, levels, rs[0], c, Demand(rs[1..], c));
    LastTouch(op, levels, rs[0]);
    hide Moved, Demand, Cells, NonNegative, Admits;
  }

  lemma BatchUnfoldAt(op: BatchOp, levels: Levels, rs: seq<Request>, c: Cell)
    requires rs != [] && NonNegative(rs) && Admits(op, levels, rs[0])
    ensures var next := ApplyOne(op, Stock(levels, []), rs[0]).levels;
            var now, later := BatchLevels(op, levels, rs), BatchLevels(op, next, rs[1..]);
            && (Admits(op, levels, Request(c, Demand(rs, c), "")) <==>
                Admits(op, next, Request(c, Demand(rs[1..], c), "")))
            && (c in now <==> c in later) && (c in now ==> now[c] == later[c])
            && (c !in Cells(rs[1..]) ==> Demand(rs[1..], c) == 0)
  {
    hide Moved, Admits, ApplyOne, BatchLevels, Cells;
    CellsUnfold(rs);
    DemandNonNegative(rs[1..], c);
    CellUnfold(op, levels, rs[0], c, Demand(rs[1..], c));
    BatchLevelsUnfoldAt(op, levels, rs, c);
  }

  lemma AdmitsNothingMore(op: BatchOp, levels: Levels, r: Request)
    requires r.quantity >= 0 && Admits(op, levels, r)
    ensures Admits(op, ApplyOne(op, Stock(levels, []), r).levels, Request(r.cell, 0, ""))
  {
  }

  lemma BatchUnfold(op: BatchOp, levels: Levels, rs: seq<Request>)
    requires rs != [] && NonNegative(rs) && Admits(op, levels, rs[0])
    ensures var next := ApplyOne(op, Stock(levels, []), rs[0]).levels;
            && (BatchFits(op, levels, rs) <==> BatchFits(op, next, rs[1..]))
            && BatchLevels(op, levels, rs) == BatchLevels(op, next, rs[1..])
  {
    hide ApplyOne, Demand, BatchLevels;
    var next, rest, c0 := ApplyOne(op, Stock(levels, []), rs[0]).levels, rs[1..], rs[0].cell;
    forall c {
      BatchUnfoldAt(op, levels, rs, c);
    }
    CellsUnfold(rs);
    AdmitsNothingMore(op, levels, rs[0]);
    assert BatchLevels(op, levels, rs) == BatchLevels(op, next, rest);
  }

  // The sequential loop succeeds exactly when the aggregate check does, and then leaves exactly the aggregate levels.
  lemma {:induction false} BatchRefinesAggregate(op: BatchOp, s: Stock, rs: seq<Request>)
    requires NonNegative(rs)
    ensures ApplyAll(op, s, rs).Some? <==> BatchFits(op, s.levels, rs)
    ensures ApplyAll(op, s, rs).Some? ==> ApplyAll(op, s, rs).value.levels == BatchLevels(op, s.levels, rs)
    decreases |rs|
  {
    if rs == [] {
      assert BatchLevels(op, s.levels, rs) == s.levels;
    } else {
      CellsUnfold(rs);
      DemandNonNegative(rs[1..], rs[0].cell);
      if Admits(op, s.levels, rs[0]) {
        BatchUnfold(op, s.levels, rs);
        BatchRefinesAggregate(op, ApplyOne(op, s, rs[0]), rs[1..]);
      } else {
        assert !Admits(op, s.levels, Request(rs[0].cell, Demand(rs, rs[0].cell), ""));
      }
    }
  }

  // Every cell of the result, whether or not the batch mentions it.
  lemma BatchLevelAt(op: BatchOp, s: Stock, rs: seq<Request>, c: Cell)
    requires NonNegative(rs) && ApplyAll(op, s, rs).Some? && LevelAt(s.levels, c).reserved >= 0
    ensures LevelAt(ApplyAll(op, s, rs).value.levels, c) == Moved(op, LevelAt(s.levels, c), Demand(rs, c))
    ensures c in s.levels ==> c in ApplyAll(op, s, rs).value.levels
    ensures op.Reserve? && c in Cells(rs) ==> c in ApplyAll(op, s, rs).value.levels
  {
    BatchRefinesAggregate(op, s, rs);
    DemandNonNegative(rs, c);
    if c in Cells(rs) {
      assert Admits(op, s.levels, Request(c, Demand(rs, c), ""));
    }
  }

  // ----- Batches with quantities of either sign --------------------------------------------------

  // What the clamps at zero add back in total while the requests are taken from a cell's reservation one by one.
  function Forgiven(rs: seq<Request>, c: Cell, reserved: int): (f: nat)
    decreases |rs|
  {
    if rs == [] then 0
    else if rs[0].cell != c then Forgiven(rs[1..], c, reserved)
    else
      var left := reserved - rs[0].quantity;
      Max(0, -left) + Forgiven(rs[1..], c, Max(0, left))
  }

  // At no point does the running demand on the cell exceed what was reserved there.
  predicate Covered(rs: seq<Request>, c: Cell, reserved: int) {
    forall k | 0 < k <= |rs| && rs[k - 1].cell == c :: Demand(rs[..k], c) <= reserved
  }

  lemma PrefixDemand(rs: seq<Request>, k: nat, c: Cell)
    requires 0 < k <= |rs|
    ensures Demand(rs[..k], c) == (if rs[0].cell == c then rs[0].quantity else 0) + Demand(rs[1..][..k - 1], c)
  {
    assert rs[..k][1..] == rs[1..][..k - 1];
  }

  lemma CoveredUnfold(rs: seq<Request>, c: Cell, reserved: int)
    requires rs != []
    ensures var q := if rs[0].cell == c then rs[0].quantity else 0;
            Covered(rs, c, reserved) <==> (rs[0].cell == c ==> q <= reserved) && Covered(rs[1..], c, reserved - q)
  {
    hide Demand;
    assert Demand(rs[..1], c) == (if rs[0].cell == c then rs[0].quantity else 0) by {
      PrefixDemand(rs, 1, c);
      assert rs[1..][..0] == [];
      DemandNonNegative([], c);
    }
    forall k | 0 < k <= |rs| {
      PrefixDemand(rs, k, c);
    }
    forall k | 0 < k <= |rs[1..]| && rs[1..][k - 1].cell == c && Covered(rs, c, reserved)
      ensures Demand(rs[1..][..k], c) <= reserved - if rs[0].cell == c then rs[0].quantity else 0
    {
      PrefixDemand(rs, k + 1, c);
      assert rs[(k + 1) - 1].cell == c;
    }
    if Covered(rs[1..], c, reserved - if rs[0].cell == c then rs[0].quantity else 0) {
      forall k | 1 < k <= |rs| && rs[k - 1].cell == c
        ensures Demand(rs[..k], c) <= reserved
      {
        assert rs[1..][(k - 1) - 1] == rs[k - 1];
      }
    }
  }

  // The clamps stay out of it exactly when the reservation covers the batch at every point.
  lemma {:induction false} ForgivenNothingIff(rs: seq<Request>, c: Cell, reserved: int)
    ensures Forgiven(rs, c, reserved) == 0 <==> Covered(rs, c, reserved)
    decreases |rs|
  {
    if rs != [] {
      CoveredUnfold(rs, c, reserved);
      ForgivenNothingIff(rs[1..], c, reserved - if rs[0].cell == c then rs[0].quantity else 0);
    }
  }

  lemma {:induction false} ForgivenOfNonNegative(rs: seq<Request>, c: Cell, reserved: int)
    requires NonNegative(rs) && reserved >= 0
    ensures Forgiven(rs, c, reserved) == Max(0, Demand(rs, c) - reserved)
    decreases |rs|
  {
    if rs != [] {
      CellsUnfold(rs);
      DemandNonNegative(rs[1..], c);
      ForgivenOfNonNegative(rs[1..], c, if rs[0].cell == c then Max(0, reserved - rs[0].quantity) else reserved);
    }
  }

  // Reserving adds a batch's demand to every cell and creates the rows it needs, whatever the signs.
  lemma {:induction false} ReserveLevelAt(s: Stock, rs: seq<Request>, c: Cell)
    requires ApplyAll(Reserve, s, rs).Some?
    ensures var levels, level := ApplyAll(Reserve, s, rs).value.levels, LevelAt(s.levels, c);
            && LevelAt(levels, c) == level.(reserved := level.reserved + Demand(rs, c))
            && (c in s.levels || c in Cells(rs) ==> c in levels)
    decreases |rs|
  {
    if rs != [] {
      CellsUnfold(rs);
      ReserveLevelAt(ApplyOne(Reserve, s, rs[0]), rs[1..], c);
    }
  }

  // Releasing or shipping takes the demand from a stocked cell's reservation, less what the clamps forgive, and
  // shipping takes it from what is on hand; a cell without a row stays without one.
  lemma {:induction false} TakenLevelAt(op: BatchOp, s: Stock, rs: seq<Request>, c: Cell)
    requires (op.Release? || op.Ship?) && ApplyAll(op, s, rs).Some?
    ensures var levels, reserved := ApplyAll(op, s, rs).value.levels, LevelAt(s.levels, c).reserved;
            && (c in levels <==> c in s.levels)
            && (c in levels ==>
                  levels[c] == Level(LevelAt(s.levels, c).onHand - (if op.Ship? then Demand(rs, c) else 0),
                                     reserved - Demand(rs, c) + Forgiven(rs, c, reserved)))
    decreases |rs|
  {
    if rs != [] {
      TakenLevelAt(op, ApplyOne(op, s, rs[0]), rs[1..], c);
    }
  }

  // What an operation may take from a cell.
  function Takeable(op: BatchOp, level: Level): int {
    if op.Reserve? then level.onHand - level.reserved else level.onHand
  }

  // On every cell the running demand never exceeds what the operation may take; taking from on-hand needs a row.
  predicate BatchCovered(op: BatchOp, levels: Levels, rs: seq<Request>) {
    forall c | c in Cells(rs) :: (op.Reserve? || c in levels) && Covered(rs, c, Takeable(op, LevelAt(levels, c)))
  }

  lemma TakeableUnfold(op: BatchOp, levels: Levels, r: Request, c: Cell)
    requires !op.Release? && Admits(op, levels, r)
    ensures var next := ApplyOne(op, Stock(levels, []), r).levels;
            && Takeable(op, LevelAt(next, c)) ==
               Takeable(op, LevelAt(levels, c)) - (if r.cell == c then r.quantity else 0)
            && (!op.Reserve? ==> (c in next <==> c in levels))
  {
  }

  lemma CoveredUntouched(rs: seq<Request>, c: Cell, limit: int)
    requires c !in Cells(rs)
    ensures Covered(rs, c, limit)
  {
    forall i | 0 <= i < |rs| ensures rs[i].cell != c {
      assert rs[i] in rs;
    }
  }

  lemma BatchCoveredUnfold(op: BatchOp, levels: Levels, rs: seq<Request>)
    requires !op.Release? && rs != [] && Admits(op, levels, rs[0])
    ensures BatchCovered(op, levels, rs) <==> BatchCovered(op, ApplyOne(op, Stock(levels, []), rs[0]).levels, rs[1..])
  {
    hide Covered, ApplyOne, Takeable, Cells;
    var r, rest, next := rs[0], rs[1..], ApplyOne(op, Stock(levels, []), rs[0]).levels;
    CellsUnfold(rs);
    AdmitsTakeable(op, levels, r);
    forall c | c in Cells(rs)
      ensures Covered(rs, c, Takeable(op, LevelAt(levels, c))) <==> Covered(rest, c, Takeable(op, LevelAt(next, c)))
      ensures !op.Reserve? ==> (c in next <==> c in levels)
      ensures c !in Cells(rest) ==> Covered(rest, c, Takeable(op, LevelAt(next, c))) && (op.Reserve? || c in levels)
    {
      CoveredUnfold(rs, c, Takeable(op, LevelAt(levels, c)));
      TakeableUnfold(op, levels, r, c);
      if c !in Cells(rest) { CoveredUntouched(rest, c, Takeable(op, LevelAt(next, c))); }
    }
  }

  lemma AdmitsTakeable(op: BatchOp, levels: Levels, r: Request)
    requires !op.Release?
    ensures Admits(op, levels, r) <==>
            (op.Reserve? || r.cell in levels) && r.quantity <= Takeable(op, LevelAt(levels, r.cell))
  {
  }

  // Whatever the signs, the sequential loop succeeds exactly when no running demand exceeds what may be taken.
  lemma {:induction false} BatchSucceedsIffCovered(op: BatchOp, s: Stock, rs: seq<Request>)
    requires !op.Release?
    ensures ApplyAll(op, s, rs).Some? <==> BatchCovered(op, s.levels, rs)
    decreases |rs|
  {
    if rs != [] {
      AdmitsTakeable(op, s.levels, rs[0]);
      if Admits(op, s.levels, rs[0]) {
        BatchCoveredUnfold(op, s.levels, rs);
        BatchSucceedsIffCovered(op, ApplyOne(op, s, rs[0]), rs[1..]);
      } else {
        CellsUnfold(rs);
        CoveredUnfold(rs, rs[0].cell, Takeable(op, LevelAt(s.levels, rs[0].cell)));
      }
    }
  }

  lemma {:induction false} ReleaseSucceeds(s: Stock, rs: seq<Request>)
    ensures ApplyAll(Release, s, rs).Some?
    decreases |rs|
  {
    if rs != [] { ReleaseSucceeds(ApplyOne(Release, s, rs[0]), rs[1..]); }
  }

  // Without negative quantities the whole demand is the largest running one.
  lemma {:induction false} CoveredOfNonNegative(rs: seq<Request>, c: Cell, limit: int)
    requires NonNegative(rs) && c in Cells(rs)
    ensures Covered(rs, c, limit) <==> Demand(rs, c) <= limit
    decreases |rs|
  {
    CellsUnfold(rs);
    CoveredUnfold(rs, c, limit);
    DemandNonNegative(rs[1..], c);
    var rest := limit - if rs[0].cell == c then rs[0].quantity else 0;
    if c in Cells(rs[1..]) {
      CoveredOfNonNegative(rs[1..], c, rest);
    } else {
      CoveredUntouched(rs[1..], c, rest);
    }
  }

  lemma {:induction false} ConsumeKeepsReserved(s: Stock, rs: seq<Request>)
    requires ApplyAll(Consume, s, rs).Some?
    ensures var levels := ApplyAll(Consume, s, rs).value.levels;
            forall c :: LevelAt(levels, c).reserved == LevelAt(s.levels, c).reserved && (c in s.levels ==> c in levels)
    decreases |rs|
  {
    if rs != [] {
      ConsumeKeepsReserved(ApplyOne(Consume, s, rs[0]), rs[1..]);
    }
  }

  function Without(rs: seq<Request>, i: nat): seq<Request>
    requires i < |rs|
  {
    rs[..i] + rs[i + 1..]
  }

  lemma {:induction false} DemandWithout(rs: seq<Request>, i: nat, c: Cell)
    requires i < |rs|
    ensures Demand(rs, c) == Demand(Without(rs, i), c) + if rs[i].cell == c then rs[i].quantity else 0
  {
    if i == 0 {
      assert Without(rs, i) == rs[1..];
    } else {
      assert Without(rs, i)[0] == rs[0] && Without(rs, i)[1..] == Without(rs[1..], i - 1);
      DemandWithout(rs[1..], i - 1, c);
    }
  }

  lemma MultisetWithout(rs: seq<Request>, i: nat)
    requires i < |rs|
    ensures multiset(Without(rs, i)) == multiset(rs) - multiset{rs[i]}
  {
    assert rs == rs[..i] + ([rs[i]] + rs[i + 1..]);
  }

  lemma {:induction false} DemandOfPermutation(a: seq<Request>, b: seq<Request>, c: Cell)
    requires multiset(a) == multiset(b)
    ensures Demand(a, c) == Demand(b, c)
  {
    if a == [] {
      assert |multiset(b)| == 0;
    } else {
      assert a[0] in multiset(b);
      var i :| 0 <= i < |b| && b[i] == a[0];
      MultisetWithout(a, 0);
      MultisetWithout(b, i);
      DemandWithout(a, 0, c);
      DemandWithout(b, i, c);
      DemandOfPermutation(Without(a, 0), Without(b, i), c);
    }
  }

  // Request order does not matter, neither to whether a batch succeeds nor to the levels it leaves.
  lemma BatchOrderIrrelevant(op: BatchOp, s: Stock, a: seq<Request>, b: seq<Request>)
    requires NonNegative(a) && multiset(a) == multiset(b)
    ensures ApplyAll(op, s, a).Some? <==> ApplyAll(op, s, b).Some?
    ensures ApplyAll(op, s, a).Some? ==> ApplyAll(op, s, a).value.levels == ApplyAll(op, s, b).value.levels
  {
    hide ApplyAll, Demand;
    forall r ensures r in a <==> r in b {
      assert r in a <==> r in multiset(a);
      assert r in b <==> r in multiset(b);
    }
    forall c {
      DemandOfPermutation(a, b, c);
    }
    assert Cells(a) == Cells(b);
    BatchRefinesAggregate(op, s, a);
    BatchRefinesAggregate(op, s, b);
    assert BatchLevels(op, s.levels, a) == BatchLevels(op, s.levels, b);
  }

  lemma ReserveThenReleaseAt(s: Stock, rs: seq<Request>, c: Cell)
    requires ApplyAll(Reserve, s, rs).Some? && ApplyAll(Release, ApplyAll(Reserve, s, rs).value, rs).Some?
    ensures var level := LevelAt(s.levels, c);
            LevelAt(ApplyAll(Release, ApplyAll(Reserve, s, rs).value, rs).value.levels, c) ==
            level.(reserved := level.reserved + Forgiven(rs, c, level.reserved + Demand(rs, c)))
    ensures c !in Cells(rs) ==> Forgiven(rs, c, LevelAt(s.levels, c).reserved + Demand(rs, c)) == 0
  {
    hide ApplyAll, Demand, Forgiven, Covered, Cells;
    var mid, reserved := ApplyAll(Reserve, s, rs).value, LevelAt(s.levels, c).reserved + Demand(rs, c);
    ReserveLevelAt(s, rs, c);
    TakenLevelAt(Release, mid, rs, c);
    if c !in Cells(rs) {
      CoveredUntouched(rs, c, reserved);
      ForgivenNothingIff(rs, c, reserved);
      DemandNonNegative(rs, c);
    }
  }

  // Releasing what was just reserved always succeeds, and restores every level exactly when the reservation it made
  // covers it at every point, whatever the signs.
  lemma ReserveThenRelease(s: Stock, rs: seq<Request>)
    requires ApplyAll(Reserve, s, rs).Some?
    ensures ApplyAll(Release, ApplyAll(Reserve, s, rs).value, rs).Some?
    ensures var end := ApplyAll(Release, ApplyAll(Reserve, s, rs).value, rs).value;
            (forall c :: LevelAt(end.levels, c) == LevelAt(s.levels, c)) <==>
            forall c | c in Cells(rs) :: Covered(rs, c, LevelAt(s.levels, c).reserved + Demand(rs, c))
  {
    hide ApplyAll, Demand, Forgiven, Covered, Cells;
    ReleaseSucceeds(ApplyAll(Reserve, s, rs).value, rs);
    var end := ApplyAll(Release, ApplyAll(Reserve, s, rs).value, rs).value;
    forall c
      ensures LevelAt(end.levels, c) == LevelAt(s.levels, c) <==>
              c !in Cells(rs) || Covered(rs, c, LevelAt(s.levels, c).reserved + Demand(rs, c))
    {
      ReserveThenReleaseAt(s, rs, c);
      ForgivenNothingIff(rs, c, LevelAt(s.levels, c).reserved + Demand(rs, c));
    }
  }

  // Without negative quantities: exactly when no touched cell started out negative.
  lemma ReserveThenReleaseOfNonNegative(s: Stock, rs: seq<Request>)
    requires NonNegative(rs) && ApplyAll(Reserve, s, rs).Some?
    ensures ApplyAll(Release, ApplyAll(Reserve, s, rs).value, rs).Some?
    ensures var end := ApplyAll(Release, ApplyAll(Reserve, s, rs).value, rs).value;
            (forall c :: LevelAt(end.levels, c) == LevelAt(s.levels, c))
            <==> forall c | c in Cells(rs) :: LevelAt(s.levels, c).reserved >= 0
  {
    hide ApplyAll, Demand, Forgiven, Covered, Cells;
    ReserveThenRelease(s, rs);
    forall c | c in Cells(rs)
      ensures Covered(rs, c, LevelAt(s.levels, c).reserved + Demand(rs, c)) <==> LevelAt(s.levels, c).reserved >= 0
    {
      CoveredOfNonNegative(rs, c, LevelAt(s.levels, c).reserved + Demand(rs, c));
    }
  }

  lemma MixedBatch(plus: Request, minus: Request, c: Cell)
    requires plus == Request(c, 5, "") && minus == Request(c, -5, "")
    ensures Demand([plus, minus], c) == 0 && Forgiven([plus, minus], c, 0) == 5
    ensures Cells([plus, minus]) == {c} && Covered([plus, minus], c, 10)
  {
    var rs := [plus, minus];
    assert rs[1..] == [minus] && [minus][1..] == [];
    assert Demand([minus], c) == -5 && Forgiven([minus], c, 0) == 0;
    assert rs[..1] == [plus] && [plus][1..] == [] && rs[..2] == rs && Demand([plus], c) == 5;
  }

  // A batch of both signs on one cell: five units stay reserved, though nothing was reserved before.
  lemma MixedBatchStaysReserved(s: Stock, c: Cell)
    requires s.levels == map[c := Level(10, 0)]
    ensures var rs := [Request(c, 5, ""), Request(c, -5, "")];
            && ApplyAll(Reserve, s, rs).Some?
            && ApplyAll(Release, ApplyAll(Reserve, s, rs).value, rs).Some?
            && LevelAt(ApplyAll(Release, ApplyAll(Reserve, s, rs).value, rs).value.levels, c) == Level(10, 5)
  {
    hide ApplyAll, Demand, Forgiven, Covered, Cells;
    var plus, minus := Request(c, 5, ""), Request(c, -5, "");
    MixedBatch(plus, minus, c);
    BatchSucceedsIffCovered(Reserve, s, [plus, minus]);
    ReleaseSucceeds(ApplyAll(Reserve, s, [plus, minus]).value, [plus, minus]);
    ReserveThenReleaseAt(s, [plus, minus], c);
  }

  // ----- The movement log ------------------------------------------------------------------------

  // What a log row says about the on-hand quantity of a cell.
  function Effect(m: Movement, c: Cell): int {
    var incoming := if m.destination == Some(c.warehouse) && m.product == c.product then m.quantity else 0;
    var outgoing := if m.source == Some(c.warehouse) && m.product == c.product then m.quantity else 0;
    match m.kind
    case Inbound | ProductionOutput | Return | Adjustment => incoming
    case Outbound | ProductionConsumption | Scrap => -outgoing
    case Transfer => if m.source.Some? && m.destination.Some? then incoming - outgoing else 0
  }

  // Reservation and release rows are adjustments without a unit cost; direct movements always carry one.
  predicate IsReservationRow(m: Movement) {
    m.kind.Adjustment? && m.unitCost.None?
  }

  function Replay(log: seq<Movement>, c: Cell, withReservations: bool): int {
    if log == [] then 0
    else
      var last := log[|log| - 1];
      Replay(log[..|log| - 1], c, withReservations)
      + if IsReservationRow(last) && !withReservations then 0 else Effect(last, c)
  }

  // Everything ever reserved or released on a cell, both counted positively.
  function ReservationTraffic(log: seq<Movement>, c: Cell): int {
    if log == [] then 0
    else
      var last := log[|log| - 1];
      ReservationTraffic(log[..|log| - 1], c)
      + if IsReservationRow(last) && last.destination == Some(c.warehouse) && last.product == c.product
        then last.quantity else 0
  }

  ghost predicate LedgerAgrees(s: Stock) {
    forall c :: LevelAt(s.levels, c).onHand == Replay(s.log, c, false) >= 0
  }

  lemma ReplayAppend(log: seq<Movement>, m: Movement, c: Cell)
    ensures Replay(log + [m], c, false) == Replay(log, c, false) + if IsReservationRow(m) then 0 else Effect(m, c)
  {
    assert (log + [m])[..|log|] == log;
  }

  // Replaying every row overshoots by exactly the reservation traffic.
  lemma {:induction false} FullReplayOvershoots(log: seq<Movement>, c: Cell)
    ensures Replay(log, c, true) == Replay(log, c, false) + ReservationTraffic(log, c)
  {
    if log != [] {
      FullReplayOvershoots(log[..|log| - 1], c);
    }
  }

  lemma EntryEffect(op: BatchOp, r: Request, c: Cell)
    ensures IsReservationRow(Entry(op, r)) <==> op.Reserve? || op.Release?
    ensures op.Ship? || op.Consume? ==> Effect(Entry(op, r), c) == -(if r.cell == c then r.quantity else 0)
  {
  }

  lemma OneKeepsLedger(op: BatchOp, s: Stock, r: Request)
    requires LedgerAgrees(s) && Admits(op, s.levels, r)
    ensures LedgerAgrees(ApplyOne(op, s, r))
  {
    hide Entry, Effect, Replay, IsReservationRow;
    var next := ApplyOne(op, s, r);
    forall c ensures LevelAt(next.levels, c).onHand == Replay(next.log, c, false) >= 0 {
      ReplayAppend(s.log, Entry(op, r), c);
      EntryEffect(op, r, c);
    }
  }

  lemma {:induction false} BatchKeepsLedger(op: BatchOp, s: Stock, rs: seq<Request>)
    requires LedgerAgrees(s) && ApplyAll(op, s, rs).Some?
    ensures LedgerAgrees(ApplyAll(op, s, rs).value)
    decreases |rs|
  {
    if rs != [] {
      OneKeepsLedger(op, s, rs[0]);
      BatchKeepsLedger(op, ApplyOne(op, s, rs[0]), rs[1..]);
    }
  }

  predicate IsIncoming(kind: MovementType) {
    kind.Inbound? || kind.ProductionOutput? || kind.Return? || kind.Adjustment?
  }

  predicate IsOutgoing(kind: MovementType) {
    kind.Outbound? || kind.ProductionConsumption? || kind.Scrap?
  }

  lemma AdjustStockAt(levels: Levels, cell: Cell, delta: int, c: Cell)
    requires AdjustStock(levels, cell, delta).Some?
    ensures var before, after := LevelAt(levels, c), LevelAt(AdjustStock(levels, cell, delta).value, c);
            && after == before.(onHand := before.onHand + if c == cell then delta else 0)
            && (c == cell ==> after.onHand >= 0)
  {
  }

  // When a movement succeeds: the product is known, and no cell goes below zero on the way. A transfer to the same
  // cell still needs the quantity there.
  lemma MovementSucceedsIff(s: Stock, m: Movement, unitCost: Option<int>)
    ensures var at := (w: string) => LevelAt(s.levels, Cell(m.product, w)).onHand;
            RecordMovement(s, m, unitCost).Some? <==>
            && unitCost.Some?
            && match m.kind
               case Inbound | ProductionOutput | Return | Adjustment =>
                 m.destination.Some? ==> at(m.destination.value) + m.quantity >= 0
               case Outbound | ProductionConsumption | Scrap => m.source.Some? ==> at(m.source.value) >= m.quantity
               case Transfer =>
                 m.source.Some? && m.destination.Some? ==>
                   && at(m.source.value) >= m.quantity
                   && at(m.destination.value) + (if m.source == m.destination then 0 else m.quantity) >= 0
  {
  }

  lemma MovementOnHand(levels: Levels, m: Movement, c: Cell)
    requires ApplyMovement(levels, m).Some?
    ensures LevelAt(ApplyMovement(levels, m).value, c).onHand == LevelAt(levels, c).onHand + Effect(m, c)
    ensures LevelAt(levels, c).onHand >= 0 ==> LevelAt(ApplyMovement(levels, m).value, c).onHand >= 0
    ensures LevelAt(ApplyMovement(levels, m).value, c).reserved == LevelAt(levels, c).reserved
  {
    hide AdjustStock, LevelAt;
    if m.kind.Transfer? && m.source.Some? && m.destination.Some? {
      var from, to := Cell(m.product, m.source.value), Cell(m.product, m.destination.value);
      AdjustStockAt(levels, from, -m.quantity, c);
      AdjustStockAt(AdjustStock(levels, from, -m.quantity).value, to, m.quantity, c);
    } else if m.destination.Some? && IsIncoming(m.kind) {
      AdjustStockAt(levels, Cell(m.product, m.destination.value), m.quantity, c);
    } else if m.source.Some? && IsOutgoing(m.kind) {
      AdjustStockAt(levels, Cell(m.product, m.source.value), -m.quantity, c);
    }
  }

  lemma MovementKeepsLedger(s: Stock, m: Movement, unitCost: Option<int>)
    requires LedgerAgrees(s) && RecordMovement(s, m, unitCost).Some?
    ensures LedgerAgrees(RecordMovement(s, m, unitCost).value)
  {
    var next := RecordMovement(s, m, unitCost).value;
    forall c ensures LevelAt(next.levels, c).onHand == Replay(next.log, c, false) >= 0 {
      MovementOnHand(s.levels, m, c);
      ReplayAppend(s.log, m.(unitCost := unitCost), c);
    }
  }

  // On-hand quantity of a product summed over a list of warehouses.
  function ProductTotal(levels: Levels, product: string, warehouses: seq<string>): int {
    if warehouses == [] then 0
    else LevelAt(levels, Cell(product, warehouses[0])).onHand + ProductTotal(levels, product, warehouses[1..])
  }

  // A transfer moves its quantity between two warehouses and creates or destroys nothing: over any list of
  // distinct warehouses the total changes only by what enters the list minus what leaves it.
  lemma {:induction false} TransferConserves(levels: Levels, m: Movement, product: string, warehouses: seq<string>)
    requires m.kind.Transfer? && m.source.Some? && m.destination.Some?
    requires ApplyMovement(levels, m).Some?
    requires forall i, j | 0 <= i < j < |warehouses| :: warehouses[i] != warehouses[j]
    ensures ProductTotal(ApplyMovement(levels, m).value, product, warehouses) ==
            ProductTotal(levels, product, warehouses)
            + (if m.product == product && m.destination.value in warehouses then m.quantity else 0)
            - (if m.product == product && m.source.value in warehouses then m.quantity else 0)
  {
    if warehouses != [] {
      TransferConserves(levels, m, product, warehouses[1..]);
      MovementOnHand(levels, m, Cell(product, warehouses[0]));
      assert forall w :: w in warehouses <==> w == warehouses[0] || w in warehouses[1..];
      assert warehouses[0] !in warehouses[1..];
    }
  }
}
