// Matching supplier invoices against purchase orders and goods receipts, within tolerances.
module ThreeWayMatch {
  import opened Option

  datatype PoLine = PoLine(id: string, unitCost: int)

  datatype GrLine = GrLine(poLine: string, accepted: real)

  // `poLine` is None when the invoice line was not matched to an order line.
  datatype SiLine = SiLine(id: string, poLine: Option<string>, quantity: real, unitCost: int, taxRate: real, total: int)

  // A percentage, or None for one that is passed along as undefined: a comparison with it never succeeds.
  type Tolerance = Option<real>

  datatype Tolerances = Tolerances(quantity: Tolerance, price: Tolerance, total: Tolerance)

  const DEFAULTS := Tolerances(Some(2.0), Some(0.5), Some(1.0))

  datatype Kind = UnmatchedLine | MissingPo | Quantity | Price | InvoiceTotal

  datatype Discrepancy = Discrepancy(kind: Kind, invoiceLine: Option<string>)

  function Abs(x: real): real {
    if x < 0.0 then -x else x
  }

  // Within a percentage of the expected value, give or take `slack`.
  predicate Within(expected: real, actual: real, pct: Tolerance, slack: real) {
    if expected == 0.0 then actual == 0.0
    else pct.Some? && Abs(actual - expected) <= Abs(expected * (pct.value / 100.0)) + slack
  }

  predicate WithinPct(expected: int, actual: int, pct: Tolerance) {
    Within(expected as real, actual as real, pct, 0.5)
  }

  predicate WithinPctDecimal(expected: real, actual: real, pct: Tolerance) {
    Within(expected, actual, pct, 0.0001)
  }

  // Math.round
  function Round(x: real): int {
    (x + 0.5).Floor
  }

  // ----- The declarative side --------------------------------------------------------------------

  function AcceptedFor(grs: seq<GrLine>, id: string): real {
    if grs == [] then 0.0
    else AcceptedFor(grs[..|grs| - 1], id) + if grs[|grs| - 1].poLine == id then grs[|grs| - 1].accepted else 0.0
  }

  function FindPo(pos: seq<PoLine>, id: string): Option<PoLine> {
    if pos == [] then None else if pos[0].id == id then Some(pos[0]) else FindPo(pos[1..], id)
  }

  function LineTax(line: SiLine): int {
    Round(line.total as real * line.taxRate / 100.0)
  }

  function ExpectedTotal(lines: seq<SiLine>): int {
    if lines == [] then 0
    else
      var last := lines[|lines| - 1];
      ExpectedTotal(lines[..|lines| - 1]) + last.total + LineTax(last)
  }

  predicate QuantityOk(line: SiLine, grs: seq<GrLine>, t: Tolerances)
    requires line.poLine.Some?
  {
    WithinPctDecimal(AcceptedFor(grs, line.poLine.value), line.quantity, t.quantity)
  }

  // The line's order line exists, and its quantity and price are within tolerance.
  predicate LineMatches(line: SiLine, pos: seq<PoLine>, grs: seq<GrLine>, t: Tolerances) {
    && line.poLine.Some? && line.poLine.value != "" && FindPo(pos, line.poLine.value).Some?
    && QuantityOk(line, grs, t)
    && WithinPct(FindPo(pos, line.poLine.value).value.unitCost, line.unitCost, t.price)
  }

  predicate Matches(pos: seq<PoLine>, grs: seq<GrLine>, lines: seq<SiLine>, total: int, t: Tolerances) {
    && (forall i | 0 <= i < |lines| :: LineMatches(lines[i], pos, grs, t))
    && WithinPct(ExpectedTotal(lines), total, t.total)
  }

  // The discrepancies of one line, in the order in which they are found.
  function LineIssues(line: SiLine, pos: seq<PoLine>, grs: seq<GrLine>, t: Tolerances): seq<Discrepancy> {
    if line.poLine.None? || line.poLine.value == "" then [Discrepancy(UnmatchedLine, Some(line.id))]
    else
      var po := FindPo(pos, line.poLine.value);
      if po.None? then [Discrepancy(MissingPo, Some(line.id))]
      else (if QuantityOk(line, grs, t) then [] else [Discrepancy(Quantity, Some(line.id))])
           + if WithinPct(po.value.unitCost, line.unitCost, t.price) then [] else [Discrepancy(Price, Some(line.id))]
  }

  function AllIssues(lines: seq<SiLine>, pos: seq<PoLine>, grs: seq<GrLine>, t: Tolerances): seq<Discrepancy> {
    if lines == [] then []
    else AllIssues(lines[..|lines| - 1], pos, grs, t) + LineIssues(lines[|lines| - 1], pos, grs, t)
  }

  function Issues(pos: seq<PoLine>, grs: seq<GrLine>, lines: seq<SiLine>, total: int, t: Tolerances): seq<Discrepancy> {
    AllIssues(lines, pos, grs, t)
    + if WithinPct(ExpectedTotal(lines), total, t.total) then [] else [Discrepancy(InvoiceTotal, None)]
  }

  // ----- The computation -------------------------------------------------------------------------

  // Sums accepted quantities per order line in a map.
  method Aggregate(grs: seq<GrLine>) returns (accepted: map<string, real>)
    ensures forall id :: AcceptedFor(grs, id) == if id in accepted then accepted[id] else 0.0
    ensures accepted.Keys == set line | line in grs :: line.poLine
  {
    accepted := map[];
    for i := 0 to |grs|
      invariant accepted.Keys == set line | line in grs[..i] :: line.poLine
      invariant forall id :: AcceptedFor(grs[..i], id) == if id in accepted then accepted[id] else 0.0
    {
      assert grs[..i + 1][..i] == grs[..i] && grs[..i + 1] == grs[..i] + [grs[i]];
      var id := grs[i].poLine;
      accepted := accepted[id := (if id in accepted then accepted[id] else 0.0) + grs[i].accepted];
    }
    assert grs[..|grs|] == grs;
  }

  lemma NoIssuesYet(pos: seq<PoLine>, grs: seq<GrLine>, t: Tolerances)
    ensures AllIssues([], pos, grs, t) == []
  {
  }

  lemma IssuesStep(lines: seq<SiLine>, i: nat, pos: seq<PoLine>, grs: seq<GrLine>, t: Tolerances)
    requires i < |lines|
    ensures AllIssues(lines[..i + 1], pos, grs, t) ==
            AllIssues(lines[..i], pos, grs, t) + LineIssues(lines[i], pos, grs, t)
  {
    assert lines[..i + 1][..i] == lines[..i];
  }

  // `tolerances` is None when the caller gives none at all; given ones replace the defaults even where undefined.
  method RunThreeWayMatch(pos: seq<PoLine>, grs: seq<GrLine>, lines: seq<SiLine>, total: int,
                          tolerances: Option<Tolerances>)
    returns (matched: bool, discrepancies: seq<Discrepancy>)
    ensures var t := if tolerances.Some? then tolerances.value else DEFAULTS;
            && discrepancies == Issues(pos, grs, lines, total, t)
            && (matched <==> Matches(pos, grs, lines, total, t))
  {
    hide Within, AcceptedFor, FindPo, AllIssues, Matches;
    var t := if tolerances.Some? then tolerances.value else DEFAULTS;
    var accepted := Aggregate(grs);
    discrepancies := [];
    NoIssuesYet(pos, grs, t);
    for i := 0 to |lines|
      invariant discrepancies == AllIssues(lines[..i], pos, grs, t)
    {
      IssuesStep(lines, i, pos, grs, t);
      var line := lines[i];
      if line.poLine.None? || line.poLine.value == "" {
        discrepancies := discrepancies + [Discrepancy(UnmatchedLine, Some(line.id))];
        continue;
      }
      var po := FindPo(pos, line.poLine.value);
      if po.None? {
        discrepancies := discrepancies + [Discrepancy(MissingPo, Some(line.id))];
        continue;
      }
      FoundPo(pos, line.poLine.value);
      var acceptedQuantity := if po.value.id in accepted then accepted[po.value.id] else 0.0;
      if !WithinPctDecimal(acceptedQuantity, line.quantity, t.quantity) {
        discrepancies := discrepancies + [Discrepancy(Quantity, Some(line.id))];
      }
      if !WithinPct(po.value.unitCost, line.unitCost, t.price) {
        discrepancies := discrepancies + [Discrepancy(Price, Some(line.id))];
      }
    }
    assert lines[..|lines|] == lines;
    var expected := ComputeTotal(lines);
    if !WithinPct(expected, total, t.total) {
      discrepancies := discrepancies + [Discrepancy(InvoiceTotal, None)];
    }
    MatchedIff(pos, grs, lines, total, t);
    matched := |discrepancies| == 0;
  }

  method ComputeTotal(lines: seq<SiLine>) returns (expected: int)
    ensures expected == ExpectedTotal(lines)
  {
    expected := 0;
    for i := 0 to |lines|
      invariant expected == ExpectedTotal(lines[..i])
    {
      assert lines[..i + 1][..i] == lines[..i];
      expected := expected + lines[i].total + LineTax(lines[i]);
    }
    assert lines[..|lines|] == lines;
  }

  // The order line found is the first with the id.
  lemma {:induction false} FoundPo(pos: seq<PoLine>, id: string)
    ensures var po := FindPo(pos, id);
            && (po.Some? ==>
                  && po.value.id == id
                  && exists k | 0 <= k < |pos| :: po.value == pos[k] && forall j | 0 <= j < k :: pos[j].id != id)
            && (po.None? ==> forall k | 0 <= k < |pos| :: pos[k].id != id)
  {
    if pos != [] && pos[0].id != id {
      FoundPo(pos[1..], id);
      if FindPo(pos, id).Some? {
        var k :| 0 <= k < |pos[1..]| && FindPo(pos, id).value == pos[1..][k]
                 && forall j | 0 <= j < k :: pos[1..][j].id != id;
        assert pos[k + 1] == pos[1..][k] && forall j | 1 <= j < k + 1 :: pos[j] == pos[1..][j - 1];
      }
    }
  }

  datatype InvoiceStatus = Received | Matched | Disputed | Approved | Rejected | Paid | Cancelled

  class SupplierInvoice {
    var status: InvoiceStatus
    var lines: seq<SiLine>
    var total: int
    var discrepancies: seq<Discrepancy>

    constructor (lines: seq<SiLine>, total: int)
      ensures status == Received && this.lines == lines && this.total == total && discrepancies == []
    {
      status, this.lines, this.total, discrepancies := Received, lines, total, [];
    }

    // The service always gives tolerances, each of which the request may have left undefined.
    method RunMatch(pos: seq<PoLine>, grs: seq<GrLine>, request: Tolerances) returns (ok: bool)
      modifies this`status, this`discrepancies
      ensures ok <==> old(status) == Received
      ensures ok ==> status == (if Matches(pos, grs, lines, total, request) then Matched else Disputed)
                     && discrepancies == Issues(pos, grs, lines, total, request)
      ensures !ok ==> status == old(status) && discrepancies == old(discrepancies)
    {
      if status != Received {
        return false;
      }
      var matched, found := RunThreeWayMatch(pos, grs, lines, total, Some(request));
      discrepancies := found;
      status := if matched then Matched else Disputed;
      return true;
    }
  }

  // ----- Properties of the verdict ---------------------------------------------------------------

  lemma {:induction false} NoIssuesIff(lines: seq<SiLine>, pos: seq<PoLine>, grs: seq<GrLine>, t: Tolerances)
    ensures AllIssues(lines, pos, grs, t) == [] <==> forall i | 0 <= i < |lines| :: LineMatches(lines[i], pos, grs, t)
  {
    hide LineIssues, LineMatches;
    if lines != [] {
      var n := |lines| - 1;
      NoIssuesIff(lines[..n], pos, grs, t);
      NoLineIssuesIff(lines[n], pos, grs, t);
      assert forall i | 0 <= i < n :: lines[..n][i] == lines[i];
    }
  }

  lemma NoLineIssuesIff(line: SiLine, pos: seq<PoLine>, grs: seq<GrLine>, t: Tolerances)
    ensures LineIssues(line, pos, grs, t) == [] <==> LineMatches(line, pos, grs, t)
  {
    hide FindPo, WithinPct, QuantityOk;
  }

  // No discrepancy is reported exactly when every quantity, price and total condition holds.
  lemma MatchedIff(pos: seq<PoLine>, grs: seq<GrLine>, lines: seq<SiLine>, total: int, t: Tolerances)
    ensures Issues(pos, grs, lines, total, t) == [] <==> Matches(pos, grs, lines, total, t)
  {
    NoIssuesIff(lines, pos, grs, t);
  }

  // What is wrong with a line.
  predicate HasIssue(line: SiLine, pos: seq<PoLine>, grs: seq<GrLine>, t: Tolerances, kind: Kind) {
    var named := line.poLine.Some? && line.poLine.value != "";
    var found := named && exists k | 0 <= k < |pos| :: pos[k].id == line.poLine.value;
    match kind
    case UnmatchedLine => !named
    case MissingPo => named && !found
    case Quantity => found && !QuantityOk(line, grs, t)
    case Price =>
      found
      && (FoundPo(pos, line.poLine.value);
          !WithinPct(FindPo(pos, line.poLine.value).value.unitCost, line.unitCost, t.price))
    case InvoiceTotal => false
  }

  lemma {:induction false} LineIssueIff(lines: seq<SiLine>, pos: seq<PoLine>, grs: seq<GrLine>, t: Tolerances,
                                        d: Discrepancy)
    ensures d in AllIssues(lines, pos, grs, t) <==>
            exists i | 0 <= i < |lines| :: d.invoiceLine == Some(lines[i].id) && HasIssue(lines[i], pos, grs, t, d.kind)
  {
    hide LineIssues, HasIssue;
    if lines != [] {
      var n := |lines| - 1;
      LineIssueIff(lines[..n], pos, grs, t, d);
      assert forall i | 0 <= i < n :: lines[..n][i] == lines[i];
      OneLineIssueIff(lines[n], pos, grs, t, d);
    }
  }

  lemma OneLineIssueIff(line: SiLine, pos: seq<PoLine>, grs: seq<GrLine>, t: Tolerances, d: Discrepancy)
    ensures d in LineIssues(line, pos, grs, t) <==>
            d.invoiceLine == Some(line.id) && HasIssue(line, pos, grs, t, d.kind)
  {
    hide FindPo, QuantityOk, WithinPct;
    if line.poLine.Some? { FoundPo(pos, line.poLine.value); }
  }

  // Which discrepancies are reported: those of the lines, each under its kind, and that of the total.
  lemma IssueIff(pos: seq<PoLine>, grs: seq<GrLine>, lines: seq<SiLine>, total: int, t: Tolerances, d: Discrepancy)
    ensures d in Issues(pos, grs, lines, total, t) <==>
            || (d == Discrepancy(InvoiceTotal, None) && !WithinPct(ExpectedTotal(lines), total, t.total))
            || exists i | 0 <= i < |lines| ::
                 d.invoiceLine == Some(lines[i].id) && HasIssue(lines[i], pos, grs, t, d.kind)
  {
    hide Within, AcceptedFor, ExpectedTotal, AllIssues, HasIssue;
    LineIssueIff(lines, pos, grs, t, d);
  }

  // A receipt for an order line that no invoice line names does not matter.
  lemma {:induction false} UnrelatedReceipt(lines: seq<SiLine>, pos: seq<PoLine>, grs: seq<GrLine>, g: GrLine,
                                            t: Tolerances)
    requires forall i | 0 <= i < |lines| :: lines[i].poLine != Some(g.poLine)
    ensures AllIssues(lines, pos, grs + [g], t) == AllIssues(lines, pos, grs, t)
  {
    if lines != [] {
      var n := |lines| - 1;
      UnrelatedReceipt(lines[..n], pos, grs, g, t);
      UnrelatedToLine(lines[n], pos, grs, g, t);
      hide LineIssues;
    }
  }

  lemma UnrelatedToLine(line: SiLine, pos: seq<PoLine>, grs: seq<GrLine>, g: GrLine, t: Tolerances)
    requires line.poLine != Some(g.poLine)
    ensures LineIssues(line, pos, grs + [g], t) == LineIssues(line, pos, grs, t)
  {
    assert (grs + [g])[..|grs|] == grs;
    assert line.poLine.Some? ==> AcceptedFor(grs + [g], line.poLine.value) == AcceptedFor(grs, line.poLine.value);
    hide AcceptedFor, Within, FindPo;
  }

  // Goods receipts only count through their sums per order line: they may be reordered, split or merged.
  lemma {:induction false} ReceiptsOnlyCountBySums(lines: seq<SiLine>, pos: seq<PoLine>, a: seq<GrLine>,
                                                   b: seq<GrLine>, t: Tolerances)
    requires forall id :: AcceptedFor(a, id) == AcceptedFor(b, id)
    ensures AllIssues(lines, pos, a, t) == AllIssues(lines, pos, b, t)
  {
    hide AcceptedFor;
    if lines != [] { ReceiptsOnlyCountBySums(lines[..|lines| - 1], pos, a, b, t); }
  }

  lemma {:induction false} AcceptedConcat(a: seq<GrLine>, b: seq<GrLine>, id: string)
    ensures AcceptedFor(a + b, id) == AcceptedFor(a, id) + AcceptedFor(b, id)
  {
    if b == [] {
      assert a + b == a;
    } else {
      AcceptedConcat(a, b[..|b| - 1], id);
      assert (a + b)[..|a + b| - 1] == a + b[..|b| - 1];
    }
  }

  function Without(grs: seq<GrLine>, i: nat): seq<GrLine>
    requires i < |grs|
  {
    grs[..i] + grs[i + 1..]
  }

  lemma RemoveOne(grs: seq<GrLine>, i: nat, id: string)
    requires i < |grs|
    ensures multiset(Without(grs, i)) == multiset(grs) - multiset{grs[i]}
    ensures AcceptedFor(grs, id) ==
            AcceptedFor(Without(grs, i), id) + if grs[i].poLine == id then grs[i].accepted else 0.0
  {
    assert grs == grs[..i] + ([grs[i]] + grs[i + 1..]) == grs[..i] + [grs[i]] + grs[i + 1..];
    AcceptedConcat(grs[..i], grs[i + 1..], id);
    AcceptedConcat(grs[..i], [grs[i]], id);
    AcceptedConcat(grs[..i] + [grs[i]], grs[i + 1..], id);
    assert [grs[i]][..0] == [];
  }

  lemma {:induction false} AcceptedOfPermutation(a: seq<GrLine>, b: seq<GrLine>, id: string)
    requires multiset(a) == multiset(b)
    ensures AcceptedFor(a, id) == AcceptedFor(b, id)
  {
    if a == [] {
      assert |multiset(b)| == 0;
    } else {
      assert a[0] in multiset(b);
      var i :| 0 <= i < |b| && b[i] == a[0];
      RemoveOne(a, 0, id);
      RemoveOne(b, i, id);
      AcceptedOfPermutation(Without(a, 0), Without(b, i), id);
    }
  }

  // Reordering the receipts, then splitting one of them in two, changes no discrepancy.
  lemma ReceiptsMayBeReorderedAndSplit(pos: seq<PoLine>, a: seq<GrLine>, b: seq<GrLine>, i: nat, part: real,
                                       lines: seq<SiLine>, total: int, t: Tolerances)
    requires multiset(a) == multiset(b) && i < |b|
    ensures var split := b[..i] + [b[i].(accepted := part), b[i].(accepted := b[i].accepted - part)] + b[i + 1..];
            Issues(pos, a, lines, total, t) == Issues(pos, split, lines, total, t)
  {
    var two := [b[i].(accepted := part), b[i].(accepted := b[i].accepted - part)];
    forall id ensures AcceptedFor(a, id) == AcceptedFor(b[..i] + two + b[i + 1..], id) {
      AcceptedOfPermutation(a, b, id);
      AcceptedConcat(b[..i], [b[i]], id);
      AcceptedConcat(b[..i] + [b[i]], b[i + 1..], id);
      AcceptedConcat(b[..i], two, id);
      AcceptedConcat(b[..i] + two, b[i + 1..], id);
      assert b == b[..i] + [b[i]] + b[i + 1..] && [b[i]][..0] == [];
      assert two[..1] == [two[0]] && [two[0]][..0] == [];
    }
    ReceiptsOnlyCountBySums(lines, pos, a, b[..i] + two + b[i + 1..], t);
  }

  // The margin in whole terms: a hundred times the difference is at most the percentage of the expected figure, plus a
  // hundred times the slack.
  lemma WithinIff(expected: real, actual: real, pct: real, slack: real)
    requires expected != 0.0
    ensures Within(expected, actual, Some(pct), slack) <==>
            100.0 * Abs(actual - expected) <= Abs(expected) * Abs(pct) + 100.0 * slack
  {
    var p := pct / 100.0;
    AbsProduct(expected, p, Abs(expected), Abs(p), expected * p);
    assert Abs(p) == Abs(pct) / 100.0;
    assert Abs(expected) * Abs(p) * 100.0 == Abs(expected) * Abs(pct);
  }

  // The default tolerances: half a percent of the price and half a cent, two percent of the quantity and a
  // ten-thousandth, one percent of the total and half a cent.
  lemma DefaultsMean(expected: real, actual: real)
    requires expected != 0.0
    ensures Within(expected, actual, DEFAULTS.price, 0.5) <==>
            200.0 * Abs(actual - expected) <= Abs(expected) + 100.0
    ensures Within(expected, actual, DEFAULTS.quantity, 0.0001) <==>
            10_000.0 * Abs(actual - expected) <= 200.0 * Abs(expected) + 1.0
    ensures Within(expected, actual, DEFAULTS.total, 0.5) <==>
            100.0 * Abs(actual - expected) <= Abs(expected) + 50.0
  {
    WithinIff(expected, actual, 0.5, 0.5);
    WithinIff(expected, actual, 2.0, 0.0001);
    WithinIff(expected, actual, 1.0, 0.5);
  }

  // When a line agrees within the default tolerances: its price and its quantity are as stated, and zero only with
  // zero.
  predicate LineAgrees(line: SiLine, price: int, accepted: real) {
    && (if price == 0 then line.unitCost == 0
        else 200.0 * Abs((line.unitCost - price) as real) <= Abs(price as real) + 100.0)
    && if accepted == 0.0 then line.quantity == 0.0
       else 10_000.0 * Abs(line.quantity - accepted) <= 200.0 * Abs(accepted) + 1.0
  }

  // The verdict of a match without tolerances of its own.
  lemma MatchesByDefaultIff(pos: seq<PoLine>, grs: seq<GrLine>, lines: seq<SiLine>, total: int)
    ensures Matches(pos, grs, lines, total, DEFAULTS) <==>
            && (forall i | 0 <= i < |lines| ::
                  && lines[i].poLine.Some? && lines[i].poLine.value != ""
                  && FindPo(pos, lines[i].poLine.value).Some?
                  && LineAgrees(lines[i], FindPo(pos, lines[i].poLine.value).value.unitCost,
                                AcceptedFor(grs, lines[i].poLine.value)))
            && var expected := ExpectedTotal(lines);
               if expected == 0 then total == 0
               else 100.0 * Abs((total - expected) as real) <= Abs(expected as real) + 50.0
  {
    hide AcceptedFor, ExpectedTotal, Abs, FindPo;
    forall i | 0 <= i < |lines| && lines[i].poLine.Some? && FindPo(pos, lines[i].poLine.value).Some?
      ensures QuantityOk(lines[i], grs, DEFAULTS)
              && WithinPct(FindPo(pos, lines[i].poLine.value).value.unitCost, lines[i].unitCost, DEFAULTS.price) <==>
              LineAgrees(lines[i], FindPo(pos, lines[i].poLine.value).value.unitCost,
                         AcceptedFor(grs, lines[i].poLine.value))
    {
      LineAgreesIff(lines[i], FindPo(pos, lines[i].poLine.value).value.unitCost,
                    AcceptedFor(grs, lines[i].poLine.value));
    }
    var expected := ExpectedTotal(lines);
    if expected != 0 { DefaultsMean(expected as real, total as real); }
  }

  lemma LineAgreesIff(line: SiLine, price: int, accepted: real)
    ensures (WithinPctDecimal(accepted, line.quantity, DEFAULTS.quantity)
             && WithinPct(price, line.unitCost, DEFAULTS.price)) <==> LineAgrees(line, price, accepted)
  {
    hide Abs;
    if price != 0 { DefaultsMean(price as real, line.unitCost as real); }
    if accepted != 0.0 { DefaultsMean(accepted, line.quantity); }
  }

  // Wider: the same tolerance or a percentage of larger magnitude. Undefined is the narrowest.
  predicate Wider(a: Tolerance, b: Tolerance) {
    a.None? || (b.Some? && Abs(a.value) <= Abs(b.value))
  }

  lemma WithinWider(expected: real, actual: real, a: Tolerance, b: Tolerance, slack: real)
    requires Wider(a, b) && Within(expected, actual, a, slack)
    ensures Within(expected, actual, b, slack)
  {
    if expected != 0.0 {
      var p, q := a.value / 100.0, b.value / 100.0;
      MarginGrows(expected, p, q);
      var m, n := Abs(expected * p), Abs(expected * q);
      assert Abs(actual - expected) <= m + slack <= n + slack;
    }
  }

  lemma MarginGrows(x: real, p: real, q: real)
    requires Abs(p) <= Abs(q)
    ensures Abs(x * p) <= Abs(x * q)
  {
    hide Abs;
    AbsProduct(x, p, Abs(x), Abs(p), x * p);
    AbsProduct(x, q, Abs(x), Abs(q), x * q);
    Monotone(Abs(x), Abs(p), Abs(q), Abs(x * p), Abs(x * q));
  }

  lemma AbsProduct(x: real, y: real, a: real, b: real, product: real)
    requires a == Abs(x) && b == Abs(y) && product == x * y
    ensures Abs(product) == a * b && a >= 0.0
  {
    if x < 0.0 && y < 0.0 {
      assert product == a * b >= 0.0;
    } else if x < 0.0 {
      assert product == -(a * b) <= 0.0;
    } else if y < 0.0 {
      assert product == -(a * b) <= 0.0;
    } else {
      assert product == a * b >= 0.0;
    }
  }

  lemma Monotone(x: real, y: real, z: real, xy: real, xz: real)
    requires 0.0 <= x && y <= z && xy == x * y && xz == x * z
    ensures xy <= xz
  {
    assert xz - xy == x * (z - y) >= 0.0;
  }

  // One list is the other with some elements left out.
  predicate Subsequence(a: seq<Discrepancy>, b: seq<Discrepancy>)
    decreases |b|
  {
    || a == []
    || (b != [] && Subsequence(a, b[..|b| - 1]))
    || (a != [] && b != [] && a[|a| - 1] == b[|b| - 1] && Subsequence(a[..|a| - 1], b[..|b| - 1]))
  }

  lemma {:induction false} SubsequenceConcat(a: seq<Discrepancy>, b: seq<Discrepancy>, c: seq<Discrepancy>,
                                             d: seq<Discrepancy>)
    requires Subsequence(a, b) && Subsequence(c, d)
    ensures Subsequence(a + c, b + d)
    decreases |d|
  {
    if d == [] {
      assert a + c == a && b + d == b;
    } else {
      var n := |d| - 1;
      assert (b + d)[..|b + d| - 1] == b + d[..n];
      if c == [] || Subsequence(c, d[..n]) {
        SubsequenceConcat(a, b, c, d[..n]);
      } else {
        SubsequenceConcat(a, b, c[..|c| - 1], d[..n]);
        assert (a + c)[..|a + c| - 1] == a + c[..|c| - 1];
      }
    }
  }

  lemma OneOrNone(d: Discrepancy)
    ensures Subsequence([], [d]) && Subsequence([d], [d])
  {
    assert [d][..0] == [];
  }

  lemma LineIssuesShrink(line: SiLine, pos: seq<PoLine>, grs: seq<GrLine>, s: Tolerances, t: Tolerances)
    requires Wider(s.quantity, t.quantity) && Wider(s.price, t.price)
    ensures Subsequence(LineIssues(line, pos, grs, t), LineIssues(line, pos, grs, s))
  {
    OneOrNone(Discrepancy(UnmatchedLine, Some(line.id)));
    OneOrNone(Discrepancy(MissingPo, Some(line.id)));
    if line.poLine.Some? && line.poLine.value != "" && FindPo(pos, line.poLine.value).Some? {
      var po, quantity, price := FindPo(pos, line.poLine.value).value, Discrepancy(Quantity, Some(line.id)),
                                 Discrepancy(Price, Some(line.id));
      if QuantityOk(line, grs, s) {
        WithinWider(AcceptedFor(grs, line.poLine.value), line.quantity, s.quantity, t.quantity, 0.0001);
      }
      if WithinPct(po.unitCost, line.unitCost, s.price) {
        WithinWider(po.unitCost as real, line.unitCost as real, s.price, t.price, 0.5);
      }
      OneOrNone(quantity);
      OneOrNone(price);
      SubsequenceConcat(if QuantityOk(line, grs, t) then [] else [quantity],
                        if QuantityOk(line, grs, s) then [] else [quantity],
                        if WithinPct(po.unitCost, line.unitCost, t.price) then [] else [price],
                        if WithinPct(po.unitCost, line.unitCost, s.price) then [] else [price]);
    }
  }

  lemma {:induction false} AllIssuesShrink(lines: seq<SiLine>, pos: seq<PoLine>, grs: seq<GrLine>, s: Tolerances,
                                           t: Tolerances)
    requires Wider(s.quantity, t.quantity) && Wider(s.price, t.price)
    ensures Subsequence(AllIssues(lines, pos, grs, t), AllIssues(lines, pos, grs, s))
  {
    if lines != [] {
      var n := |lines| - 1;
      AllIssuesShrink(lines[..n], pos, grs, s, t);
      LineIssuesShrink(lines[n], pos, grs, s, t);
      SubsequenceConcat(AllIssues(lines[..n], pos, grs, t), AllIssues(lines[..n], pos, grs, s),
                        LineIssues(lines[n], pos, grs, t), LineIssues(lines[n], pos, grs, s));
    }
  }

  // Raising tolerances only removes discrepancies from the list.
  lemma WiderTolerancesRemoveIssues(pos: seq<PoLine>, grs: seq<GrLine>, lines: seq<SiLine>, total: int, s: Tolerances,
                                    t: Tolerances)
    requires Wider(s.quantity, t.quantity) && Wider(s.price, t.price) && Wider(s.total, t.total)
    ensures Subsequence(Issues(pos, grs, lines, total, t), Issues(pos, grs, lines, total, s))
  {
    AllIssuesShrink(lines, pos, grs, s, t);
    OneOrNone(Discrepancy(InvoiceTotal, None));
    if WithinPct(ExpectedTotal(lines), total, s.total) {
      WithinWider(ExpectedTotal(lines) as real, total as real, s.total, t.total, 0.5);
    }
    SubsequenceConcat(AllIssues(lines, pos, grs, t), AllIssues(lines, pos, grs, s),
                      if WithinPct(ExpectedTotal(lines), total, t.total) then [] else [Discrepancy(InvoiceTotal, None)],
                      if WithinPct(ExpectedTotal(lines), total, s.total) then []
                      else [Discrepancy(InvoiceTotal, None)]);
  }

  // The invoice agrees to the cent with its order lines, its receipts and its own total.
  predicate ExactlyAgrees(pos: seq<PoLine>, grs: seq<GrLine>, lines: seq<SiLine>, total: int) {
    && total == ExpectedTotal(lines)
    && forall line | line in lines ::
         && line.poLine.Some? && line.poLine.value != "" && FindPo(pos, line.poLine.value).Some?
         && line.quantity == AcceptedFor(grs, line.poLine.value)
         && line.unitCost == FindPo(pos, line.poLine.value).value.unitCost
  }

  lemma ExactLineMatchesIff(pos: seq<PoLine>, grs: seq<GrLine>, lines: seq<SiLine>, total: int, t: Tolerances,
                            line: SiLine)
    requires ExactlyAgrees(pos, grs, lines, total) && line in lines
    ensures LineMatches(line, pos, grs, t) <==>
            (t.quantity.Some? || line.quantity == 0.0) && (t.price.Some? || line.unitCost == 0)
  {
    hide AcceptedFor, FindPo;
    UndefinedToleranceRejects(line.quantity, line.quantity, t.quantity, 0.0001);
    UndefinedToleranceRejects(line.unitCost as real, line.unitCost as real, t.price, 0.5);
  }

  // When an invoice in exact agreement matches: each tolerance is either given or has only zeros to judge. With all
  // three given it always does.
  lemma ExactInvoiceMatchesIff(pos: seq<PoLine>, grs: seq<GrLine>, lines: seq<SiLine>, total: int, t: Tolerances)
    requires ExactlyAgrees(pos, grs, lines, total)
    ensures Matches(pos, grs, lines, total, t) <==>
            && (t.quantity.Some? || forall line | line in lines :: line.quantity == 0.0)
            && (t.price.Some? || forall line | line in lines :: line.unitCost == 0)
            && (t.total.Some? || total == 0)
  {
    hide AcceptedFor, FindPo, ExpectedTotal, LineMatches;
    forall line | line in lines
      ensures LineMatches(line, pos, grs, t) <==>
              (t.quantity.Some? || line.quantity == 0.0) && (t.price.Some? || line.unitCost == 0)
    {
      ExactLineMatchesIff(pos, grs, lines, total, t, line);
    }
    UndefinedToleranceRejects(total as real, total as real, t.total, 0.5);
  }

  // The same invoice over one piece at one euro, received and billed: matched under the defaults, disputed when the
  // service passes on three undefined tolerances.
  lemma UndefinedTolerancesDispute()
    ensures var pos, grs := [PoLine("po", 100)], [GrLine("po", 1.0)];
            var lines := [SiLine("si", Some("po"), 1.0, 100, 0.0, 100)];
            && ExactlyAgrees(pos, grs, lines, 100)
            && Matches(pos, grs, lines, 100, DEFAULTS)
            && !Matches(pos, grs, lines, 100, Tolerances(None, None, None))
  {
    var pos, grs := [PoLine("po", 100)], [GrLine("po", 1.0)];
    var line := SiLine("si", Some("po"), 1.0, 100, 0.0, 100);
    assert grs[..0] == [] && AcceptedFor(grs, "po") == 1.0;
    assert [line][..0] == [] && LineTax(line) == 0 && ExpectedTotal([line]) == 100;
    assert ExactlyAgrees(pos, grs, [line], 100);
    ExactInvoiceMatchesIff(pos, grs, [line], 100, DEFAULTS);
    ExactInvoiceMatchesIff(pos, grs, [line], 100, Tolerances(None, None, None));
  }

  // An undefined tolerance does not fall back to its default: even equal figures only match where both are zero.
  lemma UndefinedToleranceRejects(expected: real, actual: real, pct: Tolerance, slack: real)
    requires slack >= 0.0 && expected == actual
    ensures Within(expected, actual, pct, slack) <==> pct.Some? || expected == 0.0
  {
  }

  function UnroundedTotal(lines: seq<SiLine>): real {
    if lines == [] then 0.0
    else
      var last := lines[|lines| - 1];
      UnroundedTotal(lines[..|lines| - 1]) + last.total as real + last.total as real * last.taxRate / 100.0
  }

  // Rounding the tax line by line moves the expected total by at most half a cent for each line.
  lemma {:induction false} ExpectedTotalRounding(lines: seq<SiLine>)
    ensures Abs(ExpectedTotal(lines) as real - UnroundedTotal(lines)) <= 0.5 * |lines| as real
  {
    if lines != [] {
      var n := |lines| - 1;
      ExpectedTotalRounding(lines[..n]);
      RoundError(lines[n].total as real * lines[n].taxRate / 100.0);
      assert ExpectedTotal(lines) as real ==
             ExpectedTotal(lines[..n]) as real + lines[n].total as real + LineTax(lines[n]) as real;
    }
  }

  lemma RoundError(x: real)
    ensures Abs(Round(x) as real - x) <= 0.5
  {
  }
}
