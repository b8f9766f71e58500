// The periodic VAT liquidation over accepted invoices, against the tax of the invoices and across periods.
module VatLiquidation {
  import opened Option
  import opened Accounting

  // A range of calendar months, both ends included.
  datatype Period = Period(first: int, last: int)

  function MonthOf(year: int, month: int): Period {
    Period(12 * year + month - 1, 12 * year + month - 1)
  }

  function QuarterOf(year: int, quarter: int): Period {
    Period(12 * year + 3 * (quarter - 1), 12 * year + 3 * (quarter - 1) + 2)
  }

  predicate Selected(invoice: Invoice, p: Period) {
    invoice.status.Accepted? && p.first <= invoice.month <= p.last
  }

  datatype RateSum = RateSum(taxable: int, vat: real)

  function Add(a: RateSum, b: RateSum): RateSum {
    RateSum(a.taxable + b.taxable, a.vat + b.vat)
  }

  // The lines that bear VAT.
  function Taxed(lines: seq<Line>): seq<Line> {
    if lines == [] then []
    else Taxed(lines[..|lines| - 1]) + if lines[|lines| - 1].exempt then [] else [lines[|lines| - 1]]
  }

  function PeriodLines(invoices: seq<Invoice>, p: Period): seq<Line> {
    if invoices == [] then []
    else
      var last := invoices[|invoices| - 1];
      PeriodLines(invoices[..|invoices| - 1], p) + if Selected(last, p) then Taxed(last.lines) else []
  }

  // Taxable cents and unrounded VAT of the lines with a rate, or of all lines.
  function Sum(lines: seq<Line>, rate: Option<real>): RateSum {
    if lines == [] then RateSum(0, 0.0)
    else
      var rest, last := Sum(lines[..|lines| - 1], rate), lines[|lines| - 1];
      if rate == None || rate == Some(last.rate) then RateSum(rest.taxable + last.total, rest.vat + LineVat(last))
        else rest
  }

  function Rates(lines: seq<Line>): set<real> {
    set line | line in lines :: line.rate
  }

  function ByRate(lines: seq<Line>): map<real, RateSum> {
    map rate | rate in Rates(lines) :: Sum(lines, Some(rate))
  }

  lemma SumAppend(lines: seq<Line>, line: Line, rate: Option<real>)
    ensures var rest := Sum(lines, rate);
            Sum(lines + [line], rate) ==
            if rate == None || rate == Some(line.rate) then RateSum(rest.taxable + line.total, rest.vat + LineVat(line))
            else rest
  {
    assert (lines + [line])[..|lines|] == lines;
  }

  lemma {:induction false} SumOfAbsentRate(lines: seq<Line>, rate: real)
    requires rate !in Rates(lines)
    ensures Sum(lines, Some(rate)) == RateSum(0, 0.0)
  {
    if lines != [] {
      assert lines[|lines| - 1] in lines && forall line | line in lines[..|lines| - 1] :: line in lines;
      SumOfAbsentRate(lines[..|lines| - 1], rate);
    }
  }

  lemma RatesAppend(lines: seq<Line>, line: Line)
    ensures Rates(lines + [line]) == Rates(lines) + {line.rate}
  {
    assert line in lines + [line];
    forall l | l in lines ensures l in lines + [line] {
    }
  }

  lemma ByRateAppend(lines: seq<Line>, line: Line)
    ensures var m := ByRate(lines);
            var old' := if line.rate in m then m[line.rate] else RateSum(0, 0.0);
            ByRate(lines + [line]) == m[line.rate := RateSum(old'.taxable + line.total, old'.vat + LineVat(line))]
  {
    RatesAppend(lines, line);
    if line.rate !in Rates(lines) { SumOfAbsentRate(lines, line.rate); }
    forall rate | rate in Rates(lines + [line])
      ensures Sum(lines + [line], Some(rate)) ==
              if rate == line.rate
              then RateSum(Sum(lines, Some(rate)).taxable + line.total, Sum(lines, Some(rate)).vat + LineVat(line))
              else Sum(lines, Some(rate))
    {
      SumAppend(lines, line, Some(rate));
    }
  }

  // The running totals: taxable cents, unrounded VAT, and both rate by rate.
  datatype Totals = Totals(taxable: int, vat: real, byRate: map<real, RateSum>)

  function TotalsOf(lines: seq<Line>): Totals {
    Totals(Sum(lines, None).taxable, Sum(lines, None).vat, ByRate(lines))
  }

  function AddLine(t: Totals, line: Line): Totals {
    var entry := if line.rate in t.byRate then t.byRate[line.rate] else RateSum(0, 0.0);
    Totals(t.taxable + line.total, t.vat + LineVat(line),
           t.byRate[line.rate := RateSum(entry.taxable + line.total, entry.vat + LineVat(line))])
  }

  lemma AddLineTotals(lines: seq<Line>, line: Line)
    ensures TotalsOf(lines + [line]) == AddLine(TotalsOf(lines), line)
  {
    SumAppend(lines, line, None);
    ByRateAppend(lines, line);
  }

  // One invoice's lines, added to the totals of the lines seen so far.
  method AddInvoice(lines: seq<Line>, start: Totals, ghost seen: seq<Line>) returns (totals: Totals)
    requires start == TotalsOf(seen)
    ensures totals == TotalsOf(seen + Taxed(lines))
  {
    totals := start;
    assert seen + Taxed(lines[..0]) == seen;
    for j := 0 to |lines|
      invariant totals == TotalsOf(seen + Taxed(lines[..j]))
    {
      assert lines[..j + 1][..j] == lines[..j];
      if !lines[j].exempt {
        AddLineTotals(seen + Taxed(lines[..j]), lines[j]);
        assert seen + Taxed(lines[..j + 1]) == seen + Taxed(lines[..j]) + [lines[j]];
        totals := AddLine(totals, lines[j]);
      } else {
        assert Taxed(lines[..j + 1]) == Taxed(lines[..j]);
      }
    }
    assert lines[..|lines|] == lines;
  }

  method IvaLiquidation(invoices: seq<Invoice>, p: Period)
    returns (totalTaxable: int, totalIva: int, byRate: map<real, RateSum>)
    ensures var lines := PeriodLines(invoices, p);
            && totalTaxable == Sum(lines, None).taxable
            && totalIva == ToCents(Sum(lines, None).vat)
            && byRate == ByRate(lines)
  {
    assert Rates([]) == {};
    var totals := Totals(0, 0.0, map[]);
    for i := 0 to |invoices|
      invariant totals == TotalsOf(PeriodLines(invoices[..i], p))
    {
      assert invoices[..i + 1][..i] == invoices[..i];
      if Selected(invoices[i], p) {
        totals := AddInvoice(invoices[i].lines, totals, PeriodLines(invoices[..i], p));
      } else {
        assert PeriodLines(invoices[..i + 1], p) == PeriodLines(invoices[..i], p);
      }
    }
    assert invoices[..|invoices|] == invoices;
    totalTaxable, totalIva, byRate := totals.taxable, ToCents(totals.vat), totals.byRate;
  }

  // ----- Against the tax on the invoices ---------------------------------------------------------

  function InvoicedTax(invoices: seq<Invoice>, p: Period): int {
    if invoices == [] then 0
    else
      var last := invoices[|invoices| - 1];
      InvoicedTax(invoices[..|invoices| - 1], p) + if Selected(last, p) then last.tax else 0
  }

  lemma {:induction false} SumConcat(a: seq<Line>, b: seq<Line>, rate: Option<real>)
    ensures Sum(a + b, rate) == Add(Sum(a, rate), Sum(b, rate))
  {
    if b == [] {
      assert a + b == a;
    } else {
      var front, last := b[..|b| - 1], b[|b| - 1];
      SumConcat(a, front, rate);
      assert a + b == (a + front) + [last] && b == front + [last];
      SumAppend(a + front, last, rate);
      SumAppend(front, last, rate);
    }
  }

  // On one invoice, rounding line by line moves the tax by at most half a cent for each taxed line.
  lemma {:induction false} LineRounding(lines: seq<Line>)
    ensures Abs(Sum(Taxed(lines), None).vat - Euros(RoundedTax(lines))) <= 0.005 * |Taxed(lines)| as real
  {
    if lines != [] {
      var front, last := lines[..|lines| - 1], lines[|lines| - 1];
      LineRounding(front);
      RoundingError(LineVat(last));
      assert Euros(RoundedTax(lines)) == Euros(RoundedTax(front)) + Euros(ToCents(LineVat(last)));
      if last.exempt {
        CentsAreExact(0);
        assert Taxed(lines) == Taxed(front);
      } else {
        SumAppend(Taxed(front), last, None);
      }
    }
  }

  lemma ErrorsAdd(x: real, a: int, n: nat, y: real, b: int, k: nat)
    requires Abs(x - Euros(a)) <= 0.005 * n as real && Abs(y - Euros(b)) <= 0.005 * k as real
    ensures Abs(x + y - Euros(a + b)) <= 0.005 * (n + k) as real
  {
    assert Euros(a + b) == Euros(a) + Euros(b);
  }

  lemma {:induction false} PeriodRounding(invoices: seq<Invoice>, p: Period)
    requires forall i | 0 <= i < |invoices| :: invoices[i].tax == RoundedTax(invoices[i].lines)
    ensures Abs(Sum(PeriodLines(invoices, p), None).vat - Euros(InvoicedTax(invoices, p)))
            <= 0.005 * |PeriodLines(invoices, p)| as real
  {
    if invoices != [] {
      var front, last := invoices[..|invoices| - 1], invoices[|invoices| - 1];
      PeriodRounding(front, p);
      if Selected(last, p) {
        LineRounding(last.lines);
        assert PeriodLines(invoices, p) == PeriodLines(front, p) + Taxed(last.lines);
        SumConcat(PeriodLines(front, p), Taxed(last.lines), None);
        ErrorsAdd(Sum(PeriodLines(front, p), None).vat, InvoicedTax(front, p), |PeriodLines(front, p)|,
                  Sum(Taxed(last.lines), None).vat, last.tax, |Taxed(last.lines)|);
      } else {
        assert PeriodLines(invoices, p) == PeriodLines(front, p);
      }
    }
  }

  // The liquidated VAT differs from the tax on the invoices by at most half a cent for each taxed line, plus one.
  lemma LiquidationAgainstInvoices(invoices: seq<Invoice>, p: Period)
    requires forall i | 0 <= i < |invoices| :: invoices[i].tax == RoundedTax(invoices[i].lines)
    ensures var lines := PeriodLines(invoices, p);
            Abs(Euros(ToCents(Sum(lines, None).vat)) - Euros(InvoicedTax(invoices, p))) <= 0.005 * (|lines| + 1) as real
  {
    PeriodRounding(invoices, p);
    RoundingError(Sum(PeriodLines(invoices, p), None).vat);
  }

  // ----- Against the subtotals of the invoices ---------------------------------------------------

  // The totals of the exempt lines of the selected invoices.
  function ExemptTotal(lines: seq<Line>): int {
    if lines == [] then 0
    else ExemptTotal(lines[..|lines| - 1]) + if lines[|lines| - 1].exempt then lines[|lines| - 1].total else 0
  }

  function ExemptTotals(invoices: seq<Invoice>, p: Period): int {
    if invoices == [] then 0
    else
      var last := invoices[|invoices| - 1];
      ExemptTotals(invoices[..|invoices| - 1], p) + if Selected(last, p) then ExemptTotal(last.lines) else 0
  }

  function Subtotals(invoices: seq<Invoice>, p: Period): int {
    if invoices == [] then 0
    else
      var last := invoices[|invoices| - 1];
      Subtotals(invoices[..|invoices| - 1], p) + if Selected(last, p) then last.subtotal else 0
  }

  lemma {:induction false} TaxedAndExempt(lines: seq<Line>)
    ensures Sum(Taxed(lines), None).taxable + ExemptTotal(lines) == Subtotal(lines)
  {
    if lines != [] {
      var front, last := lines[..|lines| - 1], lines[|lines| - 1];
      TaxedAndExempt(front);
      if last.exempt {
        assert Taxed(lines) == Taxed(front);
      } else {
        SumAppend(Taxed(front), last, None);
      }
    }
  }

  // The liquidated taxable amount is what the invoices of the period come to, without their exempt lines.
  lemma {:induction false} TaxableAgainstInvoices(invoices: seq<Invoice>, p: Period)
    requires forall i | 0 <= i < |invoices| :: invoices[i].subtotal == Subtotal(invoices[i].lines)
    ensures Sum(PeriodLines(invoices, p), None).taxable + ExemptTotals(invoices, p) == Subtotals(invoices, p)
  {
    if invoices != [] {
      var front, last := invoices[..|invoices| - 1], invoices[|invoices| - 1];
      TaxableAgainstInvoices(front, p);
      if Selected(last, p) {
        TaxedAndExempt(last.lines);
        SumConcat(PeriodLines(front, p), Taxed(last.lines), None);
      } else {
        assert PeriodLines(invoices, p) == PeriodLines(front, p);
      }
    }
  }

  // An invoice dated in a month counts in that month and in the quarter it belongs to, and in no other of the year,
  // once it is accepted.
  lemma CountsInItsPeriods(invoice: Invoice, year: int, month: int, m: int, quarter: int)
    requires 1 <= month <= 12 && 1 <= m <= 12 && 1 <= quarter <= 4 && invoice.month == 12 * year + month - 1
    ensures Selected(invoice, MonthOf(year, m)) <==> invoice.status.Accepted? && m == month
    ensures Selected(invoice, QuarterOf(year, quarter)) <==>
            invoice.status.Accepted? && 3 * quarter - 2 <= month <= 3 * quarter
  {
  }

  lemma {:induction false} PeriodLinesTaxed(invoices: seq<Invoice>, p: Period)
    ensures forall line | line in PeriodLines(invoices, p) :: !line.exempt
  {
    if invoices != [] {
      PeriodLinesTaxed(invoices[..|invoices| - 1], p);
      TaxedLines(invoices[|invoices| - 1].lines);
    }
  }

  lemma {:induction false} TaxedLines(lines: seq<Line>)
    ensures forall line | line in Taxed(lines) :: !line.exempt
  {
    if lines != [] { TaxedLines(lines[..|lines| - 1]); }
  }

  lemma RateStep(taxable: int, total: int, rate: real)
    ensures Euros(taxable) * rate / 100.0 + Euros(total) * rate / 100.0 == Euros(taxable + total) * rate / 100.0
  {
    assert Euros(taxable + total) == Euros(taxable) + Euros(total);
  }

  // The VAT reported for a rate is that percentage of the taxable amount reported for it.
  lemma {:induction false} VatIsItsRate(lines: seq<Line>, rate: real)
    requires forall line | line in lines :: !line.exempt
    ensures Sum(lines, Some(rate)).vat == Euros(Sum(lines, Some(rate)).taxable) * rate / 100.0
  {
    if lines != [] {
      var front, last := lines[..|lines| - 1], lines[|lines| - 1];
      assert last in lines && forall line | line in front :: line in lines;
      VatIsItsRate(front, rate);
      RateStep(Sum(front, Some(rate)).taxable, last.total, rate);
    }
  }

  // Over distinct rates.
  function SumOver(lines: seq<Line>, rates: seq<real>): RateSum {
    if rates == [] then RateSum(0, 0.0)
    else Add(SumOver(lines, rates[..|rates| - 1]), Reported(lines, rates[|rates| - 1]))
  }

  predicate Distinct(rates: seq<real>) {
    forall i, j | 0 <= i < j < |rates| :: rates[i] != rates[j]
  }

  lemma {:induction false} SumOverAppend(lines: seq<Line>, line: Line, rates: seq<real>)
    requires Distinct(rates)
    ensures SumOver(lines + [line], rates) ==
            if line.rate in rates then Add(SumOver(lines, rates), RateSum(line.total, LineVat(line)))
            else SumOver(lines, rates)
  {
    hide LineVat, Reported, Sum;
    if rates != [] {
      var front, last := rates[..|rates| - 1], rates[|rates| - 1];
      assert last !in front && rates == front + [last];
      SumOverAppend(lines, line, front);
      ReportedIsSum(lines + [line], last);
      ReportedIsSum(lines, last);
      SumAppend(lines, line, Some(last));
    }
  }

  lemma {:induction false} NothingOver(rates: seq<real>)
    ensures SumOver([], rates) == RateSum(0, 0.0)
  {
    if rates != [] {
      NothingOver(rates[..|rates| - 1]);
      ReportedIsSum([], rates[|rates| - 1]);
    }
  }

  // The entries of all rates add up to the totals.
  lemma {:induction false} RatesAddUp(lines: seq<Line>, rates: seq<real>)
    requires Distinct(rates) && forall line | line in lines :: line.rate in rates
    ensures SumOver(lines, rates) == Sum(lines, None)
  {
    hide LineVat, Reported, SumOver;
    if lines == [] {
      NothingOver(rates);
    } else {
      var front, last := lines[..|lines| - 1], lines[|lines| - 1];
      assert last in lines && forall line | line in front :: line in lines;
      RatesAddUp(front, rates);
      assert lines == front + [last];
      SumOverAppend(front, last, rates);
      SumAppend(front, last, None);
    }
  }

  // ----- Against the books -----------------------------------------------------------------------

  // Tax of the selected invoices of split-payment customers, which is never posted.
  function SplitTax(invoices: seq<Invoice>, splits: seq<bool>, p: Period): int
    requires |invoices| == |splits|
  {
    if invoices == [] then 0
    else
      var n := |invoices| - 1;
      SplitTax(invoices[..n], splits[..n], p) + if Selected(invoices[n], p) && splits[n] then invoices[n].tax else 0
  }

  // VAT credited in the journal for those of the first k invoices that are selected.
  function PostedVat(b: Books, p: Period, k: nat): real
    requires k <= |b.invoices|
  {
    if k == 0 then 0.0
    else
      PostedVat(b, p, k - 1)
      - if Selected(b.invoices[k - 1], p) then PostedFor(b.journal, k - 1, VatPayable) else 0.0
  }

  lemma {:induction false} TaxAgainstPostings(b: Books, splits: seq<bool>, p: Period, k: nat)
    requires |splits| == |b.invoices| && PostingsAgree(b, splits) && k <= |splits|
    ensures Euros(InvoicedTax(b.invoices[..k], p)) ==
            PostedVat(b, p, k) + Euros(SplitTax(b.invoices[..k], splits[..k], p))
  {
    if k > 0 {
      TaxAgainstPostings(b, splits, p, k - 1);
      assert b.invoices[..k][..k - 1] == b.invoices[..k - 1] && splits[..k][..k - 1] == splits[..k - 1];
      hide PostedFor;
    }
  }

  // In every period the tax on the selected invoices is what the journal credits to VAT for them, plus the tax of the
  // split-payment ones among them.
  lemma LiquidationAgainstBooks(b: Books, splits: seq<bool>, p: Period)
    requires |splits| == |b.invoices| && PostingsAgree(b, splits)
    ensures Euros(InvoicedTax(b.invoices, p)) == PostedVat(b, p, |splits|) + Euros(SplitTax(b.invoices, splits, p))
  {
    TaxAgainstPostings(b, splits, p, |splits|);
    assert b.invoices[..|splits|] == b.invoices && splits[..|splits|] == splits;
  }

  // A period that covers every accepted invoice: the posted VAT is the balance of the VAT account.
  lemma {:induction false} WholeLiquidation(invoices: seq<Invoice>, splits: seq<bool>, p: Period)
    requires |invoices| == |splits|
    requires forall i | 0 <= i < |invoices| :: invoices[i].status.Accepted? ==> Selected(invoices[i], p)
    ensures InvoicedTax(invoices, p) == AcceptedSums(invoices, splits).vat + SplitTax(invoices, splits, p)
  {
    if invoices != [] {
      WholeLiquidation(invoices[..|invoices| - 1], splits[..|invoices| - 1], p);
    }
  }

  // For every run from empty books and every period: the liquidated VAT is within half a cent for each taxed line, plus
  // one, of the VAT the journal credits for the invoices of the period plus the tax of the split-payment ones.
  lemma LiquidationOverRuns(es: seq<Event>, p: Period)
    ensures var b, splits := Run(NEW_BOOKS, es), RunSplits(NEW_BOOKS, [], es);
            var lines, posted := PeriodLines(b.invoices, p), PostedVat(b, p, |splits|);
            Abs(Euros(ToCents(Sum(lines, None).vat)) - (posted + Euros(SplitTax(b.invoices, splits, p))))
            <= 0.005 * (|lines| + 1) as real
    ensures var b := Run(NEW_BOOKS, es);
            Sum(PeriodLines(b.invoices, p), None).taxable + ExemptTotals(b.invoices, p) == Subtotals(b.invoices, p)
  {
    hide Run, RunSplits, PeriodLines, Sum, InvoicedTax, PostedVat, SplitTax, BooksAgree, PostingsAgree, RoundedTax,
      ToCents;
    RunsFromNewBooks(es);
    var b, splits := Run(NEW_BOOKS, es), RunSplits(NEW_BOOKS, [], es);
    LiquidationAgainstBooks(b, splits, p);
    LiquidationAgainstInvoices(b.invoices, p);
    hide Subtotal, Subtotals, ExemptTotals, SplitTax;
    TaxableAgainstInvoices(b.invoices, p);
  }

  // ----- A quarter and its months ----------------------------------------------------------------

  // What the selected invoices add up to, whatever each of them is worth.
  function Over(invoices: seq<Invoice>, p: Period, worth: Invoice -> RateSum): RateSum {
    if invoices == [] then RateSum(0, 0.0)
    else
      var rest, last := Over(invoices[..|invoices| - 1], p, worth), invoices[|invoices| - 1];
      if Selected(last, p) then Add(rest, worth(last)) else rest
  }

  function InvoiceSum(rate: Option<real>): Invoice -> RateSum {
    (invoice: Invoice) => Sum(Taxed(invoice.lines), rate)
  }

  lemma {:induction false} PeriodLinesSum(invoices: seq<Invoice>, p: Period, rate: Option<real>)
    ensures Sum(PeriodLines(invoices, p), rate) == Over(invoices, p, InvoiceSum(rate))
  {
    if invoices != [] {
      var front, last := invoices[..|invoices| - 1], invoices[|invoices| - 1];
      PeriodLinesSum(front, p, rate);
      if Selected(last, p) {
        SumConcat(PeriodLines(front, p), Taxed(last.lines), rate);
      } else {
        assert PeriodLines(invoices, p) == PeriodLines(front, p);
      }
    }
  }

  lemma OverUnfold(invoices: seq<Invoice>, p: Period, worth: Invoice -> RateSum)
    requires invoices != []
    ensures var rest, last := Over(invoices[..|invoices| - 1], p, worth), invoices[|invoices| - 1];
            Over(invoices, p, worth) == if Selected(last, p) then Add(rest, worth(last)) else rest
  {
  }

  // Three consecutive months, one invoice at a time.
  lemma {:induction false} ThreeMonths(invoices: seq<Invoice>, f: int, g: int, h: int, worth: Invoice -> RateSum)
    requires g == f + 1 && h == f + 2
    ensures Over(invoices, Period(f, h), worth) ==
            Add(Add(Over(invoices, Period(f, f), worth), Over(invoices, Period(g, g), worth)),
                Over(invoices, Period(h, h), worth))
  {
    if invoices != [] {
      var front, last := invoices[..|invoices| - 1], invoices[|invoices| - 1];
      ThreeMonths(front, f, g, h, worth);
      OverUnfold(invoices, Period(f, h), worth);
      OverUnfold(invoices, Period(f, f), worth);
      OverUnfold(invoices, Period(g, g), worth);
      OverUnfold(invoices, Period(h, h), worth);
      hide Over;
      AddMoves(Over(front, Period(f, f), worth), Over(front, Period(g, g), worth), Over(front, Period(h, h), worth),
               worth(last));
    }
  }

  lemma AddMoves(a: RateSum, b: RateSum, c: RateSum, x: RateSum)
    ensures Add(Add(Add(a, b), c), x) == Add(Add(Add(a, x), b), c)
    ensures Add(Add(Add(a, b), c), x) == Add(Add(a, Add(b, x)), c)
    ensures Add(Add(Add(a, b), c), x) == Add(Add(a, b), Add(c, x))
  {
  }

  // What a liquidation reports for a rate; a missing rate counts as nothing.
  function Reported(lines: seq<Line>, rate: real): RateSum {
    if rate in ByRate(lines) then ByRate(lines)[rate] else RateSum(0, 0.0)
  }

  lemma ReportedIsSum(lines: seq<Line>, rate: real)
    ensures Reported(lines, rate) == Sum(lines, Some(rate))
  {
    if rate !in Rates(lines) { SumOfAbsentRate(lines, rate); }
  }

  lemma FourRoundings(x: real, a: real, b: real, c: real)
    requires x == a + b + c
    ensures Abs(Euros(ToCents(x)) - Euros(ToCents(a)) - Euros(ToCents(b)) - Euros(ToCents(c))) <= 0.02
  {
    RoundingError(x);
    RoundingError(a);
    RoundingError(b);
    RoundingError(c);
  }

  // Exact in the taxable total and in what is reported for a rate, within two cents in the rounded VAT.
  predicate QuarterAgrees(q: seq<Line>, a: seq<Line>, b: seq<Line>, c: seq<Line>, rate: real) {
    && Reported(q, rate) == Add(Add(Reported(a, rate), Reported(b, rate)), Reported(c, rate))
    && Sum(q, None).taxable == Sum(a, None).taxable + Sum(b, None).taxable + Sum(c, None).taxable
    && Abs(Euros(ToCents(Sum(q, None).vat)) - Euros(ToCents(Sum(a, None).vat)) - Euros(ToCents(Sum(b, None).vat))
           - Euros(ToCents(Sum(c, None).vat))) <= 0.02
  }

  lemma SumsAgree(q: seq<Line>, a: seq<Line>, b: seq<Line>, c: seq<Line>, rate: real)
    requires Sum(q, None) == Add(Add(Sum(a, None), Sum(b, None)), Sum(c, None))
    requires Sum(q, Some(rate)) == Add(Add(Sum(a, Some(rate)), Sum(b, Some(rate))), Sum(c, Some(rate)))
    ensures QuarterAgrees(q, a, b, c, rate)
  {
    assert Reported(q, rate) == Add(Add(Reported(a, rate), Reported(b, rate)), Reported(c, rate)) by {
      ReportedIsSum(q, rate);
      ReportedIsSum(a, rate);
      ReportedIsSum(b, rate);
      ReportedIsSum(c, rate);
    }
    FourRoundings(Sum(q, None).vat, Sum(a, None).vat, Sum(b, None).vat, Sum(c, None).vat);
  }

  // A quarter is its three months: the same sums rate by rate and in total, up to the rounding of the totals.
  lemma QuarterIsItsMonths(invoices: seq<Invoice>, year: int, quarter: int, rate: real)
    ensures var m := 3 * (quarter - 1) + 1;
            QuarterAgrees(PeriodLines(invoices, QuarterOf(year, quarter)), PeriodLines(invoices, MonthOf(year, m)),
                          PeriodLines(invoices, MonthOf(year, m + 1)), PeriodLines(invoices, MonthOf(year, m + 2)),
                          rate)
  {
    hide PeriodLines, QuarterAgrees;
    var f, m := 12 * year + 3 * (quarter - 1), 3 * (quarter - 1) + 1;
    assert QuarterOf(year, quarter) == Period(f, f + 2) && MonthOf(year, m) == Period(f, f);
    assert MonthOf(year, m + 1) == Period(f + 1, f + 1) && MonthOf(year, m + 2) == Period(f + 2, f + 2);
    MonthsMakeQuarter(invoices, f, f + 1, f + 2, rate);
  }

  lemma MonthsMakeQuarter(invoices: seq<Invoice>, f: int, g: int, h: int, rate: real)
    requires g == f + 1 && h == f + 2
    ensures QuarterAgrees(PeriodLines(invoices, Period(f, h)), PeriodLines(invoices, Period(f, f)),
                          PeriodLines(invoices, Period(g, g)), PeriodLines(invoices, Period(h, h)), rate)
  {
    hide PeriodLines, QuarterAgrees, Sum;
    QuarterSums(invoices, f, g, h, None);
    QuarterSums(invoices, f, g, h, Some(rate));
    SumsAgree(PeriodLines(invoices, Period(f, h)), PeriodLines(invoices, Period(f, f)),
              PeriodLines(invoices, Period(g, g)), PeriodLines(invoices, Period(h, h)), rate);
  }

  lemma QuarterSums(invoices: seq<Invoice>, f: int, g: int, h: int, rate: Option<real>)
    requires g == f + 1 && h == f + 2
    ensures Sum(PeriodLines(invoices, Period(f, h)), rate) ==
            Add(Add(Sum(PeriodLines(invoices, Period(f, f)), rate), Sum(PeriodLines(invoices, Period(g, g)), rate)),
                Sum(PeriodLines(invoices, Period(h, h)), rate))
  {
    hide PeriodLines, Over, Sum, InvoiceSum;
    ThreeMonths(invoices, f, g, h, InvoiceSum(rate));
    PeriodLinesSum(invoices, Period(f, h), rate);
    PeriodLinesSum(invoices, Period(f, f), rate);
    PeriodLinesSum(invoices, Period(g, g), rate);
    PeriodLinesSum(invoices, Period(h, h), rate);
  }
}
