// Invoices, double-entry posting and the periodic VAT liquidation.
// Stored amounts have two decimals, so they are integer cents; quantities, prices and rates are exact reals.
module Accounting {
  import opened Option

  // Number(x.toFixed(2)) as cents: half away from zero.
  function ToCents(x: real): int {
    if x < 0.0 then -ToCentsUp(-x) else ToCentsUp(x)
  }

  function ToCentsUp(x: real): int {
    (x * 100.0 + 0.5).Floor
  }

  function Euros(cents: int): real {
    cents as real / 100.0
  }

  function Abs(x: real): real {
    if x < 0.0 then -x else x
  }

  lemma RoundingError(x: real)
    ensures Abs(Euros(ToCents(x)) - x) <= 0.005
  {
  }

  lemma CentsAreExact(cents: int)
    ensures ToCents(Euros(cents)) == cents
  {
    RoundingError(Euros(cents));
  }

  // ----- Invoices --------------------------------------------------------------------------------

  datatype Status = Draft | Queued | Accepted

  // `exempt` says that a VAT nature is given, so that no VAT is due.
  datatype InputLine = InputLine(quantity: real, unitPrice: real, rate: real, exempt: bool)

  datatype Line = Line(total: int, rate: real, exempt: bool)

  // `month` counts calendar months, 12 * year + month - 1. `customer` is a position in the customer table.
  datatype Invoice = Invoice(month: int, customer: nat, status: Status, subtotal: int, tax: int, total: int,
                             lines: seq<Line>)

  // VAT of a line before rounding, in euros.
  function LineVat(line: Line): real {
    if line.exempt then 0.0 else Euros(line.total) * line.rate / 100.0
  }

  function BuildLine(l: InputLine): Line {
    Line(ToCents(l.quantity * l.unitPrice), l.rate, l.exempt)
  }

  function BuildLines(ls: seq<InputLine>): seq<Line> {
    seq(|ls|, i requires 0 <= i < |ls| => BuildLine(ls[i]))
  }

  function Subtotal(lines: seq<Line>): int {
    if lines == [] then 0 else Subtotal(lines[..|lines| - 1]) + lines[|lines| - 1].total
  }

  // Each line's VAT is rounded on its own.
  function RoundedTax(lines: seq<Line>): int {
    if lines == [] then 0 else RoundedTax(lines[..|lines| - 1]) + ToCents(LineVat(lines[|lines| - 1]))
  }

  function NewInvoice(month: int, customer: nat, ls: seq<InputLine>): Invoice {
    var lines := BuildLines(ls);
    Invoice(month, customer, Draft, Subtotal(lines), RoundedTax(lines), Subtotal(lines) + RoundedTax(lines), lines)
  }

  lemma BuildAppend(ls: seq<InputLine>, l: InputLine)
    ensures BuildLines(ls + [l]) == BuildLines(ls) + [BuildLine(l)]
  {
  }

  lemma LinesAppend(lines: seq<Line>, line: Line)
    ensures Subtotal(lines + [line]) == Subtotal(lines) + line.total
    ensures RoundedTax(lines + [line]) == RoundedTax(lines) + ToCents(LineVat(line))
    ensures line.exempt ==> ToCents(LineVat(line)) == 0
  {
    assert (lines + [line])[..|lines|] == lines;
    if line.exempt { CentsAreExact(0); }
  }

  method CreateInvoice(month: int, customer: nat, ls: seq<InputLine>) returns (invoice: Invoice)
    ensures invoice == NewInvoice(month, customer, ls)
  {
    var subtotal, tax := 0, 0;
    var lines: seq<Line> := [];
    for i := 0 to |ls|
      invariant lines == BuildLines(ls[..i]) && subtotal == Subtotal(lines) && tax == RoundedTax(lines)
    {
      var line := BuildLine(ls[i]);
      subtotal := subtotal + line.total;
      if !line.exempt {
        tax := tax + ToCents(LineVat(line));
      }
      LinesAppend(lines, line);
      assert ls[..i + 1] == ls[..i] + [ls[i]];
      BuildAppend(ls[..i], ls[i]);
      lines := lines + [line];
    }
    assert ls[..|ls|] == ls;
    invoice := Invoice(month, customer, Draft, subtotal, tax, subtotal + tax, lines);
  }

  // ----- The journal -----------------------------------------------------------------------------

  datatype Account = Receivables | Revenue | VatPayable | Other(code: string)

  datatype Posting = Posting(account: Account, debit: real, credit: real)

  // `invoice` is the position of the invoice an entry was generated for, if any.
  datatype Entry = Entry(invoice: Option<nat>, lines: seq<Posting>)

  function Debits(lines: seq<Posting>): real {
    if lines == [] then 0.0 else Debits(lines[..|lines| - 1]) + lines[|lines| - 1].debit
  }

  function Credits(lines: seq<Posting>): real {
    if lines == [] then 0.0 else Credits(lines[..|lines| - 1]) + lines[|lines| - 1].credit
  }

  predicate Balanced(lines: seq<Posting>) {
    Abs(Debits(lines) - Credits(lines)) <= 0.001
  }

  function PostingLines(invoice: Invoice, split: bool): seq<Posting> {
    [Posting(Receivables, Euros(if split then invoice.subtotal else invoice.total), 0.0),
     Posting(Revenue, 0.0, Euros(invoice.subtotal))]
    + if !split && invoice.tax > 0 then [Posting(VatPayable, 0.0, Euros(invoice.tax))] else []
  }

  datatype Books = Books(invoices: seq<Invoice>, journal: seq<Entry>)

  function CreateJournalEntry(b: Books, lines: seq<Posting>): Option<Books> {
    if !Balanced(lines) then None else Some(b.(journal := b.journal + [Entry(None, lines)]))
  }

  // `split` is the customer's split-payment flag at this moment.
  function AcceptInvoice(b: Books, id: nat, split: bool): Option<Books> {
    if id >= |b.invoices| then None
    else
      var invoice := b.invoices[id];
      if invoice.status.Accepted? then Some(b)
      else if !Balanced(PostingLines(invoice, split)) then None
      else Some(Books(b.invoices[id := invoice.(status := Accepted)],
                      b.journal + [Entry(Some(id), PostingLines(invoice, split))]))
  }

  function QueueInvoice(b: Books, id: nat): Option<Books> {
    if id >= |b.invoices| || !b.invoices[id].status.Draft? then None
    else Some(b.(invoices := b.invoices[id := b.invoices[id].(status := Queued)]))
  }

  class AccountingService {
    var invoices: seq<Invoice>
    var journal: seq<Entry>

    constructor ()
      ensures State() == Books([], [])
    {
      invoices, journal := [], [];
    }

    function State(): Books
      reads this
    {
      Books(invoices, journal)
    }

    method Create(month: int, customer: nat, ls: seq<InputLine>)
      modifies this
      ensures State() == old(State()).(invoices := old(invoices) + [NewInvoice(month, customer, ls)])
    {
      var invoice := CreateInvoice(month, customer, ls);
      invoices := invoices + [invoice];
    }

    method PostManually(lines: seq<Posting>) returns (ok: bool)
      modifies this
      ensures ok == CreateJournalEntry(old(State()), lines).Some?
      ensures State() == if ok then CreateJournalEntry(old(State()), lines).value else old(State())
    {
      var totalDebit, totalCredit := 0.0, 0.0;
      for i := 0 to |lines|
        invariant totalDebit == Debits(lines[..i]) && totalCredit == Credits(lines[..i])
        invariant State() == old(State())
      {
        assert lines[..i + 1][..i] == lines[..i];
        totalDebit, totalCredit := totalDebit + lines[i].debit, totalCredit + lines[i].credit;
      }
      assert lines[..|lines|] == lines;
      if Abs(totalDebit - totalCredit) > 0.001 {
        return false;
      }
      journal := journal + [Entry(None, lines)];
      return true;
    }

    method Accept(id: nat, split: bool) returns (ok: bool)
      modifies this
      ensures ok == AcceptInvoice(old(State()), id, split).Some?
      ensures State() == if ok then AcceptInvoice(old(State()), id, split).value else old(State())
    {
      if id >= |invoices| {
        return false;
      }
      var invoice := invoices[id];
      if invoice.status.Accepted? {
        return true;
      }
      var receivable := if split then invoice.subtotal else invoice.total;
      var lines := [Posting(Receivables, Euros(receivable), 0.0), Posting(Revenue, 0.0, Euros(invoice.subtotal))];
      if !split && invoice.tax > 0 {
        lines := lines + [Posting(VatPayable, 0.0, Euros(invoice.tax))];
      }
      assert lines == PostingLines(invoice, split);
      if !Balanced(lines) {
        return false;
      }
      journal := journal + [Entry(Some(id), lines)];
      invoices := invoices[id := invoice.(status := Accepted)];
      return true;
    }

    method QueueForSdi(id: nat) returns (ok: bool)
      modifies this
      ensures ok == QueueInvoice(old(State()), id).Some?
      ensures State() == if ok then QueueInvoice(old(State()), id).value else old(State())
    {
      if id >= |invoices| || !invoices[id].status.Draft? {
        return false;
      }
      invoices := invoices[id := invoices[id].(status := Queued)];
      return true;
    }
  }

  // ----- Runs ------------------------------------------------------------------------------------

  datatype Event =
    | Create(month: int, customer: nat, ls: seq<InputLine>)
    | Manual(lines: seq<Posting>)
    | Accept(id: nat, split: bool)
    | Queue(id: nat)

  function Try(b: Books, e: Event): Option<Books> {
    match e
    case Create(month, customer, ls) => Some(b.(invoices := b.invoices + [NewInvoice(month, customer, ls)]))
    case Manual(lines) => CreateJournalEntry(b, lines)
    case Accept(id, split) => AcceptInvoice(b, id, split)
    case Queue(id) => QueueInvoice(b, id)
  }

  function Step(b: Books, e: Event): Books {
    if Try(b, e).Some? then Try(b, e).value else b
  }

  function Run(b: Books, es: seq<Event>): Books
    decreases |es|
  {
    if es == [] then b else Run(Step(b, es[0]), es[1..])
  }

  predicate Consistent(invoice: Invoice) {
    invoice.total == invoice.subtotal + invoice.tax
  }

  lemma PostingTotals(invoice: Invoice, split: bool)
    ensures Debits(PostingLines(invoice, split)) == Euros(if split then invoice.subtotal else invoice.total)
    ensures Credits(PostingLines(invoice, split)) ==
            Euros(invoice.subtotal) + if !split && invoice.tax > 0 then Euros(invoice.tax) else 0.0
  {
    var two := [Posting(Receivables, Euros(if split then invoice.subtotal else invoice.total), 0.0),
                Posting(Revenue, 0.0, Euros(invoice.subtotal))];
    TotalsAppend([], two[0]);
    TotalsAppend([two[0]], two[1]);
    assert [] + [two[0]] == [two[0]] && [two[0]] + [two[1]] == two;
    if !split && invoice.tax > 0 {
      TotalsAppend(two, Posting(VatPayable, 0.0, Euros(invoice.tax)));
    } else {
      assert PostingLines(invoice, split) == two;
    }
  }

  lemma TotalsAppend(lines: seq<Posting>, p: Posting)
    ensures Debits(lines + [p]) == Debits(lines) + p.debit
    ensures Credits(lines + [p]) == Credits(lines) + p.credit
  {
    assert (lines + [p])[..|lines|] == lines;
  }

  // A manual entry is stored, as it is, exactly when debits and credits differ by a thousandth at most.
  lemma ManualStoredIff(b: Books, lines: seq<Posting>)
    ensures CreateJournalEntry(b, lines).Some? <==> -0.001 <= Debits(lines) - Credits(lines) <= 0.001
    ensures CreateJournalEntry(b, lines).Some? ==>
              CreateJournalEntry(b, lines).value == b.(journal := b.journal + [Entry(None, lines)])
  {
  }

  // An invoice with consistent totals is rejected as unbalanced exactly when its tax is negative and not split.
  lemma AcceptFailsIff(b: Books, id: nat, split: bool)
    requires id < |b.invoices| && Consistent(b.invoices[id]) && !b.invoices[id].status.Accepted?
    ensures AcceptInvoice(b, id, split).None? <==> !split && b.invoices[id].tax < 0
  {
    PostingTotals(b.invoices[id], split);
  }

  predicate NonNegative(ls: seq<InputLine>) {
    forall i | 0 <= i < |ls| :: ls[i].quantity >= 0.0 && ls[i].unitPrice >= 0.0 && ls[i].rate >= 0.0
  }

  lemma ToCentsMonotone(x: real)
    requires x >= 0.0
    ensures ToCents(x) >= 0
  {
  }

  lemma LineVatNonNegative(l: InputLine)
    requires l.quantity >= 0.0 && l.unitPrice >= 0.0 && l.rate >= 0.0
    ensures BuildLine(l).total >= 0 && LineVat(BuildLine(l)) >= 0.0
  {
    assert l.quantity * l.unitPrice >= 0.0;
    ToCentsMonotone(l.quantity * l.unitPrice);
    assert Euros(BuildLine(l).total) >= 0.0;
    assert Euros(BuildLine(l).total) * l.rate >= 0.0;
  }

  lemma {:induction false} CreatedTaxNonNegative(ls: seq<InputLine>)
    requires NonNegative(ls)
    ensures RoundedTax(BuildLines(ls)) >= 0
  {
    if ls != [] {
      var n := |ls| - 1;
      CreatedTaxNonNegative(ls[..n]);
      LineVatNonNegative(ls[n]);
      ToCentsMonotone(LineVat(BuildLine(ls[n])));
      assert BuildLines(ls)[..n] == BuildLines(ls[..n]);
    }
  }

  lemma CreatedInvoiceIsAccepted(b: Books, id: nat, split: bool, month: int, customer: nat, ls: seq<InputLine>)
    requires id < |b.invoices| && NonNegative(ls)
    requires b.invoices[id].(status := Draft) == NewInvoice(month, customer, ls)
    ensures AcceptInvoice(b, id, split).Some?
  {
    CreatedTaxNonNegative(ls);
    if !b.invoices[id].status.Accepted? { AcceptFailsIff(b, id, split); }
  }

  // ----- What every run keeps --------------------------------------------------------------------

  function JournalDebits(journal: seq<Entry>): real {
    if journal == [] then 0.0 else JournalDebits(journal[..|journal| - 1]) + Debits(journal[|journal| - 1].lines)
  }

  function JournalCredits(journal: seq<Entry>): real {
    if journal == [] then 0.0 else JournalCredits(journal[..|journal| - 1]) + Credits(journal[|journal| - 1].lines)
  }

  function ManualEntries(journal: seq<Entry>): nat {
    if journal == [] then 0
    else ManualEntries(journal[..|journal| - 1]) + if journal[|journal| - 1].invoice.None? then 1 else 0
  }

  // How often an invoice was posted.
  function Postings(journal: seq<Entry>, id: nat): nat {
    if journal == [] then 0
    else Postings(journal[..|journal| - 1], id) + if journal[|journal| - 1].invoice == Some(id) then 1 else 0
  }

  // Debit minus credit of the given lines on one account.
  function Balance(lines: seq<Posting>, account: Account): real {
    if lines == [] then 0.0
    else
      var p := lines[|lines| - 1];
      Balance(lines[..|lines| - 1], account) + if p.account == account then p.debit - p.credit else 0.0
  }

  // Balance of an account over the entries generated from invoices.
  function AutoBalance(journal: seq<Entry>, account: Account): real {
    if journal == [] then 0.0
    else
      var e := journal[|journal| - 1];
      AutoBalance(journal[..|journal| - 1], account) + if e.invoice.Some? then Balance(e.lines, account) else 0.0
  }

  // Cents receivable, earned and owed as VAT.
  datatype Sums = Sums(receivable: int, revenue: int, vat: int)

  // What an accepted invoice stands for; `split` is the customer's flag when it was accepted.
  function Worth(invoice: Invoice, split: bool): Sums {
    if !invoice.status.Accepted? then Sums(0, 0, 0)
    else if split then Sums(invoice.subtotal, invoice.subtotal, 0)
    else Sums(invoice.total, invoice.subtotal, invoice.tax)
  }

  function AcceptedSums(invoices: seq<Invoice>, splits: seq<bool>): Sums
    requires |invoices| == |splits|
  {
    if invoices == [] then Sums(0, 0, 0)
    else
      var n := |invoices| - 1;
      var rest, last := AcceptedSums(invoices[..n], splits[..n]), Worth(invoices[n], splits[n]);
      Sums(rest.receivable + last.receivable, rest.revenue + last.revenue, rest.vat + last.vat)
  }

  function SplitsAfter(b: Books, splits: seq<bool>, e: Event): seq<bool>
    requires |splits| == |b.invoices|
    ensures |SplitsAfter(b, splits, e)| == |Step(b, e).invoices|
  {
    match e
    case Create(_, _, _) => splits + [false]
    case Accept(id, split) => if id < |splits| && !b.invoices[id].status.Accepted? then splits[id := split] else splits
    case _ => splits
  }

  function RunSplits(b: Books, splits: seq<bool>, es: seq<Event>): seq<bool>
    requires |splits| == |b.invoices|
    ensures |RunSplits(b, splits, es)| == |Run(b, es).invoices|
    decreases |es|
  {
    if es == [] then splits else RunSplits(Step(b, es[0]), SplitsAfter(b, splits, es[0]), es[1..])
  }

  lemma AppendEntry(journal: seq<Entry>, e: Entry, id: nat, account: Account)
    ensures JournalDebits(journal + [e]) == JournalDebits(journal) + Debits(e.lines)
    ensures JournalCredits(journal + [e]) == JournalCredits(journal) + Credits(e.lines)
    ensures ManualEntries(journal + [e]) == ManualEntries(journal) + if e.invoice.None? then 1 else 0
    ensures Postings(journal + [e], id) == Postings(journal, id) + if e.invoice == Some(id) then 1 else 0
    ensures AutoBalance(journal + [e], account) ==
            AutoBalance(journal, account) + if e.invoice.Some? then Balance(e.lines, account) else 0.0
  {
    assert (journal + [e])[..|journal|] == journal;
  }

  lemma BalanceAppend(lines: seq<Posting>, p: Posting, account: Account)
    ensures Balance(lines + [p], account) ==
            Balance(lines, account) + if p.account == account then p.debit - p.credit else 0.0
  {
    assert (lines + [p])[..|lines|] == lines;
  }

  // An invoice's posting debits what is receivable and credits revenue and VAT.
  lemma PostingBalances(invoice: Invoice, split: bool)
    requires split || invoice.tax >= 0
    ensures var lines, worth := PostingLines(invoice, split), Worth(invoice.(status := Accepted), split);
            && Balance(lines, Receivables) == Euros(worth.receivable)
            && Balance(lines, Revenue) == -Euros(worth.revenue)
            && Balance(lines, VatPayable) == -Euros(worth.vat)
  {
    var two := [Posting(Receivables, Euros(if split then invoice.subtotal else invoice.total), 0.0),
                Posting(Revenue, 0.0, Euros(invoice.subtotal))];
    forall account
      ensures Balance(two, account) == (if account == Receivables then two[0].debit else 0.0)
                                       - if account == Revenue then two[1].credit else 0.0
    {
      BalanceAppend([], two[0], account);
      BalanceAppend([two[0]], two[1], account);
      assert [] + [two[0]] == [two[0]] && [two[0]] + [two[1]] == two;
    }
    if !split && invoice.tax > 0 {
      var vat := Posting(VatPayable, 0.0, Euros(invoice.tax));
      BalanceAppend(two, vat, Receivables);
      BalanceAppend(two, vat, Revenue);
      BalanceAppend(two, vat, VatPayable);
    } else {
      assert PostingLines(invoice, split) == two;
    }
  }

  lemma {:induction false} SumsUpdate(invoices: seq<Invoice>, splits: seq<bool>, id: nat, invoice: Invoice, split: bool)
    requires |invoices| == |splits| && id < |invoices|
    ensures var before := AcceptedSums(invoices, splits);
            var now := AcceptedSums(invoices[id := invoice], splits[id := split]);
            var old', new' := Worth(invoices[id], splits[id]), Worth(invoice, split);
            now == Sums(before.receivable - old'.receivable + new'.receivable,
                        before.revenue - old'.revenue + new'.revenue,
                        before.vat - old'.vat + new'.vat)
  {
    var n := |invoices| - 1;
    if id == n {
      assert invoices[id := invoice][..n] == invoices[..n] && splits[id := split][..n] == splits[..n];
    } else {
      SumsUpdate(invoices[..n], splits[..n], id, invoice, split);
      assert invoices[id := invoice][..n] == invoices[..n][id := invoice];
      assert splits[id := split][..n] == splits[..n][id := split];
    }
  }

  ghost predicate BooksAgree(b: Books, splits: seq<bool>)
    requires |splits| == |b.invoices|
  {
    && (forall i | 0 <= i < |b.invoices| :: Consistent(b.invoices[i]))
    && (forall id: nat ::
          Postings(b.journal, id) == if id < |b.invoices| && b.invoices[id].status.Accepted? then 1 else 0)
    && AutoBalance(b.journal, Receivables) == Euros(AcceptedSums(b.invoices, splits).receivable)
    && AutoBalance(b.journal, Revenue) == -Euros(AcceptedSums(b.invoices, splits).revenue)
    && AutoBalance(b.journal, VatPayable) == -Euros(AcceptedSums(b.invoices, splits).vat)
  }

  lemma AcceptKeepsAgreement(b: Books, splits: seq<bool>, id: nat, split: bool)
    requires |splits| == |b.invoices| && BooksAgree(b, splits)
    requires AcceptInvoice(b, id, split).Some? && !b.invoices[id].status.Accepted?
    ensures BooksAgree(AcceptInvoice(b, id, split).value, splits[id := split])
  {
    var invoice, next := b.invoices[id], AcceptInvoice(b, id, split).value;
    var entry := Entry(Some(id), PostingLines(invoice, split));
    AcceptFailsIff(b, id, split);
    PostingBalances(invoice, split);
    SumsUpdate(b.invoices, splits, id, next.invoices[id], split);
    AppendEntry(b.journal, entry, id, Receivables);
    AppendEntry(b.journal, entry, id, Revenue);
    AppendEntry(b.journal, entry, id, VatPayable);
    forall other: nat
      ensures Postings(next.journal, other) ==
              if other < |b.invoices| && next.invoices[other].status.Accepted? then 1 else 0
    {
      AppendEntry(b.journal, entry, other, Revenue);
    }
  }

  lemma CreateKeepsAgreement(b: Books, splits: seq<bool>, invoice: Invoice)
    requires |splits| == |b.invoices| && BooksAgree(b, splits) && Consistent(invoice) && !invoice.status.Accepted?
    ensures BooksAgree(b.(invoices := b.invoices + [invoice]), splits + [false])
  {
    assert (b.invoices + [invoice])[..|b.invoices|] == b.invoices;
    assert (splits + [false])[..|splits|] == splits;
  }

  lemma ManualKeepsAgreement(b: Books, splits: seq<bool>, lines: seq<Posting>)
    requires |splits| == |b.invoices| && BooksAgree(b, splits)
    ensures BooksAgree(b.(journal := b.journal + [Entry(None, lines)]), splits)
  {
    var entry := Entry(None, lines);
    AppendEntry(b.journal, entry, 0, Receivables);
    AppendEntry(b.journal, entry, 0, Revenue);
    AppendEntry(b.journal, entry, 0, VatPayable);
    forall id: nat ensures Postings(b.journal + [entry], id) == Postings(b.journal, id) {
      AppendEntry(b.journal, entry, id, Revenue);
    }
  }

  lemma QueueKeepsAgreement(b: Books, splits: seq<bool>, id: nat)
    requires |splits| == |b.invoices| && BooksAgree(b, splits) && QueueInvoice(b, id).Some?
    ensures BooksAgree(QueueInvoice(b, id).value, splits)
  {
    SumsUpdate(b.invoices, splits, id, b.invoices[id].(status := Queued), splits[id]);
    assert splits[id := splits[id]] == splits;
  }

  lemma StepKeepsAgreement(b: Books, splits: seq<bool>, e: Event)
    requires |splits| == |b.invoices| && BooksAgree(b, splits)
    ensures BooksAgree(Step(b, e), SplitsAfter(b, splits, e))
  {
    match e
    case Create(month, customer, ls) => CreateKeepsAgreement(b, splits, NewInvoice(month, customer, ls));
    case Manual(lines) => ManualKeepsAgreement(b, splits, lines);
    case Accept(id, split) =>
      if id < |b.invoices| && !b.invoices[id].status.Accepted? {
        if AcceptInvoice(b, id, split).Some? {
          AcceptKeepsAgreement(b, splits, id, split);
        } else {
          SumsUpdate(b.invoices, splits, id, b.invoices[id], split);
          assert b.invoices[id := b.invoices[id]] == b.invoices;
        }
      }
    case Queue(id) => if QueueInvoice(b, id).Some? { QueueKeepsAgreement(b, splits, id); }
  }

  // Over every run: an invoice is posted once when it is accepted and never otherwise, and the generated entries
  // balance to the worth of the accepted invoices.
  lemma {:induction false} BooksAgreeOverRuns(b: Books, splits: seq<bool>, es: seq<Event>)
    requires |splits| == |b.invoices| && BooksAgree(b, splits)
    ensures BooksAgree(Run(b, es), RunSplits(b, splits, es))
    decreases |es|
  {
    if es != [] {
      StepKeepsAgreement(b, splits, es[0]);
      BooksAgreeOverRuns(Step(b, es[0]), SplitsAfter(b, splits, es[0]), es[1..]);
    }
  }

  // ----- Invoice by invoice ----------------------------------------------------------------------

  // Debit minus credit that the entries of one invoice have brought to an account.
  function PostedFor(journal: seq<Entry>, id: nat, account: Account): real {
    if journal == [] then 0.0
    else
      var e := journal[|journal| - 1];
      PostedFor(journal[..|journal| - 1], id, account)
      + if e.invoice == Some(id) then Balance(e.lines, account) else 0.0
  }

  // What has been posted for each invoice is what it is worth: nothing before it is accepted.
  ghost predicate PostingsAgree(b: Books, splits: seq<bool>)
    requires |splits| == |b.invoices|
  {
    forall id: nat ::
      var worth := if id < |splits| then Worth(b.invoices[id], splits[id]) else Sums(0, 0, 0);
      && PostedFor(b.journal, id, Receivables) == Euros(worth.receivable)
      && PostedFor(b.journal, id, Revenue) == -Euros(worth.revenue)
      && PostedFor(b.journal, id, VatPayable) == -Euros(worth.vat)
  }

  lemma PostedForAppend(journal: seq<Entry>, e: Entry, id: nat, account: Account)
    ensures PostedFor(journal + [e], id, account) ==
            PostedFor(journal, id, account) + if e.invoice == Some(id) then Balance(e.lines, account) else 0.0
  {
    assert (journal + [e])[..|journal|] == journal;
  }

  lemma PostedForAppendAll(journal: seq<Entry>, e: Entry, id: nat)
    ensures var own := e.invoice == Some(id);
            && PostedFor(journal + [e], id, Receivables) ==
               PostedFor(journal, id, Receivables) + (if own then Balance(e.lines, Receivables) else 0.0)
            && PostedFor(journal + [e], id, Revenue) ==
               PostedFor(journal, id, Revenue) + (if own then Balance(e.lines, Revenue) else 0.0)
            && PostedFor(journal + [e], id, VatPayable) ==
               PostedFor(journal, id, VatPayable) + (if own then Balance(e.lines, VatPayable) else 0.0)
  {
    PostedForAppend(journal, e, id, Receivables);
    PostedForAppend(journal, e, id, Revenue);
    PostedForAppend(journal, e, id, VatPayable);
  }

  lemma AcceptKeepsPostings(b: Books, splits: seq<bool>, id: nat, split: bool)
    requires |splits| == |b.invoices| && PostingsAgree(b, splits) && id < |splits| && Consistent(b.invoices[id])
    requires AcceptInvoice(b, id, split).Some? && !b.invoices[id].status.Accepted?
    ensures PostingsAgree(AcceptInvoice(b, id, split).value, splits[id := split])
  {
    hide Balance, PostingLines, PostedFor;
    var entry := Entry(Some(id), PostingLines(b.invoices[id], split));
    AcceptFailsIff(b, id, split);
    PostingBalances(b.invoices[id], split);
    forall other: nat {
      PostedForAppendAll(b.journal, entry, other);
    }
  }

  lemma StepKeepsPostings(b: Books, splits: seq<bool>, e: Event)
    requires |splits| == |b.invoices| && BooksAgree(b, splits) && PostingsAgree(b, splits)
    ensures PostingsAgree(Step(b, e), SplitsAfter(b, splits, e))
  {
    hide Balance, PostingLines, PostedFor, Balanced, BuildLines, Subtotal, RoundedTax;
    match e
    case Accept(id, split) =>
      if id < |b.invoices| && !b.invoices[id].status.Accepted? && AcceptInvoice(b, id, split).Some? {
        AcceptKeepsPostings(b, splits, id, split);
      }
    case Manual(lines) =>
      forall id: nat {
        PostedForAppendAll(b.journal, Entry(None, lines), id);
      }
    case _ =>
  }

  lemma {:induction false} PostingsOverRuns(b: Books, splits: seq<bool>, es: seq<Event>)
    requires |splits| == |b.invoices| && BooksAgree(b, splits) && PostingsAgree(b, splits)
    ensures PostingsAgree(Run(b, es), RunSplits(b, splits, es))
    decreases |es|
  {
    if es != [] {
      StepKeepsPostings(b, splits, es[0]);
      StepKeepsAgreement(b, splits, es[0]);
      PostingsOverRuns(Step(b, es[0]), SplitsAfter(b, splits, es[0]), es[1..]);
    }
  }

  // ----- How invoices are made -------------------------------------------------------------------

  // The amounts of an invoice are those of its lines.
  predicate Made(invoice: Invoice) {
    invoice.subtotal == Subtotal(invoice.lines) && invoice.tax == RoundedTax(invoice.lines) && Consistent(invoice)
  }

  ghost predicate AllMade(b: Books) {
    forall i | 0 <= i < |b.invoices| :: Made(b.invoices[i])
  }

  ghost predicate TaxNonNegative(b: Books) {
    forall i | 0 <= i < |b.invoices| :: b.invoices[i].tax >= 0
  }

  // What the request validators admit.
  predicate ValidInputs(es: seq<Event>) {
    forall e | e in es && e.Create? :: NonNegative(e.ls)
  }

  lemma StepKeepsMade(b: Books, e: Event)
    ensures AllMade(b) ==> AllMade(Step(b, e))
    ensures TaxNonNegative(b) && (e.Create? ==> NonNegative(e.ls)) ==> TaxNonNegative(Step(b, e))
  {
    hide Balanced, PostingLines, Subtotal, RoundedTax;
    if e.Create? && NonNegative(e.ls) { CreatedTaxNonNegative(e.ls); }
  }

  lemma {:induction false} MadeOverRuns(b: Books, es: seq<Event>)
    requires AllMade(b)
    ensures AllMade(Run(b, es))
    decreases |es|
  {
    if es != [] {
      StepKeepsMade(b, es[0]);
      MadeOverRuns(Step(b, es[0]), es[1..]);
    }
  }

  lemma {:induction false} TaxOverRuns(b: Books, es: seq<Event>)
    requires TaxNonNegative(b) && ValidInputs(es)
    ensures TaxNonNegative(Run(b, es))
    decreases |es|
  {
    if es != [] {
      assert es[0] in es && forall e | e in es[1..] :: e in es;
      StepKeepsMade(b, es[0]);
      TaxOverRuns(Step(b, es[0]), es[1..]);
    }
  }

  // Every line of a manual entry is in whole cents.
  predicate InCents(lines: seq<Posting>) {
    forall i | 0 <= i < |lines| :: Euros(ToCents(lines[i].debit)) == lines[i].debit
                                   && Euros(ToCents(lines[i].credit)) == lines[i].credit
  }

  lemma {:induction false} CentTotals(lines: seq<Posting>) returns (debit: int, credit: int)
    requires InCents(lines)
    ensures Debits(lines) == Euros(debit) && Credits(lines) == Euros(credit)
  {
    if lines == [] {
      debit, credit := 0, 0;
    } else {
      var p := lines[|lines| - 1];
      debit, credit := CentTotals(lines[..|lines| - 1]);
      debit, credit := debit + ToCents(p.debit), credit + ToCents(p.credit);
    }
  }

  // In whole cents the tolerance admits only exact balance.
  lemma CentsBalanceExactly(lines: seq<Posting>)
    requires InCents(lines) && Balanced(lines)
    ensures Debits(lines) == Credits(lines)
  {
    var debit, credit := CentTotals(lines);
    CloseCents(debit, credit);
  }

  lemma CloseCents(a: int, b: int)
    requires Abs(Euros(a) - Euros(b)) <= 0.001
    ensures a == b
  {
    assert Euros(a) - Euros(b) == (a - b) as real / 100.0;
  }

  predicate ManualInCents(es: seq<Event>) {
    forall i | 0 <= i < |es| :: es[i].Manual? ==> InCents(es[i].lines)
  }

  function Drift(b: Books): real {
    Abs(JournalDebits(b.journal) - JournalCredits(b.journal))
  }

  lemma StepDrift(b: Books, splits: seq<bool>, e: Event)
    requires |splits| == |b.invoices| && BooksAgree(b, splits)
    ensures Drift(Step(b, e)) <= Drift(b)
            + 0.001 * (ManualEntries(Step(b, e).journal) - ManualEntries(b.journal)) as real
    ensures (e.Manual? ==> InCents(e.lines)) ==>
              JournalDebits(Step(b, e).journal) - JournalCredits(Step(b, e).journal) ==
              JournalDebits(b.journal) - JournalCredits(b.journal)
  {
    hide PostingLines, InCents;
    if e.Manual? {
      AppendEntry(b.journal, Entry(None, e.lines), 0, Revenue);
      if Balanced(e.lines) && InCents(e.lines) { CentsBalanceExactly(e.lines); }
    } else if e.Accept? && Step(b, e) != b {
      AcceptFailsIff(b, e.id, e.split);
      PostingTotals(b.invoices[e.id], e.split);
      AppendEntry(b.journal, Entry(Some(e.id), PostingLines(b.invoices[e.id], e.split)), 0, Revenue);
    }
  }

  // Debits and credits drift apart by at most a thousandth for each manual entry, and not at all when manual entries
  // are in whole cents.
  lemma {:induction false} DriftOverRuns(b: Books, splits: seq<bool>, es: seq<Event>)
    requires |splits| == |b.invoices| && BooksAgree(b, splits)
    ensures Drift(Run(b, es)) <= Drift(b)
            + 0.001 * (ManualEntries(Run(b, es).journal) - ManualEntries(b.journal)) as real
    ensures ManualInCents(es) ==>
              JournalDebits(Run(b, es).journal) - JournalCredits(Run(b, es).journal) ==
              JournalDebits(b.journal) - JournalCredits(b.journal)
    decreases |es|
  {
    if es != [] {
      StepDrift(b, splits, es[0]);
      StepKeepsAgreement(b, splits, es[0]);
      DriftOverRuns(Step(b, es[0]), SplitsAfter(b, splits, es[0]), es[1..]);
    }
  }

  // ----- The life of an invoice ------------------------------------------------------------------

  function StatusAt(b: Books, id: nat): Status {
    if id < |b.invoices| then b.invoices[id].status else Draft
  }

  // One request: a draft may be queued, and either may be accepted, which is final.
  lemma StepStatus(b: Books, e: Event, id: nat)
    ensures |b.invoices| <= |Step(b, e).invoices|
    ensures StatusAt(Step(b, e), id) ==
            if e == Accept(id, true) || e == Accept(id, false) then
              if Try(b, e).Some? then Accepted else StatusAt(b, id)
            else if e == Queue(id) && id < |b.invoices| && StatusAt(b, id).Draft? then Queued
            else StatusAt(b, id)
    ensures e == Queue(id) ==> (Try(b, e).Some? <==> id < |b.invoices| && StatusAt(b, id).Draft?)
  {
    hide Balanced, PostingLines, BuildLines, Subtotal, RoundedTax;
  }

  // How often the requests on the way accepted the invoice or found it accepted, and how often they queued it.
  function Successes(b: Books, es: seq<Event>, id: nat, queue: bool): nat
    decreases |es|
  {
    if es == [] then 0
    else
      (if Try(b, es[0]).Some? && (if queue then es[0] == Queue(id) else es[0].Accept? && es[0].id == id) then 1 else 0)
      + Successes(Step(b, es[0]), es[1..], id, queue)
  }

  // Over every run: an invoice is accepted exactly if a request to accept it has succeeded, it is queued at most once
  // and only before that, and acceptance is never taken back.
  lemma {:induction false} InvoiceLife(b: Books, es: seq<Event>, id: nat)
    ensures var from, to := StatusAt(b, id), StatusAt(Run(b, es), id);
            && (to.Accepted? <==> from.Accepted? || Successes(b, es, id, false) > 0)
            && (to.Draft? <==> from.Draft? && Successes(b, es, id, false) == 0 && Successes(b, es, id, true) == 0)
            && Successes(b, es, id, true) <= (if from.Draft? then 1 else 0)
    decreases |es|
  {
    hide Step, Try;
    if es != [] {
      StepStatus(b, es[0], id);
      AcceptIsEither(es[0]);
      InvoiceLife(Step(b, es[0]), es[1..], id);
    }
  }

  lemma AcceptIsEither(e: Event)
    ensures e.Accept? ==> e == Accept(e.id, true) || e == Accept(e.id, false)
  {
  }

  // ----- Invoices against the quantities and prices they were made from --------------------------

  // The closest number of cents; half a cent goes away from zero.
  predicate Nearest(x: real, cents: int) {
    Abs(Euros(cents) - x) <= 0.005 && (Abs(Euros(cents) - x) == 0.005 ==> Abs(Euros(cents)) > Abs(x))
  }

  lemma NearestIsToCents(x: real, cents: int)
    ensures Nearest(x, cents) <==> cents == ToCents(x)
  {
    RoundingError(x);
    var n := ToCents(x);
    if cents < n {
      assert Euros(n) - Euros(cents) == (n - cents) as real / 100.0 >= 0.01;
    } else if cents > n {
      assert Euros(cents) - Euros(n) == (cents - n) as real / 100.0 >= 0.01;
    }
  }

  function Price(l: InputLine): real {
    l.quantity * l.unitPrice
  }

  // VAT of a line total before rounding.
  function Vat(l: InputLine, total: int): real {
    if l.exempt then 0.0 else Euros(total) * l.rate / 100.0
  }

  function Amount(ls: seq<InputLine>): real {
    if ls == [] then 0.0 else Amount(ls[..|ls| - 1]) + Price(ls[|ls| - 1])
  }

  function TaxedCount(ls: seq<InputLine>): nat {
    if ls == [] then 0 else TaxedCount(ls[..|ls| - 1]) + if ls[|ls| - 1].exempt then 0 else 1
  }

  function VatDue(ls: seq<InputLine>, totals: seq<int>): real
    requires |ls| == |totals|
  {
    if ls == [] then 0.0
    else
      var n := |ls| - 1;
      VatDue(ls[..n], totals[..n]) + Vat(ls[n], totals[n])
  }

  predicate NearestVat(l: InputLine, total: int, cents: int) {
    Nearest(Vat(l, total), cents)
  }

  // The tax is a sum of one amount for each line: the nearest cent to its VAT.
  ghost predicate TaxAddsUp(ls: seq<InputLine>, totals: seq<int>, tax: int)
    requires |ls| == |totals|
  {
    if ls == [] then tax == 0
    else
      var n := |ls| - 1;
      exists t :: NearestVat(ls[n], totals[n], t) && TaxAddsUp(ls[..n], totals[..n], tax - t)
  }

  // Within half a cent for each of n roundings.
  predicate Near(x: real, cents: int, n: nat) {
    Abs(Euros(cents) - x) <= 0.005 * n as real
  }

  function LineTotals(lines: seq<Line>): seq<int> {
    seq(|lines|, i requires 0 <= i < |lines| => lines[i].total)
  }

  // Line by line and in total, the invoice is what these quantities, prices and rates come to.
  ghost predicate Bills(invoice: Invoice, ls: seq<InputLine>) {
    var totals := LineTotals(invoice.lines);
    && |totals| == |ls|
    && (forall i | 0 <= i < |ls| ::
          && Nearest(Price(ls[i]), totals[i])
          && invoice.lines[i].rate == ls[i].rate && invoice.lines[i].exempt == ls[i].exempt)
    && Near(Amount(ls), invoice.subtotal, |ls|)
    && TaxAddsUp(ls, totals, invoice.tax)
    && Near(VatDue(ls, totals), invoice.tax, TaxedCount(ls))
    && invoice.total == invoice.subtotal + invoice.tax
  }

  lemma NoRounding()
    ensures Near(0.0, 0, 0) && ToCents(0.0) == 0
  {
  }

  lemma NearAdds(x: real, a: int, n: nat, y: real)
    requires Near(x, a, n)
    ensures Near(x + y, a + ToCents(y), n + 1)
  {
    RoundingError(y);
    assert Euros(a + ToCents(y)) == Euros(a) + Euros(ToCents(y));
  }

  lemma BuildUnfold(ls: seq<InputLine>)
    requires ls != []
    ensures var n := |ls| - 1;
            && BuildLines(ls)[..n] == BuildLines(ls[..n])
            && Subtotal(BuildLines(ls)) == Subtotal(BuildLines(ls[..n])) + ToCents(Price(ls[n]))
            && RoundedTax(BuildLines(ls)) ==
               RoundedTax(BuildLines(ls[..n])) + ToCents(Vat(ls[n], LineTotals(BuildLines(ls))[n]))
            && LineTotals(BuildLines(ls))[..n] == LineTotals(BuildLines(ls[..n]))
  {
    var n := |ls| - 1;
    assert BuildLines(ls)[..n] == BuildLines(ls[..n]);
    var line := BuildLine(ls[n]);
    assert BuildLines(ls)[n] == line && LineTotals(BuildLines(ls))[n] == line.total;
    assert LineVat(line) == Vat(ls[n], line.total);
    hide ToCents, Euros, LineVat, Vat;
  }

  lemma {:induction false} SubtotalNearAmount(ls: seq<InputLine>)
    ensures Near(Amount(ls), Subtotal(BuildLines(ls)), |ls|)
  {
    NoRounding();
    if ls != [] {
      var n := |ls| - 1;
      SubtotalNearAmount(ls[..n]);
      BuildUnfold(ls);
      hide Near, ToCents, BuildLines, Price, Subtotal;
      NearAdds(Amount(ls[..n]), Subtotal(BuildLines(ls[..n])), n, Price(ls[n]));
    }
  }

  lemma TaxAddsOne(ls: seq<InputLine>, totals: seq<int>, front: int, t: int)
    requires ls != [] && |ls| == |totals| && TaxAddsUp(ls[..|ls| - 1], totals[..|ls| - 1], front)
    requires NearestVat(ls[|ls| - 1], totals[|ls| - 1], t)
    ensures TaxAddsUp(ls, totals, front + t)
  {
    hide NearestVat;
    assert front + t - t == front;
  }

  lemma {:induction false} TaxNearVat(ls: seq<InputLine>)
    ensures var totals, tax := LineTotals(BuildLines(ls)), RoundedTax(BuildLines(ls));
            TaxAddsUp(ls, totals, tax) && Near(VatDue(ls, totals), tax, TaxedCount(ls))
  {
    NoRounding();
    if ls != [] {
      var n, totals := |ls| - 1, LineTotals(BuildLines(ls));
      TaxNearVat(ls[..n]);
      BuildUnfold(ls);
      var x, front := Vat(ls[n], totals[n]), RoundedTax(BuildLines(ls[..n]));
      NearestIsToCents(x, ToCents(x));
      hide Near, ToCents, BuildLines, RoundedTax, TaxAddsUp, Nearest, LineTotals, Euros;
      TaxAddsOne(ls, totals, front, ToCents(x));
      if !ls[n].exempt { NearAdds(VatDue(ls[..n], totals[..n]), front, TaxedCount(ls[..n]), x); }
    }
  }

  // Every invoice is what its input lines come to.
  lemma CreatedInvoiceBills(month: int, customer: nat, ls: seq<InputLine>)
    ensures Bills(NewInvoice(month, customer, ls), ls)
  {
    hide Near, TaxAddsUp, Amount, VatDue, TaxedCount, Nearest, ToCents, Subtotal, RoundedTax, Euros;
    SubtotalNearAmount(ls);
    TaxNearVat(ls);
    forall i | 0 <= i < |ls| ensures Nearest(Price(ls[i]), LineTotals(BuildLines(ls))[i]) {
      NearestIsToCents(Price(ls[i]), ToCents(Price(ls[i])));
    }
  }

  // The requests that create invoices.
  function Creates(es: seq<Event>): seq<Event> {
    if es == [] then [] else (if es[0].Create? then [es[0]] else []) + Creates(es[1..])
  }

  // The table holds one invoice for each of these requests, and bills what was asked for.
  ghost predicate BillsAll(b: Books, inputs: seq<Event>) {
    && |b.invoices| == |inputs|
    && forall i | 0 <= i < |inputs| ::
         && inputs[i].Create? && Bills(b.invoices[i], inputs[i].ls)
         && b.invoices[i].month == inputs[i].month && b.invoices[i].customer == inputs[i].customer
  }

  lemma StepBills(b: Books, e: Event, inputs: seq<Event>)
    requires BillsAll(b, inputs)
    ensures BillsAll(Step(b, e), inputs + if e.Create? then [e] else [])
  {
    hide Balanced, PostingLines, Near, Nearest, TaxAddsUp, VatDue, Amount, Euros, NewInvoice;
    if e.Create? {
      CreatedInvoiceBills(e.month, e.customer, e.ls);
      CreatedForRequest(e.month, e.customer, e.ls);
      hide Bills;
    } else {
      assert inputs + [] == inputs;
      forall i | 0 <= i < |inputs| ensures Bills(Step(b, e).invoices[i], inputs[i].ls) {
        assert Step(b, e).invoices[i] == b.invoices[i].(status := Step(b, e).invoices[i].status);
      }
    }
  }

  lemma CreatedForRequest(month: int, customer: nat, ls: seq<InputLine>)
    ensures NewInvoice(month, customer, ls).month == month && NewInvoice(month, customer, ls).customer == customer
  {
  }

  // Over every run, whatever is posted, queued or accepted in between.
  lemma {:induction false} BillsOverRuns(b: Books, es: seq<Event>, inputs: seq<Event>)
    requires BillsAll(b, inputs)
    ensures BillsAll(Run(b, es), inputs + Creates(es))
    decreases |es|
  {
    hide BillsAll, Step;
    if es == [] {
      assert inputs + [] == inputs;
    } else {
      var more := if es[0].Create? then [es[0]] else [];
      StepBills(b, es[0], inputs);
      BillsOverRuns(Step(b, es[0]), es[1..], inputs + more);
      assert inputs + more + Creates(es[1..]) == inputs + Creates(es);
    }
  }

  const NEW_BOOKS := Books([], [])

  lemma NewBooksAgree()
    ensures BooksAgree(NEW_BOOKS, []) && PostingsAgree(NEW_BOOKS, []) && AllMade(NEW_BOOKS) && TaxNonNegative(NEW_BOOKS)
    ensures Drift(NEW_BOOKS) == 0.0 && ManualEntries([]) == 0
  {
  }

  // Everything together, for every run from empty books: invoices bill what was asked for, each is posted once
  // when accepted and for what it is worth, the journal drifts by at most a thousandth for each manual entry, and with
  // inputs that the validators admit accepting a known invoice never fails.
  lemma RunsFromNewBooks(es: seq<Event>)
    ensures var b, splits := Run(NEW_BOOKS, es), RunSplits(NEW_BOOKS, [], es);
            && BillsAll(b, Creates(es)) && AllMade(b) && BooksAgree(b, splits) && PostingsAgree(b, splits)
            && Drift(b) <= 0.001 * ManualEntries(b.journal) as real
            && (ManualInCents(es) ==> JournalDebits(b.journal) == JournalCredits(b.journal))
            && (ValidInputs(es) ==> forall id, split | 0 <= id < |b.invoices| :: AcceptInvoice(b, id, split).Some?)
  {
    NewBooksAgree();
    BooksAgreeOverRuns(NEW_BOOKS, [], es);
    PostingsOverRuns(NEW_BOOKS, [], es);
    MadeOverRuns(NEW_BOOKS, es);
    BillsOverRuns(NEW_BOOKS, es, []);
    assert [] + Creates(es) == Creates(es);
    DriftOverRuns(NEW_BOOKS, [], es);
    if ValidInputs(es) {
      TaxOverRuns(NEW_BOOKS, es);
      var b := Run(NEW_BOOKS, es);
      forall id, split | 0 <= id < |b.invoices| ensures AcceptInvoice(b, id, split).Some? {
        if !b.invoices[id].status.Accepted? { AcceptFailsIff(b, id, split); }
      }
    }
  }
}
