// What a strict reader makes of a finished pain.001 document, for every batch and every execution date.
module Pain001Reader {
  import opened Option
  import opened Decimal
  import opened Xml
  import opened XmlReader
  import opened Pain001

  // Plain text: legal characters without markup or ampersands.
  predicate PlainText(s: string) {
    Legal(s) && '&' !in s && NoMarkup(s)
  }

  // Every printed field holds only characters an XML document may contain.
  predicate LegalPayment(p: Payment) {
    && Legal(p.endToEndId) && Legal(p.currency) && Legal(p.beneficiaryName) && Legal(p.beneficiaryIban)
    && Legal(p.beneficiaryBic) && Legal(p.remittanceInfo)
  }

  predicate LegalPayments(payments: seq<Payment>) {
    forall i | 0 <= i < |payments| :: LegalPayment(payments[i])
  }

  predicate LegalBatch(b: Batch) {
    && Legal(b.msgId) && Legal(b.initiatorName) && Legal(b.initiatorIban) && Legal(b.initiatorBic)
    && LegalPayments(b.payments)
  }

  // ----- One line --------------------------------------------------------------------------------

  // The line holds nothing that a reader refuses.
  predicate Accepted(line: Line) {
    match line
    case Open(_, _, attributes) => Attributes(attributes)
    case Close(_, _) => true
    case Leaf(_, _, _, attributes, text) => Attributes(attributes) && CharData(text)
  }

  predicate AllAccepted(lines: seq<Line>) {
    forall i | 0 <= i < |lines| :: Accepted(lines[i])
  }

  // The elements still open after a line.
  function NestLine(line: Line, open: seq<string>): Option<seq<string>> {
    if open == [] then None
    else match line
      case Open(_, name, _) => Some([name] + open)
      case Close(_, name) => if open[0] == name then Some(open[1..]) else None
      case Leaf(_, _, _, _, _) => Some(open)
  }

  // The elements still open after the first k lines.
  function Nest(lines: seq<Line>, k: nat, open: seq<string>): Option<seq<string>>
    requires k <= |lines|
  {
    if k == 0 then Some(open)
    else
      var before := Nest(lines, k - 1, open);
      if before.None? then None else NestLine(lines[k - 1], before.value)
  }

  predicate NotSlashed(attributes: string) {
    attributes == "" || (attributes[0] == ' ' && attributes[|attributes| - 1] != '/')
  }

  // Names are names, and lines are set off by white space.
  predicate Set(line: Line) {
    && Named(line) && Blank(line.indent)
    && (line.Close? || NotSlashed(line.attributes))
  }

  predicate AllSet(lines: seq<Line>) {
    forall i | 0 <= i < |lines| :: Set(lines[i])
  }

  lemma BlankIsCharData(s: string)
    requires Blank(s)
    ensures CharData(s)
  {
    PlainIsCharData(s);
  }

  lemma StartTagOf(name: string, attributes: string)
    requires IsName(name) && NotSlashed(attributes)
    ensures StartTag(name + attributes) <==> Attributes(attributes)
    ensures !SelfCloses(name + attributes) && TagName(name + attributes) == name
    ensures forall other :: !EndTag(name + attributes, other)
  {
    hide Attributes;
    TagNameOf(name, attributes);
    assert (name + attributes)[|name|..|name + attributes|] == attributes && (name + attributes)[0] == name[0];
    if attributes == "" {
      assert name + attributes == name;
    } else {
      assert (name + attributes)[|name + attributes| - 1] == attributes[|attributes| - 1];
    }
  }

  lemma ScanOpen(name: string, attributes: string, open: seq<string>)
    requires IsName(name) && NotSlashed(attributes)
    ensures ScanItem(Tag(name + attributes), open) ==
            if open != [] && Attributes(attributes) then Some([name] + open) else None
  {
    hide Attributes, StartTag, EndTag, SelfCloses, TagName, IsName;
    StartTagOf(name, attributes);
  }

  lemma ScanClose(name: string, open: seq<string>)
    requires IsName(name)
    ensures ScanItem(Tag("/" + name), open) == if open != [] && open[0] == name then Some(open[1..]) else None
  {
    var content := "/" + name;
    TagNameOf(name, "");
    assert name + "" == name && content[1..] == name && name[|name|..] == "";
    assert NamePrefix(content) == 0;
    hide Attributes, CharData, NamePrefix;
  }

  lemma ScanData(content: string, open: seq<string>)
    requires open != []
    ensures ScanItem(Data(content), open) == if CharData(content) then Some(open) else None
  {
  }

  lemma ScanElement(name: string, attributes: string, text: string, open: seq<string>)
    requires IsName(name) && NotSlashed(attributes)
    ensures Scan(Element(name, attributes, text), open) ==
            if open != [] && Attributes(attributes) && CharData(text) then Some(open) else None
  {
    hide Attributes, CharData, ScanItem, Scan, IsName, NotSlashed;
    var first, last := Tag(name + attributes), Tag("/" + name);
    var middle := if text == "" then [] else [Data(text)];
    ScanConcat([first], middle + [last], open);
    assert [first] + (middle + [last]) == Element(name, attributes, text);
    ScanOne(first, open);
    ScanOpen(name, attributes, open);
    var inside := [name] + open;
    ScanConcat(middle, [last], inside);
    ScanOne(last, inside);
    ScanClose(name, inside);
    assert inside[1..] == open;
    if text == "" {
      BlankIsCharData("");
      ScanNothing(inside);
    } else {
      ScanOne(Data(text), inside);
      ScanData(text, inside);
    }
  }

  lemma ScanNothing(open: seq<string>)
    ensures Scan([], open) == Some(open)
  {
  }

  lemma AttributesOfNone()
    ensures Attributes("") && NotSlashed("")
  {
  }

  lemma {:induction false} ScanWrap(wrappers: seq<string>, name: string, attributes: string, text: string,
                                    open: seq<string>)
    requires IsName(name) && NotSlashed(attributes)
    requires forall i | 0 <= i < |wrappers| :: IsName(wrappers[i])
    ensures Scan(Wrap(wrappers, Element(name, attributes, text)), open) ==
            if open != [] && Attributes(attributes) && CharData(text) then Some(open) else None
    decreases |wrappers|
  {
    hide Attributes, CharData, ScanItem, Scan, NotSlashed, Element;
    if wrappers == [] {
      ScanElement(name, attributes, text, open);
    } else {
      var outer, inner := wrappers[0], Wrap(wrappers[1..], Element(name, attributes, text));
      assert IsName(outer) && outer + "" == outer;
      hide IsName;
      var first, last, inside := Tag(outer), Tag("/" + outer), [outer] + open;
      AttributesOfNone();
      ScanConcat([first], inner + [last], open);
      assert [first] + (inner + [last]) == [first] + inner + [last];
      ScanOne(first, open);
      ScanOpen(outer, "", open);
      ScanConcat(inner, [last], inside);
      ScanWrap(wrappers[1..], name, attributes, text, inside);
      ScanOne(last, inside);
      ScanClose(outer, inside);
      assert inside[1..] == open;
    }
  }

  lemma ScanBlock(line: Line, open: seq<string>)
    requires Set(line)
    ensures Scan(Block(line), open) == if Accepted(line) then NestLine(line, open) else None
  {
    hide Attributes, CharData, ScanItem, Scan, IsName, NotSlashed, Element;
    match line
    case Open(_, name, attributes) =>
      ScanOne(Tag(name + attributes), open);
      ScanOpen(name, attributes, open);
    case Close(_, name) =>
      ScanOne(Tag("/" + name), open);
      ScanClose(name, open);
    case Leaf(_, wrappers, name, attributes, text) =>
      ScanWrap(wrappers, name, attributes, text, open);
  }

  lemma ScanIndent(indent: string, open: seq<string>)
    requires Blank(indent)
    ensures Scan([Data(indent)], open) == Some(open)
  {
    hide CharData;
    BlankIsCharData(indent);
    ScanOne(Data(indent), open);
  }

  // ----- Many lines ------------------------------------------------------------------------------

  lemma NestOfFront(lines: seq<Line>, k: nat, open: seq<string>)
    requires k < |lines|
    ensures Nest(lines[..|lines| - 1], k, open) == Nest(lines, k, open)
  {
    hide NestLine;
    if k > 0 { NestOfFront(lines, k - 1, open); }
  }

  // Reading lines is nesting their elements, provided nothing in them is refused.
  lemma {:induction false} ScanBody(lines: seq<Line>, open: seq<string>)
    requires AllSet(lines)
    ensures Scan(Body(lines), open) == if AllAccepted(lines) then Nest(lines, |lines|, open) else None
  {
    hide Scan, Set, Accepted, NestLine, Block;
    if lines == [] {
      ScanNothing(open);
    } else {
      var n := |lines| - 1;
      var front, last := lines[..n], lines[n];
      ScanBody(front, open);
      NestOfFront(lines, n, open);
      ScanConcat(Body(front), [Data(last.indent)] + Block(last), open);
      assert AllAccepted(lines) <==> AllAccepted(front) && Accepted(last);
      if Scan(Body(front), open).Some? {
        var middle := Scan(Body(front), open).value;
        ScanConcat([Data(last.indent)], Block(last), middle);
        IndentOfSet(last);
        ScanIndent(last.indent, middle);
        ScanBlock(last, middle);
      }
    }
  }

  lemma IndentOfSet(line: Line)
    requires Set(line)
    ensures Blank(line.indent)
  {
  }

  function NestAll(lines: seq<Line>, open: seq<string>): Option<seq<string>> {
    Nest(lines, |lines|, open)
  }

  lemma {:induction false} NestPrefix(a: seq<Line>, b: seq<Line>, k: nat, open: seq<string>)
    requires k <= |a|
    ensures Nest(a + b, k, open) == Nest(a, k, open)
  {
    hide NestLine;
    if k > 0 { NestPrefix(a, b, k - 1, open); }
  }

  lemma {:induction false} NestSuffix(a: seq<Line>, b: seq<Line>, k: nat, open: seq<string>)
    requires k <= |b| && NestAll(a, open).Some?
    ensures Nest(a + b, |a| + k, open) == Nest(b, k, NestAll(a, open).value)
  {
    hide NestLine;
    if k == 0 {
      NestPrefix(a, b, |a|, open);
    } else {
      NestSuffix(a, b, k - 1, open);
      assert (a + b)[|a| + k - 1] == b[k - 1];
    }
  }

  lemma NestConcat(a: seq<Line>, b: seq<Line>, open: seq<string>)
    requires NestAll(a, open).Some?
    ensures NestAll(a + b, open) == NestAll(b, NestAll(a, open).value)
  {
    NestSuffix(a, b, |b|, open);
  }

  lemma AcceptedConcat(a: seq<Line>, b: seq<Line>)
    ensures AllAccepted(a + b) <==> AllAccepted(a) && AllAccepted(b)
    ensures AllSet(a) && AllSet(b) ==> AllSet(a + b)
  {
    hide Accepted, Set;
    forall i | 0 <= i < |a| ensures (a + b)[i] == a[i] {
    }
    forall i | 0 <= i < |b| ensures (a + b)[|a| + i] == b[i] {
    }
  }

  // Stretches of lines follow each other: from `a` open elements to `c`, with the given condition for acceptance.
  ghost predicate Passes(lines: seq<Line>, a: seq<string>, c: seq<string>, accepted: bool) {
    AllSet(lines) && NestAll(lines, a) == Some(c) && (AllAccepted(lines) <==> accepted)
  }

  lemma PassesConcat(x: seq<Line>, y: seq<Line>, a: seq<string>, b: seq<string>, c: seq<string>, p: bool, q: bool)
    requires Passes(x, a, b, p) && Passes(y, b, c, q)
    ensures Passes(x + y, a, c, p && q)
  {
    hide AllSet, AllAccepted, NestAll;
    AcceptedConcat(x, y);
    NestConcat(x, y, a);
  }

  lemma PassesNothing(a: seq<string>)
    ensures Passes([], a, a, true)
  {
  }

  lemma PassesOne(line: Line, a: seq<string>, c: seq<string>)
    requires Set(line) && NestLine(line, a) == Some(c)
    ensures Passes([line], a, c, Accepted(line))
  {
    hide Set, Accepted, NestLine;
    assert Nest([line], 0, a) == Some(a);
    assert [line][0] == line;
  }

  // ----- The lines of the document ---------------------------------------------------------------

  lemma LeafPasses(indent: string, wrappers: seq<string>, name: string, text: string, open: seq<string>)
    requires Blank(indent) && IsName(name) && open != []
    requires forall i | 0 <= i < |wrappers| :: IsName(wrappers[i])
    ensures Passes([Leaf(indent, wrappers, name, "", text)], open, open, CharData(text))
  {
    hide Attributes, CharData, IsName;
    AttributesOfNone();
    PassesOne(Leaf(indent, wrappers, name, "", text), open, open);
  }

  lemma EscapedLeafPasses(indent: string, wrappers: seq<string>, name: string, field: string, open: seq<string>)
    requires Blank(indent) && IsName(name) && open != []
    requires forall i | 0 <= i < |wrappers| :: IsName(wrappers[i])
    ensures Passes([Leaf(indent, wrappers, name, "", EscapeXml(field))], open, open, Legal(field))
  {
    hide CharData, IsName, EscapeXml, Legal;
    LeafPasses(indent, wrappers, name, EscapeXml(field), open);
    assert EscapeXml(field) + "" == EscapeXml(field);
    NothingIsLegal();
    EscapedIsCharData(field, "");
  }

  lemma NothingIsLegal()
    ensures Legal("") && NoMarkup("")
  {
  }

  lemma OpenPasses(indent: string, name: string, open: seq<string>)
    requires Blank(indent) && IsName(name) && open != []
    ensures Passes([Open(indent, name, "")], open, [name] + open, true)
  {
    hide Attributes, IsName;
    AttributesOfNone();
    PassesOne(Open(indent, name, ""), open, [name] + open);
  }

  lemma ClosePasses(indent: string, name: string, open: seq<string>)
    requires Blank(indent) && IsName(name)
    ensures Passes([Close(indent, name)], [name] + open, open, true)
  {
    hide IsName;
    assert ([name] + open)[1..] == open;
    PassesOne(Close(indent, name), [name] + open, open);
  }

  // An element with one leaf in it.
  lemma EnclosedPasses(outer: string, name: string, inner: string, wrappers: seq<string>, leaf: string, field: string,
                       open: seq<string>)
    requires Blank(outer) && IsName(name) && Blank(inner) && IsName(leaf) && open != []
    requires forall i | 0 <= i < |wrappers| :: IsName(wrappers[i])
    ensures Passes([Open(outer, name, ""), Leaf(inner, wrappers, leaf, "", EscapeXml(field)), Close(outer, name)],
                   open, open, Legal(field))
  {
    hide Passes, IsName, EscapeXml, Legal;
    var first, last := Open(outer, name, ""), Close(outer, name);
    var middle := Leaf(inner, wrappers, leaf, "", EscapeXml(field));
    OpenPasses(outer, name, open);
    EscapedLeafPasses(inner, wrappers, leaf, field, [name] + open);
    ClosePasses(outer, name, open);
    PassesConcat([first], [middle], open, [name] + open, [name] + open, true, Legal(field));
    PassesConcat([first] + [middle], [last], open, [name] + open, open, Legal(field), true);
    assert [first, middle, last] == [first] + [middle] + [last];
  }

  lemma PassesThree(x: seq<Line>, y: seq<Line>, z: seq<Line>, a: seq<string>, b: seq<string>, c: seq<string>,
                    d: seq<string>, p: bool, q: bool, r: bool)
    requires Passes(x, a, b, p) && Passes(y, b, c, q) && Passes(z, c, d, r)
    ensures Passes(x + y + z, a, d, p && q && r)
  {
    hide Passes;
    PassesConcat(x, y, a, b, c, p, q);
    PassesConcat(x + y, z, a, c, d, p && q, r);
  }

  // What is open in the group header, in the payment information, and at the text of the execution date.
  const IN_HEADER: seq<string> := ["GrpHdr", "CstmrCdtTrfInitn", "Document"]
  const IN_PAYMENTS: seq<string> := ["PmtInf", "CstmrCdtTrfInitn", "Document"]
  const AT_DATE: seq<string> := ["Dt", "ReqdExctnDt"] + IN_PAYMENTS
  const AFTER_DATE: seq<string> := ["ReqdExctnDt"] + IN_PAYMENTS

  lemma IndentsBlank()
    ensures Blank("\n") && Blank("\n  ") && Blank("\n    ") && Blank("\n\n    ")
    ensures Blank("\n      ") && Blank("\n        ") && Blank("\n          ")
  {
  }

  lemma HeaderPasses(b: Batch, now: string)
    requires PlainText(now)
    ensures Passes(HeaderLines(b, now), ["Document"], IN_HEADER, Legal(b.msgId))
  {
    hide Passes, IsName, EscapeXml, Legal, CharData;
    IndentsBlank();
    GoodNames();
    var outer := ["CstmrCdtTrfInitn", "Document"];
    assert ["CstmrCdtTrfInitn"] + ["Document"] == outer && ["GrpHdr"] + outer == IN_HEADER;
    OpenPasses("\n  ", "CstmrCdtTrfInitn", ["Document"]);
    OpenPasses("\n    ", "GrpHdr", outer);
    EscapedLeafPasses("\n      ", [], "MsgId", b.msgId, IN_HEADER);
    LeafPasses("\n      ", [], "CreDtTm", now, IN_HEADER);
    PlainIsCharData(now);
    var lines := HeaderLines(b, now);
    PassesThree([lines[0]], [lines[1]], [lines[2]], ["Document"], outer, IN_HEADER, IN_HEADER, true, true,
                Legal(b.msgId));
    PassesConcat([lines[0]] + [lines[1]] + [lines[2]], [lines[3]], ["Document"], IN_HEADER, IN_HEADER, Legal(b.msgId),
                 true);
    assert lines == [lines[0]] + [lines[1]] + [lines[2]] + [lines[3]];
  }

  lemma DigitsArePlain(n: nat)
    ensures PlainText(Digits(n))
  {
    DigitsRoundTrip(n);
    forall i | 0 <= i < |Digits(n)| ensures IsDigit(Digits(n)[i]) {
      assert Digits(n)[i] in Digits(n);
    }
    forall c | c in Digits(n) ensures IsDigit(c) {
    }
  }

  lemma PlainConcat(a: string, b: string)
    requires PlainText(a) && PlainText(b)
    ensures PlainText(a + b)
  {
    LegalConcat(a, b);
  }

  lemma EuroIsPlainText(cents: int)
    ensures PlainText(Euro(cents))
    decreases if cents < 0 then 1 else 0
  {
    if cents < 0 {
      EuroIsPlainText(-cents);
      PlainConcat("-", Euro(-cents));
    } else {
      DigitsArePlain(cents / 100);
      PlainConcat(Digits(cents / 100), ".");
      PlainConcat(Digits(cents / 100) + ".", TwoDigits(cents % 100));
    }
  }

  lemma PlainPasses(indent: string, name: string, text: string, open: seq<string>)
    requires Blank(indent) && IsName(name) && open != [] && PlainText(text)
    ensures Passes([Leaf(indent, [], name, "", text)], open, open, true)
  {
    hide Passes, IsName, CharData;
    PlainIsCharData(text);
    LeafPasses(indent, [], name, text, open);
  }

  lemma TotalPasses(b: Batch, open: seq<string>)
    requires open != []
    ensures Passes(TotalLines(b), open, open, true)
  {
    hide Passes, IsName, PlainText, Digits, Euro, Total;
    IndentsBlank();
    TargetNames();
    DigitsArePlain(|b.payments|);
    EuroIsPlainText(Total(b.payments));
    var lines := TotalLines(b);
    PlainPasses("\n      ", "NbOfTxs", Digits(|b.payments|), open);
    PlainPasses("\n      ", "CtrlSum", Euro(Total(b.payments)), open);
    PassesConcat([lines[0]], [lines[1]], open, open, open, true, true);
    assert lines == [lines[0]] + [lines[1]];
  }

  lemma InitiatorPasses(b: Batch)
    ensures Passes(InitiatorLines(b), IN_HEADER, IN_PAYMENTS, Legal(b.initiatorName) && Legal(b.msgId))
  {
    hide Passes, IsName, EscapeXml, Legal, CharData;
    IndentsBlank();
    GoodNames();
    var outer, lines := ["CstmrCdtTrfInitn", "Document"], InitiatorLines(b);
    assert ["GrpHdr"] + outer == IN_HEADER && ["PmtInf"] + outer == IN_PAYMENTS;
    EnclosedPasses("\n      ", "InitgPty", "\n        ", [], "Nm", b.initiatorName, IN_HEADER);
    ClosePasses("\n    ", "GrpHdr", outer);
    OpenPasses("\n    ", "PmtInf", outer);
    var party := [lines[0], lines[1], lines[2]];
    PassesThree(party, [lines[3]], [lines[4]], IN_HEADER, IN_HEADER, outer, IN_PAYMENTS, Legal(b.initiatorName), true,
                true);
    LeafPasses("\n      ", [], "PmtInfId", EscapeXml(b.msgId) + "-PI1", IN_PAYMENTS);
    EndingIsPlain();
    EscapedIsCharData(b.msgId, "-PI1");
    PlainPasses("\n      ", "PmtMtd", "TRF", IN_PAYMENTS);
    PassesThree(party + [lines[3]] + [lines[4]], [lines[5]], [lines[6]], IN_HEADER, IN_PAYMENTS, IN_PAYMENTS,
                IN_PAYMENTS, Legal(b.initiatorName), Legal(b.msgId), true);
    assert lines == party + [lines[3]] + [lines[4]] + [lines[5]] + [lines[6]];
  }

  lemma EndingIsPlain()
    ensures PlainText("-PI1") && PlainText("TRF")
  {
  }

  // An optional element at the end of a stretch; an absent field is the empty string.
  lemma OptionalPasses(lines: seq<Line>, indent: string, wrappers: seq<string>, name: string, field: string,
                       open: seq<string>, accepted: bool)
    requires Passes(lines, open, open, accepted) && Blank(indent) && IsName(name) && open != []
    requires forall i | 0 <= i < |wrappers| :: IsName(wrappers[i])
    ensures Passes(lines + if field == "" then [] else [Leaf(indent, wrappers, name, "", EscapeXml(field))], open, open,
                   accepted && Legal(field))
  {
    hide Passes, IsName, EscapeXml, Legal;
    if field == "" {
      NothingIsLegal();
      assert lines + [] == lines;
    } else {
      EscapedLeafPasses(indent, wrappers, name, field, open);
      PassesConcat(lines, [Leaf(indent, wrappers, name, "", EscapeXml(field))], open, open, open, accepted,
                   Legal(field));
    }
  }

  lemma DebtorPasses(b: Batch)
    ensures Passes(DebtorLines(b), IN_PAYMENTS, IN_PAYMENTS,
                   Legal(b.initiatorName) && Legal(b.initiatorIban) && Legal(b.initiatorBic))
  {
    hide Passes, IsName, EscapeXml, Legal;
    IndentsBlank();
    GoodNames();
    MoreGoodNames();
    EvenMoreGoodNames();
    var open := IN_PAYMENTS;
    EnclosedPasses("\n      ", "Dbtr", "\n        ", [], "Nm", b.initiatorName, open);
    EnclosedPasses("\n      ", "DbtrAcct", "\n        ", ["Id"], "IBAN", b.initiatorIban, open);
    var party := [Open("\n      ", "Dbtr", ""), Leaf("\n        ", [], "Nm", "", EscapeXml(b.initiatorName)),
                  Close("\n      ", "Dbtr")];
    var account := [Open("\n      ", "DbtrAcct", ""),
                    Leaf("\n        ", ["Id"], "IBAN", "", EscapeXml(b.initiatorIban)),
                    Close("\n      ", "DbtrAcct")];
    PassesConcat(party, account, open, open, open, Legal(b.initiatorName), Legal(b.initiatorIban));
    OptionalPasses(party + account, "\n      ", ["DbtrAgt", "FinInstnId"], "BICFI", b.initiatorBic, open,
                   Legal(b.initiatorName) && Legal(b.initiatorIban));
    assert DebtorLines(b) == party + account + if b.initiatorBic == "" then []
      else [Leaf("\n      ", ["DbtrAgt", "FinInstnId"], "BICFI", "", EscapeXml(b.initiatorBic))];
  }

  lemma ReferencePasses(p: Payment)
    ensures Passes(ReferenceLines(p), ["CdtTrfTxInf"] + IN_PAYMENTS, ["Amt"] + (["CdtTrfTxInf"] + IN_PAYMENTS),
                   Legal(p.endToEndId))
  {
    hide Passes, IsName, EscapeXml, Legal;
    IndentsBlank();
    MoreGoodNames();
    var open, lines := ["CdtTrfTxInf"] + IN_PAYMENTS, ReferenceLines(p);
    EnclosedPasses("\n        ", "PmtId", "\n          ", [], "EndToEndId", p.endToEndId, open);
    OpenPasses("\n        ", "Amt", open);
    PassesConcat([lines[0], lines[1], lines[2]], [lines[3]], open, open, ["Amt"] + open, Legal(p.endToEndId), true);
    assert lines == [lines[0], lines[1], lines[2]] + [lines[3]];
  }

  lemma CreditorPasses(p: Payment)
    ensures Passes(CreditorLines(p), ["Amt"] + (["CdtTrfTxInf"] + IN_PAYMENTS), ["CdtTrfTxInf"] + IN_PAYMENTS,
                   Legal(p.beneficiaryName) && Legal(p.beneficiaryIban) && Legal(p.beneficiaryBic)
                   && Legal(p.remittanceInfo))
  {
    hide Passes, IsName, EscapeXml, Legal;
    IndentsBlank();
    GoodNames();
    MoreGoodNames();
    EvenMoreGoodNames();
    var open := ["CdtTrfTxInf"] + IN_PAYMENTS;
    var name, iban := Legal(p.beneficiaryName), Legal(p.beneficiaryIban);
    var bic, info := Legal(p.beneficiaryBic), Legal(p.remittanceInfo);
    EnclosedPasses("\n        ", "Cdtr", "\n          ", [], "Nm", p.beneficiaryName, open);
    EnclosedPasses("\n        ", "CdtrAcct", "\n          ", ["Id"], "IBAN", p.beneficiaryIban, open);
    var close := [Close("\n        ", "Amt")];
    var party := [Open("\n        ", "Cdtr", ""), Leaf("\n          ", [], "Nm", "", EscapeXml(p.beneficiaryName)),
                  Close("\n        ", "Cdtr")];
    var account := [Open("\n        ", "CdtrAcct", ""),
                    Leaf("\n          ", ["Id"], "IBAN", "", EscapeXml(p.beneficiaryIban)),
                    Close("\n        ", "CdtrAcct")];
    PassesConcat(party, account, open, open, open, name, iban);
    OptionalPasses(party + account, "\n        ", ["CdtrAgt", "FinInstnId"], "BICFI", p.beneficiaryBic, open,
                   name && iban);
    var bank := if p.beneficiaryBic == "" then []
                else [Leaf("\n        ", ["CdtrAgt", "FinInstnId"], "BICFI", "", EscapeXml(p.beneficiaryBic))];
    OptionalPasses(party + account + bank, "\n        ", ["RmtInf"], "Ustrd", p.remittanceInfo, open,
                   name && iban && bic);
    var remittance := if p.remittanceInfo == "" then []
                      else [Leaf("\n        ", ["RmtInf"], "Ustrd", "", EscapeXml(p.remittanceInfo))];
    ClosePasses("\n        ", "Amt", open);
    PassesConcat(close, party + account + bank + remittance, ["Amt"] + open, open, open, true,
                 name && iban && bic && info);
    assert CreditorLines(p) == close + (party + account + bank + remittance);
  }

  lemma EscapedHasNoQuote(s: string)
    ensures '"' !in EscapeXml(s)
  {
    EscapeIsSinglePass(s);
    OnceHasNoQuote(s);
  }

  lemma {:induction false} OnceHasNoQuote(s: string)
    ensures '"' !in EscapeOnce(s)
  {
    if s != "" { OnceHasNoQuote(s[1..]); }
  }

  lemma AttributeAccepted(name: string, value: string)
    requires IsName(name) && '"' !in value && NoMarkup(value)
    ensures Attributes(Attribute(name, value)) <==> Legal(value) && CleanText(value)
    ensures NotSlashed(Attribute(name, value))
  {
    hide Attributes, Legal, CleanText, IsName;
    OneAttribute(name, value);
    var s := Attribute(name, value);
    assert s[|s| - 1] == '"';
  }

  lemma CurrencyAccepted(currency: string)
    ensures Attributes(Attribute("Ccy", EscapeXml(currency))) <==> Legal(currency)
    ensures NotSlashed(Attribute("Ccy", EscapeXml(currency)))
  {
    EscapedHasNoQuote(currency);
    EscapedHasNoMarkup(currency);
    assert IsName("Ccy");
    hide Attributes, Legal, CleanText, IsName, EscapeXml;
    AttributeAccepted("Ccy", EscapeXml(currency));
    NothingIsLegal();
    EscapedIsCharData(currency, "");
    assert EscapeXml(currency) + "" == EscapeXml(currency);
    EscapeIsSinglePass(currency);
    EscapedIsClean(currency, "");
    EscapedIsLegal(currency);
    assert CleanText("") by { PlainIsClean(""); }
  }

  lemma AmountPasses(p: Payment, open: seq<string>)
    requires open != []
    ensures Passes([AmountLine(p)], open, open, Legal(p.currency))
  {
    IndentsBlank();
    TargetNames();
    CurrencyAccepted(p.currency);
    EuroIsPlainText(p.amountCents);
    PlainIsCharData(Euro(p.amountCents));
    hide Attributes, Legal, CharData, IsName, EscapeXml, Euro, NotSlashed, Attribute;
    PassesOne(AmountLine(p), open, open);
  }

  lemma PaymentPasses(p: Payment)
    ensures Passes(PaymentLines(p), IN_PAYMENTS, IN_PAYMENTS, LegalPayment(p))
  {
    hide Passes, IsName, Legal;
    IndentsBlank();
    TargetNames();
    var open := ["CdtTrfTxInf"] + IN_PAYMENTS;
    var amt := ["Amt"] + open;
    OpenPasses("\n      ", "CdtTrfTxInf", IN_PAYMENTS);
    ReferencePasses(p);
    AmountPasses(p, amt);
    CreditorPasses(p);
    ClosePasses("\n      ", "CdtTrfTxInf", IN_PAYMENTS);
    var first, last := [Open("\n      ", "CdtTrfTxInf", "")], [Close("\n      ", "CdtTrfTxInf")];
    var name, iban := Legal(p.beneficiaryName), Legal(p.beneficiaryIban);
    var bic, info := Legal(p.beneficiaryBic), Legal(p.remittanceInfo);
    PassesThree(first, ReferenceLines(p), [AmountLine(p)], IN_PAYMENTS, open, amt, amt, true, Legal(p.endToEndId),
                Legal(p.currency));
    PassesThree(first + ReferenceLines(p) + [AmountLine(p)], CreditorLines(p), last, IN_PAYMENTS, amt, open,
                IN_PAYMENTS,
                Legal(p.endToEndId) && Legal(p.currency), name && iban && bic && info, true);
  }

  lemma LegalPaymentsUnfold(payments: seq<Payment>)
    ensures payments == [] ==> LegalPayments(payments)
    ensures payments != [] ==>
              var front, last := payments[..|payments| - 1], payments[|payments| - 1];
              (LegalPayments(payments) <==> LegalPayments(front) && LegalPayment(last))
  {
    hide LegalPayment;
  }

  lemma {:induction false} PaymentsPass(payments: seq<Payment>)
    ensures Passes(AllPaymentLines(payments), IN_PAYMENTS, IN_PAYMENTS, LegalPayments(payments))
  {
    hide Passes, LegalPayment, LegalPayments, PaymentLines;
    LegalPaymentsUnfold(payments);
    if payments == [] {
      PassesNothing(IN_PAYMENTS);
    } else {
      var front, last := payments[..|payments| - 1], payments[|payments| - 1];
      PaymentsPass(front);
      PaymentPasses(last);
      PassesConcat(AllPaymentLines(front), PaymentLines(last), IN_PAYMENTS, IN_PAYMENTS, IN_PAYMENTS,
                   LegalPayments(front), LegalPayment(last));
    }
  }

  lemma FooterPasses(b: Batch)
    ensures Passes(FooterLines(b), IN_PAYMENTS, [], true)
  {
    hide Passes, IsName;
    IndentsBlank();
    GoodNames();
    MoreGoodNames();
    var outer, lines := ["CstmrCdtTrfInitn", "Document"], FooterLines(b);
    assert ["PmtInf"] + outer == IN_PAYMENTS && ["CstmrCdtTrfInitn"] + ["Document"] == outer
           && ["Document"] + [] == ["Document"];
    ClosePasses(lines[0].indent, "PmtInf", outer);
    ClosePasses("\n  ", "CstmrCdtTrfInitn", ["Document"]);
    ClosePasses("\n", "Document", []);
    PassesThree([lines[0]], [lines[1]], [lines[2]], IN_PAYMENTS, outer, ["Document"], [], true, true, true);
    assert lines == [lines[0]] + [lines[1]] + [lines[2]];
  }

  predicate LegalFront(b: Batch) {
    Legal(b.msgId) && Legal(b.initiatorName)
  }

  predicate LegalBack(b: Batch) {
    Legal(b.initiatorName) && Legal(b.initiatorIban) && Legal(b.initiatorBic) && LegalPayments(b.payments)
  }

  // ----- Around the date -------------------------------------------------------------------------

  lemma BackPasses(b: Batch)
    ensures Passes(BackLines(b), IN_PAYMENTS, [], LegalBack(b))
  {
    hide Passes, Legal;
    var debtor := Legal(b.initiatorName) && Legal(b.initiatorIban) && Legal(b.initiatorBic);
    DebtorPasses(b);
    PaymentsPass(b.payments);
    FooterPasses(b);
    PassesThree(DebtorLines(b), AllPaymentLines(b.payments), FooterLines(b), IN_PAYMENTS, IN_PAYMENTS, IN_PAYMENTS, [],
                debtor, LegalPayments(b.payments), true);
  }

  // The front lines after the root.
  function InnerFront(b: Batch, now: string): seq<Line> {
    HeaderLines(b, now) + TotalLines(b) + InitiatorLines(b) + TotalLines(b)
  }

  lemma FrontPasses(b: Batch, now: string)
    requires PlainText(now)
    ensures Passes(InnerFront(b, now), ["Document"], IN_PAYMENTS, LegalFront(b))
  {
    hide Passes, Legal, PlainText;
    HeaderPasses(b, now);
    TotalPasses(b, IN_HEADER);
    InitiatorPasses(b);
    TotalPasses(b, IN_PAYMENTS);
    var header, initiator := HeaderLines(b, now), InitiatorLines(b);
    PassesThree(header, TotalLines(b), initiator, ["Document"], IN_HEADER, IN_HEADER, IN_PAYMENTS,
                Legal(b.msgId), true, Legal(b.initiatorName) && Legal(b.msgId));
    PassesConcat(header + TotalLines(b) + initiator, TotalLines(b), ["Document"], IN_PAYMENTS, IN_PAYMENTS,
                 LegalFront(b), true);
  }

  lemma PassesScan(lines: seq<Line>, a: seq<string>, c: seq<string>, accepted: bool)
    requires Passes(lines, a, c, accepted)
    ensures Scan(Body(lines), a) == if accepted then Some(c) else None
  {
    hide AllSet, AllAccepted, Nest, Body;
    ScanBody(lines, a);
  }

  lemma RefusedScan(lines: seq<Line>, a: seq<string>, c: seq<string>, open: seq<string>)
    requires Passes(lines, a, c, false)
    ensures Scan(Body(lines), open) == None
  {
    hide AllSet, AllAccepted, Nest, Body;
    ScanBody(lines, open);
  }

  // ----- The root --------------------------------------------------------------------------------

  predicate Unquoted(s: string) {
    forall i | 0 <= i < |s| :: s[i] != '"'
  }

  lemma UnquotedConcat(a: string, b: string)
    requires PlainText(a) && PlainText(b) && Unquoted(a) && Unquoted(b)
    ensures PlainText(a + b) && Unquoted(a + b)
  {
    PlainConcat(a, b);
  }

  lemma SchemePlain()
    ensures PlainText("urn:iso:std:iso:") && Unquoted("urn:iso:std:iso:")
  {
  }

  lemma StandardPlain()
    ensures PlainText("20022:tech:xsd:") && Unquoted("20022:tech:xsd:")
  {
  }

  lemma MessagePlain()
    ensures PlainText("pain.001.001.09") && Unquoted("pain.001.001.09")
  {
  }

  lemma NamespaceIsPlain()
    ensures PlainText(NAMESPACE) && '"' !in NAMESPACE
  {
    hide PlainText;
    SchemePlain();
    StandardPlain();
    MessagePlain();
    UnquotedConcat("urn:iso:std:iso:", "20022:tech:xsd:");
    UnquotedConcat("urn:iso:std:iso:" + "20022:tech:xsd:", "pain.001.001.09");
  }

  lemma RootIsStart()
    ensures var root := "Document" + Attribute("xmlns", NAMESPACE);
            StartTag(root) && !SelfCloses(root) && TagName(root) == "Document"
  {
    MoreGoodNames();
    assert IsName("xmlns");
    NamespaceIsPlain();
    PlainIsClean(NAMESPACE);
    AttributeAccepted("xmlns", NAMESPACE);
    hide Attribute, Attributes, Legal, CleanText, IsName, StartTag, SelfCloses, TagName, NotSlashed;
    StartTagOf("Document", Attribute("xmlns", NAMESPACE));
  }

  lemma BodyOfRoot()
    ensures Body([ROOT]) == [Data("\n"), Tag("Document" + Attribute("xmlns", NAMESPACE))]
  {
    hide Attribute;
    assert [ROOT][..0] == [] && Body([]) == [];
  }

  // ----- The whole document ----------------------------------------------------------------------

  const DATE_OPEN: seq<Item> := [Data("\n      "), Tag("ReqdExctnDt"), Tag("Dt")]

  // The document after the declaration and the root's opening tag.
  function Inside(b: Batch, now: string, date: string): seq<Item> {
    Body(InnerFront(b, now)) + DATE_OPEN + (DateItems(date) + AfterDate(b))
  }

  lemma BeforeDateSplits(b: Batch, now: string)
    ensures BeforeDate(b, now) ==
            [Tag(DECLARATION), Data("\n"), Tag("Document" + Attribute("xmlns", NAMESPACE))]
            + (Body(InnerFront(b, now)) + DATE_OPEN)
  {
    hide Body, HeaderLines, TotalLines, InitiatorLines, Attribute;
    assert FrontLines(b, now) == [ROOT] + InnerFront(b, now);
    BodyConcat([ROOT], InnerFront(b, now));
    BodyOfRoot();
  }

  lemma WellFormedInside(root: string, inside: seq<Item>)
    requires StartTag(root) && !SelfCloses(root) && TagName(root) == "Document"
    ensures WellFormed([Tag(DECLARATION), Data("\n"), Tag(root)] + inside, Tag(DECLARATION)) <==>
            Scan(inside, ["Document"]) == Some([])
  {
    hide Scan, StartTag, SelfCloses, TagName, DECLARATION;
    var items := [Tag(DECLARATION), Data("\n"), Tag(root)] + inside;
    assert items[3..] == inside;
    IndentsBlank();
  }

  lemma ScanDateOpen()
    ensures Scan(DATE_OPEN, IN_PAYMENTS) == Some(AT_DATE)
  {
    IndentsBlank();
    MoreGoodNames();
    EvenMoreGoodNames();
    AttributesOfNone();
    hide Scan, ScanItem, IsName, Attributes, NotSlashed;
    var first, second, third := Data("\n      "), Tag("ReqdExctnDt"), Tag("Dt");
    ScanIndent("\n      ", IN_PAYMENTS);
    ScanOne(second, IN_PAYMENTS);
    ScanOpen("ReqdExctnDt", "", IN_PAYMENTS);
    ScanOne(third, AFTER_DATE);
    ScanOpen("Dt", "", AFTER_DATE);
    assert "ReqdExctnDt" + "" == "ReqdExctnDt" && "Dt" + "" == "Dt" && ["Dt"] + AFTER_DATE == AT_DATE;
    ScanConcat([first], [second] + [third], IN_PAYMENTS);
    ScanConcat([second], [third], IN_PAYMENTS);
    assert DATE_OPEN == [first] + ([second] + [third]);
  }

  lemma ScanBefore(b: Batch, now: string)
    requires PlainText(now)
    ensures Scan(Body(InnerFront(b, now)) + DATE_OPEN, ["Document"]) == if LegalFront(b) then Some(AT_DATE) else None
  {
    hide Scan, Body, InnerFront, PlainText, Legal, Passes;
    FrontPasses(b, now);
    PassesScan(InnerFront(b, now), ["Document"], IN_PAYMENTS, LegalFront(b));
    ScanConcat(Body(InnerFront(b, now)), DATE_OPEN, ["Document"]);
    ScanDateOpen();
  }

  lemma ScanLast()
    ensures Scan([Data("\n")], []) == Some([])
  {
    IndentsBlank();
    ScanIndent("\n", []);
  }

  // What follows the date ends the document for the elements open there, and for no others.
  lemma ScanAfter(b: Batch, open: seq<string>)
    ensures Scan(AfterDate(b), open) == Some([]) <==> LegalBack(b) && open == AFTER_DATE
  {
    hide Scan, Body, BackLines, Legal, LegalPayments, Passes;
    var first, middle, last := [Tag("/ReqdExctnDt")], Body(BackLines(b)), [Data("\n")];
    BackPasses(b);
    if LegalBack(b) {
      ScanConcat(first + middle, last, AFTER_DATE);
      ScanConcat(first, middle, AFTER_DATE);
      ScanCloseDate();
      PassesScan(BackLines(b), IN_PAYMENTS, [], true);
      ScanLast();
      if Scan(AfterDate(b), open) == Some([]) { ScanInjective(AfterDate(b), open, AFTER_DATE); }
    } else {
      ScanConcat(first + middle, last, open);
      ScanConcat(first, middle, open);
      if Scan(first, open).Some? { RefusedScan(BackLines(b), IN_PAYMENTS, [], Scan(first, open).value); }
    }
  }

  lemma ScanCloseDate()
    ensures Scan([Tag("/ReqdExctnDt")], AFTER_DATE) == Some(IN_PAYMENTS)
  {
    EvenMoreGoodNames();
    hide Scan, ScanItem, IsName;
    assert "/" + "ReqdExctnDt" == "/ReqdExctnDt" && AFTER_DATE[1..] == IN_PAYMENTS;
    ScanOne(Tag("/ReqdExctnDt"), AFTER_DATE);
    ScanClose("ReqdExctnDt", AFTER_DATE);
  }

  // The date, up to the end of its closing tag, leaves open what it found open but its own element.
  predicate Balanced(date: string) {
    Scan(DateItems(date), AT_DATE) == Some(AFTER_DATE)
  }

  lemma InsideIff(b: Batch, now: string, date: string)
    requires PlainText(now)
    ensures Scan(Inside(b, now, date), ["Document"]) == Some([]) <==> LegalBatch(b) && Balanced(date)
  {
    hide Scan, Body, InnerFront, PlainText, Legal, LegalPayments, DateItems, AfterDate;
    var before := Body(InnerFront(b, now)) + DATE_OPEN;
    ScanConcat(before, DateItems(date) + AfterDate(b), ["Document"]);
    ScanBefore(b, now);
    ScanConcat(DateItems(date), AfterDate(b), AT_DATE);
    if Scan(DateItems(date), AT_DATE).Some? { ScanAfter(b, Scan(DateItems(date), AT_DATE).value); }
  }

  // Exactly when a strict reader gets through the finished document.
  lemma DocumentWellFormedIff(b: Batch, now: string, today: string)
    requires PlainText(now)
    ensures WellFormed(Tokenize(BuildPain001(b, now, today)), Tag(DECLARATION)) <==>
            LegalBatch(b) && Balanced(ExecutionDate(b, today))
  {
    hide Tokenize, ShowAll, Around, Lines, BeforeDate, AfterDate, Scan, InnerFront, Body, DateItems, Attribute,
      DATE_OPEN, WellFormed, LegalBatch, Balanced;
    var date, root := ExecutionDate(b, today), "Document" + Attribute("xmlns", NAMESPACE);
    assert NoOpen(now);
    DocumentItems(b, now, date);
    BeforeDateSplits(b, now);
    var start := [Tag(DECLARATION), Data("\n"), Tag(root)];
    RegroupItems(start, Body(InnerFront(b, now)) + DATE_OPEN, DateItems(date) + AfterDate(b));
    RootIsStart();
    WellFormedInside(root, Inside(b, now, date));
    InsideIff(b, now, date);
  }

  // A strict reader gets through the document, and the totals it reads agree.
  predicate ReadsWell(document: string, payments: seq<Payment>) {
    WellFormed(Tokenize(document), Tag(DECLARATION)) && TotalsAgree(Tokenize(document), payments)
  }

  // The execution date, which is printed unescaped, is balanced and holds no element that carries totals.
  predicate GoodDate(date: string) {
    Balanced(date) && SilentDate(date)
  }

  lemma DocumentReadsWellIff(b: Batch, now: string, today: string)
    requires PlainText(now)
    ensures ReadsWell(BuildPain001(b, now, today), b.payments) <==> LegalBatch(b) && GoodDate(ExecutionDate(b, today))
  {
    hide Tokenize, BuildPain001, WellFormed, TotalsAgree, LegalBatch, Balanced, SilentDate;
    DocumentWellFormedIff(b, now, today);
    ControlTotalsAgreeIff(b, now, today);
  }

  // ----- Dates -----------------------------------------------------------------------------------

  // What a date without markup is to a reader.
  lemma PlainDateItems(date: string)
    requires NoOpen(date)
    ensures DateItems(date) == (if date == "" then [] else [Data(date)]) + [Tag("/Dt")]
  {
    hide Tokenize;
    assert NoMarkup("/Dt") && "</Dt>" == "<" + "/Dt" + ">" + "";
    TokenizeTag("/Dt", "");
    TokenizeNothing();
    if date == "" {
      assert date + "</Dt>" == "</Dt>";
    } else {
      TokenizeData(date, "</Dt>");
    }
  }

  lemma ScanCloseDt()
    ensures Scan([Tag("/Dt")], AT_DATE) == Some(AFTER_DATE)
  {
    MoreGoodNames();
    hide Scan, ScanItem, IsName;
    assert "/" + "Dt" == "/Dt" && AT_DATE[0] == "Dt" && AT_DATE[1..] == AFTER_DATE;
    ScanOne(Tag("/Dt"), AT_DATE);
    ScanClose("Dt", AT_DATE);
  }

  // A date without opening brackets is balanced exactly when it is character data.
  lemma PlainDateBalancedIff(date: string)
    requires NoOpen(date)
    ensures Balanced(date) <==> CharData(date)
  {
    hide Scan, CharData, DateItems;
    PlainDateItems(date);
    ScanCloseDt();
    if date == "" {
      BlankIsCharData("");
      assert [] + [Tag("/Dt")] == [Tag("/Dt")];
    } else {
      ScanConcat([Data(date)], [Tag("/Dt")], AT_DATE);
      ScanOne(Data(date), AT_DATE);
      ScanData(date, AT_DATE);
    }
  }

  lemma PlainDateIsSilent(date: string)
    requires NoOpen(date)
    ensures SilentDate(date)
  {
    hide DateItems;
    PlainDateItems(date);
    TargetNames();
    SilentItems(date, "NbOfTxs");
    SilentItems(date, "CtrlSum");
    SilentItems(date, "InstdAmt");
    SilentItems(date, "CdtTrfTxInf");
  }

  lemma OneData(text: string, target: string)
    ensures Count([Data(text)], target) == 0
  {
    assert [Data(text)][..0] == [];
  }

  lemma SilentItems(date: string, target: string)
    requires IsTotalName(target)
    ensures Count((if date == "" then [] else [Data(date)]) + [Tag("/Dt")], target) == 0
  {
    assert "/" + "Dt" == "/Dt" && target != "";
    hide Count, Opens, IsTotalName;
    CloseOpensNothing("Dt", target);
    OneTag(Tag("/Dt"), target);
    OneData(date, target);
    CountConcat([Data(date)], [Tag("/Dt")], target);
    assert [] + [Tag("/Dt")] == [Tag("/Dt")];
  }

  // With a date that opens no markup, the document reads well exactly when the batch is legal and the date is character
  // data.
  lemma PlainDateReadsWellIff(b: Batch, now: string, today: string)
    requires PlainText(now) && NoOpen(ExecutionDate(b, today))
    ensures ReadsWell(BuildPain001(b, now, today), b.payments) <==> LegalBatch(b) && CharData(ExecutionDate(b, today))
  {
    hide ReadsWell, LegalBatch, CharData, Balanced, SilentDate, BuildPain001;
    DocumentReadsWellIff(b, now, today);
    PlainDateBalancedIff(ExecutionDate(b, today));
    PlainDateIsSilent(ExecutionDate(b, today));
  }

  // A date whose last opening bracket has no closing one: no document that prints it reads well.
  lemma UnclosedDateRefused(b: Batch, now: string, today: string, p: nat)
    requires PlainText(now) && p < |ExecutionDate(b, today)| && ExecutionDate(b, today)[p] == '<'
    requires forall i | p <= i < |ExecutionDate(b, today)| :: ExecutionDate(b, today)[i] != '>'
    ensures !ReadsWell(BuildPain001(b, now, today), b.payments)
  {
    hide Tokenize, Scan, ReadsWell, LegalBatch, SilentDate, PlainText;
    var date := ExecutionDate(b, today);
    var text := date + "</Dt>";
    assert text[|date|] == '<' && forall i | p <= i < |date| :: text[i] == date[i];
    UnclosedRefused(text, p, |date|, AT_DATE);
    DocumentReadsWellIff(b, now, today);
  }

  // An opened comment, an opened section, an opened tag, and a bare ampersand.
  lemma UnreadableDates(b: Batch, now: string, today: string)
    requires PlainText(now)
    requires var date := ExecutionDate(b, today);
             date == "<!--" || date == "<![CDATA[" || date == "<a" || date == "&"
    ensures !ReadsWell(BuildPain001(b, now, today), b.payments)
  {
    hide ReadsWell, LegalBatch, BuildPain001, PlainText;
    if ExecutionDate(b, today) == "&" {
      PlainDateReadsWellIff(b, now, today);
    } else {
      UnclosedDateRefused(b, now, today, 0);
    }
  }
}
