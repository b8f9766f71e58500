// The pain.001.001.09 credit transfer builder, and what a reader of its XML finds in it.
module Pain001 {
  import opened Option
  import opened Decimal
  import opened Xml
  import opened XmlReader

  // An absent or empty optional field is the empty string.
  datatype Payment = Payment(endToEndId: string, amountCents: int, currency: string, beneficiaryName: string,
                             beneficiaryIban: string, beneficiaryBic: string, remittanceInfo: string,
                             requestedExecutionDate: string)

  datatype Batch = Batch(msgId: string, initiatorName: string, initiatorIban: string, initiatorBic: string,
                         payments: seq<Payment>)

  // ----- Amounts ---------------------------------------------------------------------------------

  function TwoDigits(n: nat): string
    requires n < 100
  {
    [DigitChar(n / 10), DigitChar(n % 10)]
  }

  // (cents / 100).toFixed(2)
  function Euro(cents: int): string
    decreases if cents < 0 then 1 else 0
  {
    if cents < 0 then "-" + Euro(-cents) else Digits(cents / 100) + "." + TwoDigits(cents % 100)
  }

  function ReadEuro(s: string): Option<int>
    decreases |s|
  {
    if s != "" && s[0] == '-' then
      var cents := ReadEuro(s[1..]);
      if cents.None? then None else Some(-cents.value)
    else
      var whole := ReadNat(s);
      if whole.None? then None
      else
        var rest := whole.value.1;
        if |rest| == 3 && rest[0] == '.' && AllDigits(rest[1..]) then Some(100 * whole.value.0 + Value(rest[1..]))
        else None
  }

  lemma EuroReads(cents: nat)
    ensures ReadEuro(Euro(cents)) == Some(cents)
  {
    var digits, fraction := Digits(cents / 100), TwoDigits(cents % 100);
    DigitsRoundTrip(cents / 100);
    assert Euro(cents) == digits + ("." + fraction);
    assert digits[0] in digits;
    ReadDigits(cents / 100, "." + fraction);
    assert ("." + fraction)[1..] == fraction;
    TwoDigitsValue(cents % 100);
  }

  lemma EuroIsPlain(cents: int)
    ensures Euro(cents) != "" && NoOpen(Euro(cents))
    decreases if cents < 0 then 1 else 0
  {
    if cents < 0 {
      EuroIsPlain(-cents);
    } else {
      var digits := Digits(cents / 100);
      DigitsRoundTrip(cents / 100);
      assert forall i | 0 <= i < |digits| :: digits[i] in digits;
    }
  }

  // A printed amount reads back exactly.
  lemma EuroRoundTrip(cents: int)
    ensures ReadEuro(Euro(cents)) == Some(cents)
  {
    if cents < 0 {
      EuroReads(-cents);
      assert Euro(cents)[1..] == Euro(-cents);
    } else {
      EuroReads(cents);
    }
  }

  lemma TwoDigitsValue(n: nat)
    requires n < 100
    ensures AllDigits(TwoDigits(n)) && Value(TwoDigits(n)) == n
  {
    var s := TwoDigits(n);
    assert s[..1] == [s[0]] && [s[0]][..0] == "";
    assert Value([s[0]]) == n / 10;
  }

  function Total(payments: seq<Payment>): int {
    if payments == [] then 0 else Total(payments[..|payments| - 1]) + payments[|payments| - 1].amountCents
  }

  // ----- The document, line by line --------------------------------------------------------------

  // A line of the template: white space, then an opening tag, a closing tag, or an element with text, possibly inside
  // further elements on the same line. Attributes start with a blank.
  datatype Line =
    | Open(indent: string, name: string, attributes: string)
    | Close(indent: string, name: string)
    | Leaf(indent: string, wrappers: seq<string>, name: string, attributes: string, text: string)

  // Repeated in both headers.
  function TotalLines(b: Batch): seq<Line> {
    [Leaf("\n      ", [], "NbOfTxs", "", Digits(|b.payments|)),
     Leaf("\n      ", [], "CtrlSum", "", Euro(Total(b.payments)))]
  }

  function Attribute(name: string, value: string): string {
    " " + name + ("=\"" + (value + "\""))
  }

  const NAMESPACE := "urn:iso:std:iso:" + "20022:tech:xsd:" + "pain.001.001.09"

  const ROOT := Open("\n", "Document", Attribute("xmlns", NAMESPACE))

  function HeaderLines(b: Batch, now: string): seq<Line> {
    [Open("\n  ", "CstmrCdtTrfInitn", ""),
     Open("\n    ", "GrpHdr", ""),
     Leaf("\n      ", [], "MsgId", "", EscapeXml(b.msgId)),
     Leaf("\n      ", [], "CreDtTm", "", now)]
  }

  function TopLines(b: Batch, now: string): seq<Line> {
    [ROOT] + HeaderLines(b, now)
  }

  function InitiatorLines(b: Batch): seq<Line> {
    [Open("\n      ", "InitgPty", ""),
     Leaf("\n        ", [], "Nm", "", EscapeXml(b.initiatorName)),
     Close("\n      ", "InitgPty"),
     Close("\n    ", "GrpHdr"),
     Open("\n    ", "PmtInf", ""),
     Leaf("\n      ", [], "PmtInfId", "", EscapeXml(b.msgId) + "-PI1"),
     Leaf("\n      ", [], "PmtMtd", "", "TRF")]
  }

  function DateLine(date: string): Line {
    Leaf("\n      ", ["ReqdExctnDt"], "Dt", "", date)
  }

  function DebtorLines(b: Batch): seq<Line> {
    [Open("\n      ", "Dbtr", ""),
     Leaf("\n        ", [], "Nm", "", EscapeXml(b.initiatorName)),
     Close("\n      ", "Dbtr"),
     Open("\n      ", "DbtrAcct", ""),
     Leaf("\n        ", ["Id"], "IBAN", "", EscapeXml(b.initiatorIban)),
     Close("\n      ", "DbtrAcct")]
    + if b.initiatorBic == "" then []
      else [Leaf("\n      ", ["DbtrAgt", "FinInstnId"], "BICFI", "", EscapeXml(b.initiatorBic))]
  }

  function ReferenceLines(p: Payment): seq<Line> {
    [Open("\n        ", "PmtId", ""),
     Leaf("\n          ", [], "EndToEndId", "", EscapeXml(p.endToEndId)),
     Close("\n        ", "PmtId"),
     Open("\n        ", "Amt", "")]
  }

  function AmountLine(p: Payment): Line {
    Leaf("\n          ", [], "InstdAmt", Attribute("Ccy", EscapeXml(p.currency)), Euro(p.amountCents))
  }

  function CreditorLines(p: Payment): seq<Line> {
    [Close("\n        ", "Amt"),
     Open("\n        ", "Cdtr", ""),
     Leaf("\n          ", [], "Nm", "", EscapeXml(p.beneficiaryName)),
     Close("\n        ", "Cdtr"),
     Open("\n        ", "CdtrAcct", ""),
     Leaf("\n          ", ["Id"], "IBAN", "", EscapeXml(p.beneficiaryIban)),
     Close("\n        ", "CdtrAcct")]
    + (if p.beneficiaryBic == "" then []
       else [Leaf("\n        ", ["CdtrAgt", "FinInstnId"], "BICFI", "", EscapeXml(p.beneficiaryBic))])
    + if p.remittanceInfo == "" then []
      else [Leaf("\n        ", ["RmtInf"], "Ustrd", "", EscapeXml(p.remittanceInfo))]
  }

  function PaymentLines(p: Payment): seq<Line> {
    [Open("\n      ", "CdtTrfTxInf", "")] + ReferenceLines(p) + [AmountLine(p)] + CreditorLines(p)
    + [Close("\n      ", "CdtTrfTxInf")]
  }

  function AllPaymentLines(payments: seq<Payment>): seq<Line> {
    if payments == [] then [] else AllPaymentLines(payments[..|payments| - 1]) + PaymentLines(payments[|payments| - 1])
  }

  // Without payments their placeholder leaves an empty line.
  function FooterLines(b: Batch): seq<Line> {
    [Close(if b.payments == [] then "\n\n    " else "\n    ", "PmtInf"),
     Close("\n  ", "CstmrCdtTrfInitn"),
     Close("\n", "Document")]
  }

  // The first payment's date goes in as it is; a batch without payments gets today's.
  function ExecutionDate(b: Batch, today: string): string {
    if b.payments == [] then today else b.payments[0].requestedExecutionDate
  }

  function FrontLines(b: Batch, now: string): seq<Line> {
    TopLines(b, now) + TotalLines(b) + InitiatorLines(b) + TotalLines(b)
  }

  function BackLines(b: Batch): seq<Line> {
    DebtorLines(b) + AllPaymentLines(b.payments) + FooterLines(b)
  }

  function Lines(b: Batch, now: string, date: string): seq<Line> {
    FrontLines(b, now) + [DateLine(date)] + BackLines(b)
  }

  function Wrap(wrappers: seq<string>, inner: seq<Item>): seq<Item> {
    if wrappers == [] then inner else [Tag(wrappers[0])] + Wrap(wrappers[1..], inner) + [Tag("/" + wrappers[0])]
  }

  function Element(name: string, attributes: string, text: string): seq<Item> {
    [Tag(name + attributes)] + (if text == "" then [] else [Data(text)]) + [Tag("/" + name)]
  }

  function Block(line: Line): seq<Item> {
    match line
    case Open(_, name, attributes) => [Tag(name + attributes)]
    case Close(_, name) => [Tag("/" + name)]
    case Leaf(_, wrappers, name, attributes, text) => Wrap(wrappers, Element(name, attributes, text))
  }

  function Body(lines: seq<Line>): seq<Item> {
    if lines == [] then []
    else
      var n := |lines| - 1;
      Body(lines[..n]) + ([Data(lines[n].indent)] + Block(lines[n]))
  }

  const DECLARATION := "?xml version=\"1.0\" " + "encoding=\"UTF-8\"?"

  // A document around any lines.
  function Around(lines: seq<Line>): seq<Item> {
    [Tag(DECLARATION)] + Body(lines) + [Data("\n")]
  }

  function BuildPain001(b: Batch, now: string, today: string): string {
    ShowAll(Around(Lines(b, now, ExecutionDate(b, today))))
  }

  // ----- Well-formedness -------------------------------------------------------------------------

  // A stretch of markup that starts and ends with a tag.
  predicate Solid(block: seq<Item>) {
    block != [] && Proper(block) && block[0].Tag? && block[|block| - 1].Tag?
  }

  predicate NoMarkupAll(names: seq<string>) {
    forall i | 0 <= i < |names| :: NoMarkup(names[i])
  }

  predicate Plain(line: Line) {
    && line.indent != "" && NoOpen(line.indent) && NoMarkup(line.name)
    && (line.Open? ==> NoMarkup(line.attributes))
    && (line.Leaf? ==> NoMarkupAll(line.wrappers) && NoMarkup(line.attributes) && NoOpen(line.text))
  }

  predicate AllPlain(lines: seq<Line>) {
    forall i | 0 <= i < |lines| :: Plain(lines[i])
  }

  lemma ProperJoin(a: seq<Item>, b: seq<Item>)
    requires Proper(a) && Proper(b) && (a == [] || b == [] || a[|a| - 1].Tag? || b[0].Tag?)
    ensures Proper(a + b)
  {
    forall i | 0 <= i < |a + b| ensures ProperItem((a + b)[i]) {
      assert (a + b)[i] == if i < |a| then a[i] else b[i - |a|];
    }
  }

  lemma {:induction false} WrapSolid(wrappers: seq<string>, inner: seq<Item>)
    requires NoMarkupAll(wrappers) && Solid(inner)
    ensures Solid(Wrap(wrappers, inner))
  {
    if wrappers != [] {
      var rest, open, close := Wrap(wrappers[1..], inner), Tag(wrappers[0]), Tag("/" + wrappers[0]);
      WrapSolid(wrappers[1..], inner);
      assert NoMarkup(wrappers[0]) && ProperItem(open) && ProperItem(close);
      ProperJoin([open], rest);
      ProperJoin([open] + rest, [close]);
    }
  }

  lemma BlockSolid(line: Line)
    requires Plain(line)
    ensures Solid(Block(line))
  {
    assert NoMarkup("/" + line.name);
    if line.Leaf? {
      assert NoMarkup(line.name + line.attributes);
      WrapSolid(line.wrappers, Element(line.name, line.attributes, line.text));
    }
  }

  lemma {:induction false} BodyProper(lines: seq<Line>)
    requires AllPlain(lines)
    ensures Proper(Body(lines)) && (Body(lines) != [] ==> Body(lines)[0].Data? && Body(lines)[|Body(lines)| - 1].Tag?)
  {
    if lines != [] {
      var n := |lines| - 1;
      BodyProper(lines[..n]);
      assert Plain(lines[n]);
      BlockSolid(lines[n]);
      ProperJoin([Data(lines[n].indent)], Block(lines[n]));
      ProperJoin(Body(lines[..n]), [Data(lines[n].indent)] + Block(lines[n]));
    }
  }

  // ----- The reader ------------------------------------------------------------------------------

  predicate Opens(item: Item, name: string) {
    item.Tag? && TagName(item.content) == name
  }

  // The texts that directly follow an opening tag of this name.
  function Texts(items: seq<Item>, name: string): seq<string> {
    if |items| < 2 then []
    else
      var n := |items| - 1;
      Texts(items[..n], name) + if Opens(items[n - 1], name) && items[n].Data? then [items[n].content] else []
  }

  function Count(items: seq<Item>, name: string): nat {
    if items == [] then 0
    else Count(items[..|items| - 1], name) + if Opens(items[|items| - 1], name) then 1 else 0
  }

  lemma {:induction false} TextsConcat(a: seq<Item>, b: seq<Item>, name: string)
    requires a == [] || b == [] || !Opens(a[|a| - 1], name) || b[0].Tag?
    ensures Texts(a + b, name) == Texts(a, name) + Texts(b, name)
    decreases |b|
  {
    if b == [] {
      assert a + b == a;
    } else if a == [] {
      assert a + b == b;
    } else {
      var front := b[..|b| - 1];
      TextsConcat(a, front, name);
      assert (a + b)[..|a + b| - 1] == a + front;
      assert |b| == 1 ==> a + front == a;
    }
  }

  lemma {:induction false} CountConcat(a: seq<Item>, b: seq<Item>, name: string)
    ensures Count(a + b, name) == Count(a, name) + Count(b, name)
  {
    if b == [] {
      assert a + b == a;
    } else {
      CountConcat(a, b[..|b| - 1], name);
      assert (a + b)[..|a + b| - 1] == a + b[..|b| - 1];
    }
  }

  // Names are names, and attributes are set off by a blank.
  predicate Named(line: Line) {
    && IsName(line.name)
    && (line.Open? || line.Leaf? ==> line.attributes == "" || line.attributes[0] == ' ')
    && (line.Leaf? ==> forall i | 0 <= i < |line.wrappers| :: IsName(line.wrappers[i]))
  }

  lemma CloseOpensNothing(name: string, target: string)
    requires target != ""
    ensures !Opens(Tag("/" + name), target)
  {
  }

  // What a line holds under a name.
  function LineTexts(line: Line, name: string): seq<string> {
    if line.Leaf? && line.name == name && line.text != "" then [line.text] else []
  }

  function AllTexts(lines: seq<Line>, name: string): seq<string> {
    if lines == [] then [] else AllTexts(lines[..|lines| - 1], name) + LineTexts(lines[|lines| - 1], name)
  }

  function ElementCount(lines: seq<Line>, name: string): nat {
    if lines == [] then 0
    else
      var last := lines[|lines| - 1];
      ElementCount(lines[..|lines| - 1], name) + if !last.Close? && last.name == name then 1 else 0
  }

  lemma OneTag(tag: Item, target: string)
    requires tag.Tag?
    ensures Texts([tag], target) == [] && Count([tag], target) == if Opens(tag, target) then 1 else 0
  {
    assert [tag][..0] == [];
  }

  lemma TagThenData(open: Item, text: string, target: string)
    requires open.Tag?
    ensures Texts([open, Data(text)], target) == if Opens(open, target) then [text] else []
    ensures Count([open, Data(text)], target) == Count([open], target)
  {
    assert [open, Data(text)][..1] == [open] && [open][..0] == [];
  }

  lemma TagsTexts(start: seq<Item>, close: Item, target: string)
    requires close.Tag? && !Opens(close, target)
    ensures Texts(start + [close], target) == Texts(start, target)
    ensures Count(start + [close], target) == Count(start, target)
  {
    OneTag(close, target);
    hide Texts, Count, Opens;
    TextsConcat(start, [close], target);
    CountConcat(start, [close], target);
  }

  lemma ElementTexts(name: string, attributes: string, text: string, target: string)
    requires IsName(name) && (attributes == "" || attributes[0] == ' ') && target != ""
    ensures Texts(Element(name, attributes, text), target) == if name == target && text != "" then [text] else []
    ensures Count(Element(name, attributes, text), target) == if name == target then 1 else 0
  {
    hide IsName;
    TagNameOf(name, attributes);
    CloseOpensNothing(name, target);
    hide TagName, Texts, Count;
    var open, close := Tag(name + attributes), Tag("/" + name);
    assert Opens(open, target) <==> name == target;
    OneTag(open, target);
    if text == "" {
      assert Element(name, attributes, text) == [open] + [close];
      TagsTexts([open], close, target);
    } else {
      TagThenData(open, text, target);
      assert Element(name, attributes, text) == [open, Data(text)] + [close];
      TagsTexts([open, Data(text)], close, target);
    }
  }

  lemma WrapStep(wrapper: string, rest: seq<Item>, target: string)
    requires rest != [] && rest[0].Tag? && IsName(wrapper) && target != ""
    ensures Texts([Tag(wrapper)] + rest + [Tag("/" + wrapper)], target) == Texts(rest, target)
    ensures wrapper != target ==> Count([Tag(wrapper)] + rest + [Tag("/" + wrapper)], target) == Count(rest, target)
  {
    var open, close := Tag(wrapper), Tag("/" + wrapper);
    assert wrapper + "" == wrapper;
    TagNameOf(wrapper, "");
    CloseOpensNothing(wrapper, target);
    OneTag(open, target);
    OneTag(close, target);
    hide Texts, Count;
    TextsConcat([open], rest, target);
    TextsConcat([open] + rest, [close], target);
    CountConcat([open], rest, target);
    CountConcat([open] + rest, [close], target);
  }

  lemma {:induction false} WrapTexts(wrappers: seq<string>, inner: seq<Item>, target: string)
    requires inner != [] && inner[0].Tag? && target != ""
    requires forall i | 0 <= i < |wrappers| :: IsName(wrappers[i])
    ensures Wrap(wrappers, inner) != [] && Wrap(wrappers, inner)[0].Tag?
    ensures Texts(Wrap(wrappers, inner), target) == Texts(inner, target)
    ensures target !in wrappers ==> Count(Wrap(wrappers, inner), target) == Count(inner, target)
  {
    if wrappers != [] {
      WrapTexts(wrappers[1..], inner, target);
      hide Texts, Count, IsName;
      assert forall w | w in wrappers[1..] :: w in wrappers;
      assert IsName(wrappers[0]) && wrappers[0] in wrappers;
      WrapStep(wrappers[0], Wrap(wrappers[1..], inner), target);
    }
  }

  lemma BlockTexts(line: Line, target: string)
    requires Named(line) && target != ""
    ensures Texts(Block(line), target) == LineTexts(line, target)
    ensures Block(line) != [] && Block(line)[0].Tag?
    ensures !(line.Open? && line.name == target) ==> !Opens(Block(line)[|Block(line)| - 1], target)
    ensures !(line.Leaf? && target in line.wrappers) ==>
              Count(Block(line), target) == if !line.Close? && line.name == target then 1 else 0
  {
    CloseOpensNothing(line.name, target);
    hide Texts, Count, IsName, TagName;
    match line
    case Open(_, name, attributes) =>
      TagNameOf(name, attributes);
      OneTag(Tag(name + attributes), target);
    case Close(_, name) =>
      OneTag(Tag("/" + name), target);
    case Leaf(_, wrappers, name, attributes, text) =>
      ElementTexts(name, attributes, text, target);
      WrapTexts(wrappers, Element(name, attributes, text), target);
      if wrappers != [] {
        assert IsName(wrappers[0]);
        CloseOpensNothing(wrappers[0], target);
      }
  }

  lemma OneMoreLineTexts(front: seq<Item>, line: Line, target: string)
    requires Named(line) && target != "" && !(line.Open? && line.name == target)
    requires front == [] || !Opens(front[|front| - 1], target)
    ensures var more := [Data(line.indent)] + Block(line);
            && Texts(front + more, target) == Texts(front, target) + LineTexts(line, target)
            && !Opens((front + more)[|front + more| - 1], target)
  {
    var indent, block := Data(line.indent), Block(line);
    BlockTexts(line, target);
    assert Texts([indent], target) == [] by { assert [indent][..0] == []; }
    hide Texts, Block, Named, LineTexts, Opens;
    TextsConcat([indent], block, target);
    TextsConcat(front, [indent] + block, target);
    LastOfConcat(front, [indent], block);
  }

  lemma LastOfConcat(a: seq<Item>, b: seq<Item>, c: seq<Item>)
    requires c != []
    ensures (a + (b + c))[|a + (b + c)| - 1] == c[|c| - 1]
  {
  }

  lemma OneMoreLineCount(front: seq<Item>, line: Line, target: string)
    requires Named(line) && target != ""
    requires !(line.Leaf? && target in line.wrappers)
    ensures Count(front + ([Data(line.indent)] + Block(line)), target) ==
            Count(front, target) + if !line.Close? && line.name == target then 1 else 0
  {
    var indent, block := Data(line.indent), Block(line);
    BlockTexts(line, target);
    assert Count([indent], target) == 0 by { assert [indent][..0] == []; }
    hide Count, Block, Named;
    CountConcat([indent], block, target);
    CountConcat(front, [indent] + block, target);
  }

  // Reading the body by element name gives what the lines hold: texts for elements that only occur with text, and
  // opening tags for containers.
  lemma {:induction false} BodyTexts(lines: seq<Line>, target: string)
    requires target != "" && forall i | 0 <= i < |lines| :: Named(lines[i])
    requires forall i | 0 <= i < |lines| :: !(lines[i].Open? && lines[i].name == target)
    ensures Texts(Body(lines), target) == AllTexts(lines, target)
    ensures Body(lines) != [] ==> !Opens(Body(lines)[|Body(lines)| - 1], target)
  {
    hide Named, Opens, Block, LineTexts;
    if lines != [] {
      var n := |lines| - 1;
      BodyTexts(lines[..n], target);
      hide Texts;
      OneMoreLineTexts(Body(lines[..n]), lines[n], target);
    }
  }

  lemma {:induction false} BodyCount(lines: seq<Line>, target: string)
    requires target != "" && forall i | 0 <= i < |lines| :: Named(lines[i])
    requires forall i | 0 <= i < |lines| :: !(lines[i].Leaf? && target in lines[i].wrappers)
    ensures Count(Body(lines), target) == ElementCount(lines, target)
  {
    hide Named, Block;
    if lines != [] {
      var n := |lines| - 1;
      BodyCount(lines[..n], target);
      hide Count;
      OneMoreLineCount(Body(lines[..n]), lines[n], target);
    }
  }

  lemma {:induction false} AllTextsConcat(a: seq<Line>, b: seq<Line>, name: string)
    ensures AllTexts(a + b, name) == AllTexts(a, name) + AllTexts(b, name)
    ensures ElementCount(a + b, name) == ElementCount(a, name) + ElementCount(b, name)
  {
    hide LineTexts;
    if b == [] {
      assert a + b == a;
    } else {
      var front, last := b[..|b| - 1], b[|b| - 1];
      AllTextsConcat(a, front, name);
      assert (a + b)[..|a + b| - 1] == a + front && (a + b)[|a + b| - 1] == last;
      assert AllTexts(a + b, name) == AllTexts(a + front, name) + LineTexts(last, name);
    }
  }

  predicate Silent(line: Line, name: string) {
    line.name != name && (line.Leaf? ==> name !in line.wrappers)
  }

  lemma {:induction false} SilentTexts(lines: seq<Line>, name: string)
    requires forall i | 0 <= i < |lines| :: Silent(lines[i], name)
    ensures AllTexts(lines, name) == [] && ElementCount(lines, name) == 0
  {
    if lines != [] {
      SilentTexts(lines[..|lines| - 1], name);
      assert Silent(lines[|lines| - 1], name);
    }
  }

  predicate IsTotalName(name: string) {
    name == "NbOfTxs" || name == "CtrlSum" || name == "InstdAmt" || name == "CdtTrfTxInf"
  }

  predicate GoodName(name: string) {
    IsName(name) && !IsTotalName(name)
  }

  // A well-formed line that is silent about the totals.
  ghost predicate QuietLine(line: Line) {
    Plain(line) && Named(line) && forall name: string | IsTotalName(name) :: Silent(line, name)
  }

  ghost predicate Quiet(lines: seq<Line>) {
    forall i | 0 <= i < |lines| :: QuietLine(lines[i])
  }

  lemma GoodNames()
    ensures GoodName("CstmrCdtTrfInitn") && GoodName("GrpHdr") && GoodName("MsgId") && GoodName("CreDtTm")
    ensures GoodName("InitgPty") && GoodName("Nm") && GoodName("PmtInf") && GoodName("PmtInfId") && GoodName("PmtMtd")
  {
  }

  lemma MoreGoodNames()
    ensures GoodName("Document") && GoodName("Dt") && GoodName("Dbtr") && GoodName("DbtrAcct") && GoodName("IBAN")
    ensures GoodName("BICFI") && GoodName("PmtId") && GoodName("EndToEndId") && GoodName("Amt")
  {
  }

  lemma EvenMoreGoodNames()
    ensures GoodName("Cdtr") && GoodName("CdtrAcct") && GoodName("Ustrd") && GoodName("ReqdExctnDt") && GoodName("Id")
    ensures GoodName("DbtrAgt") && GoodName("CdtrAgt") && GoodName("FinInstnId") && GoodName("RmtInf")
  {
  }

  // A line whose names are all in order.
  predicate Simple(line: Line) {
    && line.indent != "" && NoOpen(line.indent) && GoodName(line.name)
    && (line.Open? ==> NoMarkup(line.attributes) && (line.attributes == "" || line.attributes[0] == ' '))
    && (line.Leaf? ==> line.attributes == "" && NoOpen(line.text)
                       && forall i | 0 <= i < |line.wrappers| :: GoodName(line.wrappers[i]))
  }

  lemma SimpleIsQuiet(lines: seq<Line>)
    requires forall i | 0 <= i < |lines| :: Simple(lines[i])
    ensures Quiet(lines)
  {
    forall i | 0 <= i < |lines| ensures QuietLine(lines[i]) {
      assert Simple(lines[i]);
    }
  }

  lemma IndentsAreBlank()
    ensures NoOpen("\n") && NoOpen("\n  ") && NoOpen("\n    ") && NoOpen("\n\n    ")
    ensures NoOpen("\n      ") && NoOpen("\n        ") && NoOpen("\n          ") && NoMarkup("")
  {
  }

  lemma EscapedHasNoOpen(s: string)
    ensures NoOpen(EscapeXml(s))
  {
    EscapedHasNoMarkup(s);
  }

  lemma AttributeHasNoMarkup(name: string, value: string)
    requires NoMarkup(name) && NoMarkup(value)
    ensures NoMarkup(Attribute(name, value)) && Attribute(name, value)[0] == ' '
  {
  }

  lemma TopQuiet(b: Batch, now: string)
    requires NoOpen(now)
    ensures Quiet(TopLines(b, now))
  {
    hide EscapeXml;
    IndentsAreBlank();
    GoodNames();
    MoreGoodNames();
    EscapedHasNoMarkup(b.msgId);
    assert NoMarkup("urn:iso:std:iso:") && NoMarkup("20022:tech:xsd:") && NoMarkup("pain.001.001.09");
    AttributeHasNoMarkup("xmlns", NAMESPACE);
    assert Simple(ROOT);
    SimpleIsQuiet(TopLines(b, now));
  }

  lemma InitiatorQuiet(b: Batch)
    ensures Quiet(InitiatorLines(b))
  {
    hide EscapeXml;
    IndentsAreBlank();
    GoodNames();
    EscapedHasNoMarkup(b.msgId);
    EscapedHasNoMarkup(b.initiatorName);
    assert NoOpen(EscapeXml(b.msgId) + "-PI1");
    SimpleIsQuiet(InitiatorLines(b));
  }

  lemma DateQuiet(date: string)
    requires NoOpen(date)
    ensures Quiet([DateLine(date)])
  {
    IndentsAreBlank();
    MoreGoodNames();
    EvenMoreGoodNames();
    SimpleIsQuiet([DateLine(date)]);
  }

  lemma DebtorQuiet(b: Batch)
    ensures Quiet(DebtorLines(b))
  {
    hide EscapeXml, GoodName, NoOpen, NoMarkup;
    IndentsAreBlank();
    GoodNames();
    MoreGoodNames();
    EvenMoreGoodNames();
    EscapedHasNoOpen(b.initiatorName);
    EscapedHasNoOpen(b.initiatorIban);
    EscapedHasNoOpen(b.initiatorBic);
    SimpleIsQuiet(DebtorLines(b));
  }

  lemma ReferenceQuiet(p: Payment)
    ensures Quiet(ReferenceLines(p))
  {
    hide EscapeXml, GoodName, NoOpen, NoMarkup;
    IndentsAreBlank();
    MoreGoodNames();
    EscapedHasNoOpen(p.endToEndId);
    SimpleIsQuiet(ReferenceLines(p));
  }

  lemma CreditorQuiet(p: Payment)
    ensures Quiet(CreditorLines(p))
  {
    hide EscapeXml, GoodName, NoOpen, NoMarkup;
    IndentsAreBlank();
    GoodNames();
    MoreGoodNames();
    EvenMoreGoodNames();
    EscapedHasNoOpen(p.beneficiaryName);
    EscapedHasNoOpen(p.beneficiaryIban);
    EscapedHasNoOpen(p.beneficiaryBic);
    EscapedHasNoOpen(p.remittanceInfo);
    SimpleIsQuiet(CreditorLines(p));
  }

  lemma FooterQuiet(b: Batch)
    ensures Quiet(FooterLines(b))
  {
    hide EscapeXml, GoodName, NoOpen, NoMarkup;
    IndentsAreBlank();
    GoodNames();
    MoreGoodNames();
    SimpleIsQuiet(FooterLines(b));
  }

  // What a stretch of lines contributes: transaction counts, control sums, amounts, and opened transactions.
  datatype Totals = Totals(counts: seq<string>, sums: seq<string>, amounts: seq<string>, transactions: nat)

  const NOTHING := Totals([], [], [], 0)

  function Plus(a: Totals, b: Totals): Totals {
    Totals(a.counts + b.counts, a.sums + b.sums, a.amounts + b.amounts, a.transactions + b.transactions)
  }

  function TotalsOf(lines: seq<Line>): Totals {
    Totals(AllTexts(lines, "NbOfTxs"), AllTexts(lines, "CtrlSum"), AllTexts(lines, "InstdAmt"),
           ElementCount(lines, "CdtTrfTxInf"))
  }

  // Well formed, with counts, sums and amounts only as elements with text, and transactions only as containers.
  predicate Sound(line: Line) {
    && Plain(line) && Named(line)
    && (line.Open? && IsTotalName(line.name) ==> line.name == "CdtTrfTxInf")
    && (line.Leaf? && IsTotalName(line.name) ==> line.name != "CdtTrfTxInf" && line.text != "")
    && (line.Leaf? ==> forall i | 0 <= i < |line.wrappers| :: !IsTotalName(line.wrappers[i]))
  }

  // Counts, sums and amounts are read once for each of their elements.
  lemma {:induction false} TextsAreElements(lines: seq<Line>, name: string)
    requires (forall i | 0 <= i < |lines| :: Sound(lines[i])) && IsTotalName(name) && name != "CdtTrfTxInf"
    ensures ElementCount(lines, name) == |AllTexts(lines, name)|
  {
    hide Plain, Named;
    if lines != [] {
      TextsAreElements(lines[..|lines| - 1], name);
      assert Sound(lines[|lines| - 1]);
    }
  }

  ghost predicate Contributes(lines: seq<Line>, totals: Totals) {
    (forall i | 0 <= i < |lines| :: Sound(lines[i])) && TotalsOf(lines) == totals
  }

  lemma ContributesConcat(a: seq<Line>, ta: Totals, b: seq<Line>, tb: Totals)
    requires Contributes(a, ta) && Contributes(b, tb)
    ensures Contributes(a + b, Plus(ta, tb))
  {
    AllTextsConcat(a, b, "NbOfTxs");
    AllTextsConcat(a, b, "CtrlSum");
    AllTextsConcat(a, b, "InstdAmt");
    AllTextsConcat(a, b, "CdtTrfTxInf");
  }

  lemma QuietContributes(lines: seq<Line>)
    requires Quiet(lines)
    ensures Contributes(lines, NOTHING)
  {
    forall i, name: string | 0 <= i < |lines| && IsTotalName(name) ensures Silent(lines[i], name) {
      assert QuietLine(lines[i]);
    }
    assert IsTotalName("NbOfTxs") && IsTotalName("CtrlSum") && IsTotalName("InstdAmt") && IsTotalName("CdtTrfTxInf");
    forall i | 0 <= i < |lines| ensures Sound(lines[i]) {
      assert QuietLine(lines[i]);
      assert Silent(lines[i], "NbOfTxs") && Silent(lines[i], "CtrlSum") && Silent(lines[i], "InstdAmt")
             && Silent(lines[i], "CdtTrfTxInf");
    }
    SilentTexts(lines, "NbOfTxs");
    SilentTexts(lines, "CtrlSum");
    SilentTexts(lines, "InstdAmt");
    SilentTexts(lines, "CdtTrfTxInf");
  }

  lemma OneText(line: Line, name: string)
    ensures AllTexts([line], name) == LineTexts(line, name)
    ensures ElementCount([line], name) == if !line.Close? && line.name == name then 1 else 0
  {
    assert [line][..0] == [] && [] + LineTexts(line, name) == LineTexts(line, name);
  }

  lemma OneLine(line: Line)
    requires Sound(line)
    ensures var transactions := if !line.Close? && line.name == "CdtTrfTxInf" then 1 else 0;
            Contributes([line], Totals(LineTexts(line, "NbOfTxs"), LineTexts(line, "CtrlSum"),
                                       LineTexts(line, "InstdAmt"), transactions))
  {
    OneText(line, "NbOfTxs");
    OneText(line, "CtrlSum");
    OneText(line, "InstdAmt");
    OneText(line, "CdtTrfTxInf");
  }

  lemma ContributesFour(a: seq<Line>, ta: Totals, b: seq<Line>, tb: Totals, c: seq<Line>, tc: Totals, d: seq<Line>,
                        td: Totals)
    requires Contributes(a, ta) && Contributes(b, tb) && Contributes(c, tc) && Contributes(d, td)
    ensures Contributes(a + b + c + d, Plus(Plus(Plus(ta, tb), tc), td))
  {
    ContributesConcat(a, ta, b, tb);
    ContributesConcat(a + b, Plus(ta, tb), c, tc);
    ContributesConcat(a + b + c, Plus(Plus(ta, tb), tc), d, td);
  }

  lemma NothingAdds(t: Totals)
    ensures Plus(t, NOTHING) == t == Plus(NOTHING, t)
  {
  }

  lemma TargetNames()
    ensures IsName("NbOfTxs") && IsName("CtrlSum") && IsName("InstdAmt") && IsName("CdtTrfTxInf")
  {
  }

  lemma CountContributes(b: Batch)
    ensures Contributes([TotalLines(b)[0]], Totals([Digits(|b.payments|)], [], [], 0))
  {
    hide Digits, Euro, Total;
    IndentsAreBlank();
    TargetNames();
    DigitsPlain(|b.payments|);
    DigitsRoundTrip(|b.payments|);
    OneLine(TotalLines(b)[0]);
  }

  lemma SumContributes(b: Batch)
    ensures Contributes([TotalLines(b)[1]], Totals([], [Euro(Total(b.payments))], [], 0))
  {
    hide Digits, Euro, Total;
    IndentsAreBlank();
    TargetNames();
    EuroIsPlain(Total(b.payments));
    OneLine(TotalLines(b)[1]);
  }

  lemma TotalLinesContribute(b: Batch)
    ensures Contributes(TotalLines(b), Totals([Digits(|b.payments|)], [Euro(Total(b.payments))], [], 0))
  {
    hide Digits, Euro, Total, Contributes;
    CountContributes(b);
    SumContributes(b);
    var lines := TotalLines(b);
    var count, sum := Totals([Digits(|b.payments|)], [], [], 0), Totals([], [Euro(Total(b.payments))], [], 0);
    ContributesConcat([lines[0]], count, [lines[1]], sum);
    assert Plus(count, sum) == Totals([Digits(|b.payments|)], [Euro(Total(b.payments))], [], 0);
    assert lines == [lines[0]] + [lines[1]];
  }

  lemma DigitsPlain(n: nat)
    ensures NoOpen(Digits(n))
  {
    DigitsRoundTrip(n);
    assert forall i | 0 <= i < |Digits(n)| :: Digits(n)[i] in Digits(n);
  }

  lemma AmountContributes(p: Payment)
    ensures Contributes([AmountLine(p)], Totals([], [], [Euro(p.amountCents)], 0))
  {
    IndentsAreBlank();
    TargetNames();
    EscapedHasNoMarkup(p.currency);
    EuroIsPlain(p.amountCents);
    AttributeHasNoMarkup("Ccy", EscapeXml(p.currency));
    OneLine(AmountLine(p));
  }

  lemma TransactionTags()
    ensures Contributes([Open("\n      ", "CdtTrfTxInf", "")], Totals([], [], [], 1))
    ensures Contributes([Close("\n      ", "CdtTrfTxInf")], NOTHING)
  {
    IndentsAreBlank();
    TargetNames();
    OneLine(Open("\n      ", "CdtTrfTxInf", ""));
    OneLine(Close("\n      ", "CdtTrfTxInf"));
  }

  lemma PaymentContributes(p: Payment)
    ensures Contributes(PaymentLines(p), Totals([], [], [Euro(p.amountCents)], 1))
  {
    TransactionTags();
    AmountContributes(p);
    ReferenceQuiet(p);
    CreditorQuiet(p);
    QuietContributes(ReferenceLines(p));
    QuietContributes(CreditorLines(p));
    var open, amount := Totals([], [], [], 1), Totals([], [], [Euro(p.amountCents)], 0);
    ContributesFour([Open("\n      ", "CdtTrfTxInf", "")], open, ReferenceLines(p), NOTHING,
                    [AmountLine(p)], amount, CreditorLines(p), NOTHING);
    NothingAdds(open);
    NothingAdds(Plus(open, amount));
    ContributesConcat([Open("\n      ", "CdtTrfTxInf", "")] + ReferenceLines(p) + [AmountLine(p)] + CreditorLines(p),
                      Plus(open, amount), [Close("\n      ", "CdtTrfTxInf")], NOTHING);
    assert Plus(open, amount) == Totals([], [], [Euro(p.amountCents)], 1);
  }

  function Amounts(payments: seq<Payment>): (texts: seq<string>)
    ensures |texts| == |payments|
  {
    seq(|payments|, i requires 0 <= i < |payments| => Euro(payments[i].amountCents))
  }

  lemma OneMorePayment(front: seq<Line>, amounts: seq<string>, n: nat, pay: seq<Line>, amount: string)
    requires Contributes(front, Totals([], [], amounts, n)) && Contributes(pay, Totals([], [], [amount], 1))
    ensures Contributes(front + pay, Totals([], [], amounts + [amount], n + 1))
  {
    ContributesConcat(front, Totals([], [], amounts, n), pay, Totals([], [], [amount], 1));
  }

  lemma NoLinesContribute()
    ensures Contributes([], NOTHING)
  {
  }

  lemma AmountsAppend(payments: seq<Payment>)
    requires payments != []
    ensures Amounts(payments) == Amounts(payments[..|payments| - 1]) + [Euro(payments[|payments| - 1].amountCents)]
  {
  }

  lemma {:induction false} PaymentsContribute(payments: seq<Payment>)
    ensures Contributes(AllPaymentLines(payments), Totals([], [], Amounts(payments), |payments|))
  {
    if payments == [] {
      NoLinesContribute();
      assert Amounts(payments) == [];
    } else {
      var front, last := payments[..|payments| - 1], payments[|payments| - 1];
      PaymentsContribute(front);
      PaymentContributes(last);
      AmountsAppend(payments);
      OneMorePayment(AllPaymentLines(front), Amounts(front), |front|, PaymentLines(last), Euro(last.amountCents));
    }
  }

  lemma FrontContributes(b: Batch, now: string)
    requires NoOpen(now)
    ensures var n, sum := Digits(|b.payments|), Euro(Total(b.payments));
            Contributes(FrontLines(b, now), Totals([n, n], [sum, sum], [], 0))
  {
    hide Contributes, Digits, Euro, Total;
    TopQuiet(b, now);
    InitiatorQuiet(b);
    QuietContributes(TopLines(b, now));
    QuietContributes(InitiatorLines(b));
    TotalLinesContribute(b);
    var once := Totals([Digits(|b.payments|)], [Euro(Total(b.payments))], [], 0);
    ContributesFour(TopLines(b, now), NOTHING, TotalLines(b), once, InitiatorLines(b), NOTHING, TotalLines(b), once);
    NothingAdds(once);
    assert Plus(once, once) == Totals([Digits(|b.payments|), Digits(|b.payments|)],
                                      [Euro(Total(b.payments)), Euro(Total(b.payments))], [], 0);
  }

  lemma BackContributes(b: Batch)
    ensures Contributes(BackLines(b), Totals([], [], Amounts(b.payments), |b.payments|))
  {
    hide Contributes, Amounts;
    DebtorQuiet(b);
    FooterQuiet(b);
    QuietContributes(DebtorLines(b));
    QuietContributes(FooterLines(b));
    PaymentsContribute(b.payments);
    var paid := Totals([], [], Amounts(b.payments), |b.payments|);
    ContributesConcat(DebtorLines(b), NOTHING, AllPaymentLines(b.payments), paid);
    NothingAdds(paid);
    ContributesConcat(DebtorLines(b) + AllPaymentLines(b.payments), paid, FooterLines(b), NOTHING);
  }

  lemma LinesContribute(b: Batch, now: string, date: string)
    requires NoOpen(now) && NoOpen(date)
    ensures var n, sum := Digits(|b.payments|), Euro(Total(b.payments));
            Contributes(Lines(b, now, date), Totals([n, n], [sum, sum], Amounts(b.payments), |b.payments|))
  {
    hide Contributes, Digits, Euro, Total, Amounts;
    var n, sum := Digits(|b.payments|), Euro(Total(b.payments));
    var front, back := Totals([n, n], [sum, sum], [], 0), Totals([], [], Amounts(b.payments), |b.payments|);
    FrontContributes(b, now);
    DateQuiet(date);
    QuietContributes([DateLine(date)]);
    BackContributes(b);
    ContributesConcat(FrontLines(b, now), front, [DateLine(date)], NOTHING);
    NothingAdds(front);
    ContributesConcat(FrontLines(b, now) + [DateLine(date)], front, BackLines(b), back);
    assert Plus(front, back) == Totals([n, n], [sum, sum], Amounts(b.payments), |b.payments|);
  }

  // ----- The document as its reader finds it -----------------------------------------------------

  lemma DeclarationReads(target: string)
    requires IsTotalName(target)
    ensures NoMarkup(DECLARATION) && target != "" && !Opens(Tag(DECLARATION), target)
  {
    assert NoMarkup("?xml version=\"1.0\" ") && NoMarkup("encoding=\"UTF-8\"?");
    assert DECLARATION[0] == '?' && target[0] != '?' && target[0] != '/';
    assert TagName(DECLARATION) != "" ==> TagName(DECLARATION)[0] == '?';
  }

  lemma LinesProper(lines: seq<Line>)
    requires forall i | 0 <= i < |lines| :: Sound(lines[i])
    ensures Proper(Around(lines))
  {
    DeclarationReads("CtrlSum");
    BodyProper(lines);
    ProperJoin([Tag(DECLARATION)], Body(lines));
    ProperJoin([Tag(DECLARATION)] + Body(lines), [Data("\n")]);
  }

  lemma AroundTokens(lines: seq<Line>)
    requires forall i | 0 <= i < |lines| :: Sound(lines[i])
    ensures Tokenize(ShowAll(Around(lines))) == Around(lines)
  {
    LinesProper(lines);
    TokenizeShow(Around(lines));
  }

  lemma SurroundedTexts(first: Item, body: seq<Item>, last: Item, target: string)
    requires !Opens(first, target) && last.Data? && (body != [] ==> !Opens(body[|body| - 1], target))
    ensures Texts([first] + body + [last], target) == Texts(body, target)
  {
    TextsConcat([first], body, target);
    TextsConcat([first] + body, [last], target);
  }

  lemma SurroundedCount(first: Item, body: seq<Item>, last: Item, target: string)
    requires !Opens(first, target) && last.Data?
    ensures Count([first] + body + [last], target) == Count(body, target)
  {
    CountConcat([first], body, target);
    CountConcat([first] + body, [last], target);
    assert [first][..0] == [] && [last][..0] == [];
  }

  lemma AroundTotals(lines: seq<Line>, target: string)
    requires (forall i | 0 <= i < |lines| :: Sound(lines[i])) && IsTotalName(target)
    ensures target != "CdtTrfTxInf" ==> Texts(Around(lines), target) == AllTexts(lines, target)
    ensures Count(Around(lines), target) == ElementCount(lines, target)
  {
    DeclarationReads(target);
    forall i | 0 <= i < |lines| ensures Named(lines[i]) && !(lines[i].Leaf? && target in lines[i].wrappers) {
      assert Sound(lines[i]);
    }
    BodyCount(lines, target);
    SurroundedCount(Tag(DECLARATION), Body(lines), Data("\n"), target);
    if target != "CdtTrfTxInf" {
      forall i | 0 <= i < |lines| ensures !(lines[i].Open? && lines[i].name == target) {
        assert Sound(lines[i]);
      }
      BodyTexts(lines, target);
      SurroundedTexts(Tag(DECLARATION), Body(lines), Data("\n"), target);
    }
  }

  // The sum of the amounts a reader finds.
  function SumRead(texts: seq<string>): int {
    if texts == [] then 0
    else
      var last := ReadEuro(texts[|texts| - 1]);
      SumRead(texts[..|texts| - 1]) + if last.Some? then last.value else 0
  }

  lemma {:induction false} SumReadsTotal(payments: seq<Payment>)
    ensures SumRead(Amounts(payments)) == Total(payments)
  {
    if payments != [] {
      var n := |payments| - 1;
      SumReadsTotal(payments[..n]);
      EuroRoundTrip(payments[n].amountCents);
      assert Amounts(payments)[..n] == Amounts(payments[..n]);
    }
  }

  lemma AroundReads(lines: seq<Line>, totals: Totals)
    requires Contributes(lines, totals)
    ensures var items := Tokenize(ShowAll(Around(lines)));
            && Texts(items, "NbOfTxs") == totals.counts && Texts(items, "CtrlSum") == totals.sums
            && Texts(items, "InstdAmt") == totals.amounts && Count(items, "CdtTrfTxInf") == totals.transactions
            && Count(items, "NbOfTxs") == |totals.counts| && Count(items, "CtrlSum") == |totals.sums|
            && Count(items, "InstdAmt") == |totals.amounts|
  {
    TextsAreElements(lines, "NbOfTxs");
    TextsAreElements(lines, "CtrlSum");
    TextsAreElements(lines, "InstdAmt");
    AroundTokens(lines);
    AroundTotals(lines, "NbOfTxs");
    AroundTotals(lines, "CtrlSum");
    AroundTotals(lines, "InstdAmt");
    AroundTotals(lines, "CdtTrfTxInf");
  }

  // Two control sums that parse to the sum of the parsed amounts, two counts that parse to the number of transaction
  // elements and of payments, and the amounts of the payments in order; none of these elements is without text.
  predicate TotalsAgree(items: seq<Item>, payments: seq<Payment>) {
    var counts, sums, amounts := Texts(items, "NbOfTxs"), Texts(items, "CtrlSum"), Texts(items, "InstdAmt");
    && |counts| == |sums| == 2 && amounts == Amounts(payments)
    && (forall sum | sum in sums :: ReadEuro(sum) == Some(SumRead(amounts)))
    && (forall count | count in counts :: ReadNat(count) == Some((Count(items, "CdtTrfTxInf"), "")))
    && Count(items, "CdtTrfTxInf") == |payments|
    && Count(items, "NbOfTxs") == Count(items, "CtrlSum") == 2 && Count(items, "InstdAmt") == |amounts|
  }

  // What a reader must find for that.
  predicate ReadsTotals(items: seq<Item>, payments: seq<Payment>) {
    var n, sum := Digits(|payments|), Euro(Total(payments));
    && Texts(items, "NbOfTxs") == [n, n] && Texts(items, "CtrlSum") == [sum, sum]
    && Texts(items, "InstdAmt") == Amounts(payments) && Count(items, "CdtTrfTxInf") == |payments|
    && Count(items, "NbOfTxs") == Count(items, "CtrlSum") == 2 && Count(items, "InstdAmt") == |payments|
  }

  lemma ReadTotalsAgree(items: seq<Item>, payments: seq<Payment>)
    requires ReadsTotals(items, payments)
    ensures TotalsAgree(items, payments)
  {
    hide Texts, Count, Digits, Euro, Total, Amounts, ReadEuro, SumRead;
    SumReadsTotal(payments);
    EuroRoundTrip(Total(payments));
    ReadDigits(|payments|, "");
    assert Digits(|payments|) + "" == Digits(|payments|);
  }

  // ----- The execution date, which is printed unescaped ------------------------------------------

  // What a reader makes of the date and the closing tag after it.
  function DateItems(date: string): seq<Item> {
    Tokenize(date + "</Dt>")
  }

  // Read as markup, the date holds none of the elements that carry totals.
  predicate SilentDate(date: string) {
    var items := DateItems(date);
    && Count(items, "NbOfTxs") == 0 && Count(items, "CtrlSum") == 0 && Count(items, "InstdAmt") == 0
    && Count(items, "CdtTrfTxInf") == 0
  }

  lemma {:induction false} NoElementNoText(items: seq<Item>, target: string)
    requires Count(items, target) == 0
    ensures Texts(items, target) == []
  {
    if |items| >= 2 { NoElementNoText(items[..|items| - 1], target); }
  }

  // The document up to the text of the date, and from the end of its closing tag on.
  function BeforeDate(b: Batch, now: string): seq<Item> {
    [Tag(DECLARATION)] + Body(FrontLines(b, now)) + [Data("\n      "), Tag("ReqdExctnDt"), Tag("Dt")]
  }

  function AfterDate(b: Batch): seq<Item> {
    [Tag("/ReqdExctnDt")] + Body(BackLines(b)) + [Data("\n")]
  }

  lemma BodyAppend(lines: seq<Line>, line: Line)
    ensures Body(lines + [line]) == Body(lines) + ([Data(line.indent)] + Block(line))
  {
    hide Block;
    assert (lines + [line])[..|lines|] == lines;
  }

  lemma BodyConcatStep(a: seq<Line>, b: seq<Line>, last: Line)
    requires Body(a + b) == Body(a) + Body(b)
    ensures Body(a + b + [last]) == Body(a) + Body(b + [last])
  {
    hide Body, Block;
    BodyAppend(a + b, last);
    BodyAppend(b, last);
    RegroupItems(Body(a), Body(b), [Data(last.indent)] + Block(last));
  }

  lemma RegroupItems(a: seq<Item>, b: seq<Item>, c: seq<Item>)
    ensures a + b + c == a + (b + c)
  {
  }

  lemma {:induction false} BodyConcat(a: seq<Line>, b: seq<Line>)
    ensures Body(a + b) == Body(a) + Body(b)
  {
    hide Block;
    if b == [] {
      assert a + b == a && Body(a) + Body(b) == Body(a);
    } else {
      var front, last := b[..|b| - 1], b[|b| - 1];
      BodyConcat(a, front);
      hide Body;
      BodyConcatStep(a, front, last);
      assert a + b == a + front + [last] && b == front + [last];
    }
  }

  lemma DateBlock(date: string)
    ensures Body([DateLine(date)]) ==
            [Data("\n      "), Tag("ReqdExctnDt"), Tag("Dt")] + (if date == "" then [] else [Data(date)])
            + [Tag("/Dt"), Tag("/ReqdExctnDt")]
  {
    var line, inner := DateLine(date), Element("Dt", "", date);
    assert [line][..0] == [] && Body([]) == [];
    assert "Dt" + "" == "Dt" && "/" + "Dt" == "/Dt" && "/" + "ReqdExctnDt" == "/ReqdExctnDt";
    assert ["ReqdExctnDt"][1..] == [] && Wrap([], inner) == inner;
    assert Block(line) == [Tag("ReqdExctnDt")] + inner + [Tag("/ReqdExctnDt")];
  }

  lemma AroundSplits(b: Batch, now: string, date: string)
    ensures var middle := (if date == "" then [] else [Data(date)]) + [Tag("/Dt")];
            Around(Lines(b, now, date)) == BeforeDate(b, now) + middle + AfterDate(b)
  {
    hide Body, FrontLines, BackLines;
    BodyConcat(FrontLines(b, now) + [DateLine(date)], BackLines(b));
    BodyConcat(FrontLines(b, now), [DateLine(date)]);
    DateBlock(date);
  }

  lemma ShowDate(date: string)
    ensures ShowAll((if date == "" then [] else [Data(date)]) + [Tag("/Dt")]) == date + "</Dt>"
  {
    var close := Tag("/Dt");
    assert [close][1..] == [] && ShowAll([close]) == "</Dt>";
    assert date != "" ==> [Data(date), close][1..] == [close];
  }

  lemma DocumentSplits(b: Batch, now: string, date: string)
    ensures ShowAll(Around(Lines(b, now, date))) ==
            ShowAll(BeforeDate(b, now)) + (date + "</Dt>" + ShowAll(AfterDate(b)))
  {
    hide BeforeDate, AfterDate, Around, Lines, ShowAll;
    var middle := (if date == "" then [] else [Data(date)]) + [Tag("/Dt")];
    AroundSplits(b, now, date);
    ShowConcat(BeforeDate(b, now) + middle, AfterDate(b));
    ShowConcat(BeforeDate(b, now), middle);
    ShowDate(date);
    Regroup(ShowAll(BeforeDate(b, now)), date + "</Dt>", ShowAll(AfterDate(b)));
  }

  lemma ProperParts(a: seq<Item>, b: seq<Item>, c: seq<Item>)
    requires Proper(a + b + c)
    ensures Proper(a) && Proper(c)
  {
    forall i | 0 <= i < |a| ensures ProperItem(a[i]) && (i + 1 < |a| ==> a[i].Tag? || a[i + 1].Tag?) {
      assert (a + b + c)[i] == a[i] && (i + 1 < |a| ==> (a + b + c)[i + 1] == a[i + 1]);
    }
    forall i | 0 <= i < |c| ensures ProperItem(c[i]) && (i + 1 < |c| ==> c[i].Tag? || c[i + 1].Tag?) {
      var j := |a + b| + i;
      assert (a + b + c)[j] == c[i] && (i + 1 < |c| ==> (a + b + c)[j + 1] == c[i + 1]);
    }
  }

  // Whatever the date, the reader finds the parts around it unchanged.
  lemma DocumentItems(b: Batch, now: string, date: string)
    requires NoOpen(now)
    ensures Tokenize(ShowAll(Around(Lines(b, now, date)))) == BeforeDate(b, now) + (DateItems(date) + AfterDate(b))
  {
    hide Tokenize, ShowAll, Around, Lines, Proper, Contributes, BeforeDate, AfterDate;
    var before, after := BeforeDate(b, now), AfterDate(b);
    DateOpensNoTotal(b, now, "CtrlSum");
    AroundProper(b, now);
    AroundSplits(b, now, "");
    ProperParts(before, [] + [Tag("/Dt")], after);
    DocumentSplits(b, now, date);
    TokenizeAfter(before, date + "</Dt>" + ShowAll(after));
    assert Closes(date + "</Dt>", |date|);
    TokenizeCloses(date + "</Dt>", |date|, ShowAll(after));
    TokenizeShow(after);
  }

  lemma AroundProper(b: Batch, now: string)
    requires NoOpen(now)
    ensures Proper(Around(Lines(b, now, "")))
  {
    hide Proper, Lines;
    LinesContribute(b, now, "");
    LinesProper(Lines(b, now, ""));
  }

  // The totals read are those of the plain document and those hidden in the date.
  lemma TotalsAround(before: seq<Item>, middle: seq<Item>, after: seq<Item>, target: string)
    requires before != [] && !Opens(before[|before| - 1], target) && after != [] && after[0].Tag?
    ensures Texts(before + (middle + after), target) ==
            Texts(before, target) + (Texts(middle, target) + Texts(after, target))
    ensures Count(before + (middle + after), target) ==
            Count(before, target) + Count(middle, target) + Count(after, target)
  {
    hide Texts, Count;
    TextsConcat(middle, after, target);
    TextsConcat(before, middle + after, target);
    CountConcat(middle, after, target);
    CountConcat(before, middle + after, target);
  }

  lemma DateOpensNoTotal(b: Batch, now: string, target: string)
    requires IsTotalName(target)
    ensures BeforeDate(b, now) != [] && BeforeDate(b, now)[|BeforeDate(b, now)| - 1].Tag?
    ensures !Opens(BeforeDate(b, now)[|BeforeDate(b, now)| - 1], target)
    ensures AfterDate(b) != [] && AfterDate(b)[0].Tag?
  {
    assert "Dt" + "" == "Dt" && IsName("Dt");
    TagNameOf("Dt", "");
  }

  lemma NoDateIsSilent(target: string)
    requires IsTotalName(target)
    ensures Texts(DateItems(""), target) == [] && Count(DateItems(""), target) == 0
  {
    assert NoMarkup("/Dt") && "" + "</Dt>" == "<" + "/Dt" + ">" + "";
    TokenizeTag("/Dt", "");
    TokenizeNothing();
    assert DateItems("") == [Tag("/Dt")];
    hide Tokenize;
    assert "/" + "Dt" == "/Dt";
    CloseOpensNothing("Dt", target);
    OneTag(Tag("/Dt"), target);
  }

  lemma ReadAround(b: Batch, now: string, date: string, target: string)
    requires NoOpen(now) && IsTotalName(target)
    ensures var before, after := BeforeDate(b, now), AfterDate(b);
            var items := Tokenize(ShowAll(Around(Lines(b, now, date))));
            && Texts(items, target) == Texts(before, target) + (Texts(DateItems(date), target) + Texts(after, target))
            && Count(items, target) == Count(before, target) + Count(DateItems(date), target) + Count(after, target)
  {
    hide Texts, Count, Tokenize, ShowAll, Around, Lines, BeforeDate, AfterDate, Opens, DateItems;
    DocumentItems(b, now, date);
    DateOpensNoTotal(b, now, target);
    TotalsAround(BeforeDate(b, now), DateItems(date), AfterDate(b), target);
  }

  // What the date adds under one name to what a document without a date reads.
  lemma DateAdds(b: Batch, now: string, date: string, target: string)
    requires NoOpen(now) && IsTotalName(target)
    ensures var plain := Tokenize(ShowAll(Around(Lines(b, now, ""))));
            var items := Tokenize(ShowAll(Around(Lines(b, now, date))));
            && (Count(DateItems(date), target) == 0 ==> Texts(items, target) == Texts(plain, target))
            && Count(items, target) == Count(plain, target) + Count(DateItems(date), target)
  {
    hide Texts, Count, Tokenize, ShowAll, Around, Lines, BeforeDate, AfterDate, Opens, DateItems;
    ReadAround(b, now, date, target);
    ReadAround(b, now, "", target);
    NoDateIsSilent(target);
    if Count(DateItems(date), target) == 0 { NoElementNoText(DateItems(date), target); }
  }

  // Reading the finished document: its totals agree exactly when the execution date, read as markup, holds none of the
  // elements that carry totals. The text fields, which are escaped, may hold anything.
  lemma ControlTotalsAgreeIff(b: Batch, now: string, today: string)
    requires NoOpen(now)
    ensures TotalsAgree(Tokenize(BuildPain001(b, now, today)), b.payments) <==> SilentDate(ExecutionDate(b, today))
  {
    hide Texts, Count, Tokenize, ShowAll, Around, Lines, Digits, Euro, Total, Amounts, ReadEuro, SumRead, DateItems;
    var date := ExecutionDate(b, today);
    PlainReads(b, now, "");
    DateAdds(b, now, date, "NbOfTxs");
    DateAdds(b, now, date, "CtrlSum");
    DateAdds(b, now, date, "InstdAmt");
    DateAdds(b, now, date, "CdtTrfTxInf");
    if SilentDate(date) { ReadTotalsAgree(Tokenize(BuildPain001(b, now, today)), b.payments); }
  }

  lemma PlainReads(b: Batch, now: string, date: string)
    requires NoOpen(now) && NoOpen(date)
    ensures ReadsTotals(Tokenize(ShowAll(Around(Lines(b, now, date)))), b.payments)
  {
    hide Texts, Count, Tokenize, ShowAll, Around, Lines, Digits, Euro, Total, Amounts, Contributes;
    var n, sum := Digits(|b.payments|), Euro(Total(b.payments));
    LinesContribute(b, now, date);
    AroundReads(Lines(b, now, date), Totals([n, n], [sum, sum], Amounts(b.payments), |b.payments|));
  }

  // With a plain date the totals agree, whatever the text fields contain.
  lemma ControlTotalsAgree(b: Batch, now: string, today: string)
    requires NoOpen(now) && NoOpen(ExecutionDate(b, today))
    ensures TotalsAgree(Tokenize(BuildPain001(b, now, today)), b.payments)
  {
    hide TotalsAgree, ReadsTotals;
    PlainReads(b, now, ExecutionDate(b, today));
    ReadTotalsAgree(Tokenize(BuildPain001(b, now, today)), b.payments);
  }

  lemma TagInDate(name: string)
    requires NoMarkup(name) && IsName(name)
    ensures Count(DateItems("<" + name + ">"), name) >= 1
  {
    var open, close, date := Tag(name), Tag("/Dt"), "<" + name + ">";
    assert NoMarkup("/Dt") && "</Dt>" == "<" + "/Dt" + ">" + "" && name + "" == name;
    TokenizeTag(name, "</Dt>");
    TokenizeTag("/Dt", "");
    TokenizeNothing();
    assert DateItems(date) == [open] + [close];
    TagNameOf(name, "");
    OneTag(open, name);
    CountConcat([open], [close], name);
  }

  // A date that opens a transaction of its own: no batch that prints it has totals that agree.
  lemma MarkupInDateBreaksTotals(b: Batch, now: string, today: string)
    requires NoOpen(now) && ExecutionDate(b, today) == "<" + "CdtTrfTxInf" + ">"
    ensures !TotalsAgree(Tokenize(BuildPain001(b, now, today)), b.payments)
  {
    hide TotalsAgree, Count, DateItems, Texts, BuildPain001;
    TargetNames();
    TagInDate("CdtTrfTxInf");
    ControlTotalsAgreeIff(b, now, today);
  }
}
