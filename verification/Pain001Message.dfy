// A reader of pain.001 messages that goes by the elements' places, and what it makes of a finished document.
module Pain001Message {
  import opened Option
  import opened Decimal
  import opened Text
  import opened Xml
  import opened XmlReader
  import opened Pain001
  import opened Pain001Reader

  datatype Transfer = Transfer(endToEndId: string, amountCents: int, currency: string, creditorName: string,
                               creditorIban: string, creditorBic: string, remittanceInfo: string)

  datatype Debtor = Debtor(name: string, iban: string, bic: string)

  // The parts before the date.
  datatype Header = Header(msgId: string, createdAt: string, initiatorName: string, batchId: string, manner: string)

  datatype Message = Message(header: Header, date: string, debtor: Debtor, transfers: seq<Transfer>)

  // ----- Elements --------------------------------------------------------------------------------

  type Read<T> = Option<(T, seq<Item>)>

  // White space between tags does not matter.
  function Skip(items: seq<Item>): (rest: seq<Item>)
    ensures |rest| <= |items|
  {
    if items != [] && items[0].Data? && Blank(items[0].content) then items[1..] else items
  }

  // The attributes of an opening tag of this name.
  function Start(items: seq<Item>, name: string): (r: Read<string>)
    ensures r.Some? ==> |r.value.1| < |items|
  {
    var t := Skip(items);
    if t == [] || !t[0].Tag? || TagName(t[0].content) != name then None
    else Some((t[0].content[|name|..], t[1..]))
  }

  function End(items: seq<Item>, name: string): (r: Option<seq<Item>>)
    ensures r.Some? ==> |r.value| < |items|
  {
    var t := Skip(items);
    if t == [] || t[0] != Tag("/" + name) then None else Some(t[1..])
  }

  // White space inside an element does.
  function TextOf(items: seq<Item>): (r: (string, seq<Item>))
    ensures |r.1| <= |items|
  {
    if items != [] && items[0].Data? then (Unescape(items[0].content), items[1..]) else ("", items)
  }

  // Attributes and text of the element at the end of a path, each of whose elements holds nothing but the next.
  function Field(items: seq<Item>, path: seq<string>): (r: Read<(string, string)>)
    requires path != []
    ensures r.Some? ==> |r.value.1| < |items|
    decreases |path|
  {
    var start :- Start(items, path[0]);
    if |path| == 1 then
      var (text, rest) := TextOf(start.1);
      if rest == [] || rest[0] != Tag("/" + path[0]) then None else Some(((start.0, text), rest[1..]))
    else if start.0 != "" then None
    else
      var inner :- Field(start.1, path[1..]);
      var rest :- End(inner.1, path[0]);
      Some((inner.0, rest))
  }

  function Value(items: seq<Item>, path: seq<string>): (r: Read<string>)
    requires path != []
    ensures r.Some? ==> |r.value.1| < |items|
  {
    var field :- Field(items, path);
    if field.0.0 != "" then None else Some((field.0.1, field.1))
  }

  // An absent element reads as the empty string.
  function Optional(items: seq<Item>, path: seq<string>): (r: Read<string>)
    requires path != []
    ensures r.Some? ==> |r.value.1| <= |items|
  {
    if Start(items, path[0]).None? then Some(("", items)) else Value(items, path)
  }

  function Enter(items: seq<Item>, name: string): (r: Option<seq<Item>>)
    ensures r.Some? ==> |r.value| < |items|
  {
    var start :- Start(items, name);
    if start.0 != "" then None else Some(start.1)
  }

  // ----- The message -----------------------------------------------------------------------------

  // A single attribute in double quotes.
  function ReadAttribute(s: string, name: string): Option<string> {
    var rest :- Expect(s, " " + name + "=\"");
    if IndexOf(rest, '"') + 1 != |rest| then None else Some(Unescape(rest[..|rest| - 1]))
  }

  function ReadTransfer(items: seq<Item>): (r: Read<Transfer>)
    ensures r.Some? ==> |r.value.1| < |items|
  {
    var start :- Enter(items, "CdtTrfTxInf");
    var id :- Value(start, ["PmtId", "EndToEndId"]);
    var amount :- Field(id.1, ["Amt", "InstdAmt"]);
    var currency :- ReadAttribute(amount.0.0, "Ccy");
    var cents :- ReadEuro(amount.0.1);
    var name :- Value(amount.1, ["Cdtr", "Nm"]);
    var iban :- Value(name.1, ["CdtrAcct", "Id", "IBAN"]);
    var bic :- Optional(iban.1, ["CdtrAgt", "FinInstnId", "BICFI"]);
    var info :- Optional(bic.1, ["RmtInf", "Ustrd"]);
    var rest :- End(info.1, "CdtTrfTxInf");
    Some((Transfer(id.0, cents, currency, name.0, iban.0, bic.0, info.0), rest))
  }

  function ReadTransfers(items: seq<Item>): Read<seq<Transfer>>
    decreases |items|
  {
    if Start(items, "CdtTrfTxInf").None? then Some(([], items))
    else
      var first :- ReadTransfer(items);
      var others :- ReadTransfers(first.1);
      Some(([first.0] + others.0, others.1))
  }

  function ReadDebtor(items: seq<Item>): Read<Debtor> {
    var name :- Value(items, ["Dbtr", "Nm"]);
    var iban :- Value(name.1, ["DbtrAcct", "Id", "IBAN"]);
    var bic :- Optional(iban.1, ["DbtrAgt", "FinInstnId", "BICFI"]);
    Some((Debtor(name.0, iban.0, bic.0), bic.1))
  }

  // Number of transactions and control sum.
  function ReadControls(items: seq<Item>): Read<(nat, int)> {
    var count :- Value(items, ["NbOfTxs"]);
    var sum :- Value(count.1, ["CtrlSum"]);
    var n :- ReadNat(count.0);
    var cents :- ReadEuro(sum.0);
    if n.1 != "" then None else Some(((n.0, cents), sum.1))
  }

  function ReadGroup(items: seq<Item>): Read<(string, string, string, (nat, int))> {
    var start :- Enter(items, "GrpHdr");
    var msgId :- Value(start, ["MsgId"]);
    var createdAt :- Value(msgId.1, ["CreDtTm"]);
    var controls :- ReadControls(createdAt.1);
    var initiator :- Value(controls.1, ["InitgPty", "Nm"]);
    var rest :- End(initiator.1, "GrpHdr");
    Some(((msgId.0, createdAt.0, initiator.0, controls.0), rest))
  }

  function ReadPaymentHead(items: seq<Item>): Read<(string, string, (nat, int))> {
    var start :- Enter(items, "PmtInf");
    var batchId :- Value(start, ["PmtInfId"]);
    var manner :- Value(batchId.1, ["PmtMtd"]);
    var controls :- ReadControls(manner.1);
    Some(((batchId.0, manner.0, controls.0), controls.1))
  }

  // Both headers must give the same count and the same sum.
  function ReadHeader(items: seq<Item>): Read<(Header, (nat, int))> {
    var document :- Start(items, "Document");
    if document.0 != " xmlns=\"" + "urn:iso:std:iso:" + "20022:tech:xsd:" + "pain.001.001.09\"" then None
    else
      var start :- Enter(document.1, "CstmrCdtTrfInitn");
      var group :- ReadGroup(start);
      var head :- ReadPaymentHead(group.1);
      if group.0.3 != head.0.2 then None
      else Some(((Header(group.0.0, group.0.1, group.0.2, head.0.0, head.0.1), group.0.3), head.1))
  }

  function ReadEnd(items: seq<Item>): Option<seq<Item>> {
    var payment :- End(items, "PmtInf");
    var initiation :- End(payment, "CstmrCdtTrfInitn");
    End(initiation, "Document")
  }

  function Sum(transfers: seq<Transfer>): int {
    if transfers == [] then 0 else transfers[0].amountCents + Sum(transfers[1..])
  }

  // The count and the sum must be those of the transfers.
  function ReadItems(items: seq<Item>): Option<Message> {
    var header :- ReadHeader(items);
    var date :- Value(header.1, ["ReqdExctnDt", "Dt"]);
    var debtor :- ReadDebtor(date.1);
    var transfers :- ReadTransfers(debtor.1);
    var rest :- ReadEnd(transfers.1);
    if Skip(rest) != [] || header.0.1 != (|transfers.0|, Sum(transfers.0)) then None
    else Some(Message(header.0.0, date.0, debtor.0, transfers.0))
  }

  // The message in a well-formed document.
  function ReadMessage(document: string): Option<Message> {
    var items := Tokenize(document);
    if !WellFormed(items, Tag("?xml version=\"1.0\" " + "encoding=\"UTF-8\"?")) then None else ReadItems(items[1..])
  }

  // What the batch says.
  function TransferOf(p: Payment): Transfer {
    Transfer(p.endToEndId, p.amountCents, p.currency, p.beneficiaryName, p.beneficiaryIban, p.beneficiaryBic,
             p.remittanceInfo)
  }

  function TransfersOf(payments: seq<Payment>): seq<Transfer> {
    seq(|payments|, i requires 0 <= i < |payments| => TransferOf(payments[i]))
  }

  function MessageOf(b: Batch, now: string, date: string): Message {
    Message(Header(b.msgId, now, b.initiatorName, b.msgId + "-PI1", "TRF"), date,
            Debtor(b.initiatorName, b.initiatorIban, b.initiatorBic), TransfersOf(b.payments))
  }

  // ----- Reading lines ---------------------------------------------------------------------------

  lemma SkipIndent(indent: string, rest: seq<Item>)
    requires Blank(indent)
    ensures Skip([Data(indent)] + rest) == rest
  {
    assert ([Data(indent)] + rest)[1..] == rest;
  }

  lemma SkipNothing(tag: Item, rest: seq<Item>)
    requires tag.Tag?
    ensures Skip([tag] + rest) == [tag] + rest
  {
  }

  // White space or nothing.
  predicate Space(items: seq<Item>) {
    items == [] || (|items| == 1 && items[0].Data? && Blank(items[0].content))
  }

  lemma SkipSpace(space: seq<Item>, tag: Item, rest: seq<Item>)
    requires Space(space) && tag.Tag?
    ensures Skip(space + ([tag] + rest)) == [tag] + rest
  {
    hide Blank;
    if space == [] {
      assert space + ([tag] + rest) == [tag] + rest;
    } else {
      assert (space + ([tag] + rest))[1..] == [tag] + rest;
    }
  }

  lemma StartOf(space: seq<Item>, name: string, attributes: string, rest: seq<Item>)
    requires Space(space) && IsName(name) && NotSlashed(attributes)
    ensures Start(space + ([Tag(name + attributes)] + rest), name) == Some((attributes, rest))
  {
    SkipSpace(space, Tag(name + attributes), rest);
    StartTagOf(name, attributes);
    hide TagName, IsName, Skip;
    assert (name + attributes)[|name|..] == attributes && ([Tag(name + attributes)] + rest)[1..] == rest;
  }

  lemma EndOf(space: seq<Item>, name: string, rest: seq<Item>)
    requires Space(space)
    ensures End(space + ([Tag("/" + name)] + rest), name) == Some(rest)
  {
    SkipSpace(space, Tag("/" + name), rest);
    hide Skip;
    assert ([Tag("/" + name)] + rest)[1..] == rest;
  }

  // A tag that opens another element, or closes one.
  lemma NotStarted(space: seq<Item>, tag: Item, rest: seq<Item>, name: string)
    requires Space(space) && tag.Tag? && TagName(tag.content) != name
    ensures Start(space + ([tag] + rest), name) == None
  {
    SkipSpace(space, tag, rest);
    hide TagName;
  }

  lemma TextIn(text: string, tag: Item, rest: seq<Item>)
    requires tag.Tag?
    ensures TextOf((if text == "" then [] else [Data(text)]) + ([tag] + rest)) == (Unescape(text), [tag] + rest)
  {
    if text == "" {
      assert [] + ([tag] + rest) == [tag] + rest;
    } else {
      assert ([Data(text)] + ([tag] + rest))[1..] == [tag] + rest;
    }
  }

  // A leaf.
  lemma FieldOfElement(space: seq<Item>, name: string, attributes: string, text: string, rest: seq<Item>)
    requires Space(space) && IsName(name) && NotSlashed(attributes)
    ensures Field(space + (Element(name, attributes, text) + rest), [name]) ==
            Some(((attributes, Unescape(text)), rest))
  {
    hide Start, TextOf, IsName, NotSlashed, Space, Unescape;
    var data, close := if text == "" then [] else [Data(text)], Tag("/" + name);
    StartOf(space, name, attributes, data + ([close] + rest));
    assert Element(name, attributes, text) + rest == [Tag(name + attributes)] + (data + ([close] + rest));
    TextIn(text, close, rest);
    assert ([close] + rest)[1..] == rest;
  }

  lemma FieldStep(items: seq<Item>, name: string, path: seq<string>, inside: seq<Item>, field: (string, string),
                  after: seq<Item>, rest: seq<Item>)
    requires path != [] && Start(items, name) == Some(("", inside)) && Field(inside, path) == Some((field, after))
    requires End(after, name) == Some(rest)
    ensures Field(items, [name] + path) == Some((field, rest))
  {
    assert ([name] + path)[1..] == path;
  }

  lemma WrapUnfold(wrappers: seq<string>, inner: seq<Item>, rest: seq<Item>)
    requires wrappers != []
    ensures Wrap(wrappers, inner) + rest ==
            [Tag(wrappers[0])] + (Wrap(wrappers[1..], inner) + ([Tag("/" + wrappers[0])] + rest))
  {
  }

  // A leaf inside further elements on its line.
  lemma {:induction false} FieldOfWrap(space: seq<Item>, wrappers: seq<string>, name: string, attributes: string,
                                       text: string, rest: seq<Item>)
    requires Space(space) && IsName(name) && NotSlashed(attributes)
    requires forall i | 0 <= i < |wrappers| :: IsName(wrappers[i])
    ensures Field(space + (Wrap(wrappers, Element(name, attributes, text)) + rest), wrappers + [name]) ==
            Some(((attributes, Unescape(text)), rest))
    decreases |wrappers|
  {
    hide Field, Start, End, NotSlashed, Space, Unescape, Element;
    if wrappers == [] {
      assert wrappers + [name] == [name];
      FieldOfElement(space, name, attributes, text, rest);
    } else {
      var outer, inner := wrappers[0], Wrap(wrappers[1..], Element(name, attributes, text));
      var after := [Tag("/" + outer)] + rest;
      SpaceNothing();
      FieldOfWrap([], wrappers[1..], name, attributes, text, after);
      WrapUnfold(wrappers, Element(name, attributes, text), rest);
      AttributesOfNone();
      assert outer + "" == outer && IsName(outer);
      hide Wrap, IsName;
      StartOf(space, outer, "", inner + after);
      EndOf([], outer, rest);
      assert [] + after == after && [] + (inner + after) == inner + after;
      FieldStep(space + ([Tag(outer)] + (inner + after)), outer, wrappers[1..] + [name], inner + after,
                (attributes, Unescape(text)), after, rest);
      assert [outer] + (wrappers[1..] + [name]) == wrappers + [name];
    }
  }

  lemma SpaceNothing()
    ensures Space([])
  {
  }

  lemma OneLineThen(line: Line, rest: seq<Item>)
    ensures Body([line]) + rest == [Data(line.indent)] + (Block(line) + rest)
  {
    hide Block;
    assert [line][..0] == [] && Body([]) == [];
  }

  lemma LinesThen(a: seq<Line>, b: seq<Line>, rest: seq<Item>)
    ensures Body(a + b) + rest == Body(a) + (Body(b) + rest)
  {
    hide Body;
    BodyConcat(a, b);
    RegroupItems(Body(a), Body(b), rest);
  }

  // A line with a leaf.
  lemma FieldOfLeaf(line: Line, rest: seq<Item>)
    requires line.Leaf? && Set(line)
    ensures Field(Body([line]) + rest, line.wrappers + [line.name]) ==
            Some(((line.attributes, Unescape(line.text)), rest))
  {
    hide Body, Block, Field, IsName, NotSlashed, Blank;
    OneLineThen(line, rest);
    BlockOfLeaf(line);
    FieldOfWrap([Data(line.indent)], line.wrappers, line.name, line.attributes, line.text, rest);
  }

  lemma BlockOfLeaf(line: Line)
    requires line.Leaf?
    ensures Block(line) == Wrap(line.wrappers, Element(line.name, line.attributes, line.text))
  {
  }

  lemma EnterOfLine(indent: string, name: string, rest: seq<Item>)
    requires Blank(indent) && IsName(name)
    ensures Start(Body([Open(indent, name, "")]) + rest, name) == Some(("", rest))
    ensures Enter(Body([Open(indent, name, "")]) + rest, name) == Some(rest)
  {
    hide Body, IsName, Blank;
    OneLineThen(Open(indent, name, ""), rest);
    AttributesOfNone();
    hide NotSlashed, Start;
    StartOf([Data(indent)], name, "", rest);
  }

  lemma EndOfLine(indent: string, name: string, rest: seq<Item>)
    requires Blank(indent)
    ensures End(Body([Close(indent, name)]) + rest, name) == Some(rest)
  {
    hide Body, Blank, End;
    OneLineThen(Close(indent, name), rest);
    EndOf([Data(indent)], name, rest);
  }

  // An element on lines of its own around a line with a leaf.
  lemma FieldOfLines(outer: string, name: string, leaf: Line, rest: seq<Item>)
    requires Blank(outer) && IsName(name) && leaf.Leaf? && Set(leaf)
    ensures Field(Body([Open(outer, name, ""), leaf, Close(outer, name)]) + rest,
                  [name] + (leaf.wrappers + [leaf.name])) ==
            Some(((leaf.attributes, Unescape(leaf.text)), rest))
  {
    hide Body, Field, Start, End, IsName, Blank, Set;
    var first, last := Open(outer, name, ""), Close(outer, name);
    var after := Body([last]) + rest;
    assert [first, leaf, last] == [first] + ([leaf] + [last]);
    LinesThen([first], [leaf] + [last], rest);
    LinesThen([leaf], [last], rest);
    EnterOfLine(outer, name, Body([leaf]) + after);
    FieldOfLeaf(leaf, after);
    EndOfLine(outer, name, rest);
    FieldStep(Body([first]) + (Body([leaf]) + after), name, leaf.wrappers + [leaf.name], Body([leaf]) + after,
              (leaf.attributes, Unescape(leaf.text)), after, rest);
  }

  // An escaped field.
  lemma ValueOfLeaf(indent: string, wrappers: seq<string>, name: string, field: string, rest: seq<Item>)
    requires Blank(indent) && IsName(name) && forall i | 0 <= i < |wrappers| :: IsName(wrappers[i])
    ensures Value(Body([Leaf(indent, wrappers, name, "", EscapeXml(field))]) + rest, wrappers + [name]) ==
            Some((field, rest))
  {
    hide Body, Field, IsName, Blank, EscapeXml, Unescape;
    AttributesOfNone();
    UnescapeEscape(field);
    FieldOfLeaf(Leaf(indent, wrappers, name, "", EscapeXml(field)), rest);
  }

  lemma ValueOfLines(outer: string, name: string, indent: string, wrappers: seq<string>, leaf: string, field: string,
                     rest: seq<Item>)
    requires Blank(outer) && IsName(name) && Blank(indent) && IsName(leaf)
    requires forall i | 0 <= i < |wrappers| :: IsName(wrappers[i])
    ensures Value(Body([Open(outer, name, ""), Leaf(indent, wrappers, leaf, "", EscapeXml(field)), Close(outer, name)])
                  + rest, [name] + (wrappers + [leaf])) == Some((field, rest))
  {
    hide Body, Field, IsName, Blank, EscapeXml, Unescape;
    AttributesOfNone();
    UnescapeEscape(field);
    FieldOfLines(outer, name, Leaf(indent, wrappers, leaf, "", EscapeXml(field)), rest);
  }

  // Text that needs no escaping.
  lemma ValueOfPlain(indent: string, name: string, text: string, rest: seq<Item>)
    requires Blank(indent) && IsName(name) && '&' !in text
    ensures Value(Body([Leaf(indent, [], name, "", text)]) + rest, [name]) == Some((text, rest))
  {
    hide Body, Field, IsName, Blank, Unescape;
    AttributesOfNone();
    UnescapePlain(text);
    FieldOfLeaf(Leaf(indent, [], name, "", text), rest);
    assert [] + [name] == [name];
  }

  lemma {:induction false} UnescapePlain(s: string)
    requires '&' !in s
    ensures Unescape(s) == s
  {
    if s != "" {
      assert s[0] in s && forall c | c in s[1..] :: c in s;
      UnescapePlain(s[1..]);
    }
  }

  // ----- Optional elements -----------------------------------------------------------------------

  // What comes next is not an element of this name.
  predicate Without(items: seq<Item>, name: string) {
    Start(items, name).None?
  }

  // The name of the tag a line starts with; closing tags have none.
  function FirstName(line: Line): string {
    match line
    case Open(_, name, _) => name
    case Close(_, _) => ""
    case Leaf(_, wrappers, name, _, _) => if wrappers == [] then name else wrappers[0]
  }

  lemma WithoutLine(line: Line, rest: seq<Item>, name: string)
    requires Set(line) && FirstName(line) != name && name != ""
    ensures Without(Body([line]) + rest, name)
  {
    var block, space := Block(line), [Data(line.indent)];
    OneLineThen(line, rest);
    FirstTag(line);
    assert block == [block[0]] + block[1..];
    assert block + rest == [block[0]] + (block[1..] + rest);
    hide Body, Blank, TagName, Block, Start, Set;
    SpaceOfLine(line);
    NotStarted(space, block[0], block[1..] + rest, name);
  }

  lemma SpaceOfLine(line: Line)
    requires Set(line)
    ensures Space([Data(line.indent)])
  {
  }

  lemma FirstTag(line: Line)
    requires Set(line)
    ensures Block(line) != [] && Block(line)[0].Tag? && TagName(Block(line)[0].content) == FirstName(line)
  {
    match line
    case Open(_, name, attributes) => TagNameOf(name, attributes);
    case Close(_, name) => assert NamePrefix("/" + name) == 0;
    case Leaf(_, wrappers, name, attributes, _) =>
      TagNameOf(name, attributes);
      if wrappers != [] {
        assert IsName(wrappers[0]) && wrappers[0] + "" == wrappers[0];
        TagNameOf(wrappers[0], "");
      }
  }

  // An optional field, printed only when it is not empty.
  function OptionalLine(indent: string, wrappers: seq<string>, name: string, field: string): seq<Line> {
    if field == "" then [] else [Leaf(indent, wrappers, name, "", EscapeXml(field))]
  }

  lemma OptionalOf(indent: string, wrappers: seq<string>, name: string, field: string, rest: seq<Item>)
    requires Blank(indent) && IsName(name) && wrappers != [] && forall i | 0 <= i < |wrappers| :: IsName(wrappers[i])
    requires Without(rest, wrappers[0])
    ensures Optional(Body(OptionalLine(indent, wrappers, name, field)) + rest, wrappers + [name]) == Some((field, rest))
  {
    hide Field, IsName, Blank, EscapeXml, Start, Value;
    if field == "" {
      assert Body([]) + rest == rest;
    } else {
      ValueOfLeaf(indent, wrappers, name, field, rest);
      ValueStarts(Body(OptionalLine(indent, wrappers, name, field)) + rest, wrappers + [name]);
    }
  }

  lemma ValueStarts(items: seq<Item>, path: seq<string>)
    requires path != [] && Value(items, path).Some?
    ensures Start(items, path[0]).Some?
  {
    hide Start;
  }

  // Whatever comes next: the optional line, or what follows it.
  lemma WithoutOptional(indent: string, wrappers: seq<string>, name: string, field: string, rest: seq<Item>,
                        other: string)
    requires Blank(indent) && IsName(name) && wrappers != [] && forall i | 0 <= i < |wrappers| :: IsName(wrappers[i])
    requires Without(rest, other) && wrappers[0] != other && other != ""
    ensures Without(Body(OptionalLine(indent, wrappers, name, field)) + rest, other)
  {
    hide IsName, Blank, EscapeXml, Start;
    AttributesOfNone();
    if field == "" {
      assert Body([]) + rest == rest;
    } else {
      WithoutLine(Leaf(indent, wrappers, name, "", EscapeXml(field)), rest, other);
    }
  }

  // ----- A transfer ------------------------------------------------------------------------------

  lemma CurrencyRead(currency: string)
    ensures ReadAttribute(Attribute("Ccy", EscapeXml(currency)), "Ccy") == Some(currency)
  {
    var value, head := EscapeXml(currency), " " + "Ccy" + "=\"";
    EscapedHasNoQuote(currency);
    UnescapeEscape(currency);
    hide EscapeXml, Unescape;
    assert Attribute("Ccy", value) == head + (value + "\"");
    ExpectOf(head, value + "\"");
    QuoteEnds(value);
    assert (value + "\"")[..|value|] == value;
  }

  lemma AmountLineSet(p: Payment)
    ensures Set(AmountLine(p)) && IsName("Amt") && Blank("\n        ")
  {
    IndentsBlank();
    MoreGoodNames();
    TargetNames();
    CurrencyAccepted(p.currency);
    hide Blank, IsName, EscapeXml, Attribute, NotSlashed, Euro;
    assert Attribute("Ccy", EscapeXml(p.currency))[0] == ' ' by { AttributeStarts(EscapeXml(p.currency)); }
  }

  lemma AttributeStarts(value: string)
    ensures Attribute("Ccy", value) != "" && Attribute("Ccy", value)[0] == ' '
  {
  }

  lemma AmountRead(p: Payment, rest: seq<Item>)
    ensures var lines := [Open("\n        ", "Amt", ""), AmountLine(p), Close("\n        ", "Amt")];
            Field(Body(lines) + rest, ["Amt", "InstdAmt"]) ==
            Some(((Attribute("Ccy", EscapeXml(p.currency)), Euro(p.amountCents)), rest))
  {
    AmountLineSet(p);
    EuroIsPlainText(p.amountCents);
    UnescapePlain(Euro(p.amountCents));
    hide Body, Field, IsName, Blank, EscapeXml, Unescape, Attribute, Euro, Set, PlainText;
    FieldOfLines("\n        ", "Amt", AmountLine(p), rest);
    assert ["Amt"] + ([] + ["InstdAmt"]) == ["Amt", "InstdAmt"];
  }

  // The lines of a transfer, element by element.
  function IdLines(p: Payment): seq<Line> {
    [Open("\n        ", "PmtId", ""), Leaf("\n          ", [], "EndToEndId", "", EscapeXml(p.endToEndId)),
     Close("\n        ", "PmtId")]
  }

  function AmtLines(p: Payment): seq<Line> {
    [Open("\n        ", "Amt", ""), AmountLine(p), Close("\n        ", "Amt")]
  }

  function NameLines(p: Payment): seq<Line> {
    [Open("\n        ", "Cdtr", ""), Leaf("\n          ", [], "Nm", "", EscapeXml(p.beneficiaryName)),
     Close("\n        ", "Cdtr")]
  }

  function IbanLines(p: Payment): seq<Line> {
    [Open("\n        ", "CdtrAcct", ""), Leaf("\n          ", ["Id"], "IBAN", "", EscapeXml(p.beneficiaryIban)),
     Close("\n        ", "CdtrAcct")]
  }

  function BicLines(p: Payment): seq<Line> {
    OptionalLine("\n        ", ["CdtrAgt", "FinInstnId"], "BICFI", p.beneficiaryBic)
  }

  function InfoLines(p: Payment): seq<Line> {
    OptionalLine("\n        ", ["RmtInf"], "Ustrd", p.remittanceInfo)
  }

  const TRANSFER_OPEN: seq<Line> := [Open("\n      ", "CdtTrfTxInf", "")]
  const TRANSFER_CLOSE: seq<Line> := [Close("\n      ", "CdtTrfTxInf")]

  lemma TransferLines(p: Payment)
    ensures PaymentLines(p) ==
            TRANSFER_OPEN + (IdLines(p) + (AmtLines(p) + (NameLines(p) + (IbanLines(p)
            + (BicLines(p) + (InfoLines(p) + TRANSFER_CLOSE))))))
  {
    hide EscapeXml, AmountLine;
    var open, close := Open("\n        ", "Amt", ""), Close("\n        ", "Amt");
    assert ReferenceLines(p) == IdLines(p) + [open];
    assert CreditorLines(p) == [close] + (NameLines(p) + IbanLines(p)) + BicLines(p) + InfoLines(p);
    assert AmtLines(p) == [open] + [AmountLine(p)] + [close];
    hide ReferenceLines, CreditorLines, IdLines, AmtLines, NameLines, IbanLines, BicLines, InfoLines;
    Assemble(TRANSFER_OPEN, IdLines(p), [open], [AmountLine(p)], [close], NameLines(p), IbanLines(p), BicLines(p),
             InfoLines(p), TRANSFER_CLOSE);
  }

  lemma Assemble(a: seq<Line>, b: seq<Line>, c: seq<Line>, d: seq<Line>, e: seq<Line>, f: seq<Line>, g: seq<Line>,
                 h: seq<Line>, i: seq<Line>, j: seq<Line>)
    ensures a + (b + c) + d + (e + (f + g) + h + i) + j == a + (b + ((c + d + e) + (f + (g + (h + (i + j))))))
  {
    assert a + (b + c) + d + (e + (f + g) + h + i) + j == a + b + (c + d + e) + f + g + h + i + j;
    assert a + b + (c + d + e) + f + g + h + i + j == a + (b + ((c + d + e) + (f + (g + (h + (i + j))))));
  }

  lemma IdRead(p: Payment, rest: seq<Item>)
    ensures Value(Body(IdLines(p)) + rest, ["PmtId", "EndToEndId"]) == Some((p.endToEndId, rest))
  {
    IndentsBlank();
    MoreGoodNames();
    hide Body, Value, IsName, Blank, EscapeXml;
    ValueOfLines("\n        ", "PmtId", "\n          ", [], "EndToEndId", p.endToEndId, rest);
    assert ["PmtId"] + ([] + ["EndToEndId"]) == ["PmtId", "EndToEndId"];
  }

  lemma NameRead(p: Payment, rest: seq<Item>)
    ensures Value(Body(NameLines(p)) + rest, ["Cdtr", "Nm"]) == Some((p.beneficiaryName, rest))
  {
    IndentsBlank();
    GoodNames();
    EvenMoreGoodNames();
    hide Body, Value, IsName, Blank, EscapeXml;
    ValueOfLines("\n        ", "Cdtr", "\n          ", [], "Nm", p.beneficiaryName, rest);
    assert ["Cdtr"] + ([] + ["Nm"]) == ["Cdtr", "Nm"];
  }

  lemma IbanRead(p: Payment, rest: seq<Item>)
    ensures Value(Body(IbanLines(p)) + rest, ["CdtrAcct", "Id", "IBAN"]) == Some((p.beneficiaryIban, rest))
  {
    IndentsBlank();
    MoreGoodNames();
    EvenMoreGoodNames();
    hide Body, Value, IsName, Blank, EscapeXml;
    ValueOfLines("\n        ", "CdtrAcct", "\n          ", ["Id"], "IBAN", p.beneficiaryIban, rest);
    assert ["CdtrAcct"] + (["Id"] + ["IBAN"]) == ["CdtrAcct", "Id", "IBAN"];
  }

  lemma BicRead(p: Payment, rest: seq<Item>)
    requires Without(rest, "CdtrAgt")
    ensures Optional(Body(BicLines(p)) + rest, ["CdtrAgt", "FinInstnId", "BICFI"]) == Some((p.beneficiaryBic, rest))
  {
    IndentsBlank();
    MoreGoodNames();
    EvenMoreGoodNames();
    hide Body, Optional, IsName, Blank, OptionalLine, Without;
    OptionalOf("\n        ", ["CdtrAgt", "FinInstnId"], "BICFI", p.beneficiaryBic, rest);
    assert ["CdtrAgt", "FinInstnId"] + ["BICFI"] == ["CdtrAgt", "FinInstnId", "BICFI"];
  }

  lemma InfoRead(p: Payment, rest: seq<Item>)
    requires Without(rest, "RmtInf")
    ensures Optional(Body(InfoLines(p)) + rest, ["RmtInf", "Ustrd"]) == Some((p.remittanceInfo, rest))
  {
    IndentsBlank();
    EvenMoreGoodNames();
    hide Body, Optional, IsName, Blank, OptionalLine, Without;
    OptionalOf("\n        ", ["RmtInf"], "Ustrd", p.remittanceInfo, rest);
    assert ["RmtInf"] + ["Ustrd"] == ["RmtInf", "Ustrd"];
  }

  // After the account come the bank and the remittance text, if any, and the closing tag.
  lemma OptionsRead(p: Payment, rest: seq<Item>)
    ensures var close := Body(TRANSFER_CLOSE) + rest;
            var info := Body(InfoLines(p)) + close;
            && Optional(Body(BicLines(p)) + info, ["CdtrAgt", "FinInstnId", "BICFI"]) == Some((p.beneficiaryBic, info))
            && Optional(info, ["RmtInf", "Ustrd"]) == Some((p.remittanceInfo, close))
            && End(close, "CdtTrfTxInf") == Some(rest)
  {
    IndentsBlank();
    TargetNames();
    EvenMoreGoodNames();
    hide Body, Optional, IsName, Blank, OptionalLine, Without, End;
    var line, close := TRANSFER_CLOSE[0], Body(TRANSFER_CLOSE) + rest;
    assert TRANSFER_CLOSE == [line] && Set(line) && FirstName(line) == "";
    WithoutLine(line, rest, "CdtrAgt");
    WithoutLine(line, rest, "RmtInf");
    WithoutOptional("\n        ", ["RmtInf"], "Ustrd", p.remittanceInfo, close, "CdtrAgt");
    BicRead(p, Body(InfoLines(p)) + close);
    InfoRead(p, close);
    EndOfLine("\n      ", "CdtTrfTxInf", rest);
  }

  lemma TransferItems(p: Payment, rest: seq<Item>)
    ensures Body(PaymentLines(p)) + rest ==
            Body(TRANSFER_OPEN) + (Body(IdLines(p)) + (Body(AmtLines(p)) + (Body(NameLines(p)) + (Body(IbanLines(p))
            + (Body(BicLines(p)) + (Body(InfoLines(p)) + (Body(TRANSFER_CLOSE) + rest)))))))
  {
    hide Body, PaymentLines, IdLines, AmtLines, NameLines, IbanLines, BicLines, InfoLines, TRANSFER_OPEN,
      TRANSFER_CLOSE;
    TransferLines(p);
    var info := InfoLines(p) + TRANSFER_CLOSE;
    var bic := BicLines(p) + info;
    var iban := IbanLines(p) + bic;
    var name := NameLines(p) + iban;
    var amt := AmtLines(p) + name;
    LinesThen(TRANSFER_OPEN, IdLines(p) + amt, rest);
    LinesThen(IdLines(p), amt, rest);
    LinesThen(AmtLines(p), name, rest);
    LinesThen(NameLines(p), iban, rest);
    LinesThen(IbanLines(p), bic, rest);
    LinesThen(BicLines(p), info, rest);
    LinesThen(InfoLines(p), TRANSFER_CLOSE, rest);
  }

  // A transfer is read back field by field.
  lemma TransferRead(p: Payment, rest: seq<Item>)
    ensures ReadTransfer(Body(PaymentLines(p)) + rest) == Some((TransferOf(p), rest))
    ensures Start(Body(PaymentLines(p)) + rest, "CdtTrfTxInf").Some?
  {
    IndentsBlank();
    TargetNames();
    hide Body, IsName, Blank, EscapeXml, Value, Field, Optional, Enter, End, Start, ReadAttribute, ReadEuro, Euro,
      Attribute, PaymentLines, IdLines, NameLines, IbanLines, BicLines, InfoLines;
    TransferItems(p, rest);
    var bic := Body(BicLines(p)) + (Body(InfoLines(p)) + (Body(TRANSFER_CLOSE) + rest));
    var iban := Body(IbanLines(p)) + bic;
    var name := Body(NameLines(p)) + iban;
    var amt := Body(AmtLines(p)) + name;
    EnterOfLine("\n      ", "CdtTrfTxInf", Body(IdLines(p)) + amt);
    IdRead(p, amt);
    AmountRead(p, name);
    CurrencyRead(p.currency);
    EuroRoundTrip(p.amountCents);
    NameRead(p, iban);
    IbanRead(p, bic);
    OptionsRead(p, rest);
  }

  // ----- All transfers ---------------------------------------------------------------------------

  lemma PaymentsAppend(payments: seq<Payment>, last: Payment)
    ensures AllPaymentLines(payments + [last]) == AllPaymentLines(payments) + PaymentLines(last)
  {
    hide PaymentLines;
    assert (payments + [last])[..|payments|] == payments;
  }

  lemma {:induction false} PaymentsPrepend(first: Payment, others: seq<Payment>)
    ensures AllPaymentLines([first] + others) == PaymentLines(first) + AllPaymentLines(others)
    decreases |others|
  {
    hide PaymentLines, AllPaymentLines;
    if others == [] {
      PaymentsAppend([], first);
      NoPaymentLines();
      assert [] + [first] == [first] + others;
    } else {
      var front, last := others[..|others| - 1], others[|others| - 1];
      PaymentsPrepend(first, front);
      PaymentsAppend([first] + front, last);
      PaymentsAppend(front, last);
      assert [first] + others == [first] + front + [last] && others == front + [last];
      RegroupLines(PaymentLines(first), AllPaymentLines(front), PaymentLines(last));
    }
  }

  lemma NoPaymentLines()
    ensures AllPaymentLines([]) == []
  {
  }

  lemma TransfersStep(items: seq<Item>, first: Transfer, middle: seq<Item>, others: seq<Transfer>, rest: seq<Item>)
    requires Start(items, "CdtTrfTxInf").Some? && ReadTransfer(items) == Some((first, middle))
    requires ReadTransfers(middle) == Some((others, rest))
    ensures ReadTransfers(items) == Some(([first] + others, rest))
  {
    hide ReadTransfer, Start;
  }

  lemma NoTransfers(rest: seq<Item>)
    requires Without(rest, "CdtTrfTxInf")
    ensures ReadTransfers(Body(AllPaymentLines([])) + rest) == Some((TransfersOf([]), rest))
  {
    hide ReadTransfer, Start;
    assert Body([]) + rest == rest && TransfersOf([]) == [];
  }

  lemma TransfersUnfold(payments: seq<Payment>)
    requires payments != []
    ensures TransfersOf(payments) == [TransferOf(payments[0])] + TransfersOf(payments[1..])
  {
  }

  lemma {:induction false} TransfersRead(payments: seq<Payment>, rest: seq<Item>)
    requires Without(rest, "CdtTrfTxInf")
    ensures ReadTransfers(Body(AllPaymentLines(payments)) + rest) == Some((TransfersOf(payments), rest))
    decreases |payments|
  {
    hide ReadTransfer, ReadTransfers, Start, Without, PaymentLines, Body, TransfersOf, AllPaymentLines, TransferOf;
    if payments == [] {
      NoTransfers(rest);
    } else {
      var others := payments[1..];
      var middle := Body(AllPaymentLines(others)) + rest;
      TransfersRead(others, rest);
      assert payments == [payments[0]] + others;
      PaymentsPrepend(payments[0], others);
      LinesThen(PaymentLines(payments[0]), AllPaymentLines(others), rest);
      TransferRead(payments[0], middle);
      TransfersStep(Body(PaymentLines(payments[0])) + middle, TransferOf(payments[0]), middle, TransfersOf(others),
                    rest);
      TransfersUnfold(payments);
    }
  }

  lemma {:induction false} SumIsTotal(payments: seq<Payment>)
    ensures Sum(TransfersOf(payments)) == Total(payments)
  {
    if payments != [] {
      var n := |payments| - 1;
      SumIsTotal(payments[..n]);
      assert TransfersOf(payments) == TransfersOf(payments[..n]) + [TransferOf(payments[n])];
      SumAppend(TransfersOf(payments[..n]), TransferOf(payments[n]));
    }
  }

  lemma {:induction false} SumAppend(transfers: seq<Transfer>, t: Transfer)
    ensures Sum(transfers + [t]) == Sum(transfers) + t.amountCents
  {
    if transfers == [] {
      assert transfers + [t] == [t] && [t][1..] == [];
    } else {
      assert (transfers + [t])[1..] == transfers[1..] + [t];
      SumAppend(transfers[1..], t);
    }
  }

  // ----- Behind the date -------------------------------------------------------------------------

  function DebtorName(b: Batch): seq<Line> {
    [Open("\n      ", "Dbtr", ""), Leaf("\n        ", [], "Nm", "", EscapeXml(b.initiatorName)),
     Close("\n      ", "Dbtr")]
  }

  function DebtorIban(b: Batch): seq<Line> {
    [Open("\n      ", "DbtrAcct", ""), Leaf("\n        ", ["Id"], "IBAN", "", EscapeXml(b.initiatorIban)),
     Close("\n      ", "DbtrAcct")]
  }

  function DebtorBic(b: Batch): seq<Line> {
    OptionalLine("\n      ", ["DbtrAgt", "FinInstnId"], "BICFI", b.initiatorBic)
  }

  lemma DebtorParts(b: Batch)
    ensures DebtorLines(b) == DebtorName(b) + (DebtorIban(b) + DebtorBic(b))
  {
    hide EscapeXml;
  }

  lemma DebtorRead(b: Batch, rest: seq<Item>)
    requires Without(rest, "DbtrAgt")
    ensures ReadDebtor(Body(DebtorLines(b)) + rest) ==
            Some((Debtor(b.initiatorName, b.initiatorIban, b.initiatorBic), rest))
  {
    DebtorParts(b);
    IndentsBlank();
    GoodNames();
    MoreGoodNames();
    EvenMoreGoodNames();
    hide Body, IsName, Blank, EscapeXml, Value, Field, Optional, Without, OptionalLine, DebtorLines;
    LinesThen(DebtorName(b), DebtorIban(b) + DebtorBic(b), rest);
    LinesThen(DebtorIban(b), DebtorBic(b), rest);
    var bic := Body(DebtorBic(b)) + rest;
    var iban := Body(DebtorIban(b)) + bic;
    ValueOfLines("\n      ", "Dbtr", "\n        ", [], "Nm", b.initiatorName, iban);
    ValueOfLines("\n      ", "DbtrAcct", "\n        ", ["Id"], "IBAN", b.initiatorIban, bic);
    OptionalOf("\n      ", ["DbtrAgt", "FinInstnId"], "BICFI", b.initiatorBic, rest);
    assert ["Dbtr"] + ([] + ["Nm"]) == ["Dbtr", "Nm"];
    assert ["DbtrAcct"] + (["Id"] + ["IBAN"]) == ["DbtrAcct", "Id", "IBAN"];
    assert ["DbtrAgt", "FinInstnId"] + ["BICFI"] == ["DbtrAgt", "FinInstnId", "BICFI"];
    hide DebtorName, DebtorIban, DebtorBic;
  }

  lemma FooterRead(b: Batch, rest: seq<Item>)
    ensures ReadEnd(Body(FooterLines(b)) + rest) == Some(rest)
  {
    IndentsBlank();
    var lines := FooterLines(b);
    assert lines == [lines[0]] + ([lines[1]] + [lines[2]]);
    hide Body, Blank, End;
    LinesThen([lines[0]], [lines[1]] + [lines[2]], rest);
    LinesThen([lines[1]], [lines[2]], rest);
    EndOfLine(lines[2].indent, "Document", rest);
    EndOfLine(lines[1].indent, "CstmrCdtTrfInitn", Body([lines[2]]) + rest);
    EndOfLine(lines[0].indent, "PmtInf", Body([lines[1]]) + (Body([lines[2]]) + rest));
  }

  lemma FooterWithout(b: Batch, rest: seq<Item>, name: string)
    requires name != ""
    ensures Without(Body(FooterLines(b)) + rest, name)
  {
    IndentsBlank();
    GoodNames();
    var lines := FooterLines(b);
    assert lines == [lines[0]] + lines[1..];
    assert Set(lines[0]) && FirstName(lines[0]) == "";
    hide Body, Blank, Without;
    LinesThen([lines[0]], lines[1..], rest);
    WithoutLine(lines[0], Body(lines[1..]) + rest, name);
  }

  lemma TransferFirst(p: Payment)
    ensures PaymentLines(p) != [] && PaymentLines(p) == TRANSFER_OPEN + PaymentLines(p)[1..]
  {
    hide ReferenceLines, CreditorLines, AmountLine;
  }

  lemma NothingThen(rest: seq<Item>)
    ensures Body(AllPaymentLines([])) + rest == rest
  {
  }

  lemma PaymentsWithout(payments: seq<Payment>, rest: seq<Item>, name: string)
    requires Without(rest, name) && name != "CdtTrfTxInf" && name != ""
    ensures Without(Body(AllPaymentLines(payments)) + rest, name)
  {
    hide Body, Without, PaymentLines, AllPaymentLines, Set;
    if payments == [] {
      NothingThen(rest);
    } else {
      TransferOpenSet();
      TransferFirst(payments[0]);
      var first, tail := TRANSFER_OPEN[0], PaymentLines(payments[0])[1..] + AllPaymentLines(payments[1..]);
      assert payments == [payments[0]] + payments[1..];
      PaymentsPrepend(payments[0], payments[1..]);
      RegroupLines(TRANSFER_OPEN, PaymentLines(payments[0])[1..], AllPaymentLines(payments[1..]));
      LinesThen(TRANSFER_OPEN, tail, rest);
      WithoutLine(first, Body(tail) + rest, name);
    }
  }

  lemma TransferOpenSet()
    ensures TRANSFER_OPEN == [TRANSFER_OPEN[0]] && Set(TRANSFER_OPEN[0]) && FirstName(TRANSFER_OPEN[0]) == "CdtTrfTxInf"
  {
    IndentsBlank();
    TargetNames();
    AttributesOfNone();
    hide Blank, IsName, NotSlashed;
  }

  lemma RegroupLines(a: seq<Line>, b: seq<Line>, c: seq<Line>)
    ensures a + b + c == a + (b + c)
  {
  }

  // The lines behind the date, read to the end.
  lemma BackRead(b: Batch, rest: seq<Item>)
    ensures var transfers := Body(AllPaymentLines(b.payments)) + (Body(FooterLines(b)) + rest);
            && ReadDebtor(Body(BackLines(b)) + rest) ==
               Some((Debtor(b.initiatorName, b.initiatorIban, b.initiatorBic), transfers))
            && ReadTransfers(transfers) == Some((TransfersOf(b.payments), Body(FooterLines(b)) + rest))
            && ReadEnd(Body(FooterLines(b)) + rest) == Some(rest)
  {
    hide Body, Without, ReadDebtor, ReadTransfers, ReadEnd, DebtorLines, AllPaymentLines, FooterLines, TransfersOf;
    var pays, foot := AllPaymentLines(b.payments), FooterLines(b);
    assert BackLines(b) == DebtorLines(b) + (pays + foot);
    LinesThen(DebtorLines(b), pays + foot, rest);
    LinesThen(pays, foot, rest);
    FooterRead(b, rest);
    FooterWithout(b, rest, "CdtTrfTxInf");
    FooterWithout(b, rest, "DbtrAgt");
    TransfersRead(b.payments, Body(foot) + rest);
    PaymentsWithout(b.payments, Body(foot) + rest, "DbtrAgt");
    DebtorRead(b, Body(pays) + (Body(foot) + rest));
  }

  // ----- Before the date -------------------------------------------------------------------------

  lemma ControlsRead(b: Batch, rest: seq<Item>)
    ensures ReadControls(Body(TotalLines(b)) + rest) == Some(((|b.payments|, Total(b.payments)), rest))
  {
    IndentsBlank();
    TargetNames();
    DigitsArePlain(|b.payments|);
    EuroIsPlainText(Total(b.payments));
    EuroRoundTrip(Total(b.payments));
    ReadDigits(|b.payments|, "");
    assert Digits(|b.payments|) + "" == Digits(|b.payments|);
    hide Body, IsName, Blank, Value, Digits, Euro, Total, ReadEuro, ReadNat;
    var lines := TotalLines(b);
    assert lines == [lines[0]] + [lines[1]];
    LinesThen([lines[0]], [lines[1]], rest);
    ValueOfPlain("\n      ", "NbOfTxs", Digits(|b.payments|), Body([lines[1]]) + rest);
    ValueOfPlain("\n      ", "CtrlSum", Euro(Total(b.payments)), rest);
  }

  function InitiatorName(b: Batch): seq<Line> {
    [Open("\n      ", "InitgPty", ""), Leaf("\n        ", [], "Nm", "", EscapeXml(b.initiatorName)),
     Close("\n      ", "InitgPty")]
  }

  function IdAndTime(b: Batch, now: string): seq<Line> {
    [Leaf("\n      ", [], "MsgId", "", EscapeXml(b.msgId))] + [Leaf("\n      ", [], "CreDtTm", "", now)]
  }

  const INITIATION_OPEN: seq<Line> := [Open("\n  ", "CstmrCdtTrfInitn", "")]
  const GROUP_OPEN: seq<Line> := [Open("\n    ", "GrpHdr", "")]
  const GROUP_CLOSE: seq<Line> := [Close("\n    ", "GrpHdr")]
  const PAYMENT_OPEN: seq<Line> := [Open("\n    ", "PmtInf", "")]

  function BatchId(b: Batch): seq<Line> {
    [Leaf("\n      ", [], "PmtInfId", "", EscapeXml(b.msgId) + "-PI1")]
  }

  const METHOD: seq<Line> := [Leaf("\n      ", [], "PmtMtd", "", "TRF")]

  lemma HeaderParts(b: Batch, now: string)
    ensures HeaderLines(b, now) == INITIATION_OPEN + (GROUP_OPEN + IdAndTime(b, now))
    ensures InitiatorLines(b) == InitiatorName(b) + (GROUP_CLOSE + (PAYMENT_OPEN + (BatchId(b) + METHOD)))
  {
    hide EscapeXml;
  }

  function GroupLines(b: Batch, now: string): seq<Line> {
    GROUP_OPEN + (IdAndTime(b, now) + (TotalLines(b) + (InitiatorName(b) + GROUP_CLOSE)))
  }

  function PaymentHeadLines(b: Batch): seq<Line> {
    PAYMENT_OPEN + (BatchId(b) + (METHOD + TotalLines(b)))
  }

  lemma FrontParts(b: Batch, now: string)
    ensures FrontLines(b, now) == [ROOT] + (INITIATION_OPEN + (GroupLines(b, now) + PaymentHeadLines(b)))
  {
    HeaderParts(b, now);
    hide HeaderLines, InitiatorLines, TotalLines, IdAndTime, InitiatorName, BatchId;
    AssembleFront([ROOT], INITIATION_OPEN, GROUP_OPEN, IdAndTime(b, now), TotalLines(b), InitiatorName(b), GROUP_CLOSE,
                  PAYMENT_OPEN, BatchId(b), METHOD);
  }

  lemma AssembleFront(r: seq<Line>, a: seq<Line>, b: seq<Line>, c: seq<Line>, t: seq<Line>, d: seq<Line>, e: seq<Line>,
                      f: seq<Line>, g: seq<Line>, h: seq<Line>)
    ensures r + (a + (b + c)) + t + (d + (e + (f + (g + h)))) + t ==
            r + (a + ((b + (c + (t + (d + e)))) + (f + (g + (h + t)))))
  {
    assert r + (a + (b + c)) + t + (d + (e + (f + (g + h)))) + t == r + a + b + c + t + d + e + f + g + h + t;
    assert r + (a + ((b + (c + (t + (d + e)))) + (f + (g + (h + t))))) == r + a + b + c + t + d + e + f + g + h + t;
  }

  lemma IdAndTimeRead(b: Batch, now: string, rest: seq<Item>)
    requires PlainText(now)
    ensures var time := Body([IdAndTime(b, now)[1]]) + rest;
            && Value(Body(IdAndTime(b, now)) + rest, ["MsgId"]) == Some((b.msgId, time))
            && Value(time, ["CreDtTm"]) == Some((now, rest))
  {
    IndentsBlank();
    GoodNames();
    hide Body, IsName, Blank, Value, EscapeXml;
    LinesThen([IdAndTime(b, now)[0]], [IdAndTime(b, now)[1]], rest);
    ValueOfLeaf("\n      ", [], "MsgId", b.msgId, Body([IdAndTime(b, now)[1]]) + rest);
    assert [] + ["MsgId"] == ["MsgId"];
    ValueOfPlain("\n      ", "CreDtTm", now, rest);
  }

  lemma GroupRead(b: Batch, now: string, rest: seq<Item>)
    requires PlainText(now)
    ensures ReadGroup(Body(GroupLines(b, now)) + rest) ==
            Some(((b.msgId, now, b.initiatorName, (|b.payments|, Total(b.payments))), rest))
  {
    IndentsBlank();
    GoodNames();
    hide Body, IsName, Blank, Value, EscapeXml, Enter, End, ReadControls, TotalLines, IdAndTime, Total, PlainText;
    var close := Body(GROUP_CLOSE) + rest;
    var party := Body(InitiatorName(b)) + close;
    var controls := Body(TotalLines(b)) + party;
    LinesThen(GROUP_OPEN, IdAndTime(b, now) + (TotalLines(b) + (InitiatorName(b) + GROUP_CLOSE)), rest);
    LinesThen(IdAndTime(b, now), TotalLines(b) + (InitiatorName(b) + GROUP_CLOSE), rest);
    LinesThen(TotalLines(b), InitiatorName(b) + GROUP_CLOSE, rest);
    LinesThen(InitiatorName(b), GROUP_CLOSE, rest);
    EnterOfLine("\n    ", "GrpHdr", Body(IdAndTime(b, now)) + controls);
    IdAndTimeRead(b, now, controls);
    ControlsRead(b, party);
    ValueOfLines("\n      ", "InitgPty", "\n        ", [], "Nm", b.initiatorName, close);
    assert ["InitgPty"] + ([] + ["Nm"]) == ["InitgPty", "Nm"];
    EndOfLine("\n    ", "GrpHdr", rest);
  }

  lemma EndingUnescaped(s: string)
    ensures EscapeXml(s) + "-PI1" == EscapeXml(s + "-PI1")
  {
    hide EscapeXml;
    EscapeConcat(s, "-PI1");
    EscapeIsSinglePass("-PI1");
    EscapePlain("-PI1");
  }

  lemma {:induction false} EscapePlain(s: string)
    requires forall i | 0 <= i < |s| :: Entity(s[i]) == [s[i]]
    ensures EscapeOnce(s) == s
  {
    hide Entity;
    if s != "" {
      assert Entity(s[0]) == [s[0]];
      forall i | 0 <= i < |s[1..]| ensures Entity(s[1..][i]) == [s[1..][i]] {
        assert s[1..][i] == s[i + 1];
      }
      EscapePlain(s[1..]);
    }
  }

  lemma PaymentHeadRead(b: Batch, rest: seq<Item>)
    ensures ReadPaymentHead(Body(PaymentHeadLines(b)) + rest) ==
            Some(((b.msgId + "-PI1", "TRF", (|b.payments|, Total(b.payments))), rest))
  {
    IndentsBlank();
    GoodNames();
    EndingUnescaped(b.msgId);
    assert '&' !in "TRF";
    hide Body, IsName, Blank, Value, EscapeXml, Enter, ReadControls, TotalLines, Total;
    var controls := Body(TotalLines(b)) + rest;
    var manner := Body(METHOD) + controls;
    LinesThen(PAYMENT_OPEN, BatchId(b) + (METHOD + TotalLines(b)), rest);
    LinesThen(BatchId(b), METHOD + TotalLines(b), rest);
    LinesThen(METHOD, TotalLines(b), rest);
    EnterOfLine("\n    ", "PmtInf", Body(BatchId(b)) + manner);
    ValueOfLeaf("\n      ", [], "PmtInfId", b.msgId + "-PI1", manner);
    assert [] + ["PmtInfId"] == ["PmtInfId"];
    ValueOfPlain("\n      ", "PmtMtd", "TRF", controls);
    ControlsRead(b, rest);
  }

  lemma RootAttribute()
    ensures Attribute("xmlns", NAMESPACE) == " xmlns=\"" + "urn:iso:std:iso:" + "20022:tech:xsd:" + "pain.001.001.09\""
  {
    var a, b, c := "urn:iso:std:iso:", "20022:tech:xsd:", "pain.001.001.09";
    assert " " + "xmlns" + "=\"" == " xmlns=\"" && c + "\"" == "pain.001.001.09\"";
    RegroupRoot(" " + "xmlns", "=\"", a, b, c, "\"");
  }

  lemma RegroupRoot(x: string, eq: string, a: string, b: string, c: string, q: string)
    ensures x + (eq + ((a + b + c) + q)) == (x + eq) + a + b + (c + q)
  {
  }

  lemma NamespaceUnquoted()
    ensures NoMarkup(NAMESPACE) && '"' !in NAMESPACE && IsName("xmlns")
  {
    NamespaceIsPlain();
    hide NAMESPACE;
  }

  lemma RootStarts(items: seq<Item>, attributes: string, rest: seq<Item>)
    requires items == [Data("\n"), Tag("Document" + attributes)] && NotSlashed(attributes)
    ensures Start(items + rest, "Document") == Some((attributes, rest))
  {
    IndentsBlank();
    MoreGoodNames();
    hide Blank, IsName, NotSlashed, Start;
    assert items + rest == [Data("\n")] + ([Tag("Document" + attributes)] + rest);
    StartOf([Data("\n")], "Document", attributes, rest);
  }

  lemma RootRead(rest: seq<Item>)
    ensures Start(Body([ROOT]) + rest, "Document") == Some((Attribute("xmlns", NAMESPACE), rest))
  {
    hide Start, NAMESPACE, Body, NoMarkup, IsName, NotSlashed, Attributes;
    BodyOfRoot();
    NamespaceUnquoted();
    AttributeAccepted("xmlns", NAMESPACE);
    hide Attribute;
    RootStarts(Body([ROOT]), Attribute("xmlns", NAMESPACE), rest);
  }

  lemma HeaderRead(b: Batch, now: string, rest: seq<Item>)
    requires PlainText(now)
    ensures ReadHeader(Body(FrontLines(b, now)) + rest) ==
            Some(((Header(b.msgId, now, b.initiatorName, b.msgId + "-PI1", "TRF"), (|b.payments|, Total(b.payments))),
                  rest))
  {
    IndentsBlank();
    GoodNames();
    FrontParts(b, now);
    RootAttribute();
    hide Body, IsName, Blank, Start, Enter, ReadGroup, ReadPaymentHead, GroupLines, PaymentHeadLines, Total, PlainText,
      FrontLines, Attribute;
    var head := Body(PaymentHeadLines(b)) + rest;
    var group := Body(GroupLines(b, now)) + head;
    LinesThen([ROOT], INITIATION_OPEN + (GroupLines(b, now) + PaymentHeadLines(b)), rest);
    LinesThen(INITIATION_OPEN, GroupLines(b, now) + PaymentHeadLines(b), rest);
    LinesThen(GroupLines(b, now), PaymentHeadLines(b), rest);
    RootRead(Body(INITIATION_OPEN) + group);
    EnterOfLine("\n  ", "CstmrCdtTrfInitn", group);
    GroupRead(b, now, head);
    PaymentHeadRead(b, rest);
  }

  // ----- The date --------------------------------------------------------------------------------

  const DATE_PATH: seq<string> := ["ReqdExctnDt", "Dt"]

  lemma DateNames()
    ensures IsName("Dt") && IsName("ReqdExctnDt") && NotSlashed("") && Space([]) && Space([Data("\n      ")])
    ensures "ReqdExctnDt" + "" == "ReqdExctnDt" && "Dt" + "" == "Dt"
  {
    IndentsBlank();
    MoreGoodNames();
    EvenMoreGoodNames();
    hide Blank;
  }

  // A date without markup is read, with its entities resolved.
  lemma PlainDateRead(date: string, back: seq<Item>)
    requires NoOpen(date)
    ensures Value(DATE_OPEN + (DateItems(date) + ([Tag("/ReqdExctnDt")] + back)), DATE_PATH) ==
            Some((Unescape(date), back))
  {
    hide Value, Unescape, DateItems, Wrap, Element, DATE_OPEN, DATE_PATH;
    PlainDateItems(date);
    DateAsElement(date, back);
    DateElementRead(date, back);
  }

  lemma DateElementRead(date: string, back: seq<Item>)
    ensures Value([Data("\n      ")] + (Wrap(["ReqdExctnDt"], Element("Dt", "", date)) + back), DATE_PATH) ==
            Some((Unescape(date), back))
  {
    DateNames();
    hide IsName, Field, Unescape, NotSlashed, Space, Wrap, Element;
    FieldOfWrap([Data("\n      ")], ["ReqdExctnDt"], "Dt", "", date, back);
    assert ["ReqdExctnDt"] + ["Dt"] == DATE_PATH;
  }

  lemma DateAsElement(date: string, back: seq<Item>)
    ensures DATE_OPEN + ((if date == "" then [] else [Data(date)]) + [Tag("/Dt")] + ([Tag("/ReqdExctnDt")] + back)) ==
            [Data("\n      ")] + (Wrap(["ReqdExctnDt"], Element("Dt", "", date)) + back)
  {
    var data := if date == "" then [] else [Data(date)];
    WrapUnfold(["ReqdExctnDt"], Element("Dt", "", date), back);
    assert ["ReqdExctnDt"][1..] == [] && Wrap([], Element("Dt", "", date)) == Element("Dt", "", date);
    assert "Dt" + "" == "Dt" && "/" + "Dt" == "/Dt" && "/" + "ReqdExctnDt" == "/ReqdExctnDt";
    hide Wrap, Element;
    JoinDate(Data("\n      "), Tag("ReqdExctnDt"), Tag("Dt"), data, Tag("/Dt"), [Tag("/ReqdExctnDt")] + back);
  }

  lemma JoinDate(a: Item, b: Item, c: Item, data: seq<Item>, d: Item, rest: seq<Item>)
    ensures [a, b, c] + (data + [d] + rest) == [a] + ([b] + (([c] + data + [d]) + rest))
  {
  }

  lemma {:induction false} UnescapeShortens(s: string)
    ensures |Unescape(s)| <= |s| && (CleanText(s) && '&' in s ==> |Unescape(s)| < |s|)
    decreases |s|
  {
    if s != "" {
      var k := if s[0] == '&' && EntityLength(s) > 0 then EntityLength(s) else 1;
      UnescapeShortens(s[k..]);
      assert s[0] != '&' && '&' in s ==> '&' in s[1..] by {
        assert s == [s[0]] + s[1..];
      }
      UnescapeStep(s, k);
    }
  }

  lemma UnescapeStep(s: string, k: nat)
    requires s != "" && k == if s[0] == '&' && EntityLength(s) > 0 then EntityLength(s) else 1
    ensures |Unescape(s)| == 1 + |Unescape(s[k..])|
  {
    if s[0] != '&' { NoEntity(s); }
  }

  lemma NoEntity(s: string)
    requires s != "" && s[0] != '&'
    ensures !("&amp;" <= s) && !("&lt;" <= s) && !("&gt;" <= s) && !("&quot;" <= s) && !("&apos;" <= s)
  {
    assert "&amp;"[0] == '&' && "&lt;"[0] == '&' && "&gt;"[0] == '&' && "&quot;"[0] == '&' && "&apos;"[0] == '&';
  }

  lemma ValueIsText(items: seq<Item>, outer: string, name: string, inside: seq<Item>, text: seq<Item>)
    requires Start(items, outer) == Some(("", inside)) && Start(inside, name) == Some(("", text))
    ensures var r := Value(items, [outer, name]); r.Some? ==> r.value.0 == TextOf(text).0
  {
    hide Start, TextOf, End;
    var path := [outer, name];
    assert path[1..] == [name] && path[0] == outer;
    var inner := Field(inside, [name]);
    assert inner.Some? ==> inner.value.0 == ("", TextOf(text).0);
    assert Field(items, path).Some? ==> inner.Some? && Field(items, path).value.0 == inner.value.0;
  }

  lemma DateStarts(text: seq<Item>)
    ensures Start(DATE_OPEN + text, "ReqdExctnDt") == Some(("", [Tag("Dt")] + text))
    ensures Start([Tag("Dt")] + text, "Dt") == Some(("", text))
  {
    DateNames();
    hide Space, IsName, Start, NotSlashed;
    StartOf([Data("\n      ")], "ReqdExctnDt", "", [Tag("Dt")] + text);
    StartOf([], "Dt", "", text);
    assert [] + ([Tag("Dt")] + text) == [Tag("Dt")] + text;
    assert DATE_OPEN + text == [Data("\n      ")] + ([Tag("ReqdExctnDt")] + ([Tag("Dt")] + text));
  }

  // What is read of any other date is shorter than the date.
  lemma MarkupDateRead(date: string, after: seq<Item>)
    requires !NoOpen(date)
    ensures var r := Value(DATE_OPEN + (DateItems(date) + after), DATE_PATH); r.Some? ==> |r.value.0| < |date|
  {
    hide Start, TextOf, DateItems, Value, DATE_OPEN;
    MarkupDateText(date, after);
    var text := DateItems(date) + after;
    DateStarts(text);
    ValueIsText(DATE_OPEN + text, "ReqdExctnDt", "Dt", [Tag("Dt")] + text, text);
  }

  lemma MarkupDateText(date: string, after: seq<Item>)
    requires !NoOpen(date)
    ensures |TextOf(DateItems(date) + after).0| < |date|
  {
    var s := date + "</Dt>";
    hide Unescape;
    var p :| 0 <= p < |date| && date[p] == '<';
    assert s[0] == date[0] && s[p] == '<' && s[|s| - 1] == '>';
    assert FirstEnd(s) <= |s|;
    TokenizeHead(s);
    hide Tokenize;
    var token := FirstToken(s);
    assert (DateItems(date) + after)[0] == token;
    if token.Data? { UnescapeShortens(token.content); }
  }

  // ----- The whole message -----------------------------------------------------------------------

  // Legal characters, without opening brackets, ampersands, or the end of a section.
  predicate PlainDate(date: string) {
    Legal(date) && NoOpen(date) && '&' !in date && NoSectionEnd(date)
  }

  lemma DocumentParts(b: Batch, now: string, today: string)
    requires NoOpen(now)
    ensures var items := Tokenize(BuildPain001(b, now, today));
            && items != []
            && items[1..] == Body(FrontLines(b, now))
               + (DATE_OPEN + (DateItems(ExecutionDate(b, today)) + AfterDate(b)))
  {
    hide Tokenize, ShowAll, Around, Lines, Body, FrontLines, BackLines, DateItems;
    var date := ExecutionDate(b, today);
    DocumentItems(b, now, date);
    var front, tail := Body(FrontLines(b, now)), DateItems(date) + AfterDate(b);
    RegroupDocument(Tag(DECLARATION), front, DATE_OPEN, tail);
    assert BeforeDate(b, now) == [Tag(DECLARATION)] + front + DATE_OPEN;
  }

  lemma RegroupDocument(d: Item, front: seq<Item>, open: seq<Item>, tail: seq<Item>)
    ensures ([d] + front + open + tail)[1..] == front + (open + tail)
  {
  }

  // What the reader makes of the items, whatever the date.
  lemma ItemsRead(b: Batch, now: string, date: string)
    requires PlainText(now)
    ensures var items := Body(FrontLines(b, now)) + (DATE_OPEN + (DateItems(date) + AfterDate(b)));
            ReadItems(items) == Some(MessageOf(b, now, date)) <==> NoOpen(date) && Unescape(date) == date
  {
    hide Body, FrontLines, BackLines, DateItems, ReadHeader, Value, ReadDebtor, ReadTransfers, ReadEnd, PlainText,
      Unescape,
      Total, Sum, TransfersOf, DATE_OPEN, FooterLines, AllPaymentLines, NoOpen, AfterDate;
    var tail := DATE_OPEN + (DateItems(date) + AfterDate(b));
    HeaderRead(b, now, tail);
    if NoOpen(date) {
      var end := [Data("\n")];
      AfterDateIs(b);
      PlainDateRead(date, Body(BackLines(b)) + end);
      BackRead(b, end);
      SumIsTotal(b.payments);
      EndSkipped();
      TransfersCount(b.payments);
    } else {
      MarkupDateRead(date, AfterDate(b));
    }
  }

  lemma AfterDateIs(b: Batch)
    ensures AfterDate(b) == [Tag("/ReqdExctnDt")] + (Body(BackLines(b)) + [Data("\n")])
  {
    hide Body, BackLines;
    RegroupItems([Tag("/ReqdExctnDt")], Body(BackLines(b)), [Data("\n")]);
  }

  lemma EndSkipped()
    ensures Skip([Data("\n")]) == []
  {
    IndentsBlank();
    hide Blank;
  }

  lemma TransfersCount(payments: seq<Payment>)
    ensures |TransfersOf(payments)| == |payments|
  {
  }

  // Whatever the fields contain, the reader gets back the whole message - identifiers, initiator, debtor, date, and
  // every transfer with its amount, currency, creditor and remittance text - exactly when all fields hold only
  // characters that XML allows and the date needs no escaping.
  lemma MessageRoundTripIff(b: Batch, now: string, today: string)
    requires PlainText(now)
    ensures var date := ExecutionDate(b, today);
            ReadMessage(BuildPain001(b, now, today)) == Some(MessageOf(b, now, date)) <==>
            LegalBatch(b) && PlainDate(date)
  {
    hide Tokenize, BuildPain001, WellFormed, ReadItems, LegalBatch, Body, FrontLines, DateItems, AfterDate, DATE_OPEN,
      Balanced, Unescape, Legal, CleanText, NoSectionEnd;
    var date := ExecutionDate(b, today);
    DocumentWellFormedIff(b, now, today);
    DocumentParts(b, now, today);
    ItemsRead(b, now, date);
    if NoOpen(date) {
      PlainDateBalancedIff(date);
      UnescapeShortens(date);
      if '&' !in date {
        PlainIsClean(date);
        UnescapePlain(date);
      }
    }
  }
}
