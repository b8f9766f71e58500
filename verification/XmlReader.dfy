// A strict reader of elements, attributes and the five predefined entities. It refuses everything else: comments, CDATA
// sections, processing instructions, character references, and text that is not well formed.
module XmlReader {
  import opened Option
  import opened Text
  import opened Xml

  // ----- Characters and names --------------------------------------------------------------------

  // The characters an XML 1.0 document may contain.
  predicate IsXmlChar(c: char) {
    var n := c as int;
    n == 9 || n == 10 || n == 13 || 0x20 <= n <= 0xD7FF || 0xE000 <= n <= 0xFFFD || 0x10000 <= n
  }

  predicate Legal(s: string) {
    forall i | 0 <= i < |s| :: IsXmlChar(s[i])
  }

  predicate IsBlank(c: char) {
    c == ' ' || c == '\t' || c == '\n' || c == '\r'
  }

  predicate Blank(s: string) {
    forall i | 0 <= i < |s| :: IsBlank(s[i])
  }

  predicate IsNameStart(c: char) {
    'A' <= c <= 'Z' || 'a' <= c <= 'z' || c == '_'
  }

  predicate IsNameChar(c: char) {
    IsNameStart(c) || '0' <= c <= '9' || c == '-' || c == '.'
  }

  predicate IsName(s: string) {
    s != "" && IsNameStart(s[0]) && forall i | 0 <= i < |s| :: IsNameChar(s[i])
  }

  // How many name characters a text starts with.
  function NamePrefix(s: string): (n: nat)
    ensures n <= |s| && (forall i | 0 <= i < n :: IsNameChar(s[i])) && (n < |s| ==> !IsNameChar(s[n]))
  {
    if s == "" || !IsNameChar(s[0]) then 0 else 1 + NamePrefix(s[1..])
  }

  // A tag's name; that of a closing tag is empty.
  function TagName(content: string): string {
    content[..NamePrefix(content)]
  }

  lemma NameHasNoMarkup(s: string)
    requires IsName(s)
    ensures NoMarkup(s)
  {
  }

  lemma TagNameOf(name: string, attributes: string)
    requires IsName(name) && (attributes == "" || !IsNameChar(attributes[0]))
    ensures TagName(name + attributes) == name && NamePrefix(name + attributes) == |name|
  {
    var s := name + attributes;
    assert forall i | 0 <= i < |name| :: s[i] == name[i];
    assert attributes != "" ==> s[|name|] == attributes[0];
  }

  // ----- Character data --------------------------------------------------------------------------

  // The length of the entity a text starts with, if any.
  function EntityLength(s: string): (n: nat)
    ensures n <= |s|
  {
    if "&amp;" <= s then 5
    else if "&lt;" <= s || "&gt;" <= s then 4
    else if "&quot;" <= s || "&apos;" <= s then 6
    else 0
  }

  // Every ampersand starts an entity.
  predicate CleanText(s: string)
    decreases |s|
  {
    if s == "" then true
    else if s[0] != '&' then CleanText(s[1..])
    else EntityLength(s) > 0 && CleanText(s[EntityLength(s)..])
  }

  predicate NoSectionEnd(s: string) {
    forall i | 2 <= i < |s| && s[i] == '>' :: s[i - 1] != ']' || s[i - 2] != ']'
  }

  // What may stand between tags.
  predicate CharData(s: string) {
    Legal(s) && NoOpen(s) && CleanText(s) && NoSectionEnd(s)
  }

  lemma CleanEntity(c: char, rest: string)
    ensures CleanText(Entity(c) + rest) <==> CleanText(rest)
  {
    var e := Entity(c);
    assert (e + rest)[|e|..] == rest && (e + rest)[0] == e[0];
    if c == '&' {
      assert "&amp;" <= e + rest;
    } else if c == '<' {
      assert "&lt;" <= e + rest && (e + rest)[1] == 'l';
    } else if c == '>' {
      assert "&gt;" <= e + rest && (e + rest)[1] == 'g';
    } else if c == '"' {
      assert "&quot;" <= e + rest && (e + rest)[1] == 'q';
    } else if c == '\'' {
      assert "&apos;" <= e + rest && (e + rest)[1] == 'a' && (e + rest)[2] == 'p';
    }
  }

  lemma {:induction false} EscapedIsClean(s: string, rest: string)
    ensures CleanText(EscapeOnce(s) + rest) <==> CleanText(rest)
  {
    hide CleanText;
    if s == "" {
      assert EscapeOnce(s) + rest == rest;
    } else {
      EscapedIsClean(s[1..], rest);
      CleanEntity(s[0], EscapeOnce(s[1..]) + rest);
      assert EscapeOnce(s) + rest == Entity(s[0]) + (EscapeOnce(s[1..]) + rest);
    }
  }

  lemma LegalConcat(a: string, b: string)
    ensures Legal(a + b) <==> Legal(a) && Legal(b)
  {
    forall i | 0 <= i < |a| ensures (a + b)[i] == a[i] {
    }
    forall i | 0 <= i < |b| ensures (a + b)[|a| + i] == b[i] {
    }
  }

  lemma LegalEntity(c: char)
    ensures Legal(Entity(c)) <==> IsXmlChar(c)
  {
    assert [c][0] == c;
  }

  lemma {:induction false} EscapedIsLegal(s: string)
    ensures Legal(EscapeOnce(s)) <==> Legal(s)
  {
    if s != "" {
      EscapedIsLegal(s[1..]);
      LegalEntity(s[0]);
      LegalConcat(Entity(s[0]), EscapeOnce(s[1..]));
      LegalConcat([s[0]], s[1..]);
      assert s == [s[0]] + s[1..] && (Legal([s[0]]) <==> IsXmlChar(s[0])) by {
        assert [s[0]][0] == s[0];
      }
    }
  }

  lemma {:induction false} PlainIsClean(s: string)
    requires '&' !in s
    ensures CleanText(s)
  {
    if s != "" {
      assert s[0] in s && forall c | c in s[1..] :: c in s;
      PlainIsClean(s[1..]);
    }
  }

  lemma NoMarkupNoSectionEnd(s: string)
    requires NoMarkup(s)
    ensures NoSectionEnd(s)
  {
  }

  // An escaped field, possibly with a plain ending, is character data exactly when the field is legal.
  lemma EscapedIsCharData(s: string, ending: string)
    requires Legal(ending) && '&' !in ending && NoMarkup(ending)
    ensures CharData(EscapeXml(s) + ending) <==> Legal(s)
  {
    hide EscapeXml, CleanText, Legal;
    EscapeIsSinglePass(s);
    EscapedHasNoMarkup(s);
    EscapedIsClean(s, ending);
    EscapedIsLegal(s);
    LegalConcat(EscapeXml(s), ending);
    PlainIsClean(ending);
    NoMarkupNoSectionEnd(EscapeXml(s) + ending);
  }

  lemma PlainIsCharData(s: string)
    requires Legal(s) && '&' !in s && NoMarkup(s)
    ensures CharData(s)
  {
    PlainIsClean(s);
    NoMarkupNoSectionEnd(s);
  }

  // ----- Tags ------------------------------------------------------------------------------------

  function SkipBlanks(s: string): (t: string)
    ensures |t| <= |s| && (t != "" ==> !IsBlank(t[0])) && (s == "" || !IsBlank(s[0]) ==> t == s)
  {
    if s != "" && IsBlank(s[0]) then SkipBlanks(s[1..]) else s
  }

  // The rest after a quoted value.
  function AfterQuoted(u: string): (rest: Option<string>)
    ensures rest.Some? ==> |rest.value| < |u|
  {
    if u == "" || (u[0] != '"' && u[0] != '\'') then None
    else
      var v := u[1..];
      var end := IndexOf(v, u[0]);
      if end == |v| || !NoOpen(v[..end]) || !Legal(v[..end]) || !CleanText(v[..end]) then None else Some(v[end + 1..])
  }

  // The rest after one attribute: a name, an equals sign, and a quoted value.
  function AfterAttribute(s: string): (rest: Option<string>)
    ensures rest.Some? ==> |rest.value| < |s|
  {
    var n := NamePrefix(s);
    if n == 0 || !IsNameStart(s[0]) then None
    else
      var t := SkipBlanks(s[n..]);
      if t == "" || t[0] != '=' then None else AfterQuoted(SkipBlanks(t[1..]))
  }

  // Attributes, each after white space, up to the end of the tag.
  predicate Attributes(s: string)
    decreases |s|
  {
    var t := SkipBlanks(s);
    if t == "" then true
    else if t == s then false
    else
      var rest := AfterAttribute(t);
      rest.Some? && Attributes(rest.value)
  }

  lemma AttributesUnfold(t: string)
    requires t != "" && !IsBlank(t[0])
    ensures Attributes(" " + t) <==> AfterAttribute(t).Some? && Attributes(AfterAttribute(t).value)
  {
    hide AfterAttribute;
    assert (" " + t)[1..] == t && (" " + t)[0] == ' ';
    assert SkipBlanks(" " + t) == SkipBlanks(t) == t;
  }

  // One attribute in double quotes is accepted exactly when its value is.
  lemma OneAttribute(name: string, value: string)
    requires IsName(name) && '"' !in value && NoOpen(value)
    ensures Attributes(" " + name + ("=\"" + (value + "\""))) <==> Legal(value) && CleanText(value)
  {
    hide Legal, CleanText, NamePrefix, TagName, Attributes, AfterAttribute;
    var t := name + ("=\"" + (value + "\""));
    assert " " + name + ("=\"" + (value + "\"")) == " " + t && t[0] == name[0];
    AttributesUnfold(t);
    TagNameOf(name, "=\"" + (value + "\""));
    QuoteEnds(value);
    AfterOneAttribute(t, name, value);
    NoAttributes();
  }

  lemma NoAttributes()
    ensures Attributes("")
  {
  }

  lemma QuoteEnds(value: string)
    requires '"' !in value
    ensures IndexOf(value + "\"", '"') == |value|
  {
    var text := value + "\"";
    assert text[|value|] == '"';
    forall i | 0 <= i < |value| ensures text[i] != '"' {
      assert text[i] == value[i];
    }
  }

  lemma AfterOneValue(value: string)
    requires NoOpen(value) && IndexOf(value + "\"", '"') == |value|
    ensures AfterQuoted("\"" + (value + "\"")) == if Legal(value) && CleanText(value) then Some("") else None
  {
    hide Legal, CleanText, IndexOf, NoOpen;
    var v := value + "\"";
    assert ("\"" + v)[1..] == v && ("\"" + v)[0] == '"' && v[..|value|] == value && v[|value| + 1..] == "";
  }

  lemma AfterOneAttribute(t: string, name: string, value: string)
    requires IsName(name) && NoOpen(value) && IndexOf(value + "\"", '"') == |value|
    requires t == name + ("=\"" + (value + "\"")) && NamePrefix(t) == |name|
    ensures AfterAttribute(t) == if Legal(value) && CleanText(value) then Some("") else None
  {
    hide Legal, CleanText, IndexOf, NamePrefix, AfterQuoted, NoOpen;
    var u := "\"" + (value + "\"");
    assert t[|name|..] == "=\"" + (value + "\"") == "=" + u && t[0] == name[0] && ("=" + u)[1..] == u;
    AfterOneValue(value);
  }

  predicate SelfCloses(content: string) {
    content != "" && content[|content| - 1] == '/'
  }

  predicate StartTag(content: string) {
    var n := NamePrefix(content);
    n > 0 && IsNameStart(content[0])
    && Attributes(content[n..if SelfCloses(content) then |content| - 1 else |content|])
  }

  predicate EndTag(content: string, name: string) {
    content != "" && content[0] == '/' && TagName(content[1..]) == name && Blank(content[1..][|name|..])
  }

  // The elements still open after the items, innermost first.
  function Scan(items: seq<Item>, open: seq<string>): Option<seq<string>> {
    if items == [] then Some(open)
    else
      var next := ScanItem(items[0], open);
      if next.None? then None else Scan(items[1..], next.value)
  }

  function ScanItem(item: Item, open: seq<string>): Option<seq<string>> {
    match item
    case Data(content) => if CharData(content) && (open != [] || Blank(content)) then Some(open) else None
    case Tag(content) =>
      if open == [] then None
      else if EndTag(content, open[0]) then Some(open[1..])
      else if !StartTag(content) then None
      else if SelfCloses(content) then Some(open)
      else Some([TagName(content)] + open)
  }

  // The declaration, white space, and one element that holds all the rest.
  predicate WellFormed(items: seq<Item>, declaration: Item) {
    && |items| >= 3 && items[0] == declaration
    && items[1].Data? && Blank(items[1].content)
    && items[2].Tag? && StartTag(items[2].content) && !SelfCloses(items[2].content)
    && Scan(items[3..], [TagName(items[2].content)]) == Some([])
  }

  lemma {:induction false} ScanConcat(a: seq<Item>, b: seq<Item>, open: seq<string>)
    ensures Scan(a + b, open) == if Scan(a, open).None? then None else Scan(b, Scan(a, open).value)
  {
    hide ScanItem;
    if a == [] {
      assert a + b == b;
    } else {
      assert (a + b)[1..] == a[1..] + b;
      if ScanItem(a[0], open).Some? { ScanConcat(a[1..], b, ScanItem(a[0], open).value); }
    }
  }

  lemma ScanOne(item: Item, open: seq<string>)
    ensures Scan([item], open) == ScanItem(item, open)
  {
    hide ScanItem;
    assert [item][1..] == [];
  }

  // What is open before some items is determined by what is open after them.
  lemma ScanItemInjective(item: Item, a: seq<string>, b: seq<string>)
    requires ScanItem(item, a).Some? && ScanItem(item, a) == ScanItem(item, b)
    ensures a == b
  {
    hide Attributes, CharData, NamePrefix;
    if item.Tag? {
      if EndTag(item.content, a[0]) {
        assert a == [a[0]] + a[1..] && b == [b[0]] + b[1..];
      } else if !SelfCloses(item.content) {
        assert ([TagName(item.content)] + a)[1..] == a && ([TagName(item.content)] + b)[1..] == b;
      }
    }
  }

  lemma {:induction false} ScanInjective(items: seq<Item>, a: seq<string>, b: seq<string>)
    requires Scan(items, a).Some? && Scan(items, a) == Scan(items, b)
    ensures a == b
  {
    hide ScanItem;
    if items != [] {
      ScanInjective(items[1..], ScanItem(items[0], a).value, ScanItem(items[0], b).value);
      ScanItemInjective(items[0], a, b);
    }
  }

  // ----- Opening brackets ------------------------------------------------------------------------

  lemma NoOpenConcat(a: string, b: string)
    requires NoOpen(a) && NoOpen(b)
    ensures NoOpen(a + b)
  {
  }

  lemma BlanksHaveNoOpen(s: string)
    requires NoOpen(SkipBlanks(s))
    ensures NoOpen(s)
  {
    if s != "" && IsBlank(s[0]) {
      BlanksHaveNoOpen(s[1..]);
      assert s == [s[0]] + s[1..];
      NoOpenConcat([s[0]], s[1..]);
    }
  }

  lemma QuotedHasNoOpen(u: string)
    requires AfterQuoted(u).Some? && NoOpen(AfterQuoted(u).value)
    ensures NoOpen(u)
  {
    hide IndexOf, Legal, CleanText;
    var v := u[1..];
    var end := IndexOf(v, u[0]);
    assert v == v[..end] + [v[end]] + v[end + 1..] && u == [u[0]] + v;
  }

  lemma AttributeHasNoOpen(s: string)
    requires AfterAttribute(s).Some? && NoOpen(AfterAttribute(s).value)
    ensures NoOpen(s)
  {
    hide SkipBlanks, AfterQuoted;
    var n := NamePrefix(s);
    var t := SkipBlanks(s[n..]);
    QuotedHasNoOpen(SkipBlanks(t[1..]));
    BlanksHaveNoOpen(t[1..]);
    assert t == ['='] + t[1..];
    BlanksHaveNoOpen(s[n..]);
    assert s == s[..n] + s[n..];
  }

  lemma {:induction false} AttributesHaveNoOpen(s: string)
    requires Attributes(s)
    ensures NoOpen(s)
    decreases |s|
  {
    hide AfterAttribute, SkipBlanks;
    var t := SkipBlanks(s);
    if t != "" {
      AttributesHaveNoOpen(AfterAttribute(t).value);
      AttributeHasNoOpen(t);
    }
    BlanksHaveNoOpen(s);
  }

  lemma EndTagHasNoOpen(content: string, name: string)
    requires EndTag(content, name)
    ensures NoOpen(content)
  {
    var s := content[1..];
    assert s == s[..|name|] + s[|name|..] && s[..|name|] == name && content == ['/'] + s;
  }

  lemma StartTagHasNoOpen(content: string)
    requires StartTag(content)
    ensures NoOpen(content)
  {
    hide Attributes;
    var n, m := NamePrefix(content), if SelfCloses(content) then |content| - 1 else |content|;
    AttributesHaveNoOpen(content[n..m]);
    assert content == content[..n] + content[n..m] + content[m..];
  }

  // No accepted item holds an opening bracket.
  lemma AcceptedHasNoOpen(item: Item, open: seq<string>)
    requires ScanItem(item, open).Some?
    ensures NoOpen(item.content)
  {
    hide StartTag, EndTag, CleanText, NoSectionEnd, Legal, NoOpen;
    if item.Tag? {
      if EndTag(item.content, open[0]) {
        EndTagHasNoOpen(item.content, open[0]);
      } else {
        StartTagHasNoOpen(item.content);
      }
    }
  }

  // An opening bracket that is followed by another before any closing one.
  predicate Unclosed(s: string, p: nat, q: nat) {
    p < q < |s| && s[p] == '<' && s[q] == '<' && forall i | p <= i < q :: s[i] != '>'
  }

  // Such a text has a first token that holds an opening bracket, or goes on unclosed after it.
  lemma UnclosedFirst(s: string, p: nat, q: nat)
    requires Unclosed(s, p, q) && FirstEnd(s) <= |s| && NoOpen(FirstToken(s).content)
    ensures 0 < FirstEnd(s) <= p && Unclosed(s[FirstEnd(s)..], p - FirstEnd(s), q - FirstEnd(s))
  {
    var k := FirstEnd(s);
    if s[0] == '<' {
      var content := s[1..k - 1];
      assert forall i | 1 <= i < k - 1 :: s[i] == content[i - 1] != '<';
      assert s[k - 1] == '>';
    }
    if k <= p {
      assert forall i | p - k <= i < q - k :: s[k..][i] == s[i + k];
    }
  }

  lemma EndlessTagRefused(s: string, open: seq<string>)
    requires s != "" && FirstEnd(s) > |s|
    ensures Scan(Tokenize(s), open) == None
  {
    hide Scan;
    assert Tokenize(s) == [Data(s)] && s[0] == '<';
    ScanOne(Data(s), open);
  }

  lemma {:induction false} UnclosedRefused(s: string, p: nat, q: nat, open: seq<string>)
    requires Unclosed(s, p, q)
    ensures Scan(Tokenize(s), open) == None
    decreases |s|
  {
    hide ScanItem, FirstEnd, FirstToken, Tokenize;
    var k := FirstEnd(s);
    if k > |s| {
      EndlessTagRefused(s, open);
    } else {
      TokenizeHead(s);
      var first := FirstToken(s);
      hide Unclosed;
      if ScanItem(first, open).Some? {
        AcceptedHasNoOpen(first, open);
        UnclosedFirst(s, p, q);
        UnclosedRefused(s[k..], p - k, q - k, ScanItem(first, open).value);
      }
    }
  }
}
