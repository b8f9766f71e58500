// XML text: the chained escape, its inverse, and a tokenizer that splits markup from character data.
module Xml {
  import opened Text

  // The five replacements in the order in which they are chained.
  function EscapeXml(s: string): string {
    ReplaceAll(ReplaceAll(ReplaceAll(ReplaceAll(ReplaceAll(
      s, '&', "&amp;"), '<', "&lt;"), '>', "&gt;"), '"', "&quot;"), '\'', "&apos;")
  }

  function Entity(c: char): string {
    if c == '&' then "&amp;"
    else if c == '<' then "&lt;"
    else if c == '>' then "&gt;"
    else if c == '"' then "&quot;"
    else if c == '\'' then "&apos;"
    else [c]
  }

  // One pass over the characters.
  function EscapeOnce(s: string): string {
    if s == "" then "" else Entity(s[0]) + EscapeOnce(s[1..])
  }

  function Unescape(s: string): string
    decreases |s|
  {
    if s == "" then ""
    else if "&amp;" <= s then "&" + Unescape(s[5..])
    else if "&lt;" <= s then "<" + Unescape(s[4..])
    else if "&gt;" <= s then ">" + Unescape(s[4..])
    else if "&quot;" <= s then "\"" + Unescape(s[6..])
    else if "&apos;" <= s then "'" + Unescape(s[6..])
    else [s[0]] + Unescape(s[1..])
  }

  lemma {:induction false} ReplaceAbsent(s: string, c: char, r: string)
    requires c !in s
    ensures ReplaceAll(s, c, r) == s
  {
    if s != "" {
      assert s[0] in s && forall d | d in s[1..] :: d in s;
      ReplaceAbsent(s[1..], c, r);
    }
  }

  lemma ReplaceOne(c: char, r: string)
    ensures ReplaceAll([c], c, r) == r
  {
    assert [c][1..] == "" && r + "" == r;
  }

  // Later replacements leave the entities of earlier ones alone, because the ampersand goes first.
  lemma EscapeAmpersand(s: string, e: string)
    requires ReplaceAll(s, '&', "&amp;") == e && '<' !in e && '>' !in e && '"' !in e && '\'' !in e
    ensures EscapeXml(s) == e
  {
    ReplaceAbsent(e, '<', "&lt;");
    ReplaceAbsent(e, '>', "&gt;");
    ReplaceAbsent(e, '"', "&quot;");
    ReplaceAbsent(e, '\'', "&apos;");
  }

  lemma AmpersandSurvives(s: string)
    requires s == "&"
    ensures EscapeXml(s) == "&amp;"
  {
    ReplaceOne('&', "&amp;");
    EscapeAmpersand(s, "&amp;");
  }

  lemma BracketsSurvive()
    ensures EscapeXml("<") == "&lt;" && EscapeXml(">") == "&gt;"
  {
    hide ReplaceAll;
    ReplaceAbsent("<", '&', "&amp;");
    ReplaceOne('<', "&lt;");
    ReplaceAbsent("&lt;", '>', "&gt;");
    ReplaceAbsent("&lt;", '"', "&quot;");
    ReplaceAbsent("&lt;", '\'', "&apos;");
    ReplaceAbsent(">", '&', "&amp;");
    ReplaceAbsent(">", '<', "&lt;");
    ReplaceOne('>', "&gt;");
    ReplaceAbsent("&gt;", '"', "&quot;");
    ReplaceAbsent("&gt;", '\'', "&apos;");
  }

  lemma QuotesSurvive()
    ensures EscapeXml("\"") == "&quot;" && EscapeXml("'") == "&apos;"
  {
    hide ReplaceAll;
    ReplaceAbsent("\"", '&', "&amp;");
    ReplaceAbsent("\"", '<', "&lt;");
    ReplaceAbsent("\"", '>', "&gt;");
    ReplaceOne('"', "&quot;");
    ReplaceAbsent("&quot;", '\'', "&apos;");
    ReplaceAbsent("'", '&', "&amp;");
    ReplaceAbsent("'", '<', "&lt;");
    ReplaceAbsent("'", '>', "&gt;");
    ReplaceAbsent("'", '"', "&quot;");
    ReplaceOne('\'', "&apos;");
  }

  lemma EscapeChar(c: char)
    ensures EscapeXml([c]) == Entity(c)
  {
    match c
    case '&' => AmpersandSurvives([c]);
    case '<' => BracketsSurvive();
    case '>' => BracketsSurvive();
    case '"' => QuotesSurvive();
    case '\'' => QuotesSurvive();
    case _ =>
      ReplaceAbsent([c], '&', "&amp;");
      ReplaceAbsent([c], '<', "&lt;");
      ReplaceAbsent([c], '>', "&gt;");
      ReplaceAbsent([c], '"', "&quot;");
      ReplaceAbsent([c], '\'', "&apos;");
  }

  lemma EscapeConcat(a: string, b: string)
    ensures EscapeXml(a + b) == EscapeXml(a) + EscapeXml(b)
  {
    var a1, b1 := ReplaceAll(a, '&', "&amp;"), ReplaceAll(b, '&', "&amp;");
    var a2, b2 := ReplaceAll(a1, '<', "&lt;"), ReplaceAll(b1, '<', "&lt;");
    var a3, b3 := ReplaceAll(a2, '>', "&gt;"), ReplaceAll(b2, '>', "&gt;");
    var a4, b4 := ReplaceAll(a3, '"', "&quot;"), ReplaceAll(b3, '"', "&quot;");
    ReplaceConcat(a, b, '&', "&amp;");
    ReplaceConcat(a1, b1, '<', "&lt;");
    ReplaceConcat(a2, b2, '>', "&gt;");
    ReplaceConcat(a3, b3, '"', "&quot;");
    ReplaceConcat(a4, b4, '\'', "&apos;");
  }

  // The five chained replacements are a single pass.
  lemma {:induction false} EscapeIsSinglePass(s: string)
    ensures EscapeXml(s) == EscapeOnce(s)
  {
    if s != "" {
      assert s == [s[0]] + s[1..];
      EscapeConcat([s[0]], s[1..]);
      EscapeChar(s[0]);
      EscapeIsSinglePass(s[1..]);
    }
  }

  lemma UnescapeEntity(c: char, rest: string)
    ensures Unescape(Entity(c) + rest) == [c] + Unescape(rest)
  {
    var e := Entity(c);
    assert (e + rest)[|e|..] == rest && (e + rest)[0] == e[0];
    if c == '&' {
      assert "&amp;" <= e + rest;
    } else if c == '<' {
      assert "&lt;" <= e + rest && (e + rest)[1] == 'l';
    } else if c == '>' {
      assert "&gt;" <= e + rest && (e + rest)[1] == 'g';
    } else if c == '"' {
      assert "&quot;" <= e + rest && (e + rest)[1] == 'q';
    } else if c == '\'' {
      assert "&apos;" <= e + rest && (e + rest)[1] == 'a' && (e + rest)[2] == 'p';
    }
  }

  // Escaping loses nothing.
  lemma {:induction false} UnescapeEscape(s: string)
    ensures Unescape(EscapeXml(s)) == s
  {
    EscapeIsSinglePass(s);
    if s != "" {
      EscapeIsSinglePass(s[1..]);
      UnescapeEscape(s[1..]);
      UnescapeEntity(s[0], EscapeOnce(s[1..]));
    }
  }

  // ----- Markup and character data ---------------------------------------------------------------

  datatype Item = Tag(content: string) | Data(content: string)

  predicate NoMarkup(s: string) {
    forall i | 0 <= i < |s| :: s[i] != '<' && s[i] != '>'
  }

  predicate NoOpen(s: string) {
    forall i | 0 <= i < |s| :: s[i] != '<'
  }

  lemma {:induction false} EscapedHasNoMarkup(s: string)
    ensures NoMarkup(EscapeXml(s))
  {
    EscapeIsSinglePass(s);
    if s != "" {
      EscapeIsSinglePass(s[1..]);
      EscapedHasNoMarkup(s[1..]);
    }
  }

  function ShowItem(item: Item): string {
    if item.Tag? then "<" + item.content + ">" else item.content
  }

  function ShowAll(items: seq<Item>): string {
    if items == [] then "" else ShowItem(items[0]) + ShowAll(items[1..])
  }

  function IndexOf(s: string, c: char): (i: nat)
    ensures i <= |s| && (i < |s| ==> s[i] == c) && forall j | 0 <= j < i :: s[j] != c
  {
    if s == "" || s[0] == c then 0 else 1 + IndexOf(s[1..], c)
  }

  // Splits a document into tags and the data between them.
  function Tokenize(s: string): seq<Item>
    decreases |s|
  {
    if s == "" then []
    else if s[0] == '<' then
      var i := IndexOf(s, '>');
      if i == |s| then [Data(s)] else [Tag(s[1..i])] + Tokenize(s[i + 1..])
    else
      var i := IndexOf(s, '<');
      [Data(s[..i])] + Tokenize(s[i..])
  }

  predicate ProperItem(item: Item) {
    if item.Tag? then NoMarkup(item.content) else item.content != "" && NoOpen(item.content)
  }

  // No markup inside items, and data is never split in two.
  predicate Proper(items: seq<Item>) {
    && (forall i | 0 <= i < |items| :: ProperItem(items[i]))
    && forall i | 0 <= i < |items| - 1 :: items[i].Tag? || items[i + 1].Tag?
  }

  lemma TokenizeTag(content: string, rest: string)
    requires NoMarkup(content)
    ensures Tokenize("<" + content + ">" + rest) == [Tag(content)] + Tokenize(rest)
  {
    var s := "<" + content + ">" + rest;
    assert s[|content| + 1] == '>' && s[0] == '<';
    assert forall j | 0 <= j < |content| :: s[j + 1] == content[j] != '>';
    assert forall j | 1 <= j < |content| + 1 :: s[j] == content[j - 1];
    assert IndexOf(s, '>') == |content| + 1;
    assert s[1..|content| + 1] == content && s[|content| + 2..] == rest;
  }

  lemma TokenizeData(content: string, rest: string)
    requires content != "" && NoOpen(content) && (rest == "" || rest[0] == '<')
    ensures Tokenize(content + rest) == [Data(content)] + Tokenize(rest)
  {
    var s := content + rest;
    assert IndexOf(s, '<') == |content|;
    assert s[..|content|] == content && s[|content|..] == rest;
  }

  // A reader recovers the items of any proper document.
  lemma {:induction false} TokenizeShow(items: seq<Item>)
    requires Proper(items)
    ensures Tokenize(ShowAll(items)) == items
  {
    if items != [] {
      TokenizeShow(items[1..]);
      var rest := ShowAll(items[1..]);
      assert ProperItem(items[0]);
      if items[0].Tag? {
        TokenizeTag(items[0].content, rest);
      } else {
        if |items| > 1 {
          assert items[1].Tag? && items[1..][0] == items[1];
        }
        TokenizeData(items[0].content, rest);
      }
    }
  }

  lemma {:induction false} ShowConcat(a: seq<Item>, b: seq<Item>)
    ensures ShowAll(a + b) == ShowAll(a) + ShowAll(b)
  {
    if a == [] {
      assert a + b == b;
    } else {
      assert (a + b)[1..] == a[1..] + b;
      ShowConcat(a[1..], b);
    }
  }

  lemma TokenizeItem(item: Item, rest: string)
    requires ProperItem(item) && (item.Data? ==> rest == "" || rest[0] == '<')
    ensures Tokenize(ShowItem(item) + rest) == [item] + Tokenize(rest)
  {
    hide Tokenize;
    if item.Tag? { TokenizeTag(item.content, rest); } else { TokenizeData(item.content, rest); }
  }

  lemma ProperUnfold(items: seq<Item>)
    requires Proper(items) && items != []
    ensures ProperItem(items[0]) && Proper(items[1..])
    ensures items[0].Data? && |items| > 1 ==> items[1].Tag?
  {
  }

  lemma ShowUnfold(items: seq<Item>, rest: string)
    requires items != []
    ensures ShowAll(items) + rest == ShowItem(items[0]) + (ShowAll(items[1..]) + rest)
    ensures items[0].Tag? ==> (ShowAll(items) + rest)[0] == '<'
  {
    assert ShowAll(items) == ShowItem(items[0]) + ShowAll(items[1..]);
    hide ShowAll;
    Regroup(ShowItem(items[0]), ShowAll(items[1..]), rest);
  }

  lemma Regroup(a: string, b: string, c: string)
    ensures a + b + c == a + (b + c)
  {
  }

  // Proper items that end with a tag are read off the front of any document.
  lemma {:induction false} TokenizeAfter(items: seq<Item>, rest: string)
    requires Proper(items) && (items == [] || items[|items| - 1].Tag?)
    ensures Tokenize(ShowAll(items) + rest) == items + Tokenize(rest)
  {
    hide Tokenize, Proper, ProperItem, ShowItem;
    if items == [] {
      assert ShowAll(items) + rest == rest;
    } else {
      ProperUnfold(items);
      TokenizeAfter(items[1..], rest);
      hide ShowAll;
      assert items == [items[0]] + items[1..];
      ShowUnfold(items, rest);
      if items[0].Data? { ShowUnfold(items[1..], rest); }
      TokenizeItem(items[0], ShowAll(items[1..]) + rest);
    }
  }

  lemma IndexOfPrefix(s: string, rest: string, c: char)
    requires IndexOf(s, c) < |s|
    ensures IndexOf(s + rest, c) == IndexOf(s, c)
  {
    var i := IndexOf(s, c);
    assert (s + rest)[i] == c;
    assert forall j | 0 <= j < i :: (s + rest)[j] == s[j];
  }

  // Where the first token of a text ends, provided it ends inside.
  function FirstEnd(s: string): nat
    requires s != ""
  {
    if s[0] == '<' then IndexOf(s, '>') + 1 else IndexOf(s, '<')
  }

  function FirstToken(s: string): Item
    requires s != "" && FirstEnd(s) <= |s|
  {
    if s[0] == '<' then Tag(s[1..FirstEnd(s) - 1]) else Data(s[..FirstEnd(s)])
  }

  lemma TokenizeHead(s: string)
    requires s != "" && FirstEnd(s) <= |s|
    ensures Tokenize(s) == [FirstToken(s)] + Tokenize(s[FirstEnd(s)..])
  {
  }

  // What follows a text that ends its first token does not matter to that token.
  lemma TokenizeFirst(s: string, rest: string)
    requires s != "" && if s[0] == '<' then IndexOf(s, '>') < |s| else IndexOf(s, '<') < |s|
    ensures FirstEnd(s) <= |s| && Tokenize(s) == [FirstToken(s)] + Tokenize(s[FirstEnd(s)..])
    ensures Tokenize(s + rest) == [FirstToken(s)] + Tokenize(s[FirstEnd(s)..] + rest)
  {
    hide Tokenize, IndexOf;
    FrontOfConcat(s, rest, FirstEnd(s));
    if s[0] == '<' { FrontOfConcat(s, rest, FirstEnd(s) - 1); }
    IndexOfPrefix(s, rest, if s[0] == '<' then '>' else '<');
    TokenizeHead(s);
    TokenizeHead(s + rest);
  }

  lemma FrontOfConcat(s: string, rest: string, i: nat)
    requires i <= |s|
    ensures var t := s + rest;
            && (s != "" ==> t[0] == s[0]) && t[..i] == s[..i] && t[i..] == s[i..] + rest
               && (i > 0 ==> t[1..i] == s[1..i])
  {
  }

  // The text ends with a tag's closing bracket: the tag that starts at position p, or one that started before.
  predicate Closes(text: string, p: nat) {
    p + 1 < |text| && text[p] == '<' && text[|text| - 1] == '>' && forall j | p <= j < |text| - 1 :: text[j] != '>'
  }

  lemma ClosesTail(text: string, p: nat, k: nat)
    requires Closes(text, p) && k <= p
    ensures Closes(text[k..], p - k)
  {
    assert forall j | p - k <= j < |text[k..]| - 1 :: text[k..][j] == text[j + k];
  }

  lemma ClosesFirst(text: string, p: nat)
    requires Closes(text, p)
    ensures text != "" && if text[0] == '<' then IndexOf(text, '>') < |text| else IndexOf(text, '<') < |text|
    ensures 0 < FirstEnd(text) <= p || FirstEnd(text) == |text|
  {
    hide IndexOf;
  }

  lemma PrependToken(token: Item, a: seq<Item>, b: seq<Item>)
    ensures [token] + (a + b) == [token] + a + b
  {
  }

  // Reading starts afresh after such a text, whatever came before the tag.
  lemma {:induction false} TokenizeCloses(text: string, p: nat, rest: string)
    requires Closes(text, p)
    ensures Tokenize(text + rest) == Tokenize(text) + Tokenize(rest)
    decreases |text|
  {
    hide Tokenize, IndexOf, Closes, FirstEnd, FirstToken;
    ClosesFirst(text, p);
    TokenizeFirst(text, rest);
    var k := FirstEnd(text);
    if k < |text| {
      ClosesTail(text, p, k);
      TokenizeCloses(text[k..], p - k, rest);
    } else {
      assert text[k..] == "" && text[k..] + rest == rest;
      TokenizeNothing();
    }
    PrependToken(FirstToken(text), Tokenize(text[k..]), Tokenize(rest));
  }

  lemma TokenizeNothing()
    ensures Tokenize("") == []
  {
  }
}
