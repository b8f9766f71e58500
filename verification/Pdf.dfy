// The minimal PDF 1.4 renderer, and a reader that follows the file's own links: startxref, cross-reference table,
// catalog, page tree, content streams and text lines (sections 7.3.4.2, 7.3.8 and 7.5.4 of ISO 32000-1).
module Pdf {
  import opened Option
  import opened Decimal
  import opened Text

  const LINES_PER_PAGE := 56

  // ----- Text ------------------------------------------------------------------------------------

  // The first, rest and last steps of pdfEscape, in the order in which they are chained.
  function PdfEscape(s: string): string {
    ReplaceAll(ReplaceAll(ReplaceAll(s, '\\', "\\\\"), '(', "\\("), ')', "\\)")
  }

  function ShowLine(line: string): string {
    "(" + PdfEscape(line) + ")" + " Tj T*"
  }

  function ShowLines(page: seq<string>): seq<string> {
    seq(|page|, i requires 0 <= i < |page| => ShowLine(page[i]))
  }

  const STREAM_HEAD := "BT\n/F1 10 Tf\n40 760 Td\n13 TL\n"

  function PageStream(page: seq<string>): string {
    STREAM_HEAD + Join(ShowLines(page), "\n") + ("\n" + "ET")
  }

  function Chunks(lines: seq<string>, n: nat): seq<seq<string>>
    requires n > 0
  {
    if lines == [] then []
    else if |lines| <= n then [lines]
    else [lines[..n]] + Chunks(lines[n..], n)
  }

  // An empty document still has one page with one blank line.
  function Paginate(lines: seq<string>, n: nat): seq<seq<string>>
    requires n > 0
  {
    if lines == [] then [[""]] else Chunks(lines, n)
  }

  // ----- Objects and file ------------------------------------------------------------------------

  const CATALOG_HEAD := "<< /Type /Catalog /Pages "
  const FONT := "<< /Type /Font /Subtype /Type1 " + "/BaseFont /Helvetica >>"
  const PAGES_HEAD := "<< /Type /Pages /Kids ["
  const PAGE_HEAD := "<< /Type /Page /Parent " + "2" + " 0 R /MediaBox [0 0 612 792] /Contents "

  const FREE := "0000000000 65535 f \n"
  const IN_USE := " 00000 n \n"

  function Ref(id: nat): string {
    Digits(id) + " 0 R"
  }

  function KidIds(n: nat): seq<nat> {
    seq(n, i requires 0 <= i < n => 3 + i * 2)
  }

  function Refs(ids: seq<nat>): seq<string> {
    seq(|ids|, i requires 0 <= i < |ids| => Ref(ids[i]))
  }

  function PagesObject(n: nat): string {
    PAGES_HEAD + Join(Refs(KidIds(n)), " ") + "]" + (" /Count " + Digits(n) + " >>")
  }

  function PageTail(fontId: nat): string {
    " /Resources << /Font << /F1 " + Ref(fontId) + " >> >> >>"
  }

  function PageObject(contentId: nat, fontId: nat): string {
    PAGE_HEAD + Ref(contentId) + PageTail(fontId)
  }

  function ContentObject(stream: string): string {
    "<< /Length " + Digits(|stream|) + " >>\nstream\n" + stream + "\nendstream"
  }

  // Object i + 1 of a document with these page streams.
  function ObjectAt(streams: seq<string>, i: nat): string
    requires i < 2 * |streams| + 3
  {
    if i == 0 then CATALOG_HEAD + Ref(2) + " >>"
    else if i == 1 then PagesObject(|streams|)
    else if i == 2 * |streams| + 2 then FONT
    else if i % 2 == 0 then PageObject(i + 2, 2 * |streams| + 3)
    else ContentObject(streams[(i - 3) / 2])
  }

  function Objects(streams: seq<string>): seq<string> {
    seq(2 * |streams| + 3, i requires 0 <= i < 2 * |streams| + 3 => ObjectAt(streams, i))
  }

  function ObjectText(id: nat, content: string): string {
    Digits(id) + " 0 obj\n" + content + "\nendobj\n"
  }

  // The file up to and including the first k objects.
  function Body(objects: seq<string>, k: nat): string
    requires k <= |objects|
  {
    if k == 0 then "%PDF-1.4\n" else Body(objects, k - 1) + ObjectText(k, objects[k - 1])
  }

  function XrefEntry(offset: nat): string {
    PadStart(Digits(offset), 10) + IN_USE
  }

  function XrefEntries(objects: seq<string>, k: nat): string
    requires k <= |objects|
  {
    if k == 0 then "" else XrefEntries(objects, k - 1) + XrefEntry(|Body(objects, k - 1)|)
  }

  function XrefHead(count: nat): string {
    "xref\n0 " + Digits(count) + "\n" + FREE
  }

  function TrailerHead(count: nat): string {
    "trailer\n<< /Size " + Digits(count) + " /Root 1 0 R >>\nstartxref" + "\n"
  }

  function Trailer(count: nat, xrefOffset: nat): string {
    TrailerHead(count) + Digits(xrefOffset) + "\n%%EOF"
  }

  function FileText(objects: seq<string>): string {
    Body(objects, |objects|) + XrefHead(|objects| + 1) + XrefEntries(objects, |objects|)
    + Trailer(|objects| + 1, |Body(objects, |objects|)|)
  }

  // Buffer.from(s, 'latin1') keeps the low byte of each character; bytes are the characters up to U+00FF.
  function Latin1(s: string): string {
    seq(|s|, i requires 0 <= i < |s| => (s[i] as int % 256) as char)
  }

  function Streams(pages: seq<seq<string>>): seq<string> {
    seq(|pages|, i requires 0 <= i < |pages| => PageStream(pages[i]))
  }

  function Render(lines: seq<string>): string {
    Latin1(FileText(Objects(Streams(Paginate(lines, LINES_PER_PAGE)))))
  }

  method PaginateLines(lines: seq<string>, linesPerPage: nat) returns (pages: seq<seq<string>>)
    requires linesPerPage > 0
    ensures pages == Paginate(lines, linesPerPage)
  {
    pages := [];
    var i := 0;
    while i < |lines|
      invariant 0 <= i
      invariant i <= |lines| ==> Chunks(lines, linesPerPage) == pages + Chunks(lines[i..], linesPerPage)
      invariant i > |lines| ==> Chunks(lines, linesPerPage) == pages
      invariant pages == [] <==> i == 0
    {
      var end := if i + linesPerPage <= |lines| then i + linesPerPage else |lines|;
      pages := pages + [lines[i..end]];
      if i + linesPerPage < |lines| {
        assert lines[i..][linesPerPage..] == lines[i + linesPerPage..];
        assert lines[i..][..linesPerPage] == lines[i..end];
      } else {
        assert lines[i..end] == lines[i..];
      }
      i := i + linesPerPage;
    }
    if |pages| == 0 {
      pages := [[""]];
    }
  }

  lemma ObjectsOfPage(streams: seq<string>, i: nat)
    requires i < |streams|
    ensures ObjectAt(streams, 2 + 2 * i) == PageObject(4 + 2 * i, 2 * |streams| + 3)
    ensures ObjectAt(streams, 3 + 2 * i) == ContentObject(streams[i])
  {
    assert (2 + 2 * i) % 2 == 0 && (3 + 2 * i) % 2 == 1 && (2 * i) / 2 == i;
  }

  predicate AgreeUpTo(objects: seq<string>, wanted: seq<string>, m: nat) {
    |objects| == |wanted| && forall k | 2 <= k < m && k < |objects| :: objects[k] == wanted[k]
  }

  lemma AgreeTwoMore(objects: seq<string>, wanted: seq<string>, m: nat)
    requires 2 <= m && m + 1 < |objects| && AgreeUpTo(objects, wanted, m)
    ensures AgreeUpTo(objects[m := wanted[m]][m + 1 := wanted[m + 1]], wanted, m + 2)
  {
  }

  method ResolvePages(objects: seq<string>, streams: seq<string>, fontId: nat) returns (resolved: seq<string>)
    requires fontId == |objects| == 2 * |streams| + 3
    ensures resolved != [] && resolved[|resolved| - 1] == objects[fontId - 1]
    ensures AgreeUpTo(resolved, Objects(streams), fontId - 1)
  {
    resolved := objects;
    ghost var wanted := Objects(streams);
    for i := 0 to |streams|
      invariant AgreeUpTo(resolved, wanted, 2 + 2 * i)
      invariant resolved[fontId - 1] == objects[fontId - 1]
    {
      var pageId := 3 + i * 2;
      var contentId := pageId + 1;
      ObjectsOfPage(streams, i);
      AgreeTwoMore(resolved, wanted, 2 + 2 * i);
      resolved := resolved[pageId - 1 := PageObject(contentId, fontId)];
      resolved := resolved[contentId - 1 := ContentObject(streams[i])];
    }
  }

  // Placeholders first, so that the font's id is known; then every placeholder is resolved.
  method BuildObjects(streams: seq<string>) returns (objects: seq<string>)
    ensures objects == Objects(streams)
  {
    objects := ["CATALOG", "PAGES"];
    for i := 0 to |streams|
      invariant |objects| == 2 + 2 * i
    {
      objects := objects + ["PAGE", "CONTENT"];
    }
    objects := objects + [FONT];
    objects := ResolvePages(objects, streams, |objects|);
    objects := objects[0 := CATALOG_HEAD + Ref(2) + " >>"];
    objects := objects[1 := PagesObject(|streams|)];
  }

  method WriteBody(objects: seq<string>) returns (body: string, offsets: seq<nat>)
    ensures body == Body(objects, |objects|) && |offsets| == |objects|
    ensures forall k | 0 <= k < |objects| :: offsets[k] == |Body(objects, k)|
  {
    hide ObjectText, Digits;
    body, offsets := "%PDF-1.4\n", [];
    for i := 0 to |objects|
      invariant body == Body(objects, i) && |offsets| == i
      invariant forall k | 0 <= k < i :: offsets[k] == |Body(objects, k)|
    {
      offsets := offsets + [|body|];
      body := body + ObjectText(i + 1, objects[i]);
    }
  }

  method WriteXref(objects: seq<string>, offsets: seq<nat>) returns (entries: string)
    requires |offsets| == |objects| && forall k | 0 <= k < |objects| :: offsets[k] == |Body(objects, k)|
    ensures entries == XrefEntries(objects, |objects|)
  {
    hide XrefEntry, Body;
    entries := "";
    for i := 0 to |offsets|
      invariant entries == XrefEntries(objects, i)
    {
      entries := entries + XrefEntry(offsets[i]);
    }
  }

  method WriteFile(objects: seq<string>) returns (file: string)
    ensures file == FileText(objects)
  {
    var body, offsets := WriteBody(objects);
    var entries := WriteXref(objects, offsets);
    file := body + XrefHead(|objects| + 1) + entries + Trailer(|objects| + 1, |body|);
  }

  method RenderMinimalPdf(lines: seq<string>) returns (file: string)
    ensures file == Render(lines)
  {
    var pages := PaginateLines(lines, LINES_PER_PAGE);
    var objects := BuildObjects(Streams(pages));
    var body := WriteFile(objects);
    file := Latin1(body);
  }

  // ----- A reader --------------------------------------------------------------------------------

  function Keyword(s: string, keyword: string): (rest: Option<string>)
    ensures rest.Some? ==> |rest.value| <= |s|
  {
    Expect(s, Latin1(keyword))
  }

  // The number after startxref, at the very end of the file.
  function XrefStart(file: string): Option<nat> {
    var end := Latin1("\n%%EOF");
    if |file| >= |end| && file[|file| - |end|..] == end then Some(TrailingNumber(file[..|file| - |end|])) else None
  }

  // The numbers between fixed pieces of text, and what follows the last piece.
  function ReadTemplate(s: string, parts: seq<string>): (r: Option<(seq<nat>, string)>)
    requires parts != []
    ensures r.Some? ==> |r.value.0| == |parts| - 1 && |r.value.1| <= |s|
    decreases |parts|
  {
    var text := Keyword(s, parts[0]);
    if text.None? then None
    else if |parts| == 1 then Some(([], text.value))
    else
      var number := ReadNat(text.value);
      if number.None? then None
      else
        var others := ReadTemplate(number.value.1, parts[1..]);
        if others.None? then None else Some(([number.value.0] + others.value.0, others.value.1))
  }

  // Where the entries of the cross-reference table begin, the free one included, and how many there are.
  function XrefTable(file: string, start: nat): Option<(nat, nat)> {
    if start > |file| then None
    else
      var head := ReadTemplate(file[start..], ["xref\n0 ", "\n0000000000 65535 f \n"]);
      if head.None? || |file| - |head.value.1| < 20 then None
      else Some((|file| - |head.value.1| - 20, head.value.0[0]))
  }

  // The root of a file, by the trailer behind the last entry of the table; its size must be that of the table, and it
  // must end the file.
  function ReadRoot(file: string, start: nat, table: nat, count: nat): Option<nat> {
    var p := table + 20 * count;
    if p > |file| then None
    else
      var trailer := ReadTemplate(file[p..], ["trailer\n<< /Size ", " /Root ", " 0 R >>\nstartxref\n", "\n%%EOF"]);
      if trailer.None? || trailer.value.0[0] != count || trailer.value.0[2] != start || trailer.value.1 != "" then None
      else Some(trailer.value.0[1])
  }

  // The offset stored in the 20-byte entry of an object in use.
  function XrefOffset(file: string, table: nat, id: nat): Option<nat> {
    var p := table + 20 * id;
    if p + 20 <= |file| && AllDigits(file[p..p + 10]) && file[p + 10..p + 20] == Latin1(" 00000 n \n") then
      Some(Value(file[p..p + 10]))
    else None
  }

  // What follows "id 0 obj" at the place the table gives for the object.
  function Open(file: string, table: nat, id: nat): Option<string> {
    var offset := XrefOffset(file, table, id);
    if offset.None? || offset.value > |file| then None
    else
      var found := ReadNat(file[offset.value..]);
      if found.None? || found.value.0 != id then None else Keyword(found.value.1, " 0 obj\n")
  }

  function ReadRef(s: string): (r: Option<(nat, string)>)
    ensures r.Some? ==> |r.value.1| < |s|
  {
    var id := ReadNat(s);
    if id.None? then None
    else
      var rest := Keyword(id.value.1, " 0 R");
      if rest.None? then None else Some((id.value.0, rest.value))
  }

  // References separated by blanks, up to the closing bracket, and what follows it.
  function ReadRefs(s: string): Option<(seq<nat>, string)>
    decreases |s|
  {
    var first := ReadRef(s);
    if first.None? then None
    else if Keyword(first.value.1, "]").Some? then Some(([first.value.0], Keyword(first.value.1, "]").value))
    else
      var rest := Keyword(first.value.1, " ");
      if rest.None? then None
      else
        var others := ReadRefs(rest.value);
        if others.None? then None else Some(([first.value.0] + others.value.0, others.value.1))
  }

  // The bytes of a stream object, by its own /Length.
  function ReadStream(s: string): Option<string> {
    var head := ReadTemplate(s, ["<< /Length ", " >>\nstream\n"]);
    if head.None? then None
    else
      var length, data := head.value.0[0], head.value.1;
      if |data| < length || Keyword(data[length..], "\nendstream\nendobj\n").None? then None else Some(data[..length])
  }

  predicate IsFont(file: string, table: nat, id: nat) {
    var font := Open(file, table, id);
    font.Some? && Keyword(font.value, "<< /Type /Font /Subtype /Type1 " + "/BaseFont /Helvetica >>\nendobj\n").Some?
  }

  const PAGE_PARTS: seq<string> :=
    ["<< /Type /Page /Parent ", " 0 R /MediaBox [0 0 612 792] /Contents ", " 0 R" + " /Resources << /Font << /F1 ",
     " 0 R" + (" >> >> >>" + "\nendobj\n")]

  // The content stream of a page, which must name the given parent and a font.
  function ReadPage(file: string, table: nat, parent: nat, id: nat): Option<string> {
    var found := Open(file, table, id);
    if found.None? then None
    else
      var page := ReadTemplate(found.value, PAGE_PARTS);
      if page.None? || page.value.0[0] != parent || !IsFont(file, table, page.value.0[2]) then None
      else
        var content := Open(file, table, page.value.0[1]);
        if content.None? then None else ReadStream(content.value)
  }

  function ReadPages(file: string, table: nat, parent: nat, ids: seq<nat>): Option<seq<string>> {
    if ids == [] then Some([])
    else
      var page, others := ReadPage(file, table, parent, ids[0]), ReadPages(file, table, parent, ids[1..]);
      if page.None? || others.None? then None else Some([page.value] + others.value)
  }

  // The kids of a page tree, as many as it counts.
  function ReadTree(s: string): Option<seq<nat>> {
    var kids := Keyword(s, "<< /Type /Pages /Kids [");
    if kids.None? then None
    else
      var refs := ReadRefs(kids.value);
      if refs.None? then None
      else
        var count := ReadTemplate(refs.value.1, [" /Count ", " >>\nendobj\n"]);
        if count.None? || count.value.0[0] != |refs.value.0| then None else Some(refs.value.0)
  }

  // The page tree that a catalog names, and its kids.
  function ReadKids(file: string, table: nat, root: nat): Option<(nat, seq<nat>)> {
    var found := Open(file, table, root);
    if found.None? then None
    else
      var catalog := ReadTemplate(found.value, ["<< /Type /Catalog /Pages ", " 0 R >>\nendobj\n"]);
      if catalog.None? then None
      else
        var tree := Open(file, table, catalog.value.0[0]);
        if tree.None? then None
        else
          var kids := ReadTree(tree.value);
          if kids.None? then None else Some((catalog.value.0[0], kids.value))
  }

  // The content streams of a file, found through its own links.
  function ReadFile(file: string): Option<seq<string>> {
    var start := XrefStart(file);
    if Keyword(file, "%PDF-1.4\n").None? || start.None? then None
    else
      var table := XrefTable(file, start.value);
      if table.None? then None
      else
        var root := ReadRoot(file, start.value, table.value.0, table.value.1);
        if root.None? then None
        else
          var kids := ReadKids(file, table.value.0, root.value);
          if kids.None? then None else ReadPages(file, table.value.0, kids.value.0, kids.value.1)
  }

  // The text of a literal string, up to the parenthesis that closes it: a backslash quotes the next character or
  // joins two lines, parentheses nest, and every end of line reads as a line feed.
  function ReadText(s: string, depth: nat): (r: Option<(string, string)>)
    ensures r.Some? ==> |r.value.1| < |s|
    decreases |s|
  {
    if s == "" then None
    else if s[0] == '\\' then
      if |s| == 1 then None
      else if s[1] == '\r' || s[1] == '\n' then
        ReadText(s[if s[1] == '\r' && |s| > 2 && s[2] == '\n' then 3 else 2..], depth)
      else Prepend(s[1], ReadText(s[2..], depth))
    else if s[0] == '(' then Prepend('(', ReadText(s[1..], depth + 1))
    else if s[0] == ')' then if depth == 0 then Some(("", s[1..])) else Prepend(')', ReadText(s[1..], depth - 1))
    else if s[0] == '\r' then Prepend('\n', ReadText(s[if |s| > 1 && s[1] == '\n' then 2 else 1..], depth))
    else Prepend(s[0], ReadText(s[1..], depth))
  }

  function Prepend(c: char, r: Option<(string, string)>): Option<(string, string)> {
    if r.None? then None else Some(([c] + r.value.0, r.value.1))
  }

  function ReadShow(s: string): (r: Option<(string, string)>)
    ensures r.Some? ==> |r.value.1| < |s|
  {
    var open := Keyword(s, "(");
    if open.None? then None
    else
      var text := ReadText(open.value, 0);
      if text.None? then None
      else
        var rest := Keyword(text.value.1, " Tj T*");
        if rest.None? then None else Some((text.value.0, rest.value))
  }

  // One shown line after another, until ET.
  function ReadShows(s: string): Option<seq<string>>
    decreases |s|
  {
    var line := ReadShow(s);
    if line.None? then None
    else
      var rest := Keyword(line.value.1, "\n");
      if rest.None? then None
      else if rest.value == Latin1("ET") then Some([line.value.0])
      else
        var others := ReadShows(rest.value);
        if others.None? then None else Some([line.value.0] + others.value)
  }

  function ReadStreamLines(s: string): Option<seq<string>> {
    var shows := Keyword(s, "BT\n/F1 10 Tf\n40 760 Td\n13 TL\n");
    if shows.None? then None else ReadShows(shows.value)
  }

  function ReadAllLines(streams: seq<string>): Option<seq<string>> {
    if streams == [] then Some([])
    else
      var lines, others := ReadStreamLines(streams[0]), ReadAllLines(streams[1..]);
      if lines.None? || others.None? then None else Some(lines.value + others.value)
  }

  // The text lines of a file, page after page.
  function ReadDocument(file: string): Option<seq<string>> {
    var streams := ReadFile(file);
    if streams.None? then None else ReadAllLines(streams.value)
  }

  // ----- The links of a rendered file ------------------------------------------------------------

  lemma Latin1Concat(a: string, b: string)
    ensures Latin1(a + b) == Latin1(a) + Latin1(b)
  {
  }

  lemma Latin1Digits(s: string)
    requires AllDigits(s)
    ensures Latin1(s) == s
  {
    forall i | 0 <= i < |s| ensures Latin1(s)[i] == s[i] {
      assert s[i] in s;
    }
  }

  lemma KeywordOf(keyword: string, rest: string)
    ensures Keyword(Latin1(keyword) + rest, keyword) == Some(rest)
  {
    ExpectOf(Latin1(keyword), rest);
  }

  // A printed number followed by a keyword, as a reader sees it.
  lemma NumberThen(n: nat, keyword: string, rest: string)
    requires keyword != "" && !IsDigit(Latin1(keyword)[0])
    ensures ReadNat(Latin1(Digits(n) + keyword) + rest) == Some((n, Latin1(keyword) + rest))
  {
    DigitsRoundTrip(n);
    Latin1Digits(Digits(n));
    Latin1Concat(Digits(n), keyword);
    ReadDigits(n, Latin1(keyword) + rest);
    assert Latin1(Digits(n) + keyword) + rest == Digits(n) + (Latin1(keyword) + rest);
  }

  lemma RefThen(id: nat, rest: string)
    ensures ReadRef(Latin1(Ref(id)) + rest) == Some((id, rest))
  {
    NumberThen(id, " 0 R", rest);
    KeywordOf(" 0 R", rest);
  }

  // The text with these pieces and numbers.
  function Fill(parts: seq<string>, numbers: seq<nat>): string
    requires |parts| == |numbers| + 1
    decreases |numbers|
  {
    if numbers == [] then parts[0] else parts[0] + (Digits(numbers[0]) + Fill(parts[1..], numbers[1..]))
  }

  // The pieces after numbers do not go on with digits.
  predicate Apart(parts: seq<string>) {
    forall i | 1 <= i < |parts| :: parts[i] != "" && !IsDigit(Latin1(parts[i])[0])
  }

  lemma FillHead(parts: seq<string>, numbers: seq<nat>)
    requires |parts| == |numbers| + 1 > 1 && Apart(parts)
    ensures Apart(parts[1..])
    ensures var tail := Fill(parts[1..], numbers[1..]); tail != "" && !IsDigit(Latin1(tail)[0])
  {
    assert Apart(parts[1..]) by {
      forall i | 1 <= i < |parts[1..]| ensures parts[1..][i] == parts[i + 1] {
      }
    }
    assert parts[1..][0] == parts[1];
  }

  // A text of this form is read back, whatever follows.
  lemma {:induction false} TemplateOf(parts: seq<string>, numbers: seq<nat>, rest: string)
    requires |parts| == |numbers| + 1 && Apart(parts)
    ensures ReadTemplate(Latin1(Fill(parts, numbers)) + rest, parts) == Some((numbers, rest))
    decreases |numbers|
  {
    hide Digits, ReadNat, Keyword;
    if numbers == [] {
      KeywordOf(parts[0], rest);
    } else {
      var n, tail := numbers[0], Fill(parts[1..], numbers[1..]);
      FillHead(parts, numbers);
      hide Apart;
      TemplateOf(parts[1..], numbers[1..], rest);
      hide Fill;
      Latin1Concat(parts[0], Digits(n) + tail);
      var inner := Latin1(Digits(n) + tail) + rest;
      assert Latin1(parts[0] + (Digits(n) + tail)) + rest == Latin1(parts[0]) + inner;
      KeywordOf(parts[0], inner);
      NumberThen(n, tail, rest);
      assert numbers == [n] + numbers[1..];
    }
  }

  // What starts with such a text.
  lemma TemplateIn(parts: seq<string>, numbers: seq<nat>, text: string, s: string)
    requires |parts| == |numbers| + 1 && Apart(parts)
    requires text == Fill(parts, numbers) && Latin1(text) <= s
    ensures ReadTemplate(s, parts) == Some((numbers, s[|text|..]))
  {
    hide ReadTemplate, Fill, Apart;
    TemplateOf(parts, numbers, s[|text|..]);
    assert s == Latin1(text) + s[|text|..];
  }

  lemma FillOne(parts: seq<string>, n: nat)
    requires |parts| == 2
    ensures Fill(parts, [n]) == parts[0] + Digits(n) + parts[1]
  {
    assert [n][1..] == [] && Fill(parts[1..], []) == parts[1];
  }

  lemma FillThree(parts: seq<string>, a: nat, b: nat, c: nat)
    requires |parts| == 4
    ensures Fill(parts, [a, b, c]) ==
            parts[0] + Digits(a) + parts[1] + Digits(b) + parts[2] + Digits(c) + parts[3]
  {
    hide Fill, Digits;
    FillStep(parts, a, [b, c]);
    FillStep(parts[1..], b, [c]);
    assert parts[1..][1..] == parts[2..] && parts[1..][0] == parts[1];
    FillOne(parts[2..], c);
    assert [a] + [b, c] == [a, b, c] && [b] + [c] == [b, c];
    JoinThree(parts[0], Digits(a), parts[1], Digits(b), parts[2], Digits(c), parts[3]);
  }

  lemma FillStep(parts: seq<string>, n: nat, numbers: seq<nat>)
    requires |parts| == |numbers| + 2
    ensures Fill(parts, [n] + numbers) == parts[0] + (Digits(n) + Fill(parts[1..], numbers))
  {
    assert ([n] + numbers)[1..] == numbers;
  }

  lemma JoinThree(p: string, a: string, q: string, b: string, r: string, c: string, s: string)
    ensures p + (a + (q + (b + (r + c + s)))) == p + a + q + b + r + c + s
  {
  }

  // The first k objects open the file.
  lemma {:induction false} BodyGrows(objects: seq<string>, j: nat, k: nat)
    requires j <= k <= |objects|
    ensures Body(objects, j) <= Body(objects, k)
  {
    if j < k {
      BodyGrows(objects, j, k - 1);
    }
  }

  lemma {:induction false} EntriesLength(objects: seq<string>, k: nat)
    requires k <= |objects| && |Body(objects, |objects|)| < Pow10(10)
    ensures |XrefEntries(objects, k)| == 20 * k
  {
    hide XrefEntry, Body;
    if k > 0 {
      EntriesLength(objects, k - 1);
      EntryLength(objects, k - 1);
    }
  }

  lemma EntryInFront(front: string, last: string, p: nat)
    requires p + 20 <= |front|
    ensures (front + last)[p..p + 20] == front[p..p + 20]
  {
  }

  lemma {:induction false} EntriesAt(objects: seq<string>, j: nat, k: nat)
    requires j < k <= |objects| && |Body(objects, |objects|)| < Pow10(10)
    ensures |XrefEntries(objects, k)| == 20 * k
    ensures XrefEntries(objects, k)[20 * j..20 * j + 20] == XrefEntry(|Body(objects, j)|)
    ensures |XrefEntry(|Body(objects, j)|)| == 20
    decreases k
  {
    hide XrefEntry, Body;
    EntriesLength(objects, k);
    EntriesLength(objects, k - 1);
    EntryLength(objects, j);
    var front, last := XrefEntries(objects, k - 1), XrefEntry(|Body(objects, k - 1)|);
    if j == k - 1 {
      assert (front + last)[|front|..] == last;
    } else {
      EntriesAt(objects, j, k - 1);
      EntryInFront(front, last, 20 * j);
    }
  }

  // An entry is 20 bytes long as long as its offset has at most ten digits.
  lemma EntryLength(objects: seq<string>, j: nat)
    requires j < |objects| && |Body(objects, |objects|)| < Pow10(10)
    ensures |XrefEntry(|Body(objects, j)|)| == 20
  {
    BodyGrows(objects, j, |objects|);
    DigitsLength(|Body(objects, j)|, 10);
    PadRoundTrip(|Body(objects, j)|, 10);
  }

  function Table(objects: seq<string>): nat {
    |Body(objects, |objects|)| + |XrefHead(|objects| + 1)| - 20
  }

  lemma Latin1Slice(s: string, i: nat, j: nat)
    requires i <= j <= |s|
    ensures Latin1(s)[i..j] == Latin1(s[i..j])
  {
  }

  lemma SliceOf(a: string, b: string, c: string)
    ensures (a + b + c)[|a|..|a| + |b|] == b && (a + b + c)[|a|..] == b + c
  {
  }

  lemma TailNumber(head: string, n: nat)
    requires head != "" && head[|head| - 1] == '\n'
    ensures XrefStart(Latin1(head + Digits(n) + "\n%%EOF")) == Some(n)
  {
    var end := "\n%%EOF";
    Latin1Concat(head + Digits(n), end);
    Latin1Concat(head, Digits(n));
    DigitsRoundTrip(n);
    Latin1Digits(Digits(n));
    TrailingDigitsOf(Latin1(head), Digits(n));
    var front := Latin1(head) + Digits(n);
    assert (front + Latin1(end))[..|front|] == front;
    assert (front + Latin1(end))[|front|..] == Latin1(end);
  }

  // startxref names the byte at which the table starts.
  lemma StartxrefLinks(objects: seq<string>)
    ensures XrefStart(Latin1(FileText(objects))) == Some(|Body(objects, |objects|)|)
  {
    var n, b := |objects|, |Body(objects, |objects|)|;
    var front := Body(objects, n) + XrefHead(n + 1) + XrefEntries(objects, n);
    var head := front + TrailerHead(n + 1);
    assert FileText(objects) == head + Digits(b) + "\n%%EOF";
    assert head[|head| - 1] == TrailerHead(n + 1)[|TrailerHead(n + 1)| - 1] == '\n';
    TailNumber(head, b);
  }

  lemma HeadIsTemplate(count: nat)
    ensures var parts := ["xref\n0 ", "\n0000000000 65535 f \n"];
            Apart(parts) && Fill(parts, [count]) == XrefHead(count)
  {
    hide Digits;
    var parts := ["xref\n0 ", "\n0000000000 65535 f \n"];
    FillOne(parts, count);
    assert parts[1] == "\n" + FREE;
  }

  lemma TableAt(body: string, count: nat, rest: string)
    ensures var head := XrefHead(count);
            XrefTable(Latin1(body + head + rest), |body|) == Some((|body| + |head| - 20, count))
  {
    hide Digits, ReadTemplate, Fill;
    var head := XrefHead(count);
    HeadLength(count);
    HeadIsTemplate(count);
    Latin1Concat(body + head, rest);
    Latin1Concat(body, head);
    var file := Latin1(body + head + rest);
    assert file[|body|..] == Latin1(head) + Latin1(rest);
    TemplateIn(["xref\n0 ", "\n0000000000 65535 f \n"], [count], head, file[|body|..]);
  }

  lemma HeadLength(count: nat)
    ensures |XrefHead(count)| == 28 + |Digits(count)|
  {
    assert |FREE| == 20 && |"xref\n0 "| == 7;
  }

  // The table is found, with one entry for each object and a free one.
  lemma TableLinks(objects: seq<string>)
    ensures XrefTable(Latin1(FileText(objects)), |Body(objects, |objects|)|) == Some((Table(objects), |objects| + 1))
  {
    hide Body, XrefEntries, Digits, XrefTable, XrefHead;
    var n, body := |objects|, Body(objects, |objects|);
    var rest := XrefEntries(objects, n) + Trailer(n + 1, |body|);
    assert FileText(objects) == body + XrefHead(n + 1) + rest;
    TableAt(body, n + 1, rest);
  }

  const TRAILER_PARTS: seq<string> := ["trailer\n<< /Size ", " /Root ", " 0 R >>\nstartxref\n", "\n%%EOF"]

  lemma TrailerIsTemplate(count: nat, start: nat)
    ensures Apart(TRAILER_PARTS) && Fill(TRAILER_PARTS, [count, 1, start]) == Trailer(count, start)
  {
    TrailerPieces();
    FillThree(TRAILER_PARTS, count, 1, start);
    hide Digits, Fill, Apart, TRAILER_PARTS;
    JoinTrailer("trailer\n<< /Size ", Digits(count), " /Root ", "1", " 0 R >>\nstartxref\n",
                " /Root 1 0 R >>\nstartxref", "\n", Digits(start), "\n%%EOF");
  }

  lemma TrailerPieces()
    ensures Apart(TRAILER_PARTS) && Digits(1) == "1"
    ensures " /Root " + "1" + " 0 R >>\nstartxref\n" == " /Root 1 0 R >>\nstartxref" + "\n"
    ensures TRAILER_PARTS == ["trailer\n<< /Size ", " /Root ", " 0 R >>\nstartxref\n", "\n%%EOF"]
  {
  }

  lemma JoinTrailer(a: string, n: string, b: string, one: string, c: string, bc: string, eol: string, m: string,
                    end: string)
    requires b + one + c == bc + eol
    ensures a + n + b + one + c + m + end == a + n + bc + eol + m + end
  {
    assert a + n + b + one + c == a + n + (b + one + c) == a + n + bc + eol;
  }

  lemma TrailerAt(front: string, count: nat, start: nat, table: nat)
    requires table + 20 * count == |front|
    ensures ReadRoot(Latin1(front + Trailer(count, start)), start, table, count) == Some(1)
  {
    hide Digits, ReadTemplate, Fill, Trailer;
    TrailerIsTemplate(count, start);
    Latin1Concat(front, Trailer(count, start));
    var file := Latin1(front + Trailer(count, start));
    assert file[|front|..] == Latin1(Trailer(count, start));
    TemplateIn(TRAILER_PARTS, [count, 1, start], Trailer(count, start), file[|front|..]);
    assert file[|front|..][|Trailer(count, start)|..] == "";
  }

  // The trailer stands behind the last entry, gives the number of entries, and names object 1 as the root.
  lemma TrailerLinks(objects: seq<string>)
    requires |Body(objects, |objects|)| < Pow10(10)
    ensures ReadRoot(Latin1(FileText(objects)), |Body(objects, |objects|)|, Table(objects), |objects| + 1) == Some(1)
  {
    hide Body, XrefEntries, Digits, ReadRoot, Trailer;
    var n, body := |objects|, Body(objects, |objects|);
    EntriesLength(objects, n);
    HeadLength(n + 1);
    TrailerAt(body + XrefHead(n + 1) + XrefEntries(objects, n), n + 1, |body|, Table(objects));
  }

  lemma EntryAt(text: string, table: nat, id: nat, offset: nat)
    requires table + 20 * id + 20 <= |text| && offset < Pow10(10)
    requires text[table + 20 * id..table + 20 * id + 20] == XrefEntry(offset)
    ensures XrefOffset(Latin1(text), table, id) == Some(offset)
  {
    var p, digits := table + 20 * id, PadStart(Digits(offset), 10);
    PadRoundTrip(offset, 10);
    DigitsLength(offset, 10);
    assert text[p..p + 10] == XrefEntry(offset)[..10] == digits;
    assert text[p + 10..p + 20] == XrefEntry(offset)[10..] == IN_USE;
    Latin1Slice(text, p, p + 10);
    Latin1Slice(text, p + 10, p + 20);
    Latin1Digits(digits);
  }

  // Entry `id` of the table is 20 bytes long and holds the byte position of object `id`.
  lemma EntryLinks(objects: seq<string>, id: nat)
    requires 1 <= id <= |objects| && |Body(objects, |objects|)| < Pow10(10)
    ensures XrefOffset(Latin1(FileText(objects)), Table(objects), id) == Some(|Body(objects, id - 1)|)
  {
    hide Body, XrefEntries, Digits;
    var n, p := |objects|, Table(objects) + 20 * id;
    var before, entries := Body(objects, n) + XrefHead(n + 1), XrefEntries(objects, n);
    var tail := Trailer(n + 1, |Body(objects, n)|);
    EntriesAt(objects, id - 1, n);
    BodyGrows(objects, id - 1, n);
    SliceOf(before, entries, tail);
    assert p == |before| + 20 * (id - 1);
    assert (before + entries + tail)[p..p + 20] == entries[20 * (id - 1)..20 * (id - 1) + 20];
    EntryAt(before + entries + tail, Table(objects), id, |Body(objects, id - 1)|);
  }

  lemma OpenAt(front: string, table: nat, id: nat, content: string, tail: string)
    requires var text := front + (Digits(id) + " 0 obj\n" + (content + tail));
             XrefOffset(Latin1(text), table, id) == Some(|front|)
    ensures var text := front + (Digits(id) + " 0 obj\n" + (content + tail));
            Open(Latin1(text), table, id) == Some(Latin1(content) + Latin1(tail))
  {
    var rest := content + tail;
    var text := front + (Digits(id) + " 0 obj\n" + rest);
    Latin1Concat(front, Digits(id) + " 0 obj\n" + rest);
    Latin1Concat(Digits(id) + " 0 obj\n", rest);
    Latin1Concat(content, tail);
    assert Latin1(text)[|front|..] == Latin1(Digits(id) + " 0 obj\n") + Latin1(rest);
    NumberThen(id, " 0 obj\n", Latin1(rest));
    KeywordOf(" 0 obj\n", Latin1(rest));
  }

  lemma RegroupObject(front: string, digits: string, open: string, content: string, close: string, rest: string)
    ensures front + (digits + open + content + close) + rest == front + (digits + open + (content + close + rest))
  {
    var head := digits + open;
    assert head + content + close + rest == head + (content + close + rest);
  }

  // Following the table to an object finds its text there.
  lemma OpenLinks(objects: seq<string>, id: nat)
    requires 1 <= id <= |objects| && |Body(objects, |objects|)| < Pow10(10)
    ensures var found := Open(Latin1(FileText(objects)), Table(objects), id);
            found.Some? && Latin1(objects[id - 1] + "\nendobj\n") <= found.value
  {
    hide Digits, XrefEntries, Open;
    EntryLinks(objects, id);
    var text, front, content := FileText(objects), Body(objects, id - 1), objects[id - 1];
    BodyGrows(objects, id, |objects|);
    var through := Body(objects, id);
    assert through == front + ObjectText(id, content) && through <= text;
    var rest := text[|through|..];
    assert text == through + rest;
    RegroupObject(front, Digits(id), " 0 obj\n", content, "\nendobj\n", rest);
    OpenAt(front, Table(objects), id, content + "\nendobj\n", rest);
  }

  // Something found by following the table starts with a keyword, then a piece of text.
  lemma StartsWith(keyword: string, text: string, more: string, s: string)
    requires Latin1(keyword + text + more) <= s
    ensures var rest := Latin1(more) + s[|keyword| + |text| + |more|..];
            Keyword(s, keyword) == Some(Latin1(text) + rest)
  {
    Latin1Concat(keyword + text, more);
    Latin1Concat(keyword, text);
    var rest := Latin1(more) + s[|keyword| + |text| + |more|..];
    assert s == Latin1(keyword) + (Latin1(text) + rest);
    KeywordOf(keyword, Latin1(text) + rest);
  }

  lemma LastRef(id: nat, rest: string)
    ensures ReadRefs(Latin1(Ref(id)) + (Latin1("]") + rest)) == Some(([id], rest))
  {
    RefThen(id, Latin1("]") + rest);
    KeywordOf("]", rest);
  }

  lemma RefsStep(s: string, id: nat, after: string, others: string, ids: seq<nat>, end: string)
    requires ReadRef(s) == Some((id, after)) && Keyword(after, "]").None? && Keyword(after, " ") == Some(others)
    requires ReadRefs(others) == Some((ids, end))
    ensures ReadRefs(s) == Some(([id] + ids, end))
  {
  }

  lemma BlankIsNotBracket(s: string)
    ensures Keyword(Latin1(" ") + s, " ") == Some(s) && Keyword(Latin1(" ") + s, "]").None?
  {
    KeywordOf(" ", s);
    assert (Latin1(" ") + s)[0] == ' ' && Latin1("]")[0] == ']';
  }

  lemma OneMoreRef(id: nat, others: string, ids: seq<nat>, end: string, after: string)
    requires ReadRefs(Latin1(others) + end) == Some((ids, after))
    ensures ReadRefs(Latin1(Ref(id) + " " + others) + end) == Some(([id] + ids, after))
  {
    hide ReadRefs, Digits;
    var rest := Latin1(others) + end;
    Latin1Concat(Ref(id) + " ", others);
    Latin1Concat(Ref(id), " ");
    assert Latin1(Ref(id) + " " + others) + end == Latin1(Ref(id)) + (Latin1(" ") + rest);
    RefThen(id, Latin1(" ") + rest);
    BlankIsNotBracket(rest);
    RefsStep(Latin1(Ref(id)) + (Latin1(" ") + rest), id, Latin1(" ") + rest, rest, ids, after);
  }

  lemma JoinRefs(ids: seq<nat>)
    requires |ids| > 1
    ensures Join(Refs(ids), " ") == Ref(ids[0]) + " " + Join(Refs(ids[1..]), " ")
  {
    assert Refs(ids)[0] == Ref(ids[0]) && Refs(ids)[1..] == Refs(ids[1..]);
  }

  lemma RefsOfOne(ids: seq<nat>, rest: string)
    requires |ids| == 1
    ensures ReadRefs(Latin1(Join(Refs(ids), " ")) + (Latin1("]") + rest)) == Some((ids, rest))
  {
    assert Join(Refs(ids), " ") == Ref(ids[0]) && ids == [ids[0]];
    LastRef(ids[0], rest);
  }

  lemma RefsOfMore(ids: seq<nat>, end: string, after: string)
    requires |ids| > 1 && ReadRefs(Latin1(Join(Refs(ids[1..]), " ")) + end) == Some((ids[1..], after))
    ensures ReadRefs(Latin1(Join(Refs(ids), " ")) + end) == Some((ids, after))
  {
    JoinRefs(ids);
    OneMoreRef(ids[0], Join(Refs(ids[1..]), " "), ids[1..], end, after);
    assert ids == [ids[0]] + ids[1..];
  }

  lemma {:induction false} ReadRefsOf(ids: seq<nat>, rest: string)
    requires ids != []
    ensures ReadRefs(Latin1(Join(Refs(ids), " ")) + (Latin1("]") + rest)) == Some((ids, rest))
    decreases |ids|
  {
    if |ids| == 1 {
      RefsOfOne(ids, rest);
    } else {
      ReadRefsOf(ids[1..], rest);
      RefsOfMore(ids, Latin1("]") + rest, rest);
    }
  }

  // An object as the table leads to it, up to the keyword that ends it.
  predicate Holds(file: string, table: nat, id: nat, content: string) {
    var found := Open(file, table, id);
    found.Some? && Latin1(content + "\nendobj\n") <= found.value
  }

  predicate HoldsAt(file: string, table: nat, objects: seq<string>, id: nat)
    requires 1 <= id <= |objects|
  {
    Holds(file, table, id, objects[id - 1])
  }

  // The table leads to every object.
  ghost predicate Linked(file: string, table: nat, objects: seq<string>) {
    forall id | 1 <= id <= |objects| :: HoldsAt(file, table, objects, id)
  }

  lemma CatalogIsTemplate()
    ensures var parts := ["<< /Type /Catalog /Pages ", " 0 R >>\nendobj\n"];
            Apart(parts) && Fill(parts, [2]) == CATALOG_HEAD + Ref(2) + " >>" + "\nendobj\n"
  {
    hide Digits;
    var parts := ["<< /Type /Catalog /Pages ", " 0 R >>\nendobj\n"];
    FillOne(parts, 2);
    assert parts[1] == " 0 R" + " >>" + "\nendobj\n";
  }

  lemma CountIsTemplate(n: nat)
    ensures var parts := [" /Count ", " >>\nendobj\n"];
            Apart(parts) && Fill(parts, [n]) == " /Count " + Digits(n) + " >>" + "\nendobj\n"
  {
    hide Digits;
    var parts := [" /Count ", " >>\nendobj\n"];
    FillOne(parts, n);
    assert parts[1] == " >>" + "\nendobj\n";
  }

  lemma ReadTreeOf(n: nat, s: string)
    requires n > 0 && Latin1(PagesObject(n) + "\nendobj\n") <= s
    ensures ReadTree(s) == Some(KidIds(n))
  {
    hide ReadRefs, Join, Digits, ReadTemplate, Fill;
    var head, ids, count := PAGES_HEAD, Join(Refs(KidIds(n)), " "), " /Count " + Digits(n) + " >>" + "\nendobj\n";
    assert PagesObject(n) + "\nendobj\n" == head + ids + ("]" + count);
    StartsWith(head, ids, "]" + count, s);
    Latin1Concat("]", count);
    var rest := s[|head| + |ids| + |"]" + count|..];
    assert Latin1("]" + count) + rest == Latin1("]") + (Latin1(count) + rest);
    ReadRefsOf(KidIds(n), Latin1(count) + rest);
    CountIsTemplate(n);
    TemplateOf([" /Count ", " >>\nendobj\n"], [n], rest);
  }

  // The catalog leads to the page tree, and the page tree to the pages.
  lemma KidsLink(file: string, table: nat, streams: seq<string>)
    requires streams != [] && Linked(file, table, Objects(streams))
    ensures ReadKids(file, table, 1) == Some((2, KidIds(|streams|)))
  {
    hide Digits, ReadTemplate, Fill, ReadTree, Open, PagesObject;
    var catalog := CATALOG_HEAD + Ref(2) + " >>";
    assert Objects(streams)[0] == catalog && Objects(streams)[1] == PagesObject(|streams|);
    assert HoldsAt(file, table, Objects(streams), 1) && HoldsAt(file, table, Objects(streams), 2);
    CatalogIsTemplate();
    TemplateIn(["<< /Type /Catalog /Pages ", " 0 R >>\nendobj\n"], [2], catalog + "\nendobj\n",
               Open(file, table, 1).value);
    ReadTreeOf(|streams|, Open(file, table, 2).value);
  }

  lemma LengthIsTemplate(n: nat)
    ensures var parts := ["<< /Length ", " >>\nstream\n"];
            Apart(parts) && Fill(parts, [n]) == "<< /Length " + Digits(n) + " >>\nstream\n"
  {
    FillOne(["<< /Length ", " >>\nstream\n"], n);
  }

  lemma ReadStreamOf(stream: string, s: string)
    requires Latin1(ContentObject(stream) + "\nendobj\n") <= s
    ensures ReadStream(s) == Some(Latin1(stream))
  {
    hide Digits, Keyword, ReadTemplate, Fill;
    var head, end := "<< /Length " + Digits(|stream|) + " >>\nstream\n", "\nendstream\nendobj\n";
    assert "\nendstream" + "\nendobj\n" == end;
    assert ContentObject(stream) + "\nendobj\n" == head + (stream + end);
    var tail := s[|head + (stream + end)|..];
    Latin1Concat(head, stream + end);
    Latin1Concat(stream, end);
    var rest := Latin1(stream) + (Latin1(end) + tail);
    assert s == Latin1(head) + rest;
    LengthIsTemplate(|stream|);
    TemplateOf(["<< /Length ", " >>\nstream\n"], [|stream|], rest);
    assert rest[..|stream|] == Latin1(stream) && rest[|stream|..] == Latin1(end) + tail;
    KeywordOf(end, tail);
  }

  lemma PageIsTemplate(contentId: nat, fontId: nat)
    ensures Apart(PAGE_PARTS)
    ensures Fill(PAGE_PARTS, [2, contentId, fontId]) == PageObject(contentId, fontId) + "\nendobj\n"
  {
    FillThree(PAGE_PARTS, 2, contentId, fontId);
    PagePieces();
    PagePartsApart();
    hide Digits, Fill, Pieces;
    JoinPage(PAGE_PARTS, PAGE_HEAD, Digits(contentId), " 0 R", " /Resources << /Font << /F1 ", Digits(fontId),
             " >> >> >>", "\nendobj\n");
  }

  // How the pieces of a page object are put together around its numbers.
  predicate Pieces(parts: seq<string>, head: string, r: string, middle: string, close: string) {
    && |parts| == 4 && head == parts[0] + "2" + parts[1] && r + middle == parts[2] && r + close == parts[3]
  }

  lemma PageHeadText()
    ensures PAGE_HEAD == PAGE_PARTS[0] + "2" + PAGE_PARTS[1]
  {
  }

  lemma PagePartsApart()
    ensures Apart(PAGE_PARTS) && Digits(2) == "2"
  {
    assert PAGE_PARTS[1][0] == ' ' && PAGE_PARTS[2][0] == ' ' && PAGE_PARTS[3][0] == ' ';
    assert Latin1(PAGE_PARTS[1])[0] == ' ' && Latin1(PAGE_PARTS[2])[0] == ' ' && Latin1(PAGE_PARTS[3])[0] == ' ';
  }

  lemma PagePieces()
    ensures Pieces(PAGE_PARTS, PAGE_HEAD, " 0 R", " /Resources << /Font << /F1 ", " >> >> >>" + "\nendobj\n")
  {
    hide PAGE_HEAD;
    PageHeadText();
  }

  lemma JoinPage(parts: seq<string>, head: string, c: string, r: string, middle: string, f: string, close: string,
                 end: string)
    requires Pieces(parts, head, r, middle, close + end)
    ensures head + (c + r) + (middle + (f + r) + close) + end ==
            parts[0] + "2" + parts[1] + c + parts[2] + f + parts[3]
  {
    var line := head + (c + r) + (middle + (f + r) + close) + end;
    assert line == head + c + (r + middle) + f + (r + (close + end));
    assert line == head + c + parts[2] + f + parts[3];
  }

  lemma FontFound(file: string, table: nat, id: nat)
    requires Holds(file, table, id, FONT)
    ensures IsFont(file, table, id)
  {
    hide Open;
    var a, b := "<< /Type /Font /Subtype /Type1 ", "/BaseFont /Helvetica >>\nendobj\n";
    FontText();
    var found := Open(file, table, id).value;
    assert found == Latin1(a + b) + found[|a + b|..];
    KeywordOf(a + b, found[|a + b|..]);
  }

  lemma FontText()
    ensures FONT + "\nendobj\n" == "<< /Type /Font /Subtype /Type1 " + "/BaseFont /Helvetica >>\nendobj\n"
  {
  }

  // A page leads to the font and to its content stream, whose /Length is right.
  lemma PageLinks(file: string, table: nat, streams: seq<string>, i: nat)
    requires i < |streams| && Linked(file, table, Objects(streams))
    ensures ReadPage(file, table, 2, 3 + i * 2) == Some(Latin1(streams[i]))
  {
    hide Digits, ReadTemplate, Fill, Open, IsFont, ReadStream, PageObject, ContentObject;
    ObjectsOfPage(streams, i);
    var page, content, font := 3 + i * 2, 4 + 2 * i, 2 * |streams| + 3;
    assert HoldsAt(file, table, Objects(streams), page) && HoldsAt(file, table, Objects(streams), content);
    assert HoldsAt(file, table, Objects(streams), font);
    PageIsTemplate(content, font);
    TemplateIn(PAGE_PARTS, [2, content, font], PageObject(content, font) + "\nendobj\n", Open(file, table, page).value);
    FontFound(file, table, font);
    ReadStreamOf(streams[i], Open(file, table, content).value);
  }

  function Latin1All(streams: seq<string>): seq<string> {
    seq(|streams|, i requires 0 <= i < |streams| => Latin1(streams[i]))
  }

  lemma PagesStep(file: string, table: nat, ids: seq<nat>, page: string, others: seq<string>)
    requires ids != [] && ReadPage(file, table, 2, ids[0]) == Some(page)
             && ReadPages(file, table, 2, ids[1..]) == Some(others)
    ensures ReadPages(file, table, 2, ids) == Some([page] + others)
  {
  }

  lemma {:induction false} PagesLink(file: string, table: nat, streams: seq<string>, k: nat)
    requires k <= |streams| && Linked(file, table, Objects(streams))
    ensures ReadPages(file, table, 2, KidIds(|streams|)[k..]) == Some(Latin1All(streams)[k..])
    decreases |streams| - k
  {
    hide ReadPage, Open;
    var ids, all := KidIds(|streams|)[k..], Latin1All(streams)[k..];
    if k == |streams| {
      assert ids == [] && all == [];
    } else {
      PagesLink(file, table, streams, k + 1);
      assert ids[1..] == KidIds(|streams|)[k + 1..] && ids[0] == 3 + k * 2;
      assert all == [Latin1(streams[k])] + Latin1All(streams)[k + 1..];
      PageLinks(file, table, streams, k);
      hide ReadPages;
      PagesStep(file, table, ids, Latin1(streams[k]), Latin1All(streams)[k + 1..]);
    }
  }

  lemma FileLinked(objects: seq<string>)
    requires |Body(objects, |objects|)| < Pow10(10)
    ensures Linked(Latin1(FileText(objects)), Table(objects), objects)
  {
    hide FileText, Table, Open;
    forall id | 1 <= id <= |objects| ensures HoldsAt(Latin1(FileText(objects)), Table(objects), objects, id) {
      OpenLinks(objects, id);
    }
  }

  lemma ReadLinkedFile(file: string, start: nat, table: nat, streams: seq<string>)
    requires Keyword(file, "%PDF-1.4\n").Some?
    requires var count := 2 * |streams| + 4;
             && streams != [] && XrefStart(file) == Some(start) && XrefTable(file, start) == Some((table, count))
             && ReadRoot(file, start, table, count) == Some(1)
    requires Linked(file, table, Objects(streams))
    ensures ReadFile(file) == Some(Latin1All(streams))
  {
    hide Linked, Keyword, XrefStart, XrefTable, ReadRoot, ReadKids, ReadPages, KidIds, Latin1All;
    KidsLink(file, table, streams);
    PagesLink(file, table, streams, 0);
    assert KidIds(|streams|)[0..] == KidIds(|streams|) && Latin1All(streams)[0..] == Latin1All(streams);
  }

  lemma HeaderLinks(objects: seq<string>)
    ensures Keyword(Latin1(FileText(objects)), "%PDF-1.4\n").Some?
  {
    hide XrefHead, XrefEntries, Trailer;
    var text, header := FileText(objects), "%PDF-1.4\n";
    BodyGrows(objects, 0, |objects|);
    assert Body(objects, 0) == header && header <= text;
    assert text == header + text[|header|..];
    Latin1Concat(header, text[|header|..]);
    KeywordOf(header, Latin1(text[|header|..]));
  }

  // Following startxref, the table, the trailer, the catalog, the page tree, the font and the contents of a rendered
  // file yields exactly its page streams, as long as offsets have at most ten digits.
  lemma FileLinks(streams: seq<string>)
    requires streams != [] && |Body(Objects(streams), 2 * |streams| + 3)| < Pow10(10)
    ensures ReadFile(Latin1(FileText(Objects(streams)))) == Some(Latin1All(streams))
  {
    hide Body, FileText, Linked, Keyword, XrefStart, XrefTable, ReadRoot, ReadFile, Table;
    var objects := Objects(streams);
    HeaderLinks(objects);
    StartxrefLinks(objects);
    TableLinks(objects);
    TrailerLinks(objects);
    FileLinked(objects);
    ReadLinkedFile(Latin1(FileText(objects)), |Body(objects, |objects|)|, Table(objects), streams);
  }

  // ----- The text of a rendered file -------------------------------------------------------------

  predicate IsLatin1(s: string) {
    forall c | c in s :: c as int < 256
  }

  // Text as any conforming reader sees it: each end of line becomes a line feed.
  function EolNormal(s: string): string {
    if s == "" then ""
    else if s[0] == '\r' then "\n" + EolNormal(s[if |s| > 1 && s[1] == '\n' then 2 else 1..])
    else [s[0]] + EolNormal(s[1..])
  }

  function EscapeChar(c: char): string {
    if c == '\\' || c == '(' || c == ')' then ['\\', c] else [c]
  }

  function EscapeOnce(s: string): string {
    if s == "" then "" else EscapeChar(s[0]) + EscapeOnce(s[1..])
  }

  lemma EscapeConcat(a: string, b: string)
    ensures PdfEscape(a + b) == PdfEscape(a) + PdfEscape(b)
  {
    var a1, b1 := ReplaceAll(a, '\\', "\\\\"), ReplaceAll(b, '\\', "\\\\");
    var a2, b2 := ReplaceAll(a1, '(', "\\("), ReplaceAll(b1, '(', "\\(");
    ReplaceConcat(a, b, '\\', "\\\\");
    ReplaceConcat(a1, b1, '(', "\\(");
    ReplaceConcat(a2, b2, ')', "\\)");
  }

  lemma EscapeCharSteps(c: char)
    ensures PdfEscape([c]) == EscapeChar(c)
  {
    assert [c][1..] == "";
    if c == '\\' {
      assert ReplaceAll([c], '\\', "\\\\") == ['\\', '\\'];
      assert ['\\', '\\'][1..] == ['\\'] && ['\\'][1..] == "";
    } else if c == '(' {
      assert ReplaceAll([c], '\\', "\\\\") == [c];
      assert ReplaceAll([c], '(', "\\(") == ['\\', '('];
      assert ['\\', '('][1..] == ['('] && ['('][1..] == "";
    }
  }

  // The three chained replacements escape each character once.
  lemma {:induction false} PdfEscapeIsSinglePass(s: string)
    ensures PdfEscape(s) == EscapeOnce(s)
  {
    if s != "" {
      EscapeConcat([s[0]], s[1..]);
      EscapeCharSteps(s[0]);
      PdfEscapeIsSinglePass(s[1..]);
      assert s == [s[0]] + s[1..];
    }
  }

  lemma ReadOne(c: char, tail: string)
    requires c != '\r'
    ensures ReadText(EscapeChar(c) + tail, 0) == Prepend(c, ReadText(tail, 0))
  {
    if c == '\\' || c == '(' || c == ')' {
      assert (['\\', c] + tail)[2..] == tail;
    } else {
      assert ([c] + tail)[1..] == tail;
    }
  }

  lemma ReadEol(tail: string)
    ensures tail != "" && tail[0] != '\n' ==> ReadText("\r" + tail, 0) == Prepend('\n', ReadText(tail, 0))
    ensures ReadText("\r" + ("\n" + tail), 0) == Prepend('\n', ReadText(tail, 0))
  {
    assert ("\r" + tail)[1..] == tail && ("\r" + ("\n" + tail))[2..] == tail;
  }

  // What escaped text reads back as, up to its closing parenthesis.
  predicate ReadsBack(s: string, shown: string, rest: string) {
    ReadText(shown + (")" + rest), 0) == Some((EolNormal(s), rest))
  }

  lemma ReadsBackOther(c: char, s: string, shown: string, rest: string)
    requires c != '\r' && ReadsBack(s, shown, rest)
    ensures ReadsBack([c] + s, EscapeChar(c) + shown, rest)
  {
    var tail := shown + (")" + rest);
    assert EscapeChar(c) + shown + (")" + rest) == EscapeChar(c) + tail;
    ReadOne(c, tail);
    assert ([c] + s)[1..] == s;
  }

  lemma ReadsBackCr(s: string, shown: string, rest: string)
    requires ReadsBack(s, shown, rest) && (s == "" || s[0] != '\n') && (shown == "" || shown[0] != '\n')
    ensures ReadsBack("\r" + s, "\r" + shown, rest)
  {
    var tail := shown + (")" + rest);
    assert "\r" + shown + (")" + rest) == "\r" + tail;
    ReadEol(tail);
    assert ("\r" + s)[1..] == s;
  }

  lemma ReadsBackCrLf(s: string, shown: string, rest: string)
    requires ReadsBack(s, shown, rest)
    ensures ReadsBack("\r\n" + s, "\r\n" + shown, rest)
  {
    var tail := shown + (")" + rest);
    assert "\r\n" + shown + (")" + rest) == "\r" + ("\n" + tail);
    ReadEol(tail);
    assert ("\r\n" + s)[2..] == s;
  }

  // Reading back escaped text, whatever follows its closing parenthesis.
  lemma {:induction false} ReadEscaped(s: string, rest: string)
    ensures ReadsBack(s, EscapeOnce(s), rest)
    decreases |s|
  {
    if s == "" {
      assert "" + (")" + rest) == ")" + rest;
    } else if s[0] != '\r' {
      ReadEscaped(s[1..], rest);
      ReadsBackOther(s[0], s[1..], EscapeOnce(s[1..]), rest);
      assert s == [s[0]] + s[1..];
    } else if |s| > 1 && s[1] == '\n' {
      ReadEscaped(s[2..], rest);
      ReadsBackCrLf(s[2..], EscapeOnce(s[2..]), rest);
      assert s == "\r\n" + s[2..] && s[1..][1..] == s[2..];
      assert EscapeOnce(s) == "\r" + ("\n" + EscapeOnce(s[2..])) == "\r\n" + EscapeOnce(s[2..]);
    } else {
      ReadEscaped(s[1..], rest);
      ReadsBackCr(s[1..], EscapeOnce(s[1..]), rest);
      assert s == "\r" + s[1..];
    }
  }

  lemma {:induction false} EscapeKeepsLatin1(s: string)
    requires IsLatin1(s)
    ensures Latin1(EscapeOnce(s)) == EscapeOnce(s)
  {
    if s != "" {
      assert s[0] in s && forall c | c in s[1..] :: c in s;
      EscapeKeepsLatin1(s[1..]);
      Latin1Concat(EscapeChar(s[0]), EscapeOnce(s[1..]));
      assert Latin1(EscapeChar(s[0])) == EscapeChar(s[0]);
    }
  }

  // One shown line, as the reader sees it.
  lemma ReadShowOf(line: string, rest: string)
    requires IsLatin1(line)
    ensures ReadShow(Latin1(ShowLine(line)) + rest) == Some((EolNormal(line), rest))
  {
    var shown, end := EscapeOnce(line), " Tj T*";
    PdfEscapeIsSinglePass(line);
    EscapeKeepsLatin1(line);
    ShownText(shown, end);
    ReadEscaped(line, Latin1(end) + rest);
    ReadShownText(shown, EolNormal(line), end, rest);
  }

  lemma ShownText(shown: string, end: string)
    requires Latin1(shown) == shown
    ensures Latin1("(" + shown + ")" + end) == Latin1("(") + shown + ")" + Latin1(end)
  {
    Latin1Concat("(" + shown + ")", end);
    Latin1Concat("(" + shown, ")");
    Latin1Concat("(", shown);
    assert Latin1(")") == ")";
  }

  lemma ReadShownText(shown: string, text: string, end: string, rest: string)
    requires ReadText(shown + (")" + (Latin1(end) + rest)), 0) == Some((text, Latin1(end) + rest)) && end == " Tj T*"
    ensures ReadShow(Latin1("(") + shown + ")" + Latin1(end) + rest) == Some((text, rest))
  {
    var tail := shown + (")" + (Latin1(end) + rest));
    assert Latin1("(") + shown + ")" + Latin1(end) + rest == Latin1("(") + tail;
    KeywordOf("(", tail);
    KeywordOf(end, rest);
  }

  lemma ShowsStep(s: string, line: string, rest: string, others: seq<string>)
    requires ReadShow(s) == Some((line, Latin1("\n") + rest)) && rest != Latin1("ET") && ReadShows(rest) == Some(others)
    ensures ReadShows(s) == Some([line] + others)
  {
    KeywordOf("\n", rest);
  }

  lemma LastShow(s: string, line: string)
    requires ReadShow(s) == Some((line, Latin1("\n") + Latin1("ET")))
    ensures ReadShows(s) == Some([line])
  {
    KeywordOf("\n", Latin1("ET"));
  }

  function NormalAll(lines: seq<string>): seq<string> {
    seq(|lines|, i requires 0 <= i < |lines| => EolNormal(lines[i]))
  }

  predicate AllLatin1(lines: seq<string>) {
    forall line | line in lines :: IsLatin1(line)
  }

  lemma JoinShows(page: seq<string>)
    requires |page| > 1
    ensures Join(ShowLines(page), "\n") == ShowLine(page[0]) + "\n" + Join(ShowLines(page[1..]), "\n")
    ensures Join(ShowLines(page), "\n") != "" && Join(ShowLines(page), "\n")[0] == '('
  {
    assert ShowLines(page)[0] == ShowLine(page[0]) && ShowLines(page)[1..] == ShowLines(page[1..]);
  }

  lemma ShowsHead(page: seq<string>, end: string)
    requires page != []
    ensures Latin1(Join(ShowLines(page), "\n")) + end != Latin1("ET")
  {
    if |page| > 1 { JoinShows(page); }
    assert Join(ShowLines(page), "\n")[0] == '(';
    assert (Latin1(Join(ShowLines(page), "\n")) + end)[0] == '(' && Latin1("ET")[0] == 'E';
  }

  lemma {:induction false} ReadShowsOf(page: seq<string>)
    requires page != [] && AllLatin1(page)
    ensures ReadShows(Latin1(Join(ShowLines(page), "\n")) + (Latin1("\n") + Latin1("ET"))) == Some(NormalAll(page))
    decreases |page|
  {
    hide ReadShows, ReadShow, ShowLine;
    var end := Latin1("\n") + Latin1("ET");
    assert page[0] in page;
    if |page| == 1 {
      assert Join(ShowLines(page), "\n") == ShowLine(page[0]) && NormalAll(page) == [EolNormal(page[0])];
      ReadShowOf(page[0], end);
      LastShow(Latin1(ShowLine(page[0])) + end, EolNormal(page[0]));
    } else {
      var others := Join(ShowLines(page[1..]), "\n");
      assert AllLatin1(page[1..]) by { assert forall i | 1 <= i < |page| :: page[i] in page; }
      ReadShowsOf(page[1..]);
      JoinShows(page);
      Latin1Concat(ShowLine(page[0]) + "\n", others);
      Latin1Concat(ShowLine(page[0]), "\n");
      var rest := Latin1(others) + end;
      var s := Latin1(ShowLine(page[0])) + (Latin1("\n") + rest);
      assert Latin1(Join(ShowLines(page), "\n")) + end == s;
      ReadShowOf(page[0], Latin1("\n") + rest);
      ShowsHead(page[1..], end);
      ShowsStep(s, EolNormal(page[0]), rest, NormalAll(page[1..]));
      assert NormalAll(page) == [EolNormal(page[0])] + NormalAll(page[1..]);
    }
  }

  lemma ReadStreamLinesOf(page: seq<string>)
    requires page != [] && AllLatin1(page)
    ensures ReadStreamLines(Latin1(PageStream(page))) == Some(NormalAll(page))
  {
    var shows := Join(ShowLines(page), "\n");
    Latin1Concat(STREAM_HEAD + shows, "\n" + "ET");
    Latin1Concat(STREAM_HEAD, shows);
    Latin1Concat("\n", "ET");
    var rest := Latin1(shows) + (Latin1("\n") + Latin1("ET"));
    assert Latin1(PageStream(page)) == Latin1(STREAM_HEAD) + rest;
    KeywordOf(STREAM_HEAD, rest);
    ReadShowsOf(page);
  }

  function Flatten(pages: seq<seq<string>>): seq<string> {
    if pages == [] then [] else pages[0] + Flatten(pages[1..])
  }

  lemma FlattenCons(page: seq<string>, pages: seq<seq<string>>)
    ensures Flatten([page] + pages) == page + Flatten(pages)
  {
    assert ([page] + pages)[1..] == pages;
  }

  // Pagination only cuts: in order and without loss.
  lemma {:induction false} ChunksFlatten(lines: seq<string>, n: nat)
    requires n > 0
    ensures Flatten(Chunks(lines, n)) == lines
  {
    if |lines| > n {
      ChunksFlatten(lines[n..], n);
      hide Flatten;
      FlattenCons(lines[..n], Chunks(lines[n..], n));
    } else if lines != [] {
      FlattenCons(lines, []);
      assert [lines] + [] == [lines];
    }
  }

  // At most n lines to a page, and no page is empty.
  lemma {:induction false} ChunkSizes(lines: seq<string>, n: nat)
    requires n > 0
    ensures forall page | page in Chunks(lines, n) :: 0 < |page| <= n
  {
    if |lines| > n {
      ChunkSizes(lines[n..], n);
    }
  }

  // What a document shows: its lines, or one blank line.
  function Shown(lines: seq<string>): seq<string> {
    if lines == [] then [""] else lines
  }

  lemma PaginateFlatten(lines: seq<string>, n: nat)
    requires n > 0
    ensures Flatten(Paginate(lines, n)) == Shown(lines) && Paginate(lines, n) != []
    ensures forall page | page in Paginate(lines, n) :: 0 < |page| <= n
  {
    ChunksFlatten(lines, n);
    ChunkSizes(lines, n);
    if lines == [] {
      assert Paginate(lines, n)[1..] == [];
    }
  }

  lemma NormalConcat(a: seq<string>, b: seq<string>)
    ensures NormalAll(a + b) == NormalAll(a) + NormalAll(b)
  {
  }

  lemma {:induction false} ReadAllLinesOf(pages: seq<seq<string>>)
    requires (forall page | page in pages :: page != []) && AllLatin1(Flatten(pages))
    ensures ReadAllLines(Latin1All(Streams(pages))) == Some(NormalAll(Flatten(pages)))
  {
    if pages != [] {
      var all := Latin1All(Streams(pages));
      assert all[0] == Latin1(PageStream(pages[0])) && all[1..] == Latin1All(Streams(pages[1..]));
      assert AllLatin1(pages[0]) && AllLatin1(Flatten(pages[1..])) by {
        assert forall line | line in pages[0] || line in Flatten(pages[1..]) :: line in Flatten(pages);
      }
      assert pages[0] in pages && forall page | page in pages[1..] :: page in pages;
      ReadAllLinesOf(pages[1..]);
      ReadStreamLinesOf(pages[0]);
      NormalConcat(pages[0], Flatten(pages[1..]));
    } else {
      assert Latin1All(Streams(pages)) == [] && NormalAll([]) == [];
    }
  }

  predicate Fits(lines: seq<string>) {
    var streams := Streams(Paginate(lines, LINES_PER_PAGE));
    |Body(Objects(streams), 2 * |streams| + 3)| < Pow10(10)
  }

  lemma DocumentStreams(lines: seq<string>)
    requires Fits(lines)
    ensures ReadDocument(Render(lines)) == ReadAllLines(Latin1All(Streams(Paginate(lines, LINES_PER_PAGE))))
  {
    hide FileText, Body, Objects, Paginate, ReadFile, ReadAllLines;
    PaginateFlatten(lines, LINES_PER_PAGE);
    FileLinks(Streams(Paginate(lines, LINES_PER_PAGE)));
  }

  // Text of single-byte characters is recovered line by line, up to the form of the ends of lines inside a line.
  lemma DocumentText(lines: seq<string>)
    requires Fits(lines) && AllLatin1(lines)
    ensures ReadDocument(Render(lines)) == Some(NormalAll(Shown(lines)))
  {
    var pages := Paginate(lines, LINES_PER_PAGE);
    PaginateFlatten(lines, LINES_PER_PAGE);
    ReadAllLinesOf(pages);
    DocumentStreams(lines);
  }

  // ----- What can be recovered at all ------------------------------------------------------------

  // A character survives when it is a single byte and not a carriage return.
  predicate Survives(s: string) {
    forall c | c in s :: c as int < 256 && c != '\r'
  }

  lemma {:induction false} EolNormalFixed(s: string)
    ensures forall c | c in EolNormal(s) :: c != '\r' && (c in s || c == '\n')
    ensures EolNormal(s) == s <==> '\r' !in s
    decreases |s|
  {
    if s != "" {
      EolNormalFixed(s[1..]);
      if |s| > 1 { EolNormalFixed(s[2..]); }
      assert s == [s[0]] + s[1..];
      if s[0] == '\r' {
        assert EolNormal(s)[0] == '\n';
      }
    }
  }

  lemma Latin1Suffix(s: string, k: nat)
    requires IsLatin1(s) && k <= |s|
    ensures IsLatin1(s[k..])
  {
    forall c | c in s[k..] ensures c in s {
    }
  }

  lemma {:induction false} ReadTextBytes(s: string, depth: nat)
    requires IsLatin1(s)
    ensures var r := ReadText(s, depth); r.Some? ==> IsLatin1(r.value.0) && IsLatin1(r.value.1)
    decreases |s|
  {
    forall k | 0 <= k <= |s| ensures IsLatin1(s[k..]) {
      Latin1Suffix(s, k);
    }
    if s != "" && ReadText(s, depth).Some? {
      assert s[0] in s;
      if s[0] == '\\' {
        assert s[1] in s;
        if s[1] == '\r' || s[1] == '\n' {
          ReadTextBytes(s[if s[1] == '\r' && |s| > 2 && s[2] == '\n' then 3 else 2..], depth);
        } else {
          ReadTextBytes(s[2..], depth);
        }
      } else if s[0] == '\r' {
        ReadTextBytes(s[if |s| > 1 && s[1] == '\n' then 2 else 1..], depth);
      } else if s[0] == '(' {
        ReadTextBytes(s[1..], depth + 1);
      } else if s[0] == ')' {
        if depth > 0 { ReadTextBytes(s[1..], depth - 1); }
      } else {
        ReadTextBytes(s[1..], depth);
      }
    }
  }

  lemma KeywordKeepsLatin1(s: string, keyword: string)
    requires IsLatin1(s)
    ensures Keyword(s, keyword).Some? ==> IsLatin1(Keyword(s, keyword).value)
  {
    if |Latin1(keyword)| <= |s| { Latin1Suffix(s, |Latin1(keyword)|); }
  }

  lemma ReadShowBytes(s: string)
    requires IsLatin1(s)
    ensures var r := ReadShow(s); r.Some? ==> IsLatin1(r.value.0) && IsLatin1(r.value.1)
  {
    KeywordKeepsLatin1(s, "(");
    if Keyword(s, "(").Some? {
      var open := Keyword(s, "(").value;
      ReadTextBytes(open, 0);
      if ReadText(open, 0).Some? { KeywordKeepsLatin1(ReadText(open, 0).value.1, " Tj T*"); }
    }
  }

  lemma {:induction false} ReadShowsBytes(s: string)
    requires IsLatin1(s)
    ensures ReadShows(s).Some? ==> AllLatin1(ReadShows(s).value)
    decreases |s|
  {
    ReadShowBytes(s);
    if ReadShow(s).Some? {
      KeywordKeepsLatin1(ReadShow(s).value.1, "\n");
      var rest := Keyword(ReadShow(s).value.1, "\n");
      if rest.Some? && rest.value != Latin1("ET") { ReadShowsBytes(rest.value); }
    }
  }

  lemma Latin1IsLatin1(s: string)
    ensures IsLatin1(Latin1(s))
  {
  }

  lemma {:induction false} ReadAllLinesBytes(streams: seq<string>)
    ensures var r := ReadAllLines(Latin1All(streams)); r.Some? ==> AllLatin1(r.value)
  {
    if streams != [] {
      var all := Latin1All(streams);
      assert all[1..] == Latin1All(streams[1..]);
      ReadAllLinesBytes(streams[1..]);
      Latin1IsLatin1(streams[0]);
      KeywordKeepsLatin1(all[0], STREAM_HEAD);
      if Keyword(all[0], STREAM_HEAD).Some? { ReadShowsBytes(Keyword(all[0], STREAM_HEAD).value); }
    }
  }

  // How many pages: fifty-six lines to each but the last, and one page for nothing.
  function PageCount(lines: seq<string>): nat {
    if lines == [] then 1 else (|lines| + 55) / 56
  }

  lemma {:induction false} ChunkCount(lines: seq<string>)
    ensures |Chunks(lines, 56)| == (|lines| + 55) / 56
    ensures forall i | 0 <= i < |Chunks(lines, 56)| - 1 :: |Chunks(lines, 56)[i]| == 56
  {
    if |lines| > 56 { ChunkCount(lines[56..]); }
  }

  // The reader finds that many pages.
  lemma DocumentPages(lines: seq<string>)
    requires Fits(lines)
    ensures ReadFile(Render(lines)).Some? && |ReadFile(Render(lines)).value| == PageCount(lines)
  {
    hide FileText, Body, Objects, ReadFile;
    PaginateFlatten(lines, LINES_PER_PAGE);
    ChunkCount(lines);
    FileLinks(Streams(Paginate(lines, LINES_PER_PAGE)));
  }

  // A reader recovers exactly the given lines if and only if every character is a single byte and no carriage return.
  lemma DocumentRoundTrip(lines: seq<string>)
    requires Fits(lines)
    ensures ReadDocument(Render(lines)) == Some(Shown(lines)) <==> forall line | line in lines :: Survives(line)
  {
    DocumentStreams(lines);
    ReadAllLinesBytes(Streams(Paginate(lines, LINES_PER_PAGE)));
    if AllLatin1(lines) {
      DocumentText(lines);
      forall i | 0 <= i < |Shown(lines)|
        ensures NormalAll(Shown(lines))[i] == Shown(lines)[i] <==> '\r' !in Shown(lines)[i]
      {
        EolNormalFixed(Shown(lines)[i]);
      }
      SurviveIff(lines);
    } else {
      var line :| line in lines && !IsLatin1(line);
      assert !Survives(line);
    }
  }

  lemma SurviveIff(lines: seq<string>)
    requires AllLatin1(lines)
    requires forall i | 0 <= i < |Shown(lines)| ::
               NormalAll(Shown(lines))[i] == Shown(lines)[i] <==> '\r' !in Shown(lines)[i]
    ensures NormalAll(Shown(lines)) == Shown(lines) <==> forall line | line in lines :: Survives(line)
  {
    if NormalAll(Shown(lines)) == Shown(lines) {
      forall line | line in lines ensures Survives(line) {
        var i :| 0 <= i < |lines| && lines[i] == line;
        assert NormalAll(Shown(lines))[i] == Shown(lines)[i];
        assert IsLatin1(line);
      }
    }
    if forall line | line in lines :: Survives(line) {
      forall i | 0 <= i < |Shown(lines)| ensures NormalAll(Shown(lines))[i] == Shown(lines)[i] {
        assert lines != [] ==> Shown(lines)[i] in lines;
      }
      assert NormalAll(Shown(lines)) == Shown(lines);
    }
  }
}
