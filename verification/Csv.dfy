// The semicolon-separated export of data rows, and a reader in the style of section 2 of RFC 4180.
module Csv {
  import opened Option
  import opened Text

  const EOL := "\r\n"

  // A data row: the key and the already formatted cells, one for each header.
  datatype Row = Row(key: string, cells: seq<string>)

  function CsvEscape(s: string): string {
    if ';' in s || '"' in s || '\n' in s then "\"" + ReplaceAll(s, '"', "\"\"") + "\"" else s
  }

  function EscapeAll(fields: seq<string>): seq<string> {
    seq(|fields|, i requires 0 <= i < |fields| => CsvEscape(fields[i]))
  }

  function RowText(row: Row): string {
    CsvEscape(row.key) + ";" + Join(EscapeAll(row.cells), ";")
  }

  function RowTexts(rows: seq<Row>): seq<string> {
    seq(|rows|, i requires 0 <= i < |rows| => RowText(rows[i]))
  }

  method ExportRows(rows: seq<Row>) returns (body: string)
    ensures body == Join(RowTexts(rows), EOL)
  {
    var lines: seq<string> := [];
    for i := 0 to |rows|
      invariant lines == RowTexts(rows[..i])
    {
      var cells: seq<string> := [];
      for j := 0 to |rows[i].cells|
        invariant cells == EscapeAll(rows[i].cells[..j])
      {
        cells := cells + [CsvEscape(rows[i].cells[j])];
      }
      assert rows[i].cells[..|rows[i].cells|] == rows[i].cells;
      lines := lines + [CsvEscape(rows[i].key) + ";" + Join(cells, ";")];
    }
    assert rows[..|rows|] == rows;
    body := Join(lines, EOL);
  }

  // ----- The reader ------------------------------------------------------------------------------

  predicate AtSeparator(s: string) {
    s == "" || s[0] == ';' || "\r\n" <= s
  }

  function Prepend(c: char, r: Option<(string, string)>): Option<(string, string)> {
    if r.None? then None else Some(([c] + r.value.0, r.value.1))
  }

  // The inside of a quoted field: a doubled quote stands for one.
  function ReadQuoted(s: string): (r: Option<(string, string)>)
    ensures r.Some? ==> |r.value.1| < |s|
    decreases |s|
  {
    if s == "" then None
    else if s[0] != '"' then Prepend(s[0], ReadQuoted(s[1..]))
    else if |s| > 1 && s[1] == '"' then Prepend('"', ReadQuoted(s[2..]))
    else Some(("", s[1..]))
  }

  function ReadBare(s: string): (r: (string, string))
    ensures |r.1| <= |s| && AtSeparator(r.1)
  {
    if AtSeparator(s) then ("", s) else var (field, rest) := ReadBare(s[1..]); ([s[0]] + field, rest)
  }

  function ReadField(s: string): (r: Option<(string, string)>)
    ensures r.Some? ==> |r.value.1| <= |s| && AtSeparator(r.value.1)
  {
    if s != "" && s[0] == '"' then
      var field := ReadQuoted(s[1..]);
      if field.None? || !AtSeparator(field.value.1) then None else field
    else Some(ReadBare(s))
  }

  function ReadRecord(s: string): (r: Option<(seq<string>, string)>)
    ensures r.Some? ==> |r.value.1| <= |s| && (r.value.1 == "" || EOL <= r.value.1)
    decreases |s|
  {
    var field := ReadField(s);
    if field.None? then None
    else if field.value.1 == "" || field.value.1[0] != ';' then Some(([field.value.0], field.value.1))
    else
      var others := ReadRecord(field.value.1[1..]);
      if others.None? then None else Some(([field.value.0] + others.value.0, others.value.1))
  }

  function ReadRecords(s: string): Option<seq<seq<string>>>
    decreases |s|
  {
    if s == "" then Some([])
    else
      var record := ReadRecord(s);
      if record.None? then None
      else if record.value.1 == "" then Some([record.value.0])
      else
        var others := ReadRecords(record.value.1[2..]);
        if others.None? then None else Some([record.value.0] + others.value)
  }

  // ----- Round trip ------------------------------------------------------------------------------

  lemma ReadQuotedStep(c: char, tail: string)
    ensures ReadQuoted((if c == '"' then "\"\"" else [c]) + tail) == Prepend(c, ReadQuoted(tail))
  {
    var head := if c == '"' then "\"\"" else [c];
    assert (head + tail)[|head|..] == tail;
  }

  lemma ReadQuotedEnd(rest: string)
    requires AtSeparator(rest)
    ensures ReadQuoted("\"" + rest) == Some(("", rest))
  {
    assert ("\"" + rest)[1..] == rest;
  }

  lemma {:induction false} ReadQuotedOf(s: string, rest: string)
    requires AtSeparator(rest)
    ensures ReadQuoted(ReplaceAll(s, '"', "\"\"") + ("\"" + rest)) == Some((s, rest))
  {
    hide ReadQuoted;
    if s == "" {
      ReadQuotedEnd(rest);
      assert ReplaceAll(s, '"', "\"\"") == "" && "" + ("\"" + rest) == "\"" + rest;
    } else {
      ReadQuotedOf(s[1..], rest);
      var head, middle, end := if s[0] == '"' then "\"\"" else [s[0]], ReplaceAll(s[1..], '"', "\"\""), "\"" + rest;
      assert ReplaceAll(s, '"', "\"\"") == head + middle;
      hide ReplaceAll;
      ReadQuotedStep(s[0], middle + end);
      assert head + middle + end == head + (middle + end);
      assert s == [s[0]] + s[1..];
    }
  }

  lemma {:induction false} ReadBareOf(s: string, rest: string)
    requires AtSeparator(rest) && ';' !in s && '\n' !in s
    ensures ReadBare(s + rest) == (s, rest)
  {
    if s == "" {
      assert s + rest == rest;
    } else {
      assert s[0] in s;
      if |s| > 1 { assert s[1] in s; }
      assert |s + rest| > 1 ==> (s + rest)[1] == (if |s| > 1 then s[1] else rest[0]) != '\n';
      assert EOL[1] == '\n';
      assert (s + rest)[1..] == s[1..] + rest && !AtSeparator(s + rest);
      ReadBareOf(s[1..], rest);
      assert s == [s[0]] + s[1..];
    }
  }

  // Any text, whatever it contains, is read back from its printed field.
  lemma ReadFieldOf(s: string, rest: string)
    requires AtSeparator(rest)
    ensures ReadField(CsvEscape(s) + rest) == Some((s, rest))
  {
    if ';' in s || '"' in s || '\n' in s {
      ReadQuotedOf(s, rest);
      var inside := ReplaceAll(s, '"', "\"\"");
      assert ("\"" + inside + "\"" + rest)[1..] == inside + ("\"" + rest);
    } else {
      ReadBareOf(s, rest);
      assert s != "" ==> (s + rest)[0] == s[0] && s[0] in s;
    }
  }

  lemma RecordStep(s: string, field: string, others: string, fields: seq<string>, rest: string)
    requires ReadField(s) == Some((field, ";" + others)) && ReadRecord(others) == Some((fields, rest))
    ensures ReadRecord(s) == Some(([field] + fields, rest))
  {
    assert (";" + others)[1..] == others;
  }

  lemma JoinFields(fields: seq<string>, rest: string)
    requires |fields| > 1
    ensures Join(EscapeAll(fields), ";") + rest
            == CsvEscape(fields[0]) + (";" + (Join(EscapeAll(fields[1..]), ";") + rest))
  {
    assert EscapeAll(fields)[0] == CsvEscape(fields[0]) && EscapeAll(fields)[1..] == EscapeAll(fields[1..]);
  }

  lemma {:induction false} ReadRecordOf(fields: seq<string>, rest: string)
    requires fields != [] && (rest == "" || EOL <= rest)
    ensures ReadRecord(Join(EscapeAll(fields), ";") + rest) == Some((fields, rest))
    decreases |fields|
  {
    if |fields| == 1 {
      ReadFieldOf(fields[0], rest);
      assert fields == [fields[0]] && Join(EscapeAll(fields), ";") == CsvEscape(fields[0]);
    } else {
      ReadRecordOf(fields[1..], rest);
      JoinFields(fields, rest);
      var others := Join(EscapeAll(fields[1..]), ";") + rest;
      ReadFieldOf(fields[0], ";" + others);
      RecordStep(CsvEscape(fields[0]) + (";" + others), fields[0], others, fields[1..], rest);
      assert fields == [fields[0]] + fields[1..];
    }
  }

  // The fields a data row stands for; a row without headers still prints an empty second field.
  function Fields(row: Row): seq<string> {
    [row.key] + if row.cells == [] then [""] else row.cells
  }

  lemma RowIsRecord(row: Row)
    ensures RowText(row) == Join(EscapeAll(Fields(row)), ";") && ';' in RowText(row)
  {
    var fields := Fields(row);
    var rest := fields[1..];
    assert EscapeAll(fields)[0] == CsvEscape(row.key) && EscapeAll(fields)[1..] == EscapeAll(rest);
    assert row.cells == [] ==> EscapeAll(rest) == [""];
    assert RowText(row)[|CsvEscape(row.key)|] == ';';
  }

  function AllFields(rows: seq<Row>): seq<seq<string>> {
    seq(|rows|, i requires 0 <= i < |rows| => Fields(rows[i]))
  }

  lemma LastRecord(row: Row)
    ensures ReadRecords(RowText(row)) == Some([Fields(row)])
  {
    RowIsRecord(row);
    ReadRecordOf(Fields(row), "");
    assert RowText(row) + "" == RowText(row);
  }

  lemma OneMoreRecord(row: Row, others: string, records: seq<seq<string>>)
    requires ReadRecords(others) == Some(records)
    ensures ReadRecords(RowText(row) + EOL + others) == Some([Fields(row)] + records)
  {
    RowIsRecord(row);
    ReadRecordOf(Fields(row), EOL + others);
    assert RowText(row) + EOL + others == RowText(row) + (EOL + others);
    assert (EOL + others)[2..] == others;
  }

  // Printing any data rows and reading them back yields exactly their fields.
  lemma {:induction false} RowsRoundTrip(rows: seq<Row>)
    ensures ReadRecords(Join(RowTexts(rows), EOL)) == Some(AllFields(rows))
  {
    hide RowText;
    if |rows| == 1 {
      LastRecord(rows[0]);
      assert Join(RowTexts(rows), EOL) == RowText(rows[0]) && AllFields(rows) == [Fields(rows[0])];
    } else if rows != [] {
      RowsRoundTrip(rows[1..]);
      hide ReadRecords;
      assert RowTexts(rows)[0] == RowText(rows[0]) && RowTexts(rows)[1..] == RowTexts(rows[1..]);
      OneMoreRecord(rows[0], Join(RowTexts(rows[1..]), EOL), AllFields(rows[1..]));
      assert AllFields(rows) == [Fields(rows[0])] + AllFields(rows[1..]);
    }
  }
}
