/** The CSV writer of `src/components/ReportsAnalytics.jsx` (`exportToCSV`)
    and a reader for what it writes. Each data field is enclosed in double
    quotes with every inner quote doubled, as rule 7 of section 2 of RFC 4180
    asks; unlike that RFC the records end in `\n` rather than CRLF (rule 1)
    and the header fields are written bare. */
module ReportsCsv {
  import opened Common

  /** A report row: its keys in insertion order with their string values
      (`Object.keys` keeps that order). */
  type Row = seq<(string, string)>

  function KeyOf(p: (string, string)): string { p.0 }
  function ValueOf(p: (string, string)): string { p.1 }

  function Keys(row: Row): seq<string> {
    Map(row, KeyOf)
  }

  /** `String(row[header])`: the value under `key`, or `"undefined"`. */
  function Lookup(row: Row, key: string): (v: string)
    ensures (forall i :: 0 <= i < |row| ==> row[i].0 != key) ==> v == "undefined"
  {
    if row == [] then "undefined"
    else if row[0].0 == key then row[0].1
    else Lookup(row[1..], key)
  }

  predicate DistinctKeys(row: Row) {
    forall i, j :: 0 <= i < j < |row| ==> row[i].0 != row[j].0
  }

  /** With distinct keys, looking up each key in order gives the values. */
  lemma {:induction false} LookupDistinct(row: Row, i: nat)
    requires DistinctKeys(row) && i < |row|
    ensures Lookup(row, row[i].0) == row[i].1
  {
    if i > 0 {
      assert row[0].0 != row[i].0;
      assert DistinctKeys(row[1..]) by {
        forall a, b | 0 <= a < b < |row[1..]|
          ensures row[1..][a].0 != row[1..][b].0
        {
          assert row[1..][a] == row[a + 1] && row[1..][b] == row[b + 1];
        }
      }
      LookupDistinct(row[1..], i - 1);
    }
  }

  // ---------------------------------------------------------------------
  // Fields and records
  // ---------------------------------------------------------------------

  /** `String(value).replace(/"/g, '""')`. */
  function Escape(v: string): (e: string)
    ensures |e| >= |v|
  {
    if v == [] then []
    else (if v[0] == '"' then "\"\"" else [v[0]]) + Escape(v[1..])
  }

  /** `` `"${escaped}"` ``. */
  function QuoteField(v: string): string {
    "\"" + Escape(v) + "\""
  }

  /** `headers.map(header => String(row[header]))`. */
  function FieldValues(row: Row, headers: seq<string>): (vs: seq<string>)
    ensures |vs| == |headers|
  {
    if headers == [] then [] else [Lookup(row, headers[0])] + FieldValues(row, headers[1..])
  }

  lemma {:induction false} FieldValuesAt(row: Row, headers: seq<string>, k: nat)
    requires k < |headers|
    ensures FieldValues(row, headers)[k] == Lookup(row, headers[k])
  {
    if k > 0 {
      FieldValuesAt(row, headers[1..], k - 1);
    }
  }

  function QuotedFields(values: seq<string>): (fs: seq<string>)
    ensures |fs| == |values|
  {
    if values == [] then [] else [QuoteField(values[0])] + QuotedFields(values[1..])
  }

  /** A data record: one quoted field per header, in header order. */
  function Record(row: Row, headers: seq<string>): string {
    Join(QuotedFields(FieldValues(row, headers)), ",")
  }

  function Records(rows: seq<Row>, headers: seq<string>): (rs: seq<string>)
    ensures |rs| == |rows|
  {
    if rows == [] then [] else [Record(rows[0], headers)] + Records(rows[1..], headers)
  }

  lemma {:induction false} RecordsAt(rows: seq<Row>, headers: seq<string>, i: nat)
    requires i < |rows|
    ensures Records(rows, headers)[i] == Record(rows[i], headers)
  {
    if i > 0 {
      RecordsAt(rows[1..], headers, i - 1);
    }
  }

  /** The lines `exportToCSV` joins: the bare header line, then one record
      per row. */
  function CsvLines(data: seq<Row>): (lines: seq<string>)
    requires |data| > 0
    ensures |lines| == |data| + 1
  {
    [Join(Keys(data[0]), ",")] + Records(data, Keys(data[0]))
  }

  /** The first line names the first row's keys; line `i + 1` is row `i`'s
      record over those keys. */
  lemma CsvLinesShape(data: seq<Row>, i: nat)
    requires |data| > 0 && i < |data|
    ensures CsvLines(data)[0] == Join(Keys(data[0]), ",")
    ensures CsvLines(data)[i + 1] == Record(data[i], Keys(data[0]))
  {
    RecordsAt(data, Keys(data[0]), i);
  }

  /** `exportToCSV`: nothing for no data, otherwise the lines joined by `\n`. */
  function ExportToCsv(data: Option<seq<Row>>): (csv: Option<string>)
    ensures data.None? || data.value == [] <==> csv.None?
    ensures csv.Some? ==> csv.value == Join(CsvLines(data.value), "\n")
  {
    if data.None? || data.value == [] then None
    else Some(Join(CsvLines(data.value), "\n"))
  }

  // ---------------------------------------------------------------------
  // Reading back
  // ---------------------------------------------------------------------

  /** Reads the inside of a quoted field up to its closing quote, turning
      each doubled quote back into one; returns the value and what follows
      the closing quote. */
  function ReadQuoted(s: string): (r: Option<(string, string)>)
    ensures r.Some? ==> |r.value.1| < |s|
    decreases |s|
  {
    if s == [] then None
    else if s[0] == '"' then
      if |s| >= 2 && s[1] == '"' then
        match ReadQuoted(s[2..])
        case None => None
        case Some((v, rest)) => Some(("\"" + v, rest))
      else Some(("", s[1..]))
    else
      match ReadQuoted(s[1..])
      case None => None
      case Some((v, rest)) => Some(([s[0]] + v, rest))
  }

  /** Reads a record of quoted fields separated by commas. */
  function ParseRecord(s: string): Option<seq<string>>
    decreases |s|
  {
    if s == [] || s[0] != '"' then None
    else
      match ReadQuoted(s[1..])
      case None => None
      case Some((v, rest)) =>
        if rest == [] then Some([v])
        else if rest[0] != ',' then None
        else
          match ParseRecord(rest[1..])
          case None => None
          case Some(vs) => Some([v] + vs)
  }

  /** Un-doubling recovers the value, and reading stops at the closing
      quote. */
  lemma {:induction false} ReadQuotedEscape(v: string, rest: string)
    requires rest == [] || rest[0] != '"'
    ensures ReadQuoted(Escape(v) + "\"" + rest) == Some((v, rest))
  {
    var s := Escape(v) + "\"" + rest;
    if v == [] {
      assert s == "\"" + rest;
      assert s[1..] == rest;
    } else {
      ReadQuotedEscape(v[1..], rest);
      var tail := Escape(v[1..]) + "\"" + rest;
      if v[0] == '"' {
        assert s == "\"\"" + tail;
        assert s[2..] == tail;
        assert "\"" + v[1..] == v;
      } else {
        assert s == [v[0]] + tail;
        assert s[1..] == tail;
        assert [v[0]] + v[1..] == v;
      }
    }
  }

  lemma ReadQuotedField(v: string, rest: string)
    requires rest == [] || rest[0] != '"'
    ensures (QuoteField(v) + rest)[0] == '"'
    ensures ReadQuoted((QuoteField(v) + rest)[1..]) == Some((v, rest))
  {
    assert (QuoteField(v) + rest)[1..] == Escape(v) + "\"" + rest;
    ReadQuotedEscape(v, rest);
  }

  /** A single quoted field reads back as that one value. */
  lemma ParseOneField(v: string)
    ensures ParseRecord(QuoteField(v)) == Some([v])
  {
    assert QuoteField(v) + "" == QuoteField(v);
    ReadQuotedField(v, "");
  }

  /** A quoted field, a comma and more: the value, then whatever the rest
      reads as. */
  lemma ParseFieldThenRest(v: string, tail: string)
    ensures ParseRecord(QuoteField(v) + ("," + tail)) ==
      match ParseRecord(tail)
      case None => None
      case Some(vs) => Some([v] + vs)
  {
    ReadQuotedField(v, "," + tail);
    assert ("," + tail)[1..] == tail;
  }

  /** Reading a joined list of quoted fields gives the values back, whatever
      quotes, commas or line breaks they hold. */
  lemma {:induction false} ParseQuotedFields(values: seq<string>)
    requires |values| > 0
    ensures ParseRecord(Join(QuotedFields(values), ",")) == Some(values)
  {
    var fields := QuotedFields(values);
    if |values| == 1 {
      assert fields == [QuoteField(values[0])];
      ParseOneField(values[0]);
      assert values == [values[0]];
    } else {
      var restJoined := Join(QuotedFields(values[1..]), ",");
      assert fields[1..] == QuotedFields(values[1..]);
      ParseQuotedFields(values[1..]);
      assert Join(fields, ",") == QuoteField(values[0]) + ("," + restJoined);
      ParseFieldThenRest(values[0], restJoined);
      assert [values[0]] + values[1..] == values;
    }
  }

  /** Every data record reads back as the row's values in header order. */
  lemma RecordRoundTrip(row: Row, headers: seq<string>)
    requires |headers| > 0
    ensures ParseRecord(Record(row, headers)) == Some(FieldValues(row, headers))
  {
    ParseQuotedFields(FieldValues(row, headers));
  }

  /** For a row with distinct keys, the record over its own keys holds
      exactly its values, in order. */
  lemma RowValuesInHeaderOrder(row: Row)
    requires DistinctKeys(row)
    ensures FieldValues(row, Keys(row)) == Map(row, ValueOf)
  {
    forall i | 0 <= i < |row|
      ensures FieldValues(row, Keys(row))[i] == row[i].1
    {
      FieldValuesAt(row, Keys(row), i);
      LookupDistinct(row, i);
    }
  }

  // ---------------------------------------------------------------------
  // Lines
  // ---------------------------------------------------------------------

  /** Splits at every `\n`. */
  function SplitLines(s: string): (lines: seq<string>)
    ensures |lines| >= 1
    decreases |s|
  {
    if s == [] then [""]
    else if s[0] == '\n' then [""] + SplitLines(s[1..])
    else
      var rest := SplitLines(s[1..]);
      [[s[0]] + rest[0]] + rest[1..]
  }

  lemma {:induction false} SplitLinesOfLine(line: string, rest: string)
    requires '\n' !in line
    ensures SplitLines(line + rest) == [line + SplitLines(rest)[0]] + SplitLines(rest)[1..]
  {
    if line != [] {
      var r := SplitLines(rest);
      assert (line + rest)[0] == line[0] && line[0] != '\n';
      assert (line + rest)[1..] == line[1..] + rest;
      SplitLinesOfLine(line[1..], rest);
      var tail := SplitLines(line[1..] + rest);
      assert tail == [line[1..] + r[0]] + r[1..];
      assert SplitLines(line + rest) == [[line[0]] + tail[0]] + tail[1..];
      assert [line[0]] + (line[1..] + r[0]) == line + r[0];
    } else {
      var r := SplitLines(rest);
      assert line + rest == rest;
      assert line + r[0] == r[0];
      assert [r[0]] + r[1..] == r;
    }
  }

  /** Lines without line breaks of their own come back from the join. */
  lemma {:induction false} SplitJoin(lines: seq<string>)
    requires |lines| > 0
    requires forall i :: 0 <= i < |lines| ==> '\n' !in lines[i]
    ensures SplitLines(Join(lines, "\n")) == lines
  {
    if |lines| == 1 {
      assert lines[0] + "" == lines[0];
      SplitLinesOfLine(lines[0], "");
      assert SplitLines("") == [""];
      assert lines == [lines[0]];
    } else {
      var rest := Join(lines[1..], "\n");
      SplitJoin(lines[1..]);
      assert Join(lines, "\n") == lines[0] + ("\n" + rest);
      assert ("\n" + rest)[1..] == rest;
      assert SplitLines("\n" + rest) == [""] + lines[1..];
      SplitLinesOfLine(lines[0], "\n" + rest);
      assert lines[0] + "" == lines[0];
      assert [lines[0]] + lines[1..] == lines;
    }
  }

  lemma {:induction false} NoBreakInEscape(v: string)
    requires '\n' !in v
    ensures '\n' !in Escape(v)
  {
    if v != [] {
      NoBreakInEscape(v[1..]);
    }
  }

  lemma {:induction false} NoBreakInJoin(parts: seq<string>, sep: string)
    requires '\n' !in sep && forall i :: 0 <= i < |parts| ==> '\n' !in parts[i]
    ensures '\n' !in Join(parts, sep)
  {
    if |parts| > 1 {
      NoBreakInJoin(parts[1..], sep);
    }
  }

  lemma {:induction false} NoBreakInFields(values: seq<string>)
    requires forall k :: 0 <= k < |values| ==> '\n' !in values[k]
    ensures forall k :: 0 <= k < |values| ==> '\n' !in QuotedFields(values)[k]
  {
    if values != [] {
      NoBreakInEscape(values[0]);
      NoBreakInFields(values[1..]);
      assert forall k :: 1 <= k < |values| ==> QuotedFields(values)[k] == QuotedFields(values[1..])[k - 1];
    }
  }

  lemma NoBreakInRecord(row: Row, headers: seq<string>)
    requires forall h :: h in headers ==> '\n' !in Lookup(row, h)
    ensures '\n' !in Record(row, headers)
  {
    var values := FieldValues(row, headers);
    forall k | 0 <= k < |values|
      ensures '\n' !in values[k]
    {
      FieldValuesAt(row, headers, k);
    }
    NoBreakInFields(values);
    NoBreakInJoin(QuotedFields(values), ",");
  }

  /** No key or value of the report holds a line break. */
  predicate NoLineBreaks(data: seq<Row>)
    requires |data| > 0
  {
    (forall i :: 0 <= i < |data[0]| ==> '\n' !in data[0][i].0)
    && forall r, h :: 0 <= r < |data| && h in Keys(data[0]) ==> '\n' !in Lookup(data[r], h)
  }

  lemma NoBreakInLine(data: seq<Row>, i: nat)
    requires |data| > 0 && NoLineBreaks(data) && i < |data| + 1
    ensures '\n' !in CsvLines(data)[i]
  {
    CsvLinesShape(data, 0);
    if i == 0 {
      NoBreakInJoin(Keys(data[0]), ",");
    } else {
      CsvLinesShape(data, i - 1);
      NoBreakInRecord(data[i - 1], Keys(data[0]));
    }
  }

  /** When no key or value holds a line break, the file has exactly one
      header line and one line per row. */
  lemma CsvHasRowsPlusOneLines(data: seq<Row>)
    requires |data| > 0 && NoLineBreaks(data)
    ensures |SplitLines(ExportToCsv(Some(data)).value)| == |data| + 1
    ensures SplitLines(ExportToCsv(Some(data)).value) == CsvLines(data)
  {
    var lines := CsvLines(data);
    forall i | 0 <= i < |lines|
      ensures '\n' !in lines[i]
    {
      NoBreakInLine(data, i);
    }
    SplitJoin(lines);
  }
}
