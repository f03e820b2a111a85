/**
 * `convertToCSV` of lib/export-utils.ts: a header row built from the first record's keys, then one
 * row per record. Fields are quoted as in section 2 of RFC 4180 (rules 6 and 7), except that
 * records are separated by LF instead of CRLF. A reader for that format is defined below, and
 * reading the serialised text back yields the header and every field's text.
 */
module Csv {
  import opened Text

  /** A record field's value, as far as the serialiser tells values apart. */
  datatype Value =
    | Null
    | Undefined
    | Str(s: string)
    | Object(json: string)   // a non-null object; `json` is the text JSON.stringify gives for it
    | Scalar(text: string)   // a number or a boolean; `text` is its String() form

  /** A record: its keys in `Object.keys` order, each with its value. */
  type Record = seq<(string, Value)>

  function Keys(item: Record): (ks: seq<string>)
    ensures |ks| == |item|
    ensures forall i :: 0 <= i < |item| ==> ks[i] == item[i].0
  {
    if item == [] then [] else [item[0].0] + Keys(item[1..])
  }

  /** `item[key]`: a key the record does not have gives undefined. */
  function Lookup(item: Record, key: string): Value
  {
    if item == [] then Undefined else if item[0].0 == key then item[0].1 else Lookup(item[1..], key)
  }

  /** The test `/[,\n\r"]/`. */
  predicate NeedsQuotes(s: string)
  {
    ',' in s || '\n' in s || '\r' in s || '"' in s
  }

  /** `s.replace(/"/g, '""')`. */
  function DoubleQuotes(s: string): string
  {
    if s == [] then [] else (if s[0] == '"' then "\"\"" else [s[0]]) + DoubleQuotes(s[1..])
  }

  /**
   * One field of a data row: empty for a missing value, a number or boolean as its text, a string
   * verbatim unless it holds a comma, a line break or a quote, and that string or an object's JSON
   * otherwise between quotes.
   */
  function Cell(v: Value): (r: string)
    ensures v.Null? || v.Undefined? ==> r == ""
    ensures v.Scalar? ==> r == v.text
    ensures v.Str? && !NeedsQuotes(v.s) ==> r == v.s
    ensures (v.Str? && NeedsQuotes(v.s)) || v.Object? ==> |r| >= 2 && r[0] == '"' && r[|r| - 1] == '"'
  {
    match v
    case Null => ""
    case Undefined => ""
    case Object(j) => "\"" + DoubleQuotes(j) + "\""
    case Str(s) =>
      var escaped := DoubleQuotes(s);
      if NeedsQuotes(s) then "\"" + escaped + "\""
      else
        DoubleQuotesNoQuote(s);
        escaped
    case Scalar(t) => t
  }

  function CellsOf(vs: seq<Value>): (r: seq<string>)
    ensures |r| == |vs|
  {
    if vs == [] then [] else [Cell(vs[0])] + CellsOf(vs[1..])
  }

  /** A line of fields joined by commas. */
  function Line(vs: seq<Value>): string
  {
    Join(CellsOf(vs), ',')
  }

  /** The values a data row takes from a record, one per header. */
  function RowValues(headers: seq<string>, item: Record): (r: seq<Value>)
    ensures |r| == |headers|
  {
    if headers == [] then [] else [Lookup(item, headers[0])] + RowValues(headers[1..], item)
  }

  function HeaderLine(headers: seq<string>): string
  {
    Join(headers, ',')
  }

  function RowLine(headers: seq<string>, item: Record): string
  {
    Line(RowValues(headers, item))
  }

  /**
   * The serialised text, as a function of the records: empty for no records, otherwise the header
   * row of the first record's keys followed by a line feed and the rows.
   */
  function ToCsv(data: seq<Record>): (r: string)
    ensures |data| == 0 ==> r == ""
    ensures |data| > 0 ==> var h := HeaderLine(Keys(data[0])); |r| > |h| && r[..|h|] == h && r[|h|] == '\n'
  {
    if |data| == 0 then ""
    else
      var headers := Keys(data[0]);
      var rows := [HeaderLine(headers)] + seq(|data|, i requires 0 <= i < |data| => RowLine(headers, data[i]));
      assert Join(rows, '\n') == rows[0] + ['\n'] + Join(rows[1..], '\n');
      Join(rows, '\n')
  }

  /** `convertToCSV(data)`: pushes the header row and then one row per record, and joins them by LF. */
  method ConvertToCsv(data: seq<Record>) returns (csv: string)
    ensures csv == ToCsv(data)
  {
    if |data| == 0 {
      return "";
    }
    var headers := Keys(data[0]);
    var csvRows := [HeaderLine(headers)];
    for i := 0 to |data|
      invariant |csvRows| == i + 1
      invariant csvRows[0] == HeaderLine(headers)
      invariant forall k :: 0 <= k < i ==> csvRows[k + 1] == RowLine(headers, data[k])
    {
      var values := CellsOf(RowValues(headers, data[i]));
      csvRows := csvRows + [Join(values, ',')];
    }
    assert csvRows == [HeaderLine(headers)] + seq(|data|, i requires 0 <= i < |data| => RowLine(headers, data[i]));
    csv := Join(csvRows, '\n');
  }

  // ---- Properties of the serialiser ----

  lemma EmptyInput()
    ensures ToCsv([]) == ""
  {
  }

  /** The text is the header row followed by one row per record, joined by LF. */
  lemma {:induction false} RowsOfOutput(data: seq<Record>)
    requires |data| > 0
    ensures ToCsv(data) == Join(Rows(data), '\n')
    ensures |Rows(data)| == |data| + 1
    ensures Rows(data)[0] == Join(Keys(data[0]), ',')
    ensures forall i :: 0 <= i < |data| ==> Rows(data)[i + 1] == RowLine(Keys(data[0]), data[i])
  {
  }

  function Rows(data: seq<Record>): seq<string>
    requires |data| > 0
  {
    var headers := Keys(data[0]);
    [HeaderLine(headers)] + seq(|data|, i requires 0 <= i < |data| => RowLine(headers, data[i]))
  }

  /** A value whose text holds no line feed: a string, JSON text or number text without LF. */
  predicate OneLineValue(v: Value)
  {
    match v
    case Null => true
    case Undefined => true
    case Str(s) => '\n' !in s
    case Object(j) => '\n' !in j
    case Scalar(t) => '\n' !in t
  }

  predicate RecordOneLine(item: Record)
  {
    forall k :: 0 <= k < |item| ==> OneLineValue(item[k].1)
  }

  /**
   * When no header and no value's text holds a line feed, splitting the output at LF gives back
   * `data.length + 1` lines: the header keys joined by commas, then each record's line in order.
   */
  lemma OutputLines(data: seq<Record>)
    requires |data| > 0
    requires forall k :: k in Keys(data[0]) ==> '\n' !in k
    requires forall i :: 0 <= i < |data| ==> RecordOneLine(data[i])
    ensures var lines := Split(ToCsv(data), '\n');
            && |lines| == |data| + 1
            && lines[0] == Join(Keys(data[0]), ',')
            && forall i :: 0 <= i < |data| ==> lines[i + 1] == RowLine(Keys(data[0]), data[i])
  {
    var headers := Keys(data[0]);
    var rows := Rows(data);
    RowsOfOutput(data);
    forall k | 0 <= k < |rows| ensures '\n' !in rows[k] {
      if k == 0 {
        JoinKeepsAbsent(headers, ',', '\n');
      } else {
        RowLineOneLine(headers, data[k - 1]);
      }
    }
    SplitJoin(rows, '\n');
  }

  lemma {:induction false} DoubleQuotesKeepsAbsent(s: string, c: char)
    requires c != '"' && c !in s
    ensures c !in DoubleQuotes(s)
  {
    if s != [] {
      DoubleQuotesKeepsAbsent(s[1..], c);
    }
  }

  lemma CellOneLine(v: Value)
    requires OneLineValue(v)
    ensures '\n' !in Cell(v)
  {
    match v
    case Null =>
    case Undefined =>
    case Str(s) => DoubleQuotesKeepsAbsent(s, '\n');
    case Object(j) => DoubleQuotesKeepsAbsent(j, '\n');
    case Scalar(_) =>
  }

  lemma {:induction false} LookupOneLine(item: Record, key: string)
    requires RecordOneLine(item)
    ensures OneLineValue(Lookup(item, key))
  {
    if item != [] && item[0].0 != key {
      assert RecordOneLine(item[1..]) by {
        forall k | 0 <= k < |item[1..]| ensures OneLineValue(item[1..][k].1) {
          assert item[1..][k] == item[k + 1];
        }
      }
      LookupOneLine(item[1..], key);
    }
  }

  lemma {:induction false} CellsOneLine(headers: seq<string>, item: Record)
    requires RecordOneLine(item)
    ensures forall k :: 0 <= k < |headers| ==> '\n' !in CellsOf(RowValues(headers, item))[k]
  {
    if headers != [] {
      LookupOneLine(item, headers[0]);
      CellOneLine(Lookup(item, headers[0]));
      CellsOneLine(headers[1..], item);
      var vs := RowValues(headers, item);
      assert vs[1..] == RowValues(headers[1..], item);
      assert CellsOf(vs)[1..] == CellsOf(vs[1..]);
    }
  }

  lemma RowLineOneLine(headers: seq<string>, item: Record)
    requires RecordOneLine(item)
    ensures '\n' !in RowLine(headers, item)
  {
    CellsOneLine(headers, item);
    JoinKeepsAbsent(CellsOf(RowValues(headers, item)), ',', '\n');
  }

  lemma {:induction false} LookupAbsent(item: Record, key: string)
    requires key !in Keys(item)
    ensures Lookup(item, key) == Undefined
  {
    if item != [] {
      assert Keys(item)[0] == item[0].0;
      assert Keys(item[1..]) == Keys(item)[1..];
      LookupAbsent(item[1..], key);
    }
  }

  /** A header the record lacks gives an empty field; a null or undefined value does too. */
  lemma MissingKeyEmptyField(item: Record, key: string)
    requires key !in Keys(item) || Lookup(item, key) == Null
    ensures Cell(Lookup(item, key)) == ""
  {
    if key !in Keys(item) {
      LookupAbsent(item, key);
    }
  }

  /** A data row depends only on the record's values under the headers: other keys are ignored. */
  lemma {:induction false} RowIgnoresOtherKeys(headers: seq<string>, a: Record, b: Record)
    requires forall k :: k in headers ==> Lookup(a, k) == Lookup(b, k)
    ensures RowLine(headers, a) == RowLine(headers, b)
  {
    RowValuesAgree(headers, a, b);
  }

  lemma {:induction false} RowValuesAgree(headers: seq<string>, a: Record, b: Record)
    requires forall k :: k in headers ==> Lookup(a, k) == Lookup(b, k)
    ensures RowValues(headers, a) == RowValues(headers, b)
  {
    if headers != [] {
      RowValuesAgree(headers[1..], a, b);
    }
  }

  lemma {:induction false} DoubleQuotesNoQuote(s: string)
    requires '"' !in s
    ensures DoubleQuotes(s) == s
  {
    if s != [] {
      DoubleQuotesNoQuote(s[1..]);
    }
  }

  /** A string without a comma, a quote, CR or LF is emitted verbatim; any other is quoted with its quotes doubled. */
  lemma StringCell(s: string)
    ensures !NeedsQuotes(s) ==> Cell(Str(s)) == s
    ensures NeedsQuotes(s) ==> Cell(Str(s)) == "\"" + DoubleQuotes(s) + "\""
  {
    if !NeedsQuotes(s) {
      DoubleQuotesNoQuote(s);
    }
  }

  /** `s.replace(/""/g, '"')`, the inverse of doubling (pairs are read left to right). */
  function UndoubleQuotes(s: string): string
  {
    if |s| >= 2 && s[0] == '"' && s[1] == '"' then "\"" + UndoubleQuotes(s[2..])
    else if s == [] then []
    else [s[0]] + UndoubleQuotes(s[1..])
  }

  lemma {:induction false} UndoubleDoubled(s: string)
    ensures UndoubleQuotes(DoubleQuotes(s)) == s
  {
    if s != [] {
      UndoubleDoubled(s[1..]);
      if s[0] == '"' {
        assert DoubleQuotes(s) == "\"\"" + DoubleQuotes(s[1..]);
        assert DoubleQuotes(s)[2..] == DoubleQuotes(s[1..]);
      } else {
        assert DoubleQuotes(s) == [s[0]] + DoubleQuotes(s[1..]);
        assert DoubleQuotes(s)[1..] == DoubleQuotes(s[1..]);
      }
    }
  }

  /** Dropping the outer quotes of a quoted string field and undoubling its quotes recovers the string. */
  lemma UnquoteRoundTrip(s: string)
    requires NeedsQuotes(s)
    ensures var c := Cell(Str(s)); |c| >= 2 && UndoubleQuotes(c[1..|c| - 1]) == s
  {
    var c := Cell(Str(s));
    assert c[1..|c| - 1] == DoubleQuotes(s);
    UndoubleDoubled(s);
  }

  /** An object is always emitted quoted, with the quotes of its JSON text doubled. */
  lemma ObjectCell(json: string)
    ensures var c := Cell(Object(json)); |c| >= 2 && c[0] == '"' && c[|c| - 1] == '"'
    ensures UndoubleQuotes(Cell(Object(json))[1..|Cell(Object(json))| - 1]) == json
  {
    var c := Cell(Object(json));
    assert c[1..|c| - 1] == DoubleQuotes(json);
    UndoubleDoubled(json);
  }

  // ---- A reader: quoting per RFC 4180 section 2, records separated by LF ----

  /** Reads the inside of a quoted field (after its opening quote) up to the closing quote; answers the text and what follows. */
  function ReadQuoted(s: string): (r: (string, string))
    ensures |r.1| <= |s|
  {
    if s == [] then ([], [])
    else if s[0] == '"' then
      if |s| >= 2 && s[1] == '"' then var (c, rest) := ReadQuoted(s[2..]); ("\"" + c, rest)
      else ([], s[1..])
    else var (c, rest) := ReadQuoted(s[1..]); ([s[0]] + c, rest)
  }

  /** Reads an unquoted field up to the next comma or LF. */
  function ReadPlain(s: string): (r: (string, string))
    ensures |r.1| <= |s|
  {
    if s == [] || s[0] == ',' || s[0] == '\n' then ([], s)
    else var (c, rest) := ReadPlain(s[1..]); ([s[0]] + c, rest)
  }

  function ReadField(s: string): (r: (string, string))
    ensures |r.1| <= |s|
  {
    if s != [] && s[0] == '"' then ReadQuoted(s[1..]) else ReadPlain(s)
  }

  /** Reads comma-separated fields up to the end of the record; answers them and what follows. */
  function ReadRecord(s: string): (r: (seq<string>, string))
    ensures |r.1| <= |s|
    decreases |s|
  {
    var (f, rest) := ReadField(s);
    if rest != [] && rest[0] == ',' then
      var (fs, rest') := ReadRecord(rest[1..]);
      ([f] + fs, rest')
    else ([f], rest)
  }

  /** Reads LF-separated records. */
  function ReadDocument(s: string): seq<seq<string>>
    decreases |s|
  {
    var (rec, rest) := ReadRecord(s);
    if rest != [] && rest[0] == '\n' then [rec] + ReadDocument(rest[1..]) else [rec]
  }

  /** The text a reader gets back for a value. */
  function CellText(v: Value): string
  {
    match v
    case Null => ""
    case Undefined => ""
    case Str(s) => s
    case Object(j) => j
    case Scalar(t) => t
  }

  function TextsOf(vs: seq<Value>): (r: seq<string>)
    ensures |r| == |vs|
  {
    if vs == [] then [] else [CellText(vs[0])] + TextsOf(vs[1..])
  }

  /** A number's or boolean's text never needs quoting. */
  predicate PlainValue(v: Value)
  {
    v.Scalar? ==> !NeedsQuotes(v.text)
  }

  predicate FieldEnd(tail: string)
  {
    tail == [] || tail[0] == ',' || tail[0] == '\n'
  }

  lemma ReadQuotedClose(tail: string)
    requires FieldEnd(tail)
    ensures ReadQuoted("\"" + tail) == ([], tail)
  {
    var s := "\"" + tail;
    assert s[0] == '"' && s[1..] == tail;
    assert |s| >= 2 ==> s[1] == tail[0];
  }

  lemma ReadQuotedEscaped(rest: string)
    ensures ReadQuoted("\"\"" + rest) == ("\"" + ReadQuoted(rest).0, ReadQuoted(rest).1)
  {
    var s := "\"\"" + rest;
    assert s[0] == '"' && s[1] == '"' && s[2..] == rest;
  }

  lemma ReadQuotedChar(c: char, rest: string)
    requires c != '"'
    ensures ReadQuoted([c] + rest) == ([c] + ReadQuoted(rest).0, ReadQuoted(rest).1)
  {
    var s := [c] + rest;
    assert s[0] == c && s[1..] == rest;
  }

  /** Reading a doubled text stops at the first lone quote, giving back the text undoubled. */
  lemma {:induction false} ReadQuotedDoubled(c: string, tail: string)
    requires FieldEnd(tail)
    ensures ReadQuoted(DoubleQuotes(c) + "\"" + tail) == (c, tail)
  {
    if c == [] {
      assert DoubleQuotes(c) + "\"" + tail == "\"" + tail;
      ReadQuotedClose(tail);
    } else {
      ReadQuotedDoubled(c[1..], tail);
      ReadQuotedDoubledStep(c, tail);
      assert [c[0]] + c[1..] == c;
    }
  }

  /** One character of a doubled text: it reads back as itself, before what the rest reads as. */
  lemma ReadQuotedDoubledStep(c: string, tail: string)
    requires c != []
    ensures var r := ReadQuoted(DoubleQuotes(c[1..]) + "\"" + tail);
            ReadQuoted(DoubleQuotes(c) + "\"" + tail) == ([c[0]] + r.0, r.1)
  {
    var d := DoubleQuotes(c[1..]);
    var rest := d + "\"" + tail;
    var head := if c[0] == '"' then "\"\"" else [c[0]];
    assert DoubleQuotes(c) == head + d;
    assert head + d + "\"" + tail == head + rest;
    if c[0] == '"' {
      ReadQuotedEscaped(rest);
    } else {
      ReadQuotedChar(c[0], rest);
    }
  }

  lemma {:induction false} ReadPlainVerbatim(s: string, tail: string)
    requires ',' !in s && '\n' !in s
    requires FieldEnd(tail)
    ensures ReadPlain(s + tail) == (s, tail)
  {
    if s == [] {
      assert s + tail == tail;
    } else {
      assert s[0] in s;
      assert ',' !in s[1..] && '\n' !in s[1..] by {
        forall k | 0 <= k < |s[1..]| ensures s[1..][k] in s { assert s[1..][k] == s[k + 1]; }
      }
      assert s == [s[0]] + s[1..];
      assert (s + tail)[0] == s[0];
      assert (s + tail)[1..] == s[1..] + tail;
      ReadPlainVerbatim(s[1..], tail);
    }
  }

  /** Every field reads back as its value's text, whatever delimiter follows it. */
  lemma CellRoundTrip(v: Value, tail: string)
    requires PlainValue(v) && FieldEnd(tail)
    ensures ReadField(Cell(v) + tail) == (CellText(v), tail)
  {
    match v
    case Null => assert Cell(v) + tail == tail;
    case Undefined => assert Cell(v) + tail == tail;
    case Scalar(t) => ReadPlainVerbatim(t, tail);
    case Object(j) => QuotedRoundTrip(j, tail);
    case Str(s) =>
      StringCell(s);
      if NeedsQuotes(s) {
        QuotedRoundTrip(s, tail);
      } else {
        ReadPlainVerbatim(s, tail);
      }
  }

  lemma QuotedRoundTrip(s: string, tail: string)
    requires FieldEnd(tail)
    ensures ReadField("\"" + DoubleQuotes(s) + "\"" + tail) == (s, tail)
  {
    var inside := DoubleQuotes(s) + "\"" + tail;
    assert "\"" + DoubleQuotes(s) + "\"" + tail == "\"" + inside;
    ReadFieldQuoted(inside);
    ReadQuotedDoubled(s, tail);
  }

  lemma ReadFieldQuoted(inside: string)
    ensures ReadField("\"" + inside) == ReadQuoted(inside)
  {
    var text := "\"" + inside;
    assert text[0] == '"' && text[1..] == inside;
  }

  predicate AllPlain(vs: seq<Value>)
  {
    forall i :: 0 <= i < |vs| ==> PlainValue(vs[i])
  }

  /** A line of fields reads back as the fields' texts, when the line is followed by LF or ends the text. */
  lemma {:induction false} LineRoundTrip(vs: seq<Value>, tail: string)
    requires |vs| >= 1 && AllPlain(vs)
    requires tail == [] || tail[0] == '\n'
    ensures ReadRecord(Line(vs) + tail) == (TextsOf(vs), tail)
  {
    if |vs| == 1 {
      assert Line(vs) == Cell(vs[0]);
      assert TextsOf(vs) == [CellText(vs[0])];
      CellRoundTrip(vs[0], tail);
    } else {
      var rest := Line(vs[1..]) + tail;
      assert CellsOf(vs)[1..] == CellsOf(vs[1..]);
      assert Line(vs) == Cell(vs[0]) + [','] + Line(vs[1..]);
      assert Line(vs) + tail == Cell(vs[0]) + ([','] + rest);
      CellRoundTrip(vs[0], [','] + rest);
      assert ([','] + rest)[1..] == rest;
      LineRoundTrip(vs[1..], tail);
    }
  }

  function LinesOf(grid: seq<seq<Value>>): (r: seq<string>)
    ensures |r| == |grid|
  {
    if grid == [] then [] else [Line(grid[0])] + LinesOf(grid[1..])
  }

  function TextGrid(grid: seq<seq<Value>>): (r: seq<seq<string>>)
    ensures |r| == |grid|
  {
    if grid == [] then [] else [TextsOf(grid[0])] + TextGrid(grid[1..])
  }

  predicate ReadableGrid(grid: seq<seq<Value>>)
  {
    forall i :: 0 <= i < |grid| ==> |grid[i]| >= 1 && AllPlain(grid[i])
  }

  /** LF-joined lines read back as the grid of field texts. */
  lemma {:induction false} GridRoundTrip(grid: seq<seq<Value>>)
    requires |grid| >= 1 && ReadableGrid(grid)
    ensures ReadDocument(Join(LinesOf(grid), '\n')) == TextGrid(grid)
  {
    if |grid| == 1 {
      assert Join(LinesOf(grid), '\n') + [] == Line(grid[0]);
      LineRoundTrip(grid[0], []);
    } else {
      var rest := Join(LinesOf(grid[1..]), '\n');
      assert LinesOf(grid)[1..] == LinesOf(grid[1..]);
      assert Join(LinesOf(grid), '\n') == Line(grid[0]) + (['\n'] + rest);
      LineRoundTrip(grid[0], ['\n'] + rest);
      assert (['\n'] + rest)[1..] == rest;
      GridRoundTrip(grid[1..]);
    }
  }

  function HeaderValues(headers: seq<string>): (r: seq<Value>)
    ensures |r| == |headers|
  {
    if headers == [] then [] else [Scalar(headers[0])] + HeaderValues(headers[1..])
  }

  lemma {:induction false} HeaderAsValues(headers: seq<string>)
    ensures CellsOf(HeaderValues(headers)) == headers
    ensures TextsOf(HeaderValues(headers)) == headers
  {
    if headers != [] {
      HeaderAsValues(headers[1..]);
    }
  }

  /** The header line is not escaped: its keys are written as they are. */
  lemma HeaderLineUnescaped(headers: seq<string>)
    ensures HeaderLine(headers) == Line(HeaderValues(headers))
  {
    HeaderAsValues(headers);
  }

  function Grid(data: seq<Record>): (g: seq<seq<Value>>)
    requires |data| > 0
    ensures |g| == |data| + 1
  {
    var headers := Keys(data[0]);
    [HeaderValues(headers)] + seq(|data|, i requires 0 <= i < |data| => RowValues(headers, data[i]))
  }

  /** What reading the output back must give: the header keys, then each record's field texts. */
  function Expected(data: seq<Record>): seq<seq<string>>
    requires |data| > 0
  {
    var headers := Keys(data[0]);
    [headers] + seq(|data|, i requires 0 <= i < |data| => TextsOf(RowValues(headers, data[i])))
  }

  predicate RecordPlain(item: Record)
  {
    forall k :: 0 <= k < |item| ==> PlainValue(item[k].1)
  }

  lemma {:induction false} LookupPlain(item: Record, key: string)
    requires RecordPlain(item)
    ensures PlainValue(Lookup(item, key))
  {
    if item != [] && item[0].0 != key {
      assert RecordPlain(item[1..]) by {
        forall k | 0 <= k < |item[1..]| ensures PlainValue(item[1..][k].1) {
          assert item[1..][k] == item[k + 1];
        }
      }
      LookupPlain(item[1..], key);
    }
  }

  lemma {:induction false} RowValuesPlain(headers: seq<string>, item: Record)
    requires RecordPlain(item)
    ensures AllPlain(RowValues(headers, item))
  {
    if headers != [] {
      LookupPlain(item, headers[0]);
      RowValuesPlain(headers[1..], item);
    }
  }

  lemma {:induction false} LinesOfIndexed(grid: seq<seq<Value>>, i: nat)
    requires i < |grid|
    ensures LinesOf(grid)[i] == Line(grid[i]) && TextGrid(grid)[i] == TextsOf(grid[i])
  {
    if i > 0 {
      LinesOfIndexed(grid[1..], i - 1);
    }
  }

  /**
   * Round trip: when the first record has at least one key, no key needs quoting and no number or
   * boolean text does, reading the serialised text back gives the header keys and then, for every
   * record, exactly one field per header holding that field's text.
   */
  lemma CsvRoundTrip(data: seq<Record>)
    requires |data| > 0 && |Keys(data[0])| > 0
    requires forall k :: k in Keys(data[0]) ==> !NeedsQuotes(k)
    requires forall i :: 0 <= i < |data| ==> RecordPlain(data[i])
    ensures ReadDocument(ToCsv(data)) == Expected(data)
    ensures |ReadDocument(ToCsv(data))| == |data| + 1
    ensures forall r :: r in ReadDocument(ToCsv(data))[1..] ==> |r| == |Keys(data[0])|
  {
    GridOfDataReadable(data);
    GridOfDataLines(data);
    GridOfDataTexts(data);
    RowsOfOutput(data);
    GridRoundTrip(Grid(data));
  }

  lemma GridOfDataReadable(data: seq<Record>)
    requires |data| > 0 && |Keys(data[0])| > 0
    requires forall k :: k in Keys(data[0]) ==> !NeedsQuotes(k)
    requires forall i :: 0 <= i < |data| ==> RecordPlain(data[i])
    ensures ReadableGrid(Grid(data))
  {
    var headers := Keys(data[0]);
    var grid := Grid(data);
    forall i | 0 <= i < |grid| ensures |grid[i]| >= 1 && AllPlain(grid[i]) {
      if i == 0 {
        forall k | 0 <= k < |headers| ensures PlainValue(HeaderValues(headers)[k]) {
          HeaderValueAt(headers, k);
        }
      } else {
        RowValuesPlain(headers, data[i - 1]);
      }
    }
  }

  lemma GridOfDataLines(data: seq<Record>)
    requires |data| > 0
    ensures LinesOf(Grid(data)) == Rows(data)
  {
    var headers := Keys(data[0]);
    var grid := Grid(data);
    forall i | 0 <= i < |grid| ensures LinesOf(grid)[i] == Rows(data)[i] {
      LinesOfIndexed(grid, i);
      if i == 0 {
        HeaderLineUnescaped(headers);
      }
    }
  }

  lemma GridOfDataTexts(data: seq<Record>)
    requires |data| > 0
    ensures TextGrid(Grid(data)) == Expected(data)
  {
    var headers := Keys(data[0]);
    var grid := Grid(data);
    HeaderAsValues(headers);
    forall i | 0 <= i < |grid| ensures TextGrid(grid)[i] == Expected(data)[i] {
      LinesOfIndexed(grid, i);
    }
  }

  lemma {:induction false} HeaderValueAt(headers: seq<string>, k: nat)
    requires k < |headers|
    ensures HeaderValues(headers)[k] == Scalar(headers[k])
  {
    if k > 0 {
      HeaderValueAt(headers[1..], k - 1);
    }
  }
}
