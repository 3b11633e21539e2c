/**
 * The error-log export of the settings view: each log becomes a row of three
 * double-quoted fields, rows are joined with CRLF after a header line. The
 * error and component-stack fields double their embedded quotes in the manner
 * of section 2 of RFC 4180; the timestamp is quoted without escaping. A reader
 * for that section's grammar is the partner the serialiser is proved against.
 */
module ErrorLogCsv {
  import opened Wrappers

  /** `ErrorLog`: when, what, and the React component stack (possibly null). */
  datatype ErrorLog = ErrorLog(timestamp: string, error: string, componentStack: Option<string>)

  const HeaderFields: seq<string> := ["Timestamp", "Error", "Component Stack"]
  const Crlf: string := "\r\n"

  // ---------------------------------------------------------------------
  // Writing
  // ---------------------------------------------------------------------

  /** `s.replace(/"/g, '""')` */
  function DoubleQuotes(s: string): (r: string)
    ensures '"' !in s ==> r == s
    decreases |s|
  {
    if s == [] then []
    else (if s[0] == '"' then "\"\"" else [s[0]]) + DoubleQuotes(s[1..])
  }

  /** `s.replace(/\n/g, ' ')` */
  function SpacesForNewlines(s: string): (r: string)
    ensures |r| == |s|
    ensures forall i :: 0 <= i < |s| ==> r[i] == if s[i] == '\n' then ' ' else s[i]
    decreases |s|
  {
    if s == [] then []
    else [if s[0] == '\n' then ' ' else s[0]] + SpacesForNewlines(s[1..])
  }

  /** `` `"${s}"` `` */
  function Quoted(s: string): string
  {
    "\"" + s + "\""
  }

  /** The three fields `downloadErrorLog` writes for one log. */
  function RowFields(log: ErrorLog): (r: seq<string>)
    ensures |r| == 3
    ensures forall i :: 0 <= i < 3 ==> |r[i]| >= 2 && r[i][0] == '"' && r[i][|r[i]| - 1] == '"'
    ensures '\n' !in r[2]
  {
    var stack := match log.componentStack case Some(s) => s case None => "";
    var clean := SpacesForNewlines(DoubleQuotes(stack));
    assert forall k :: 0 <= k < |clean| ==> clean[k] != '\n';
    [ Quoted(log.timestamp),
      Quoted(DoubleQuotes(log.error)),
      Quoted(clean) ]
  }

  /** `parts.join(sep)` */
  function Join(parts: seq<string>, sep: string): (r: string)
    ensures parts != [] ==> |r| >= |parts[0]|
    ensures parts != [] && parts[0] != [] ==> r[0] == parts[0][0]
    decreases |parts|
  {
    if parts == [] then ""
    else if |parts| == 1 then parts[0]
    else parts[0] + sep + Join(parts[1..], sep)
  }

  /** The row texts: `String(row)` joins a row's fields with commas. */
  function RowLines(logs: seq<ErrorLog>): (lines: seq<string>)
    ensures |lines| == |logs|
    ensures forall i :: 0 <= i < |logs| ==> lines[i] == Join(RowFields(logs[i]), ",")
  {
    seq(|logs|, i requires 0 <= i < |logs| => Join(RowFields(logs[i]), ","))
  }

  /**
   * The CSV text `downloadErrorLog` builds (before the `data:` prefix is
   * added); nothing when there are no logs.
   */
  function ExportCsv(logs: seq<ErrorLog>): (csv: Option<string>)
    ensures csv.None? <==> logs == []
  {
    if |logs| == 0 then None
    else Some(Join(HeaderFields, ",") + Crlf + Join(RowLines(logs), Crlf))
  }

  // ---------------------------------------------------------------------
  // Reading (section 2 of RFC 4180)
  // ---------------------------------------------------------------------

  /**
   * The body of an escaped field, read after its opening quote: `""` is one
   * quote, a lone quote closes the field. Gives the content and what follows
   * the closing quote, or nothing if the field is never closed.
   */
  function ParseEscaped(s: string): (r: Option<(string, string)>)
    ensures r.Some? ==> |r.value.1| < |s|
    decreases |s|
  {
    if s == [] then None
    else if s[0] == '"' then
      if |s| >= 2 && s[1] == '"' then
        match ParseEscaped(s[2..])
        case None => None
        case Some((v, rest)) => Some(("\"" + v, rest))
      else Some(("", s[1..]))
    else
      match ParseEscaped(s[1..])
      case None => None
      case Some((v, rest)) => Some(([s[0]] + v, rest))
  }

  predicate IsTextData(c: char)
  {
    c != ',' && c != '"' && c != '\r' && c != '\n'
  }

  /** A non-escaped field: the longest prefix of TEXTDATA characters. */
  function ParseUnescaped(s: string): (r: (string, string))
    ensures |r.1| <= |s|
    ensures r.0 + r.1 == s
    decreases |s|
  {
    if s != [] && IsTextData(s[0]) then
      var (v, rest) := ParseUnescaped(s[1..]);
      ([s[0]] + v, rest)
    else ("", s)
  }

  function ParseField(s: string): (r: Option<(string, string)>)
    ensures r.Some? ==> |r.value.1| <= |s|
  {
    if s != [] && s[0] == '"' then ParseEscaped(s[1..]) else Some(ParseUnescaped(s))
  }

  /** A record: fields separated by commas, up to a line break or the end. */
  function ParseRecord(s: string): (r: Option<(seq<string>, string)>)
    ensures r.Some? ==> |r.value.1| <= |s|
    decreases |s|
  {
    match ParseField(s)
    case None => None
    case Some((f, rest)) =>
      if rest != [] && rest[0] == ',' then
        match ParseRecord(rest[1..])
        case None => None
        case Some((fs, rest')) => Some(([f] + fs, rest'))
      else Some(([f], rest))
  }

  /**
   * A whole file: records separated by CRLF, the last one optionally followed
   * by CRLF. Anything else after a record makes the file malformed.
   */
  function ParseCsv(s: string): (r: Option<seq<seq<string>>>)
    decreases |s|
  {
    match ParseRecord(s)
    case None => None
    case Some((fields, rest)) =>
      if rest == [] || rest == Crlf then Some([fields])
      else if |rest| > 2 && rest[..2] == Crlf then
        match ParseCsv(rest[2..])
        case None => None
        case Some(records) => Some([fields] + records)
      else None
  }

  // ---------------------------------------------------------------------
  // Round trip
  // ---------------------------------------------------------------------

  /** The records a reader recovers from the rows, one per log, in order. */
  function DecodedRows(logs: seq<ErrorLog>): (rows: seq<seq<string>>)
    ensures |rows| == |logs|
    ensures forall i :: 0 <= i < |logs| ==> rows[i] == DecodedRow(logs[i])
  {
    if logs == [] then [] else [DecodedRow(logs[0])] + DecodedRows(logs[1..])
  }

  /** The fields a reader recovers from one log's row. */
  function DecodedRow(log: ErrorLog): seq<string>
  {
    var stack := match log.componentStack case Some(s) => s case None => "";
    [log.timestamp, log.error, SpacesForNewlines(stack)]
  }

  /** Undoubling the quotes of an escaped field gives back its text. */
  lemma {:induction false} EscapedRoundTrip(x: string, rest: string)
    requires rest == [] || rest[0] != '"'
    ensures ParseEscaped(DoubleQuotes(x) + "\"" + rest) == Some((x, rest))
    decreases |x|
  {
    if x == [] {
      var s := "\"" + rest;
      assert DoubleQuotes(x) + "\"" + rest == s;
      assert s[0] == '"' && !(|s| >= 2 && s[1] == '"') && s[1..] == rest;
    } else {
      EscapedRoundTrip(x[1..], rest);
      var tail := DoubleQuotes(x[1..]) + "\"" + rest;
      var head := if x[0] == '"' then "\"\"" else [x[0]];
      assert DoubleQuotes(x) == head + DoubleQuotes(x[1..]);
      Regroup(head, DoubleQuotes(x[1..]), "\"", rest);
      EscapedStep(x[0], tail, x[1..], rest);
      assert [x[0]] + x[1..] == x;
    }
  }

  /** `((a + b) + c) + d` regrouped to the right. */
  lemma Regroup(a: string, b: string, c: string, d: string)
    ensures a + b + c + d == a + (b + c + d)
  {
  }

  /** One character of an escaped field's content, written with its quote doubled, reads back in front. */
  lemma EscapedStep(c: char, tail: string, v: string, rest: string)
    requires ParseEscaped(tail) == Some((v, rest))
    ensures ParseEscaped((if c == '"' then "\"\"" else [c]) + tail) == Some(([c] + v, rest))
  {
    if c == '"' {
      assert ("\"\"" + tail)[2..] == tail;
    } else {
      assert ([c] + tail)[1..] == tail;
    }
  }

  /** The two replacements in the stack field commute. */
  lemma {:induction false} NewlinesAndQuotesCommute(s: string)
    ensures SpacesForNewlines(DoubleQuotes(s)) == DoubleQuotes(SpacesForNewlines(s))
    decreases |s|
  {
    if s != [] {
      NewlinesAndQuotesCommute(s[1..]);
      var head := if s[0] == '"' then "\"\"" else [s[0]];
      SpacesDistribute(head, DoubleQuotes(s[1..]));
      var t := SpacesForNewlines(s);
      assert t == [t[0]] + SpacesForNewlines(s[1..]);
      assert t[1..] == SpacesForNewlines(s[1..]);
    }
  }

  lemma SpacesDistribute(a: string, b: string)
    ensures SpacesForNewlines(a + b) == SpacesForNewlines(a) + SpacesForNewlines(b)
  {
    var l, r := SpacesForNewlines(a + b), SpacesForNewlines(a) + SpacesForNewlines(b);
    assert |l| == |r|;
    forall i | 0 <= i < |l| ensures l[i] == r[i] {
      if i < |a| { assert (a + b)[i] == a[i]; } else { assert (a + b)[i] == b[i - |a|]; }
    }
  }

  /** A quoted field whose content has its quotes doubled reads back as the content. */
  lemma FieldRoundTrip(x: string, rest: string)
    requires rest == [] || rest[0] != '"'
    ensures ParseField(Quoted(DoubleQuotes(x)) + rest) == Some((x, rest))
  {
    var body := DoubleQuotes(x) + "\"" + rest;
    Regroup("\"", DoubleQuotes(x), "\"", rest);
    assert Quoted(DoubleQuotes(x)) + rest == "\"" + body;
    assert ("\"" + body)[1..] == body;
    EscapedRoundTrip(x, rest);
  }

  /** A field followed by a comma continues the record. */
  lemma RecordCons(s: string, f: string, t: string, fs: seq<string>, rest: string)
    requires ParseField(s) == Some((f, "," + t))
    requires ParseRecord(t) == Some((fs, rest))
    ensures ParseRecord(s) == Some(([f] + fs, rest))
  {
    assert ("," + t)[1..] == t;
  }

  /** A field followed by anything but a comma ends the record. */
  lemma RecordLast(s: string, f: string, rest: string)
    requires ParseField(s) == Some((f, rest))
    requires rest == [] || rest[0] != ','
    ensures ParseRecord(s) == Some(([f], rest))
  {
  }

  /** Three fields separated by commas read back as a record of three. */
  lemma ThreeFields(a: string, b: string, c: string, x: string, y: string, z: string, rest: string)
    requires rest == [] || rest[0] != ','
    requires ParseField(a + ("," + (b + ("," + (c + rest))))) == Some((x, "," + (b + ("," + (c + rest)))))
    requires ParseField(b + ("," + (c + rest))) == Some((y, "," + (c + rest)))
    requires ParseField(c + rest) == Some((z, rest))
    ensures ParseRecord(a + ("," + (b + ("," + (c + rest))))) == Some(([x, y, z], rest))
  {
    RecordLast(c + rest, z, rest);
    RecordCons(b + ("," + (c + rest)), y, c + rest, [z], rest);
    assert [y] + [z] == [y, z];
    RecordCons(a + ("," + (b + ("," + (c + rest)))), x, b + ("," + (c + rest)), [y, z], rest);
    assert [x] + [y, z] == [x, y, z];
  }

  /** `[a, b, c].join(",")` followed by more text, with the concatenations grouped to the right. */
  lemma JoinThree(a: string, b: string, c: string, rest: string)
    ensures Join([a, b, c], ",") + rest == a + ("," + (b + ("," + (c + rest))))
  {
    assert Join([a, b, c], ",") == a + "," + Join([b, c], ",");
    assert Join([b, c], ",") == b + "," + Join([c], ",");
  }

  /** One log's row, followed by a line break or the end, reads back as its decoded fields. */
  lemma RowRoundTrip(log: ErrorLog, rest: string)
    requires '"' !in log.timestamp
    requires rest == [] || rest[0] == '\r'
    ensures ParseRecord(Join(RowFields(log), ",") + rest) == Some((DecodedRow(log), rest))
  {
    var stack := match log.componentStack case Some(s) => s case None => "";
    var clean := SpacesForNewlines(stack);
    NewlinesAndQuotesCommute(stack);
    var a, b, c := Quoted(log.timestamp), Quoted(DoubleQuotes(log.error)), Quoted(DoubleQuotes(clean));
    assert RowFields(log) == [a, b, c];
    JoinThree(a, b, c, rest);
    var s3 := c + rest;
    var s2 := b + ("," + s3);
    FieldRoundTrip(log.timestamp, "," + s2);
    FieldRoundTrip(log.error, "," + s3);
    FieldRoundTrip(clean, rest);
    ThreeFields(a, b, c, log.timestamp, log.error, clean, rest);
  }

  /** The header line, followed by a line break, reads back as the three header names. */
  lemma HeaderRoundTrip(rest: string)
    requires rest != [] && rest[0] == '\r'
    ensures ParseRecord(Join(HeaderFields, ",") + rest) == Some((HeaderFields, rest))
  {
    var a, b, c := "Timestamp", "Error", "Component Stack";
    var s3 := c + rest;
    var s2 := b + ("," + s3);
    UnescapedRoundTrip(a, "," + s2);
    UnescapedRoundTrip(b, "," + s3);
    UnescapedRoundTrip(c, rest);
    ThreeFields(a, b, c, a, b, c, rest);
    JoinThree(a, b, c, rest);
  }

  /** Plain text followed by a delimiter reads back as a non-escaped field. */
  lemma UnescapedRoundTrip(w: string, rest: string)
    requires forall i :: 0 <= i < |w| ==> IsTextData(w[i])
    requires rest == [] || !IsTextData(rest[0])
    ensures ParseUnescaped(w + rest) == (w, rest)
    ensures w != [] ==> ParseField(w + rest) == Some((w, rest))
  {
    UnescapedPrefix(w, rest);
    if w != [] {
      assert (w + rest)[0] == w[0] && IsTextData(w[0]);
    }
  }

  /** The non-escaped reader stops exactly at the delimiter after plain text. */
  lemma {:induction false} UnescapedPrefix(w: string, rest: string)
    requires forall i :: 0 <= i < |w| ==> IsTextData(w[i])
    requires rest == [] || !IsTextData(rest[0])
    ensures ParseUnescaped(w + rest) == (w, rest)
    decreases |w|
  {
    if w == [] {
      assert w + rest == rest;
    } else {
      UnescapedPrefix(w[1..], rest);
      var s := w + rest;
      assert s[0] == w[0] && IsTextData(s[0]);
      assert s[1..] == w[1..] + rest;
      assert [w[0]] + w[1..] == w;
    }
  }

  /** The joined rows read back as one record per log, in order. */
  lemma {:induction false} RowsRoundTrip(logs: seq<ErrorLog>)
    requires logs != []
    requires forall l :: l in logs ==> '"' !in l.timestamp
    ensures ParseCsv(Join(RowLines(logs), Crlf)) == Some(DecodedRows(logs))
    decreases |logs|
  {
    assert logs[0] in logs;
    if |logs| == 1 {
      RowsTextOne(logs);
      LastRowRoundTrip(logs[0]);
      assert DecodedRows(logs) == [DecodedRow(logs[0])];
    } else {
      var tail := logs[1..];
      assert forall l :: l in tail ==> l in logs;
      RowsRoundTrip(tail);
      RowsTextCons(logs);
      ConsRowRoundTrip(logs[0], Join(RowLines(tail), Crlf), DecodedRows(tail));
      assert DecodedRows(logs) == [DecodedRow(logs[0])] + DecodedRows(tail);
    }
  }

  /** The text of a single row. */
  lemma RowsTextOne(logs: seq<ErrorLog>)
    requires |logs| == 1
    ensures Join(RowLines(logs), Crlf) == Join(RowFields(logs[0]), ",")
  {
  }

  /** The text of two or more rows: the first row, a line break, and the text of the rest, which is not empty. */
  lemma RowsTextCons(logs: seq<ErrorLog>)
    requires |logs| >= 2
    ensures Join(RowLines(logs), Crlf)
         == Join(RowFields(logs[0]), ",") + Crlf + Join(RowLines(logs[1..]), Crlf)
    ensures Join(RowLines(logs[1..]), Crlf) != []
  {
    var lines := RowLines(logs);
    assert RowLines(logs[1..]) == lines[1..];
    assert lines[1] == Join(RowFields(logs[1]), ",");
    JoinNonEmpty(lines[1..], Crlf);
  }

  /** A row followed by a line break and a readable rest reads back as one more record in front. */
  lemma ConsRowRoundTrip(log: ErrorLog, more: string, records: seq<seq<string>>)
    requires '"' !in log.timestamp
    requires more != []
    requires ParseCsv(more) == Some(records)
    ensures ParseCsv(Join(RowFields(log), ",") + Crlf + more) == Some([DecodedRow(log)] + records)
  {
    var rest := Crlf + more;
    RowRoundTrip(log, rest);
    assert Join(RowFields(log), ",") + Crlf + more == Join(RowFields(log), ",") + rest;
    assert rest[..2] == Crlf && rest[2..] == more;
  }

  /** The last row, at the end of the text, reads back as the file's last record. */
  lemma LastRowRoundTrip(log: ErrorLog)
    requires '"' !in log.timestamp
    ensures ParseCsv(Join(RowFields(log), ",")) == Some([DecodedRow(log)])
  {
    var row := Join(RowFields(log), ",");
    RowRoundTrip(log, "");
    assert row + "" == row;
  }

  /** A join of rows whose first part is a quoted field is not empty. */
  lemma JoinNonEmpty(parts: seq<string>, sep: string)
    requires parts != [] && parts[0] != []
    ensures Join(parts, sep) != []
  {
    if |parts| > 1 {
      assert Join(parts, sep) == parts[0] + sep + Join(parts[1..], sep);
    }
  }

  /**
   * Reading the exported CSV gives the header names and then, per log in
   * order, its timestamp, its error text, and its stack with newlines as
   * spaces, provided no timestamp contains a double quote.
   */
  lemma CsvRoundTrip(logs: seq<ErrorLog>)
    requires logs != []
    requires forall l :: l in logs ==> '"' !in l.timestamp
    ensures ExportCsv(logs).Some?
    ensures ParseCsv(ExportCsv(logs).value)
         == Some([HeaderFields] + DecodedRows(logs))
  {
    var body := Join(RowLines(logs), Crlf);
    var csv := Join(HeaderFields, ",") + Crlf + body;
    assert ExportCsv(logs) == Some(csv);
    RowsRoundTrip(logs);
    var rest := Crlf + body;
    assert csv == Join(HeaderFields, ",") + rest;
    HeaderRoundTrip(rest);
    assert RowLines(logs)[0] == Join(RowFields(logs[0]), ",");
    JoinNonEmpty(RowLines(logs), Crlf);
    assert rest[..2] == Crlf && rest[2..] == body;
  }

  /** A log whose timestamp is a single double quote. */
  const QuoteLog: ErrorLog := ErrorLog("\"", "", None)

  /** The row written for `QuoteLog`: the timestamp's quote sits unescaped between the field quotes. */
  lemma QuoteLogRow()
    ensures Join(RowFields(QuoteLog), ",") == "\"\"\",\"\",\"\""
  {
    assert DoubleQuotes("") == "" && SpacesForNewlines("") == "";
    assert Quoted("\"") == "\"\"\"" && Quoted("") == "\"\"";
    assert RowFields(QuoteLog) == ["\"\"\"", "\"\"", "\"\""];
    JoinThree("\"\"\"", "\"\"", "\"\"", "");
    var row := Join(RowFields(QuoteLog), ",");
    assert row + "" == row;
  }

  /**
   * The timestamp is not escaped: exporting one log whose timestamp is a
   * double quote gives a row whose first field is never closed, and the file
   * no longer reads.
   */
  lemma UnescapedTimestampBreaksCsv()
    ensures ExportCsv([QuoteLog]).Some?
    ensures ParseCsv(ExportCsv([QuoteLog]).value) == None
  {
    var row := "\"\"\",\"\",\"\"";
    QuoteLogRow();
    RowsTextOne([QuoteLog]);
    UnclosedRow();
    var rest := Crlf + row;
    HeaderRoundTrip(rest);
    assert ExportCsv([QuoteLog]).value == Join(HeaderFields, ",") + rest;
    assert rest[..2] == Crlf && rest[2..] == row;
  }

  /** The row written for a timestamp of one double quote: its first field is never closed. */
  lemma UnclosedRow()
    ensures ParseRecord("\"\"\",\"\",\"\"") == None
  {
    assert ParseEscaped("") == None;
    assert ParseEscaped("\"\"") == None;
    assert ParseEscaped(",\"\"") == None;
    assert ParseEscaped("\"\",\"\"") == None;
    assert ParseEscaped(",\"\",\"\"") == None;
    assert ParseEscaped("\"\",\"\",\"\"") == None;
  }
}
