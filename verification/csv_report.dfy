/**
 * The CSV report (vulnllm/reporting/csv_report.py): a header row, then one row per
 * finding that is not a parser error, each written by Python's csv.writer with its
 * default dialect (comma delimiter, '"' quote character doubled inside quoted fields,
 * QUOTE_MINIMAL, "\r\n" after every row).
 *
 * The partner of the writer is a reader: `ParseFile` recovers every row the writer wrote,
 * field for field (`FileRoundTrip`).
 */
module CsvReport {
  import opened Wrappers
  import opened Text
  import opened FindingModel
  import opened Summary

  const Columns: seq<string> := ["File", "Start line", "End line", "Vulnerability type", "Severity", "Confidence"]

  const Terminator: string := "\r\n"

  /** repr(float): how a confidence prints; not part of this model. */
  type FloatRepr = real -> string

  // ================================================================ the writer

  /** A character QUOTE_MINIMAL must quote a field for. */
  predicate Special(c: char) { c == ',' || c == '"' || c == '\r' || c == '\n' }

  predicate NeedsQuotes(field: string)
  {
    exists i :: 0 <= i < |field| && Special(field[i])
  }

  /** Every '"' doubled. */
  function Escape(s: string): (r: string)
    ensures |r| >= |s|
  {
    if s == [] then [] else (if s[0] == '"' then "\"\"" else [s[0]]) + Escape(s[1..])
  }

  /** One field as csv.writer writes it. */
  function EncodeField(field: string): string
  {
    if NeedsQuotes(field) then "\"" + Escape(field) + "\"" else field
  }

  function EncodeFields(fields: seq<string>): (r: seq<string>)
    ensures |r| == |fields|
  {
    if fields == [] then [] else [EncodeField(fields[0])] + EncodeFields(fields[1..])
  }

  /** csv.writer(f).writerow(fields) */
  function EncodeRow(fields: seq<string>): string
  {
    Join(EncodeFields(fields), ",") + Terminator
  }

  /** Rows written one after another. */
  function EncodeRows(rows: seq<seq<string>>): string
  {
    if rows == [] then "" else EncodeRows(rows[..|rows| - 1]) + EncodeRow(rows[|rows| - 1])
  }

  /** The row append_csv_finding writes; integers print in decimal. */
  function RowOf(item: Finding, repr: FloatRepr): seq<string>
  {
    [item.file, IntString(item.startLine), IntString(item.endLine), item.vulnerabilityType, item.severity,
     repr(item.confidence)]
  }

  /** The rows after the header: one per finding that is not a parser error, in order. */
  function ReportRows(findings: seq<Finding>, repr: FloatRepr): (rows: seq<seq<string>>)
    ensures |rows| <= |findings|
    ensures forall k :: 0 <= k < |rows| ==> |rows[k]| == |Columns|
  {
    if findings == [] then []
    else
      var front := ReportRows(findings[..|findings| - 1], repr);
      var last := findings[|findings| - 1];
      if Counted(last) then front + [RowOf(last, repr)] else front
  }

  // ================================================================ the report file

  /**
   * The CSV report file, held as the rows written to it so far; `Content` is its text.
   */
  class CsvReportFile {
    var rows: seq<seq<string>>

    function Content(): string
      reads this
    {
      EncodeRows(rows)
    }

    constructor ()
      ensures rows == [] && Content() == ""
    {
      rows := [];
    }

    /** init_csv_report: the file holds the header row only. */
    method Init()
      modifies this
      ensures rows == [Columns]
    {
      rows := [Columns];
    }

    /** append_csv_finding: a parser error adds nothing; any other finding adds its row at the end. */
    method AppendFinding(item: Finding, repr: FloatRepr)
      modifies this
      ensures !Counted(item) ==> rows == old(rows)
      ensures Counted(item) ==> rows == old(rows) + [RowOf(item, repr)]
    {
      if item.vulnerabilityType == "ParserError" {
        return;
      }
      rows := rows + [RowOf(item, repr)];
    }

    /** write_csv_report: the header, then one row per finding that is not a parser error. */
    method WriteReport(findings: seq<Finding>, repr: FloatRepr)
      modifies this
      ensures rows == [Columns] + ReportRows(findings, repr)
    {
      Init();
      assert findings[..0] == [];
      for i := 0 to |findings|
        invariant rows == [Columns] + ReportRows(findings[..i], repr)
      {
        ReportRowsStep(findings, i, repr);
        AppendFinding(findings[i], repr);
      }
      assert findings[..|findings|] == findings;
    }
  }

  /** After init_csv_report the text is the header line. */
  lemma InitContent()
    ensures EncodeRows([Columns]) == EncodeRow(Columns)
  {
    EncodeRowsSnoc([], Columns);
  }

  // ================================================================ the reader

  /**
   * The rest of a quoted field, after its opening quote: the field's text and what follows
   * the closing quote; "" stands for one '"'.
   */
  function ParseQuoted(s: string): (r: Option<(string, string)>)
    ensures r.Some? ==> |r.value.1| < |s|
    decreases |s|
  {
    if s == [] then None
    else if s[0] == '"' then
      if |s| >= 2 && s[1] == '"' then
        match ParseQuoted(s[2..])
        case None => None
        case Some(p) => Some(("\"" + p.0, p.1))
      else Some(("", s[1..]))
    else
      match ParseQuoted(s[1..])
      case None => None
      case Some(p) => Some(([s[0]] + p.0, p.1))
  }

  /** An unquoted field: everything up to the next ',' or '\r'. */
  function ParseUnquoted(s: string): (r: (string, string))
    ensures |r.1| <= |s|
    ensures r.1 == [] || r.1[0] == ',' || r.1[0] == '\r'
  {
    if s == [] || s[0] == ',' || s[0] == '\r' then ("", s)
    else
      var p := ParseUnquoted(s[1..]);
      ([s[0]] + p.0, p.1)
  }

  function ParseField(s: string): (r: Option<(string, string)>)
    ensures r.Some? ==> |r.value.1| <= |s|
  {
    if |s| > 0 && s[0] == '"' then ParseQuoted(s[1..]) else Some(ParseUnquoted(s))
  }

  /** One record: fields separated by ',' and ended by "\r\n"; the record and what follows it. */
  function ParseRecord(s: string): (r: Option<(seq<string>, string)>)
    ensures r.Some? ==> |r.value.1| < |s| && r.value.0 != []
    decreases |s|
  {
    match ParseField(s)
    case None => None
    case Some(p) =>
      var rest := p.1;
      if |rest| >= 1 && rest[0] == ',' then
        match ParseRecord(rest[1..])
        case None => None
        case Some(q) => Some(([p.0] + q.0, q.1))
      else if |rest| >= 2 && rest[..2] == Terminator then Some(([p.0], rest[2..]))
      else None
  }

  /** Every record of a file, in order. */
  function ParseFile(s: string): Option<seq<seq<string>>>
    decreases |s|
  {
    if s == [] then Some([])
    else
      match ParseRecord(s)
      case None => None
      case Some(p) =>
        match ParseFile(p.1)
        case None => None
        case Some(rest) => Some([p.0] + rest)
  }

  // ================================================================ the round trip

  lemma {:induction false} QuotedRoundTrip(field: string, t: string)
    requires t == [] || t[0] != '"'
    ensures ParseQuoted(Escape(field) + "\"" + t) == Some((field, t))
    decreases |field|
  {
    if field == [] {
      assert Escape(field) + "\"" + t == "\"" + t;
      if |t| >= 1 {
        assert ("\"" + t)[1] == t[0];
      }
    } else {
      QuotedRoundTrip(field[1..], t);
      QuotedStep(field, Escape(field[1..]) + "\"" + t, t);
    }
  }

  /** Reading one escaped character, given that the rest of the field reads back. */
  lemma QuotedStep(field: string, more: string, t: string)
    requires field != [] && more == Escape(field[1..]) + "\"" + t
    requires ParseQuoted(more) == Some((field[1..], t))
    ensures ParseQuoted(Escape(field) + "\"" + t) == Some((field, t))
  {
    var c := if field[0] == '"' then "\"\"" else [field[0]];
    assert Escape(field) + "\"" + t == c + more;
    assert (c + more)[|c|..] == more;
    assert c + field[1..] == field || field[0] == '"';
    if field[0] == '"' {
      assert (c + more)[1] == '"';
      assert "\"" + field[1..] == field;
    } else {
      assert [field[0]] + field[1..] == field;
    }
  }

  lemma {:induction false} UnquotedRoundTrip(field: string, t: string)
    requires !NeedsQuotes(field)
    requires t == [] || t[0] == ',' || t[0] == '\r'
    ensures ParseUnquoted(field + t) == (field, t)
    decreases |field|
  {
    if field != [] {
      assert !Special(field[0]);
      assert !NeedsQuotes(field[1..]) by {
        forall i | 0 <= i < |field[1..]| ensures !Special(field[1..][i]) {
          assert field[1..][i] == field[i + 1];
        }
      }
      UnquotedRoundTrip(field[1..], t);
      assert (field + t)[1..] == field[1..] + t;
      assert [field[0]] + field[1..] == field;
    } else {
      assert field + t == t;
    }
  }

  /** A field the writer wrote reads back as itself, when a ',' or the row's end follows it. */
  lemma FieldRoundTrip(field: string, t: string)
    requires |t| >= 1 && (t[0] == ',' || t[0] == '\r')
    ensures ParseField(EncodeField(field) + t) == Some((field, t))
  {
    if NeedsQuotes(field) {
      QuotedRoundTrip(field, t);
      var s := "\"" + Escape(field) + "\"" + t;
      assert s[1..] == Escape(field) + "\"" + t;
    } else {
      UnquotedRoundTrip(field, t);
      if field == [] {
        assert field + t == t;
      } else {
        assert (field + t)[0] == field[0];
        assert !Special(field[0]);
      }
    }
  }

  /** A row the writer wrote reads back as itself, and reading stops right after it. */
  lemma {:induction false} RecordRoundTrip(fields: seq<string>, t: string)
    requires fields != []
    ensures ParseRecord(EncodeRow(fields) + t) == Some((fields, t))
    decreases |fields|
  {
    if |fields| == 1 {
      RecordLast(fields, t);
    } else {
      RecordRoundTrip(fields[1..], t);
      RecordStep(fields, t);
    }
  }

  /** A row of one field. */
  lemma RecordLast(fields: seq<string>, t: string)
    requires |fields| == 1
    ensures ParseRecord(EncodeRow(fields) + t) == Some((fields, t))
  {
    var head := EncodeField(fields[0]);
    assert EncodeFields(fields) == [head];
    ConcatAssoc(head, Terminator, t);
    FieldRoundTrip(fields[0], Terminator + t);
    assert (Terminator + t)[..2] == Terminator;
    assert (Terminator + t)[2..] == t;
    assert fields == [fields[0]];
  }

  /** A row of two fields or more, given that the row without its first field reads back. */
  lemma RecordStep(fields: seq<string>, t: string)
    requires |fields| >= 2
    requires ParseRecord(EncodeRow(fields[1..]) + t) == Some((fields[1..], t))
    ensures ParseRecord(EncodeRow(fields) + t) == Some((fields, t))
  {
    var head := EncodeField(fields[0]);
    var tail := Join(EncodeFields(fields[1..]), ",");
    var more := EncodeRow(fields[1..]) + t;
    assert EncodeFields(fields)[1..] == EncodeFields(fields[1..]);
    assert Join(EncodeFields(fields), ",") == head + "," + tail;
    ConcatAssoc5(head, ",", tail, Terminator, t);
    FieldRoundTrip(fields[0], "," + more);
    assert ("," + more)[1..] == more;
    assert [fields[0]] + fields[1..] == fields;
  }

  /** Reading a file of written rows gives back the rows, in order. */
  lemma {:induction false} FileRoundTrip(rows: seq<seq<string>>)
    requires forall k :: 0 <= k < |rows| ==> rows[k] != []
    ensures ParseFile(EncodeRows(rows)) == Some(rows)
    decreases |rows|
  {
    if rows != [] {
      var rest := EncodeRows(rows[1..]);
      EncodeRowsCons(rows);
      RecordRoundTrip(rows[0], rest);
      FileRoundTrip(rows[1..]);
      assert [rows[0]] + rows[1..] == rows;
    }
  }

  /** The first row written comes first in the file. */
  lemma {:induction false} EncodeRowsCons(rows: seq<seq<string>>)
    requires rows != []
    ensures EncodeRows(rows) == EncodeRow(rows[0]) + EncodeRows(rows[1..])
    decreases |rows|
  {
    var n := |rows|;
    if n == 1 {
      assert rows[..0] == [] && rows[1..] == [];
      assert EncodeRows(rows) == EncodeRows([]) + EncodeRow(rows[0]);
    } else {
      var front, last := rows[..n - 1], rows[n - 1];
      assert EncodeRows(rows) == EncodeRows(front) + EncodeRow(last);
      EncodeRowsCons(front);
      assert front[0] == rows[0];
      assert rows[1..] == front[1..] + [last];
      EncodeRowsSnoc(front[1..], last);
      assert EncodeRows(rows[1..]) == EncodeRows(front[1..]) + EncodeRow(last);
      ConcatAssoc(EncodeRow(rows[0]), EncodeRows(front[1..]), EncodeRow(last));
    }
  }

  lemma ConcatAssoc5(a: string, b: string, c: string, d: string, e: string)
    ensures a + b + c + d + e == a + (b + (c + d + e))
  {
  }

  /** A row appended to the file comes last. */
  lemma EncodeRowsSnoc(rows: seq<seq<string>>, row: seq<string>)
    ensures EncodeRows(rows + [row]) == EncodeRows(rows) + EncodeRow(row)
  {
    assert (rows + [row])[..|rows|] == rows;
  }

  /** One turn of write_csv_report's loop: a finding adds its row unless it is a parser error. */
  lemma ReportRowsStep(findings: seq<Finding>, i: nat, repr: FloatRepr)
    requires i < |findings|
    ensures ReportRows(findings[..i + 1], repr) ==
            ReportRows(findings[..i], repr) + (if Counted(findings[i]) then [RowOf(findings[i], repr)] else [])
  {
    assert findings[..i + 1][..i] == findings[..i];
  }

  /** What write_csv_report leaves reads back as the header and one row per listed finding. */
  lemma ReportRoundTrip(findings: seq<Finding>, repr: FloatRepr)
    ensures ParseFile(EncodeRows([Columns] + ReportRows(findings, repr))) == Some([Columns] + ReportRows(findings, repr))
  {
    var rows := [Columns] + ReportRows(findings, repr);
    assert forall k :: 0 <= k < |rows| ==> |rows[k]| == 6;
    FileRoundTrip(rows);
  }

  /** The CSV lists exactly as many findings as the summary's total. */
  lemma {:induction false} ReportRowsCount(findings: seq<Finding>, repr: FloatRepr)
    ensures |ReportRows(findings, repr)| == BuildSummary(findings).total
    decreases |findings|
  {
    if findings != [] {
      ReportRowsCount(findings[..|findings| - 1], repr);
    }
  }
}
