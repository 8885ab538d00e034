/**
 * The Markdown report (vulnllm/reporting/markdown_report.py): an executive summary, a
 * table with one row per finding, then one section per finding; ParserError placeholders
 * are left out of both the table and the sections. The lines are joined with "\n",
 * trailing whitespace is cut and a single "\n" ends the text.
 */
module MarkdownReport {
  import opened Wrappers
  import opened Text
  import opened FindingModel
  import opened Summary
  import opened Config

  /** f"{x:.2f}": how a confidence prints; not part of this model. */
  type Fixed2 = real -> string

  /** Python's `s or d` on a string: the default when s is empty. */
  function OrElse(s: string, d: string): (r: string)
    ensures s != "" ==> r == s
    ensures s == "" ==> r == d
  {
    if s == "" then d else s
  }

  /** `f.function or 'N/A'` */
  function FunctionText(name: Option<string>): (r: string)
    ensures r != ""
    ensures name.Some? && name.value != "" ==> r == name.value
  {
    match name
    case None => "N/A"
    case Some(n) => OrElse(n, "N/A")
  }

  // ================================================================ the listed findings

  /** The findings the report lists: every one but the ParserError placeholders, in order. */
  function Listed(fs: seq<Finding>): (ls: seq<Finding>)
    ensures |ls| <= |fs|
    ensures forall k :: 0 <= k < |ls| ==> Counted(ls[k])
  {
    if fs == [] then []
    else
      var front := Listed(fs[..|fs| - 1]);
      if Counted(fs[|fs| - 1]) then front + [fs[|fs| - 1]] else front
  }

  /** The report lists as many findings as the summary's total. */
  lemma {:induction false} ListedCount(fs: seq<Finding>)
    ensures |Listed(fs)| == BuildSummary(fs).total
    decreases |fs|
  {
    if fs != [] {
      ListedCount(fs[..|fs| - 1]);
    }
  }

  /** A finding is listed exactly when it is one of the findings and not a ParserError placeholder. */
  lemma {:induction false} ListedMembers(fs: seq<Finding>, f: Finding)
    ensures f in Listed(fs) <==> f in fs && Counted(f)
    decreases |fs|
  {
    if fs != [] {
      var front := fs[..|fs| - 1];
      ListedMembers(front, f);
      assert fs == front + [fs[|fs| - 1]];
    }
  }

  lemma ListedSnoc(fs: seq<Finding>, i: nat)
    requires i < |fs|
    ensures Listed(fs[..i + 1]) == Listed(fs[..i]) + (if Counted(fs[i]) then [fs[i]] else [])
  {
    assert fs[..i + 1][..i] == fs[..i];
  }

  // ================================================================ the lines

  function TotalLine(total: nat): string
  {
    "- Total Findings: **" + IntString(total) + "**"
  }

  /** The title, the executive summary and the table's heading. */
  function Opening(mode: string, s: Summary): (lines: seq<string>)
    ensures |lines| == 15
  {
    ["# VulnLLM Scan Report",
     "",
     "## Executive Summary",
     "",
     "- Mode: `" + mode + "`",
     TotalLine(s.total),
     "- Critical: " + IntString(s.critical),
     "- High: " + IntString(s.high),
     "- Medium: " + IntString(s.medium),
     "- Low: " + IntString(s.low),
     "",
     "## Findings Table",
     "",
     "| ID | File | Lines | Type | Severity | Confidence |",
     "|---|---|---:|---|---|---:|"]
  }

  function LineRange(f: Finding): string
  {
    IntString(f.startLine) + "-" + IntString(f.endLine)
  }

  /** One row of the findings table. */
  function TableRow(f: Finding, fixed2: Fixed2): string
  {
    "| " + f.id + " | " + f.file + " | " + LineRange(f) + " | " + f.vulnerabilityType + " | " + f.severity +
    " | " + fixed2(f.confidence) + " |"
  }

  /** One table row per finding, in order. */
  function TableRows(ls: seq<Finding>, fixed2: Fixed2): (rows: seq<string>)
    ensures |rows| == |ls|
  {
    if ls == [] then [] else TableRows(ls[..|ls| - 1], fixed2) + [TableRow(ls[|ls| - 1], fixed2)]
  }

  const DetailsHeading: seq<string> := ["", "## Detailed Findings", ""]

  /** The heading, location, scoring and description of one finding's section. */
  function DetailHead(f: Finding, fixed2: Fixed2): (lines: seq<string>)
    ensures |lines| == 12
  {
    ["### " + f.id + " - " + f.vulnerabilityType,
     "",
     "- File: `" + f.file + "`",
     "- Lines: `" + LineRange(f) + "`",
     "- Function: `" + FunctionText(f.funcName) + "`",
     "- Severity: `" + f.severity + "`",
     "- Confidence: `" + fixed2(f.confidence) + "`",
     "",
     "Description:",
     "",
     OrElse(f.description, "(none)"),
     ""]
  }

  function ReasoningPart(f: Finding): seq<string>
  {
    ["Reasoning:", "", "```text", OrElse(f.reasoning, "(none)"), "```", ""]
  }

  function ReferencesPart(f: Finding): seq<string>
  {
    ["References:", "", Join(f.references, ", "), ""]
  }

  function RecommendationPart(f: Finding): seq<string>
  {
    ["Recommendation:", "", f.recommendation, ""]
  }

  /** One finding's section. */
  function DetailBlock(f: Finding, includeReasoning: bool, fixed2: Fixed2): seq<string>
  {
    var head := DetailHead(f, fixed2);
    var reasoned := if includeReasoning then head + ReasoningPart(f) else head;
    var referenced := if f.references != [] then reasoned + ReferencesPart(f) else reasoned;
    if f.recommendation != "" then referenced + RecommendationPart(f) else referenced
  }

  /** The sections of the findings, one after another. */
  function DetailLines(ls: seq<Finding>, includeReasoning: bool, fixed2: Fixed2): seq<string>
  {
    if ls == [] then []
    else DetailLines(ls[..|ls| - 1], includeReasoning, fixed2) + DetailBlock(ls[|ls| - 1], includeReasoning, fixed2)
  }

  /** Every line of the report, before the join. */
  function ReportLines(cfg: Config, fs: seq<Finding>, includeReasoning: bool, fixed2: Fixed2): seq<string>
  {
    var ls := Listed(fs);
    Opening(cfg.scan.mode, BuildSummary(fs)) + TableRows(ls, fixed2) + DetailsHeading +
    DetailLines(ls, includeReasoning, fixed2)
  }

  /** write_markdown_report: the text written to the file. */
  method WriteMarkdownReport(cfg: Config, findings: seq<Finding>, includeReasoning: bool, fixed2: Fixed2)
    returns (text: string)
    ensures text == TrimmedJoin(ReportLines(cfg, findings, includeReasoning, fixed2))
  {
    var summary := BuildSummary(findings);
    var lines := Opening(cfg.scan.mode, summary);
    lines := AppendTableRows(lines, findings, fixed2);
    lines := lines + DetailsHeading;
    lines := AppendDetails(lines, findings, includeReasoning, fixed2);
    text := RStrip(Join(lines, "\n")) + "\n";
  }

  /** The table loop: one row per finding that is not a ParserError placeholder. */
  method AppendTableRows(head: seq<string>, findings: seq<Finding>, fixed2: Fixed2) returns (lines: seq<string>)
    ensures lines == head + TableRows(Listed(findings), fixed2)
  {
    lines := head;
    assert findings[..0] == [];
    AppendEmpty(head);
    for i := 0 to |findings|
      invariant lines == head + TableRows(Listed(findings[..i]), fixed2)
    {
      TableStep(head, findings, i, fixed2);
      if findings[i].vulnerabilityType == "ParserError" {
        continue;
      }
      lines := lines + [TableRow(findings[i], fixed2)];
    }
    assert findings[..|findings|] == findings;
  }

  /** The sections loop: one section per finding that is not a ParserError placeholder. */
  method AppendDetails(head: seq<string>, findings: seq<Finding>, includeReasoning: bool, fixed2: Fixed2)
    returns (lines: seq<string>)
    ensures lines == head + DetailLines(Listed(findings), includeReasoning, fixed2)
  {
    lines := head;
    assert findings[..0] == [];
    AppendEmpty(head);
    for i := 0 to |findings|
      invariant lines == head + DetailLines(Listed(findings[..i]), includeReasoning, fixed2)
    {
      DetailStep(head, findings, i, includeReasoning, fixed2);
      if findings[i].vulnerabilityType == "ParserError" {
        continue;
      }
      var block := BuildDetailBlock(findings[i], includeReasoning, fixed2);
      lines := lines + block;
    }
    assert findings[..|findings|] == findings;
  }

  /** One finding's section, extended part by part as the loop body does. */
  method BuildDetailBlock(f: Finding, includeReasoning: bool, fixed2: Fixed2) returns (block: seq<string>)
    ensures block == DetailBlock(f, includeReasoning, fixed2)
  {
    block := DetailHead(f, fixed2);
    if includeReasoning {
      block := block + ReasoningPart(f);
    }
    if f.references != [] {
      block := block + ReferencesPart(f);
    }
    if f.recommendation != "" {
      block := block + RecommendationPart(f);
    }
  }

  // ================================================================ properties

  /**
   * A finding's section: the heading names the finding, a missing function reads "N/A",
   * an empty description "(none)"; the reasoning part is there exactly when reasoning is
   * included, and references and recommendation only when the finding has them.
   */
  lemma DetailBlockLayout(f: Finding, includeReasoning: bool, fixed2: Fixed2)
    ensures var b := DetailBlock(f, includeReasoning, fixed2);
            var r := if includeReasoning then 6 else 0;
            var n := if f.references != [] then 4 else 0;
            |b| == 12 + r + n + (if f.recommendation != "" then 4 else 0) &&
            b[0] == "### " + f.id + " - " + f.vulnerabilityType &&
            b[4] == "- Function: `" + FunctionText(f.funcName) + "`" &&
            b[10] == OrElse(f.description, "(none)") &&
            ((|b| > 12 && b[12] == "Reasoning:") <==> includeReasoning) &&
            (includeReasoning ==> b[15] == OrElse(f.reasoning, "(none)")) &&
            (f.references != [] ==> b[12 + r] == "References:" && b[14 + r] == Join(f.references, ", ")) &&
            (f.recommendation != "" ==> b[|b| - 4] == "Recommendation:" && b[|b| - 2] == f.recommendation)
  {
    var h := DetailHead(f, fixed2);
    var x := if includeReasoning then h + ReasoningPart(f) else h;
    var y := if f.references != [] then x + ReferencesPart(f) else x;
    var b := DetailBlock(f, includeReasoning, fixed2);
    assert b == if f.recommendation != "" then y + RecommendationPart(f) else y;
    assert forall k :: 0 <= k < |h| ==> x[k] == h[k];
    assert forall k :: 0 <= k < |x| ==> y[k] == x[k];
    assert forall k :: 0 <= k < |y| ==> b[k] == y[k];
  }

  /** The Markdown text opens with the report title and ends in exactly one line break. */
  lemma ReportTextShape(cfg: Config, fs: seq<Finding>, includeReasoning: bool, fixed2: Fixed2)
    ensures var t := TrimmedJoin(ReportLines(cfg, fs, includeReasoning, fixed2));
            |t| > 21 && t[..21] == "# VulnLLM Scan Report" && t[|t| - 1] == '\n' && !IsSpace(t[|t| - 2])
  {
    var lines := ReportLines(cfg, fs, includeReasoning, fixed2);
    assert lines[0] == "# VulnLLM Scan Report";
    TrimmedJoinShape(lines);
  }

  /**
   * The executive summary's total is the number of table rows: right after the 15 opening
   * lines come the table's rows, one per listed finding in order, then the
   * "Detailed Findings" heading.
   */
  lemma ReportTable(cfg: Config, fs: seq<Finding>, includeReasoning: bool, fixed2: Fixed2)
    ensures var lines, s, ls := ReportLines(cfg, fs, includeReasoning, fixed2), BuildSummary(fs), Listed(fs);
            |ls| == s.total && |lines| >= 18 + s.total &&
            lines[5] == TotalLine(s.total) &&
            lines[15..15 + s.total] == TableRows(ls, fixed2) &&
            lines[16 + s.total] == "## Detailed Findings"
  {
    ListedCount(fs);
    var ls := Listed(fs);
    var open := Opening(cfg.scan.mode, BuildSummary(fs));
    var rows := TableRows(ls, fixed2);
    var rest := DetailLines(ls, includeReasoning, fixed2);
    assert ReportLines(cfg, fs, includeReasoning, fixed2) == open + rows + DetailsHeading + rest;
    Sections(open, rows, DetailsHeading, rest);
    OpeningTotal(cfg.scan.mode, BuildSummary(fs));
  }

  lemma OpeningTotal(mode: string, s: Summary)
    ensures Opening(mode, s)[5] == TotalLine(s.total)
  {
  }

  /** Where each part of the report's lines sits once they are put together. */
  lemma Sections(open: seq<string>, rows: seq<string>, heading: seq<string>, rest: seq<string>)
    requires |open| == 15 && |heading| == 3
    ensures var lines := open + rows + heading + rest;
            |lines| >= 18 + |rows| && lines[5] == open[5] &&
            lines[15..15 + |rows|] == rows &&
            lines[16 + |rows|] == heading[1]
  {
    var lines := open + rows + heading + rest;
    assert lines[15..15 + |rows|] == (open + rows)[15..];
  }

  /** One turn of the table loop: a finding adds its row unless it is a ParserError placeholder. */
  lemma TableStep(head: seq<string>, fs: seq<Finding>, i: nat, fixed2: Fixed2)
    requires i < |fs|
    ensures head + TableRows(Listed(fs[..i + 1]), fixed2) ==
            head + TableRows(Listed(fs[..i]), fixed2) + (if Counted(fs[i]) then [TableRow(fs[i], fixed2)] else [])
  {
    ListedSnoc(fs, i);
    var ls := Listed(fs[..i]);
    if Counted(fs[i]) {
      assert (ls + [fs[i]])[..|ls|] == ls;
      AppendAssoc(head, TableRows(ls, fixed2), [TableRow(fs[i], fixed2)]);
    } else {
      AppendEmpty(ls);
      AppendEmpty(head + TableRows(ls, fixed2));
    }
  }

  /** One turn of the sections loop: a finding adds its section unless it is a ParserError placeholder. */
  lemma DetailStep(head: seq<string>, fs: seq<Finding>, i: nat, includeReasoning: bool, fixed2: Fixed2)
    requires i < |fs|
    ensures head + DetailLines(Listed(fs[..i + 1]), includeReasoning, fixed2) ==
            head + DetailLines(Listed(fs[..i]), includeReasoning, fixed2) +
            (if Counted(fs[i]) then DetailBlock(fs[i], includeReasoning, fixed2) else [])
  {
    ListedSnoc(fs, i);
    var ls := Listed(fs[..i]);
    if Counted(fs[i]) {
      assert (ls + [fs[i]])[..|ls|] == ls;
      AppendAssoc(head, DetailLines(ls, includeReasoning, fixed2), DetailBlock(fs[i], includeReasoning, fixed2));
    } else {
      AppendEmpty(ls);
      AppendEmpty(head + DetailLines(ls, includeReasoning, fixed2));
    }
  }

  lemma AppendAssoc<T>(a: seq<T>, b: seq<T>, c: seq<T>)
    ensures a + (b + c) == a + b + c
  {
  }

  lemma AppendEmpty<T>(a: seq<T>)
    ensures a + [] == a
  {
  }
}
