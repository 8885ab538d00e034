/**
 * The incremental JSON report (vulnllm/reporting/json_report.py). The report file is
 * opened with a header, grows one finding at a time, and is finalised with a summary
 * block; appending after finalising first cuts the summary off again. Every step is
 * surgery on the tail of the file's text.
 *
 * json.dumps(..., indent=2) is a parameter (`Dumps`). What the writer relies on about
 * its output for a dict is stated once, as `DictLayout`: at least one line, the last
 * line ending in '}', and no line starting with ']'.
 */
module JsonReport {
  import opened Wrappers
  import opened Text
  import opened PyValue
  import opened FindingModel
  import opened Summary
  import opened Config

  /** json.dumps(value, indent=2) */
  type Dumps = Value -> string

  predicate EndsWithBrace(l: string) { |l| >= 1 && l[|l| - 1] == '}' }

  predicate StartsWithBracket(l: string) { |l| >= 1 && l[0] == ']' }

  /** The shape of json.dumps(d, indent=2) for a dict d. */
  ghost predicate DictLayout(text: string)
  {
    var ls := SplitLines(text);
    ls != [] && EndsWithBrace(ls[|ls| - 1]) && forall k :: 0 <= k < |ls| ==> !StartsWithBracket(ls[k])
  }

  ghost predicate DumpsDicts(dumps: Dumps)
  {
    forall v: Value :: v.VDict? ==> DictLayout(dumps(v))
  }

  // ================================================================ items

  function Opt(s: Option<string>): Value
  {
    if s.Some? then VStr(s.value) else VNone
  }

  function StrList(xs: seq<string>): (r: seq<Value>)
    ensures |r| == |xs|
  {
    seq(|xs|, i requires 0 <= i < |xs| => VStr(xs[i]))
  }

  /** The keys _finding_to_json_item always writes, in order, with the finding's values. */
  function ItemEntries(f: Finding): seq<(string, Value)>
  {
    [("id", VStr(f.id)), ("file", VStr(f.file)), ("start_line", VInt(f.startLine)), ("end_line", VInt(f.endLine)),
     ("function", Opt(f.funcName)), ("vulnerability_type", VStr(f.vulnerabilityType)),
     ("severity", VStr(f.severity)), ("confidence", VFloat(f.confidence)), ("description", VStr(f.description)),
     ("claim", VStr(f.claim)), ("precondition", VStr(f.precondition)),
     ("where_precondition_is_enforced", VStr(f.wherePreconditionIsEnforced)),
     ("trigger_path", VStr(f.triggerPath)), ("exploitability", VStr(f.exploitability)),
     ("contract_breach_evidence", VBool(f.contractBreachEvidence)), ("analysis_mode", VStr(f.analysisMode)),
     ("evidence_spans", f.evidenceSpans), ("requires_caller_violation", VBool(f.requiresCallerViolation)),
     ("context_sufficiency", VStr(f.contextSufficiency)), ("references", VList(StrList(f.references))),
     ("recommendation", VStr(f.recommendation))]
  }

  /** _finding_to_json_item: "reasoning" only when asked for, "parse_error" only when it is a non-empty string. */
  function FindingItem(f: Finding, includeReasoning: bool): (item: Value)
    ensures item.VDict?
  {
    var withReasoning := if includeReasoning then ItemEntries(f) + [("reasoning", VStr(f.reasoning))] else ItemEntries(f);
    var entries := if f.parseError.Some? && f.parseError.value != "" then withReasoning + [("parse_error", VStr(f.parseError.value))]
                   else withReasoning;
    VDict(entries)
  }

  /** Which optional keys a finding's item carries, and the values of the ones looked up by key. */
  lemma FindingItemKeys(f: Finding, includeReasoning: bool)
    ensures var e := FindingItem(f, includeReasoning).entries;
            (HasKey(e, "reasoning") <==> includeReasoning) &&
            (HasKey(e, "parse_error") <==> f.parseError.Some? && f.parseError.value != "") &&
            Get(e, "id") == Some(VStr(f.id)) && Get(e, "file") == Some(VStr(f.file)) &&
            (includeReasoning ==> Get(e, "reasoning") == Some(VStr(f.reasoning)))
  {
    ItemKeys(ItemEntries(f), includeReasoning, f);
  }

  lemma ItemKeys(base: seq<(string, Value)>, includeReasoning: bool, f: Finding)
    requires |base| == 21 && base[0] == ("id", VStr(f.id)) && base[1] == ("file", VStr(f.file))
    requires forall i :: 0 <= i < |base| ==> base[i].0 != "reasoning" && base[i].0 != "parse_error"
    requires forall i :: 1 <= i < |base| ==> base[i].0 != "id"
    requires forall i :: 2 <= i < |base| ==> base[i].0 != "file"
    ensures var w := if includeReasoning then base + [("reasoning", VStr(f.reasoning))] else base;
            var e := if f.parseError.Some? && f.parseError.value != "" then w + [("parse_error", VStr(f.parseError.value))] else w;
            (HasKey(e, "reasoning") <==> includeReasoning) &&
            (HasKey(e, "parse_error") <==> f.parseError.Some? && f.parseError.value != "") &&
            Get(e, "id") == Some(VStr(f.id)) && Get(e, "file") == Some(VStr(f.file)) &&
            (includeReasoning ==> Get(e, "reasoning") == Some(VStr(f.reasoning)))
  {
    var w := if includeReasoning then base + [("reasoning", VStr(f.reasoning))] else base;
    var e := if f.parseError.Some? && f.parseError.value != "" then w + [("parse_error", VStr(f.parseError.value))] else w;
    assert forall i :: 0 <= i < |base| ==> e[i] == base[i];
    assert forall i :: |base| <= i < |e| ==> e[i].0 == "reasoning" || e[i].0 == "parse_error";
    GetLastWins(e, "id", 0);
    GetLastWins(e, "file", 1);
    if includeReasoning {
      assert e[21].0 == "reasoning";
      GetLastWins(e, "reasoning", 21);
    }
    if f.parseError.Some? && f.parseError.value != "" {
      assert e[|e| - 1].0 == "parse_error";
    }
  }

  /** The summary dict build_summary returns. */
  function SummaryValue(s: Summary): Value
  {
    VDict([("total_findings", VInt(s.total)),
           ("by_severity", VDict([("critical", VInt(s.critical)), ("high", VInt(s.high)),
                                  ("medium", VInt(s.medium)), ("low", VInt(s.low))]))])
  }

  // ================================================================ text helpers

  /** A file written line by line: every line followed by "\n". */
  function Layout(lines: seq<string>): string
  {
    Join(lines, "\n") + "\n"
  }

  /** [prefix + line for line in lines] */
  function Prefixed(prefix: string, lines: seq<string>): (r: seq<string>)
    ensures |r| == |lines|
    ensures forall k :: 0 <= k < |lines| ==> r[k] == prefix + lines[k]
  {
    seq(|lines|, k requires 0 <= k < |lines| => prefix + lines[k])
  }

  /** _indent_lines */
  function IndentLines(text: string, spaces: nat): string
  {
    Join(Prefixed(Spaces(spaces), SplitLines(text)), "\n")
  }

  /**
   * The last byte that chr() does not make whitespace, as a one-character string; ""
   * when there is none.
   */
  function LastNonSpaceByte(data: seq<Byte>): (r: string)
    ensures |r| <= 1
    ensures r == "" <==> forall i :: 0 <= i < |data| ==> IsSpace(data[i] as char)
  {
    if data == [] then ""
    else if !IsSpace(data[|data| - 1] as char) then [data[|data| - 1] as char]
    else
      var front := data[..|data| - 1];
      assert forall i :: 0 <= i < |front| ==> front[i] == data[i];
      LastNonSpaceByte(front)
  }

  /** One more byte: it is the answer unless it is whitespace. */
  lemma LastNonSpaceByteStep(data: seq<Byte>, k: nat)
    requires k < |data|
    ensures LastNonSpaceByte(data[..k + 1]) ==
              if IsSpace(data[k] as char) then LastNonSpaceByte(data[..k]) else [data[k] as char]
  {
    assert data[..k + 1][..k] == data[..k];
  }

  /** What _last_non_whitespace_char returns for a file holding the text s, written as UTF-8. */
  function LastNonSpace(s: string): string
  {
    LastNonSpaceByte(Utf8(s))
  }

  /** Universal newlines, as read_text reads a file: "\r\n" and a lone "\r" become "\n". */
  function ReadText(s: string): (r: string)
    ensures |r| <= |s|
    ensures NoChar(s, '\r') ==> r == s
  {
    if s == [] then ""
    else if s[0] == '\r' then "\n" + ReadText(if |s| > 1 && s[1] == '\n' then s[2..] else s[1..])
    else
      assert NoChar(s, '\r') ==> NoChar(s[1..], '\r');
      [s[0]] + ReadText(s[1..])
  }

  const Marker: string := "\n  ],\n  \"summary\":"

  /**
   * _strip_final_summary_if_present: the file, read with universal newlines, is cut at
   * its last marker and written back; without a marker the file is left as it is.
   */
  function StripSummary(text: string): (r: string)
    ensures |r| <= |text|
    ensures NoChar(text, '\r') ==> r == text[..|r|]
  {
    var t := ReadText(text);
    var idx := RFind(t, Marker);
    if idx == -1 then text else t[..idx]
  }

  // ================================================================ the three writes

  /** json.dumps(scan_metadata, indent=2): the metadata of the scan, its timestamp given. */
  function Metadata(cfg: Config, timestamp: string, repoRoot: string, filesScanned: int, chunksAnalyzed: int): Value
  {
    VDict([("tool", VStr("vulnray")), ("model", Opt(cfg.inference.model)), ("mode", VStr(cfg.scan.mode)),
           ("timestamp", VStr(timestamp)), ("repo_root", VStr(repoRoot)),
           ("total_files_scanned", VInt(filesScanned)), ("total_chunks_analyzed", VInt(chunksAnalyzed))])
  }

  /** metadata_lines[1:-1] */
  function Inner(ls: seq<string>): (r: seq<string>)
    ensures |r| == if |ls| >= 2 then |ls| - 2 else 0
    ensures forall k :: 0 <= k < |r| ==> r[k] == ls[k + 1]
  {
    if |ls| >= 2 then ls[1..|ls| - 1] else []
  }

  /** The lines init_json_report writes. */
  function HeaderLines(metadataText: string): seq<string>
  {
    HeaderOf(SplitLines(metadataText))
  }

  /** The metadata's inner lines, re-indented inside the report's opening lines. */
  function HeaderOf(ls: seq<string>): seq<string>
  {
    ["{", "  \"scan_metadata\": {"] + Prefixed("  ", Inner(ls)) + ["  },", "  \"findings\": ["]
  }

  /** The lines of one finding, as append_json_finding writes them: indented by four. */
  function ItemLines(dumps: Dumps, f: Finding, includeReasoning: bool): seq<string>
  {
    Prefixed(Spaces(4), SplitLines(dumps(FindingItem(f, includeReasoning))))
  }

  /** The lines append_json_summary writes after the findings: the findings array closed, the "summary" key, the object closed. */
  function TailOf(ls: seq<string>): (t: seq<string>)
    requires ls != []
  {
    ["  ],", SummaryKey + ls[0]] + Prefixed("  ", ls[1..]) + ["}"]
  }

  const SummaryKey: string := "  \"summary\": "

  const LayoutError: string := "Invalid incremental JSON report layout: "

  /** append_json_finding on the file's text: the new text, or the ValueError's message. */
  function AppendFindingText(dumps: Dumps, path: string, text: string, f: Finding, includeReasoning: bool)
    : Result<string, string>
  {
    var s := StripSummary(text);
    var last := LastNonSpace(s);
    if last != "[" && last != "}" then Err(LayoutError + path)
    else Ok(s + (if last == "[" then "\n" else ",\n") + Join(ItemLines(dumps, f, includeReasoning), "\n") + "\n")
  }

  /** summary_lines[0] on an empty list */
  const IndexError: string := "list index out of range"

  /** append_json_summary on the file's text. */
  function AppendSummaryText(dumps: Dumps, path: string, text: string, findings: seq<Finding>): Result<string, string>
  {
    var s := StripSummary(text);
    var last := LastNonSpace(s);
    var summaryLines := SplitLines(dumps(SummaryValue(BuildSummary(findings))));
    if last != "[" && last != "}" then Err(LayoutError + path)
    else if summaryLines == [] then Err(IndexError)
    else Ok(s + "\n" + Join(TailOf(summaryLines), "\n") + "\n")
  }

  // ================================================================ the report file

  /** The loops that indent the lines of a json.dumps text: one line at a time. */
  method PrefixEach(prefix: string, lines: seq<string>) returns (out: seq<string>)
    ensures out == Prefixed(prefix, lines)
  {
    out := [];
    for i := 0 to |lines|
      invariant out == Prefixed(prefix, lines[..i])
    {
      assert Prefixed(prefix, lines[..i + 1]) == Prefixed(prefix, lines[..i]) + [prefix + lines[i]];
      out := out + [prefix + lines[i]];
    }
    assert lines[..|lines|] == lines;
  }

  /** The report file at `path`; `content` is its text. */
  class JsonReportFile {
    const path: string
    var content: string

    constructor (path: string, content: string)
      ensures this.path == path && this.content == content
    {
      this.path := path;
      this.content := content;
    }

    /** _last_non_whitespace_char: reads the file's bytes backwards, 4096 at a time. */
    method LastNonWhitespaceChar() returns (c: string)
      ensures c == LastNonSpace(content)
    {
      var data := Utf8(content);
      ghost var last := LastNonSpaceByte(data);
      var pos := |data|;
      assert data[..pos] == data;
      while pos > 0
        invariant 0 <= pos <= |data|
        invariant last == LastNonSpaceByte(data[..pos])
      {
        var size := if 4096 < pos then 4096 else pos;
        pos := pos - size;
        var chunk := data[pos..pos + size];
        var j := size;
        while j > 0
          invariant 0 <= j <= size
          invariant last == LastNonSpaceByte(data[..pos + j])
        {
          j := j - 1;
          LastNonSpaceByteStep(data, pos + j);
          if !IsSpace(chunk[j] as char) {
            return [chunk[j] as char];
          }
        }
      }
      assert data[..0] == [];
      return "";
    }

    /** _strip_final_summary_if_present */
    method StripFinalSummary()
      modifies this
      ensures content == StripSummary(old(content))
    {
      var text := ReadText(content);
      var idx := RFind(text, Marker);
      if idx == -1 {
        return;
      }
      content := text[..idx];
    }

    /** init_json_report, the metadata's json.dumps text given. */
    method Init(dumps: Dumps, cfg: Config, timestamp: string, repoRoot: string, filesScanned: int, chunksAnalyzed: int)
      modifies this
      ensures content == Layout(HeaderLines(dumps(Metadata(cfg, timestamp, repoRoot, filesScanned, chunksAnalyzed))))
    {
      var metadataLines := SplitLines(dumps(Metadata(cfg, timestamp, repoRoot, filesScanned, chunksAnalyzed)));
      var middle := PrefixEach("  ", Inner(metadataLines));
      var lines := ["{", "  \"scan_metadata\": {"] + middle + ["  },", "  \"findings\": ["];
      content := Join(lines, "\n") + "\n";
    }

    /** append_json_finding */
    method AppendFinding(dumps: Dumps, f: Finding, includeReasoning: bool) returns (r: Result<(), string>)
      modifies this
      ensures AppendFindingText(dumps, path, old(content), f, includeReasoning).Ok? <==> r.Ok?
      ensures r.Ok? ==> content == AppendFindingText(dumps, path, old(content), f, includeReasoning).value
      ensures r.Err? ==> r.error == LayoutError + path && content == StripSummary(old(content))
    {
      StripFinalSummary();
      var last := LastNonWhitespaceChar();
      if last != "[" && last != "}" {
        return Err(LayoutError + path);
      }
      var itemJson := IndentLines(dumps(FindingItem(f, includeReasoning)), 4);
      var prefix := if last == "[" then "\n" else ",\n";
      content := content + prefix + itemJson + "\n";
      return Ok(());
    }

    /** append_json_summary */
    method AppendSummary(dumps: Dumps, findings: seq<Finding>) returns (r: Result<(), string>)
      modifies this
      ensures AppendSummaryText(dumps, path, old(content), findings).Ok? <==> r.Ok?
      ensures r.Ok? ==> content == AppendSummaryText(dumps, path, old(content), findings).value
      ensures r.Err? ==> (r.error == LayoutError + path || r.error == IndexError) && content == StripSummary(old(content))
    {
      StripFinalSummary();
      var last := LastNonWhitespaceChar();
      if last != "[" && last != "}" {
        return Err(LayoutError + path);
      }
      var summaryLines := SplitLines(dumps(SummaryValue(BuildSummary(findings))));
      if summaryLines == [] {
        return Err(IndexError);
      }
      var rest := PrefixEach("  ", summaryLines[1..]);
      var tail := ["  ],", SummaryKey + summaryLines[0]] + rest + ["}"];
      content := content + "\n" + Join(tail, "\n") + "\n";
      return Ok(());
    }

    /** write_json_report: header, every finding in order, then the summary. */
    method WriteReport(dumps: Dumps, cfg: Config, timestamp: string, repoRoot: string, filesScanned: int,
                       chunksAnalyzed: int, findings: seq<Finding>, includeReasoning: bool)
      returns (r: Result<(), string>)
      requires DumpsDicts(dumps)
      modifies this
      ensures r.Ok?
      ensures content == Layout(Report(HeaderLines(dumps(Metadata(cfg, timestamp, repoRoot, filesScanned, chunksAnalyzed))),
                                       Items(dumps, findings, includeReasoning)) +
                                [""] + TailOf(SplitLines(dumps(SummaryValue(BuildSummary(findings))))))
    {
      var meta := Metadata(cfg, timestamp, repoRoot, filesScanned, chunksAnalyzed);
      Init(dumps, cfg, timestamp, repoRoot, filesScanned, chunksAnalyzed);
      ghost var header := HeaderLines(dumps(meta));
      HeaderWellFormed(dumps, meta);
      for i := 0 to |findings|
        invariant content == Layout(Report(header, Items(dumps, findings[..i], includeReasoning)))
      {
        WriteStep(dumps, path, header, findings, i, includeReasoning);
        r := AppendFinding(dumps, findings[i], includeReasoning);
      }
      WriteFinish(dumps, path, header, findings, includeReasoning);
      r := AppendSummary(dumps, findings);
    }
  }

  // ================================================================ the layout of a report

  /** The item blocks of the findings, in order. */
  function Items(dumps: Dumps, findings: seq<Finding>, includeReasoning: bool): (r: seq<seq<string>>)
    ensures |r| == |findings|
  {
    if findings == [] then []
    else Items(dumps, findings[..|findings| - 1], includeReasoning) + [ItemLines(dumps, findings[|findings| - 1], includeReasoning)]
  }

  /** The lines of a report with these items and no summary: a blank line before the first item, a "," line between items. */
  function Report(header: seq<string>, items: seq<seq<string>>): seq<string>
  {
    if items == [] then header
    else Report(header, items[..|items| - 1]) + [if |items| == 1 then "" else ","] + items[|items| - 1]
  }

  lemma {:induction false} ItemsWellFormed(dumps: Dumps, findings: seq<Finding>, includeReasoning: bool)
    requires DumpsDicts(dumps)
    ensures forall k :: 0 <= k < |findings| ==> ItemBlock(Items(dumps, findings, includeReasoning)[k])
    decreases |findings|
  {
    if findings != [] {
      ItemsWellFormed(dumps, findings[..|findings| - 1], includeReasoning);
      ItemWellFormed(dumps, findings[|findings| - 1], includeReasoning);
    }
  }

  /** One turn of write_json_report's loop: the report with the first i findings grows by finding i. */
  lemma WriteStep(dumps: Dumps, path: string, header: seq<string>, findings: seq<Finding>, i: nat, includeReasoning: bool)
    requires DumpsDicts(dumps) && Block(header, '[') && i < |findings|
    ensures AppendFindingText(dumps, path, Layout(Report(header, Items(dumps, findings[..i], includeReasoning))),
                              findings[i], includeReasoning) ==
            Ok(Layout(Report(header, Items(dumps, findings[..i + 1], includeReasoning))))
  {
    var items := Items(dumps, findings[..i], includeReasoning);
    ItemsWellFormed(dumps, findings[..i], includeReasoning);
    ItemWellFormed(dumps, findings[i], includeReasoning);
    AppendToReport(dumps, path, header, items, None, findings[i], includeReasoning);
    ItemsSnoc(dumps, findings, i, includeReasoning);
  }

  lemma ItemsSnoc(dumps: Dumps, findings: seq<Finding>, i: nat, includeReasoning: bool)
    requires i < |findings|
    ensures Items(dumps, findings[..i + 1], includeReasoning) ==
            Items(dumps, findings[..i], includeReasoning) + [ItemLines(dumps, findings[i], includeReasoning)]
  {
    assert findings[..i + 1][..i] == findings[..i];
  }

  /** The end of write_json_report: the summary goes after all the findings. */
  lemma WriteFinish(dumps: Dumps, path: string, header: seq<string>, findings: seq<Finding>, includeReasoning: bool)
    requires DumpsDicts(dumps) && Block(header, '[')
    ensures AppendSummaryText(dumps, path, Layout(Report(header, Items(dumps, findings[..|findings|], includeReasoning))), findings) ==
            Ok(Layout(Report(header, Items(dumps, findings, includeReasoning)) + [""] + TailOf(SplitLines(dumps(SummaryValue(BuildSummary(findings)))))))
  {
    assert findings[..|findings|] == findings;
    ItemsWellFormed(dumps, findings, includeReasoning);
    SummaryOnReport(dumps, path, header, Items(dumps, findings, includeReasoning), None, findings);
  }

  /** A line that, after a line break, spells the start of the marker. */
  predicate OpensMarker(l: string) { |l| >= 3 && l[0] == ' ' && l[1] == ' ' && l[2] == ']' }

  predicate NoBreaks(lines: seq<string>) { forall k :: 0 <= k < |lines| ==> NoLineBreak(lines[k]) }

  /** No line after the first could complete a marker. */
  predicate Guarded(lines: seq<string>) { forall k :: 1 <= k < |lines| ==> !OpensMarker(lines[k]) }

  /** What the header, each item and the summary tail must satisfy for the surgery to be exact. */
  predicate Block(lines: seq<string>, last: char)
  {
    lines != [] && NoBreaks(lines) && Guarded(lines) &&
    |lines[|lines| - 1]| >= 1 && lines[|lines| - 1][|lines[|lines| - 1]| - 1] == last
  }

  predicate ItemBlock(lines: seq<string>)
  {
    Block(lines, '}') && !OpensMarker(lines[0])
  }

  lemma SpacesNoBreak(n: nat)
    ensures NoLineBreak(Spaces(n))
  {
  }

  lemma NoBreakConcat(a: string, b: string)
    requires NoLineBreak(a) && NoLineBreak(b)
    ensures NoLineBreak(a + b)
  {
    forall i | 0 <= i < |a + b| ensures !IsLineBreak((a + b)[i]) {
      if i < |a| {
        assert (a + b)[i] == a[i];
      } else {
        assert (a + b)[i] == b[i - |a|];
      }
    }
  }

  lemma SplitLinesNoBreaks(text: string)
    ensures NoBreaks(SplitLines(text))
  {
    var ls := SplitLines(text);
    forall k | 0 <= k < |ls| ensures NoLineBreak(ls[k]) {
    }
  }

  lemma PrefixedNoBreaks(prefix: string, lines: seq<string>)
    requires NoLineBreak(prefix) && NoBreaks(lines)
    ensures NoBreaks(Prefixed(prefix, lines))
  {
    forall k | 0 <= k < |lines| ensures NoLineBreak(prefix + lines[k]) {
      NoBreakConcat(prefix, lines[k]);
    }
  }

  /** Every item block json.dumps can produce is a well-formed block ending in '}'. */
  lemma ItemWellFormed(dumps: Dumps, f: Finding, includeReasoning: bool)
    requires DumpsDicts(dumps)
    ensures ItemBlock(ItemLines(dumps, f, includeReasoning))
  {
    var text := dumps(FindingItem(f, includeReasoning));
    assert DictLayout(text);
    SplitLinesNoBreaks(text);
    IndentedBlock(SplitLines(text));
  }

  lemma IndentedBlock(ls: seq<string>)
    requires ls != [] && NoBreaks(ls) && EndsWithBrace(ls[|ls| - 1])
    ensures ItemBlock(Prefixed(Spaces(4), ls))
  {
    var lines := Prefixed(Spaces(4), ls);
    SpacesNoBreak(4);
    PrefixedNoBreaks(Spaces(4), ls);
    assert Spaces(4) == "    ";
    forall k | 0 <= k < |lines| ensures !OpensMarker(lines[k]) {
      assert lines[k] == "    " + ls[k];
    }
    var l := lines[|lines| - 1];
    assert l == "    " + ls[|ls| - 1];
    assert l[|l| - 1] == ls[|ls| - 1][|ls[|ls| - 1]| - 1];
  }

  /** The header init_json_report writes is a well-formed block ending in '['. */
  lemma HeaderWellFormed(dumps: Dumps, meta: Value)
    requires meta.VDict? && DumpsDicts(dumps)
    ensures Block(HeaderLines(dumps(meta)), '[')
  {
    var text := dumps(meta);
    assert DictLayout(text);
    SplitLinesNoBreaks(text);
    HeaderBlock(SplitLines(text));
  }

  lemma HeaderBlock(ls: seq<string>)
    requires NoBreaks(ls) && forall k :: 0 <= k < |ls| ==> !StartsWithBracket(ls[k])
    ensures Block(HeaderOf(ls), '[')
  {
    var inner := Inner(ls);
    var mid := Prefixed("  ", inner);
    assert NoBreaks(inner) by {
      forall k | 0 <= k < |inner| ensures NoLineBreak(inner[k]) {
        assert inner[k] == ls[k + 1];
      }
    }
    PrefixedNoBreaks("  ", inner);
    var h := HeaderOf(ls);
    var open, close := ["{", "  \"scan_metadata\": {"], ["  },", "  \"findings\": ["];
    HeaderFrameLines();
    assert h == open + mid + close;
    forall k | 0 <= k < |h| ensures NoLineBreak(h[k]) && (k >= 1 ==> !OpensMarker(h[k])) {
      if k < 2 {
        assert h[k] == open[k];
      } else if k < 2 + |mid| {
        assert h[k] == mid[k - 2] == "  " + ls[k - 1];
      } else {
        assert h[k] == close[k - 2 - |mid|];
      }
    }
    assert h[|h| - 1] == close[1];
  }

  /** The fixed lines around the metadata have no line break and cannot open a marker. */
  lemma HeaderFrameLines()
    ensures NoLineBreak("{") && NoLineBreak("  \"scan_metadata\": {")
    ensures NoLineBreak("  },") && NoLineBreak("  \"findings\": [")
    ensures !OpensMarker("  \"scan_metadata\": {") && !OpensMarker("  },") && !OpensMarker("  \"findings\": [")
  {
    assert "  \"scan_metadata\": {"[2] == '"';
    assert "  },"[2] == '}';
    assert "  \"findings\": ["[2] == '"';
  }

  /** The summary tail append_json_summary writes is a block ending in '}' whose first line is "  ],". */
  lemma TailWellFormed(dumps: Dumps, s: Summary)
    requires DumpsDicts(dumps)
    ensures var t := TailOf(SplitLines(dumps(SummaryValue(s))));
            Block(t, '}') && |t| >= 2 && t[0] == "  ]," && |t[1]| >= 12 && t[1][..12] == "  \"summary\":"
  {
    var text := dumps(SummaryValue(s));
    assert DictLayout(text);
    SplitLinesNoBreaks(text);
    TailBlock(SplitLines(text));
  }

  lemma TailBlock(ls: seq<string>)
    requires ls != [] && NoBreaks(ls) && forall k :: 0 <= k < |ls| ==> !StartsWithBracket(ls[k])
    ensures var t := TailOf(ls);
            Block(t, '}') && |t| >= 2 && t[0] == "  ]," && |t[1]| >= 12 && t[1][..12] == "  \"summary\":"
  {
    var rest := Prefixed("  ", ls[1..]);
    assert NoBreaks(ls[1..]) by {
      forall k | 0 <= k < |ls[1..]| ensures NoLineBreak(ls[1..][k]) {
        assert ls[1..][k] == ls[k + 1];
      }
    }
    PrefixedNoBreaks("  ", ls[1..]);
    var t := TailOf(ls);
    var first := SummaryKey + ls[0];
    assert NoLineBreak(SummaryKey);
    NoBreakConcat(SummaryKey, ls[0]);
    assert forall k :: 2 <= k < 2 + |rest| ==> t[k] == rest[k - 2];
    forall k | 1 <= k < |t| ensures !OpensMarker(t[k]) {
      if 2 <= k < 2 + |rest| {
        assert t[k] == "  " + ls[k - 1];
        assert !StartsWithBracket(ls[k - 1]);
      }
    }
    assert first[..12] == SummaryKey[..12];
  }

  // ================================================================ text lemmas

  lemma {:induction false} JoinConcat(a: seq<string>, b: seq<string>, sep: string)
    requires a != [] && b != []
    ensures Join(a + b, sep) == Join(a, sep) + sep + Join(b, sep)
    decreases |a|
  {
    if |a| > 1 {
      assert (a + b)[1..] == a[1..] + b;
      JoinConcat(a[1..], b, sep);
    } else {
      assert (a + b)[1..] == b;
    }
  }

  /** Writing lines after lines is writing all of them. */
  lemma LayoutConcat(a: seq<string>, b: seq<string>)
    requires a != [] && b != []
    ensures Layout(a + b) == Layout(a) + Layout(b)
  {
    JoinConcat(a, b, "\n");
  }

  const Quad: string := "\n  ]"

  /** No line break in a guarded layout is followed by "  ]". */
  lemma {:induction false} LayoutQuadFree(lines: seq<string>)
    requires lines != [] && NoBreaks(lines) && Guarded(lines)
    ensures !Contains(Layout(lines), Quad)
    decreases |lines|
  {
    var n := |lines|;
    var l := lines[n - 1];
    if n == 1 {
      var s := Layout(lines);
      assert s == l + "\n";
      forall p ensures !OccursAt(s, Quad, p) {
        if 0 <= p < |l| {
          assert s[p] == l[p];
        }
      }
    } else {
      var front := lines[..n - 1];
      LayoutQuadFree(front);
      LayoutConcat(front, [l]);
      assert front + [l] == lines;
      var x := Layout(front);
      var s := Layout(lines);
      assert s == x + (l + "\n");
      forall p ensures !OccursAt(s, Quad, p) {
        if p + 4 <= |x| {
          if 0 <= p {
            assert s[p..p + 4] == x[p..p + 4];
            assert !OccursAt(x, Quad, p);
          }
        } else if p >= |x| {
          if p - |x| < |l| {
            assert s[p] == l[p - |x|];
          }
        } else {
          QuadStraddle(x, l, p);
        }
      }
    }
  }

  /** An occurrence of "\n  ]" cannot straddle the end of a layout and a following line that does not open a marker. */
  lemma QuadStraddle(x: string, l: string, p: int)
    requires |x| >= 1 && x[|x| - 1] == '\n' && p < |x| < p + 4
    requires NoLineBreak(l) && !OpensMarker(l)
    ensures !OccursAt(x + (l + "\n"), Quad, p)
  {
    var s := x + (l + "\n");
    if 0 <= p && p + 4 <= |s| {
      var w := s[p..p + 4];
      var d := |x| - 1 - p;
      assert w[d] == '\n';
      if d == 0 {
        if |l| >= 3 {
          assert w[1..] == l[..3];
        } else {
          assert w[1 + |l|] == '\n';
        }
      }
      assert w != Quad;
    }
  }

  /** The marker begins with "\n  ]". */
  lemma MarkerHasQuad(s: string, p: int)
    ensures OccursAt(s, Marker, p) ==> OccursAt(s, Quad, p)
  {
    if OccursAt(s, Marker, p) {
      assert s[p..p + 4] == s[p..p + |Marker|][..4];
      assert Marker[..4] == Quad;
    }
  }

  /** The marker sits where the summary block begins. */
  lemma MarkerAtSeam(x: string, t: string)
    requires |x| >= 1 && x[|x| - 1] == '\n'
    requires |t| >= 17 && t[..17] == "  ],\n  \"summary\":"
    ensures OccursAt(x + t, Marker, |x| - 1)
  {
    var s := x + t;
    assert s[|x| - 1..|x| - 1 + 18] == "\n" + t[..17];
  }

  /** A join begins with its first part. */
  lemma JoinHead(parts: seq<string>, sep: string)
    requires parts != []
    ensures |Join(parts, sep)| >= |parts[0]| && Join(parts, sep)[..|parts[0]|] == parts[0]
  {
  }

  lemma OccursAtSuffix(x: string, y: string, pat: string, q: nat)
    requires |x| <= q && OccursAt(x + y, pat, q)
    ensures OccursAt(y, pat, q - |x|)
  {
    assert (x + y)[q..q + |pat|] == y[q - |x|..q - |x| + |pat|];
  }

  /** A guarded layout holds no marker, so stripping leaves it alone. */
  lemma StripGuarded(lines: seq<string>)
    requires lines != [] && NoBreaks(lines) && Guarded(lines)
    ensures StripSummary(Layout(lines)) == Layout(lines)
  {
    LayoutNoReturn(lines);
    LayoutQuadFree(lines);
    forall p ensures !OccursAt(Layout(lines), Marker, p) {
      MarkerHasQuad(Layout(lines), p);
    }
  }

  /**
   * Stripping the block append_json_summary wrote restores exactly the text before it:
   * the summary's marker is the last one in the file.
   */
  lemma StripTail(body: seq<string>, tail: seq<string>)
    requires body != [] && tail != [] && NoBreaks(body)
    requires NoBreaks(tail) && Guarded(tail)
    requires |tail| >= 2 && tail[0] == "  ]," && |tail[1]| >= 12 && tail[1][..12] == "  \"summary\":"
    ensures StripSummary(Layout(body + [""] + tail)) == Layout(body)
  {
    var x := Layout(body);
    var t := Layout(tail);
    var s := Layout(body + [""] + tail);
    TailText(body, tail);
    TailStart(tail);
    assert NoBreaks(body + [""] + tail) by {
      var all := body + [""] + tail;
      forall k | 0 <= k < |all| ensures NoLineBreak(all[k]) {
        if k > |body| {
          assert all[k] == tail[k - |body| - 1];
        }
      }
    }
    LayoutNoReturn(body + [""] + tail);
    MarkerAtSeam(x + "\n", t);
    LayoutQuadFree(tail);
    forall q | |x| < q ensures !OccursAt(s, Marker, q) {
      MarkerHasQuad(s, q);
      if OccursAt(s, Quad, q) {
        OccursAtSuffix(x + "\n", t, Quad, q);
      }
    }
    var idx := RFind(s, Marker);
    assert idx == |x|;
  }

  /** A blank line and then more lines, after a layout. */
  lemma TailText(body: seq<string>, tail: seq<string>)
    requires body != [] && tail != []
    ensures Layout(body + [""] + tail) == (Layout(body) + "\n") + Layout(tail)
  {
    LayoutConcat(body, [""] + tail);
    assert body + [""] + tail == body + ([""] + tail);
    JoinConcat([""], tail, "\n");
  }

  /** The summary block's text begins with the marker's tail. */
  lemma TailStart(tail: seq<string>)
    requires |tail| >= 2 && tail[0] == "  ]," && |tail[1]| >= 12 && tail[1][..12] == "  \"summary\":"
    ensures |Layout(tail)| >= 17 && Layout(tail)[..17] == "  ],\n  \"summary\":"
  {
    var rest := Join(tail[1..], "\n");
    JoinHead(tail[1..], "\n");
    assert Layout(tail) == "  ],\n" + rest + "\n";
    assert Layout(tail)[..17] == "  ],\n" + rest[..12];
  }

  /** A layout of lines without line breaks holds no carriage return, so reading it back changes nothing. */
  lemma LayoutNoReturn(lines: seq<string>)
    requires NoBreaks(lines)
    ensures NoChar(Layout(lines), '\r')
  {
    JoinNoReturn(lines);
  }

  lemma {:induction false} JoinNoReturn(parts: seq<string>)
    requires NoBreaks(parts)
    ensures NoChar(Join(parts, "\n"), '\r')
    decreases |parts|
  {
    if |parts| > 1 {
      assert NoBreaks(parts[1..]) by {
        forall k | 0 <= k < |parts| - 1 ensures NoLineBreak(parts[1..][k]) {
          assert parts[1..][k] == parts[k + 1];
        }
      }
      JoinNoReturn(parts[1..]);
      var rest := Join(parts[1..], "\n");
      var s := parts[0] + "\n" + rest;
      forall i | 0 <= i < |s| ensures s[i] != '\r' {
        if i < |parts[0]| {
          assert s[i] == parts[0][i];
        } else if i > |parts[0]| {
          assert s[i] == rest[i - |parts[0]| - 1];
        }
      }
    } else if |parts| == 1 {
      assert NoLineBreak(parts[0]);
    }
  }

  /** The last byte of a layout that is not whitespace is the ASCII character its last line ends with. */
  lemma LastOfLayout(lines: seq<string>, c: char)
    requires lines != [] && |lines[|lines| - 1]| >= 1 && lines[|lines| - 1][|lines[|lines| - 1]| - 1] == c
    requires c as int < 0x80 && !IsSpace(c)
    ensures LastNonSpace(Layout(lines)) == [c]
  {
    var s := Layout(lines);
    var n := |lines|;
    if n > 1 {
      LayoutConcat(lines[..n - 1], [lines[n - 1]]);
      assert lines[..n - 1] + [lines[n - 1]] == lines;
    }
    assert s[|s| - 1] == '\n';
    assert s[..|s| - 1][|s| - 2] == c;
    assert s == s[..|s| - 2] + [c] + "\n";
    LastBeforeNewline(s[..|s| - 2], c);
  }

  /** Text ending in an ASCII character that is not whitespace and a line break: that character is the last. */
  lemma LastBeforeNewline(front: string, c: char)
    requires c as int < 0x80 && !IsSpace(c)
    ensures LastNonSpace(front + [c] + "\n") == [c]
  {
    Utf8Concat(front + [c], "\n");
    Utf8Concat(front, [c]);
    Utf8Single(c);
    Utf8Single('\n');
    var data := Utf8(front + [c] + "\n");
    assert data == Utf8(front) + [c as int] + [10];
    var n := |data|;
    assert data[..n] == data;
    LastNonSpaceByteStep(data, n - 1);
    LastNonSpaceByteStep(data, n - 2);
  }

  lemma LastOfBlock(lines: seq<string>, c: char)
    requires Block(lines, c) && (c == '[' || c == '}')
    ensures LastNonSpace(Layout(lines)) == [c]
  {
    LastOfLayout(lines, c);
  }

  // ================================================================ what the writer guarantees

  lemma {:induction false} ReportWellFormed(header: seq<string>, items: seq<seq<string>>)
    requires Block(header, '[')
    requires forall k :: 0 <= k < |items| ==> ItemBlock(items[k])
    ensures items == [] ==> Block(Report(header, items), '[')
    ensures items != [] ==> Block(Report(header, items), '}')
    decreases |items|
  {
    if items != [] {
      ReportWellFormed(header, items[..|items| - 1]);
      var c := if |items| == 1 then '[' else '}';
      BlockAppend(Report(header, items[..|items| - 1]), c, if |items| == 1 then "" else ",", items[|items| - 1]);
    }
  }

  /** A separator line and an item after a block make a block ending in '}'. */
  lemma BlockAppend(front: seq<string>, c: char, sep: string, it: seq<string>)
    requires Block(front, c) && ItemBlock(it) && (sep == "" || sep == ",")
    ensures Block(front + [sep] + it, '}')
  {
    var r := front + [sep] + it;
    assert forall k :: 0 <= k < |front| ==> r[k] == front[k];
    assert r[|front|] == sep;
    assert forall k :: 0 <= k < |it| ==> r[|front| + 1 + k] == it[k];
    forall k | 0 <= k < |r| ensures NoLineBreak(r[k]) && (k >= 1 ==> !OpensMarker(r[k])) {
      if k > |front| {
        assert r[k] == it[k - |front| - 1];
      }
    }
  }

  /**
   * Appending a finding to a report (finalised or not) strips any summary and yields the
   * report with one more item; the separator is "\n" after '[' and ",\n" after '}'.
   */
  lemma AppendToReport(dumps: Dumps, path: string, header: seq<string>, items: seq<seq<string>>,
                       summary: Option<seq<string>>, f: Finding, includeReasoning: bool)
    requires Block(header, '[') && forall k :: 0 <= k < |items| ==> ItemBlock(items[k])
    requires summary.Some? ==> SummaryBlock(summary.value)
    requires ItemBlock(ItemLines(dumps, f, includeReasoning))
    ensures var before := if summary.Some? then Report(header, items) + [""] + summary.value else Report(header, items);
            AppendFindingText(dumps, path, Layout(before), f, includeReasoning) ==
              Ok(Layout(Report(header, items + [ItemLines(dumps, f, includeReasoning)])))
  {
    StripReport(header, items, summary);
    ReportEnds(header, items);
    ReportGrows(header, items, ItemLines(dumps, f, includeReasoning));
  }

  /** What append_json_summary leaves after the findings. */
  predicate SummaryBlock(t: seq<string>)
  {
    NoBreaks(t) && Guarded(t) && |t| >= 2 && t[0] == "  ]," && |t[1]| >= 12 && t[1][..12] == "  \"summary\":"
  }

  /** Stripping a report, finalised or not, leaves the report without its summary. */
  lemma StripReport(header: seq<string>, items: seq<seq<string>>, summary: Option<seq<string>>)
    requires Block(header, '[') && forall k :: 0 <= k < |items| ==> ItemBlock(items[k])
    requires summary.Some? ==> SummaryBlock(summary.value)
    ensures var before := if summary.Some? then Report(header, items) + [""] + summary.value else Report(header, items);
            StripSummary(Layout(before)) == Layout(Report(header, items))
  {
    ReportWellFormed(header, items);
    if summary.Some? {
      StripTail(Report(header, items), summary.value);
    } else {
      StripGuarded(Report(header, items));
    }
  }

  /** A report ends in '[' until its first item, and in '}' after. */
  lemma ReportEnds(header: seq<string>, items: seq<seq<string>>)
    requires Block(header, '[') && forall k :: 0 <= k < |items| ==> ItemBlock(items[k])
    ensures LastNonSpace(Layout(Report(header, items))) == if items == [] then "[" else "}"
  {
    if items == [] {
      assert Report(header, items) == header;
      LastOfBlock(header, '[');
    } else {
      ReportWellFormed(header, items);
      LastOfBlock(Report(header, items), '}');
    }
  }

  /** One more item adds its separator and its lines to the text. */
  lemma ReportGrows(header: seq<string>, items: seq<seq<string>>, it: seq<string>)
    requires header != [] && it != []
    ensures Layout(Report(header, items + [it])) ==
              Layout(Report(header, items)) + (if items == [] then "\n" else ",\n") + Join(it, "\n") + "\n"
  {
    var body := Report(header, items);
    var sep := if items == [] then "" else ",";
    var items' := items + [it];
    assert items'[..|items'| - 1] == items;
    assert Report(header, items') == body + [sep] + it;
    ReportNonEmpty(header, items);
    var tail := [sep] + it;
    assert body + [sep] + it == body + tail;
    LayoutConcat(body, tail);
    JoinConcat([sep], it, "\n");
    assert Join(tail, "\n") == sep + "\n" + Join(it, "\n");
    assert Layout(tail) == sep + "\n" + Join(it, "\n") + "\n";
    assert Layout(body + tail) == Layout(body) + (sep + "\n") + Join(it, "\n") + "\n";
  }

  lemma {:induction false} ReportNonEmpty(header: seq<string>, items: seq<seq<string>>)
    requires header != []
    ensures Report(header, items) != []
    decreases |items|
  {
    if items != [] {
      ReportNonEmpty(header, items[..|items| - 1]);
    }
  }

  /** Finalising a report (finalised or not) yields the report followed by exactly one summary block. */
  lemma SummaryOnReport(dumps: Dumps, path: string, header: seq<string>, items: seq<seq<string>>,
                        summary: Option<seq<string>>, findings: seq<Finding>)
    requires DumpsDicts(dumps)
    requires Block(header, '[') && forall k :: 0 <= k < |items| ==> ItemBlock(items[k])
    requires summary.Some? ==> SummaryBlock(summary.value)
    ensures var before := if summary.Some? then Report(header, items) + [""] + summary.value else Report(header, items);
            AppendSummaryText(dumps, path, Layout(before), findings) ==
              Ok(Layout(Report(header, items) + [""] + TailOf(SplitLines(dumps(SummaryValue(BuildSummary(findings)))))))
  {
    StripReport(header, items, summary);
    ReportEnds(header, items);
    var tail := TailOf(SplitLines(dumps(SummaryValue(BuildSummary(findings)))));
    TailWellFormed(dumps, BuildSummary(findings));
    ReportNonEmpty(header, items);
    SummaryText(Report(header, items), tail);
  }

  /** The text append_json_summary adds is the layout of a blank line and the tail. */
  lemma SummaryText(body: seq<string>, tail: seq<string>)
    requires body != [] && tail != []
    ensures Layout(body + [""] + tail) == Layout(body) + "\n" + Join(tail, "\n") + "\n"
  {
    TailText(body, tail);
    var x := Layout(body);
    var j := Join(tail, "\n");
    assert (x + "\n") + (j + "\n") == x + "\n" + j + "\n";
  }

  /** Finalising, then cutting the summary off again, gives back the report exactly. */
  lemma SummaryRoundTrip(dumps: Dumps, header: seq<string>, items: seq<seq<string>>, findings: seq<Finding>)
    requires DumpsDicts(dumps)
    requires Block(header, '[') && forall k :: 0 <= k < |items| ==> ItemBlock(items[k])
    ensures StripSummary(Layout(Report(header, items) + [""] + TailOf(SplitLines(dumps(SummaryValue(BuildSummary(findings))))))) ==
              Layout(Report(header, items))
  {
    ReportWellFormed(header, items);
    TailWellFormed(dumps, BuildSummary(findings));
    StripTail(Report(header, items), TailOf(SplitLines(dumps(SummaryValue(BuildSummary(findings))))));
  }

  /**
   * A file ending in '}' and a no-break space is refused: of the space's UTF-8 bytes
   * C2 A0, chr() makes 0xA0 whitespace but not 0xC2, so the last character seen is 'Â'.
   */
  lemma NoBreakSpaceRefused(dumps: Dumps, path: string, f: Finding, includeReasoning: bool)
    ensures LastNonSpace("}\U{A0}") == "\U{C2}"
    ensures AppendFindingText(dumps, path, "}\U{A0}", f, includeReasoning) == Err(LayoutError + path)
  {
    var text := "}\U{A0}";
    Utf8Concat("}", "\U{A0}");
    Utf8Single('}');
    Utf8Single('\U{A0}');
    var data := Utf8(text);
    assert data == [0x7D, 0xC2, 0xA0];
    assert data[..3] == data;
    LastNonSpaceByteStep(data, 2);
    LastNonSpaceByteStep(data, 1);
    assert !Contains(ReadText(text), Marker);
  }

  /** A file that does not end in '[' or '}' once stripped is refused, whatever is appended. */
  lemma BadLayoutRefused(dumps: Dumps, path: string, text: string, f: Finding, includeReasoning: bool, findings: seq<Finding>)
    requires LastNonSpace(StripSummary(text)) != "[" && LastNonSpace(StripSummary(text)) != "}"
    ensures AppendFindingText(dumps, path, text, f, includeReasoning) == Err(LayoutError + path)
    ensures AppendSummaryText(dumps, path, text, findings) == Err(LayoutError + path)
  {
  }
}
