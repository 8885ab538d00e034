/**
 * The logic of the command-line driver (vulnllm/cli.py) between its I/O calls: the
 * choice of chunker, the symbol-index context given to a prompt, the state `run_chunk`
 * threads through a scan (the next finding id and the two progress counters), the
 * post-processing of the findings and the process exit code.
 *
 * Reading files, the backend call, the prompt text and the report writers are I/O; the
 * model receives their results as parameters.
 */
module Cli {
  import opened Wrappers
  import opened Text
  import opened Chunking
  import opened FindingModel
  import opened FindingParser
  import opened Dedup
  import opened Symbols
  import opened ConfigMerge
  import opened Config

  // ================================================================ _build_chunks

  /** The one chunk of the "file" strategy: the whole text, from line 1 to its last line. */
  function WholeFileChunk(rel: string, text: string): CodeChunk
  {
    var n := |SplitLines(text)|;
    CodeChunk(rel, 1, if n > 1 then n else 1, text, None)
  }

  /**
   * The whole-file chunk spans every line of the file (and line 1 of an empty file),
   * carries the file's text unchanged and names no function.
   */
  lemma WholeFileChunkCovers(rel: string, text: string)
    ensures var c := WholeFileChunk(rel, text);
            c.file == rel && c.text == text && c.funcName.None? && c.startLine == 1 &&
            (text == [] ==> c.endLine == 1) &&
            (text != [] ==> c.endLine == |SplitLines(text)|)
  {
  }

  /**
   * _build_chunks, given the file's relative path and text: the sliding window chunker,
   * the whole file, or the function chunker for any other strategy name.
   */
  method BuildChunks(strategy: string, rel: string, text: string, chunkTokens: int, overlap: int,
                     defName: string -> Option<string>)
    returns (chunks: seq<CodeChunk>)
    ensures strategy == "file" ==> chunks == [WholeFileChunk(rel, text)]
    ensures strategy == "sliding" ==>
              (chunks == [] <==> text == []) &&
              (forall k :: 0 <= k < |chunks| ==> WindowOf(rel, SplitLines(text), chunkTokens, chunks[k])) &&
              (chunks != [] ==> chunks[0].startLine == 1 && chunks[|chunks| - 1].endLine == |SplitLines(text)|)
    ensures strategy != "sliding" && strategy != "file" ==>
              AllFunctionChunks(rel, SplitLines(text), defName, chunks) && Ordered(chunks) &&
              NoSkippedMatch(SplitLines(text), defName, chunks)
  {
    if strategy == "sliding" {
      chunks := ChunkSliding(rel, SplitLines(text), chunkTokens, overlap);
      return;
    }
    if strategy == "file" {
      var lines := SplitLines(text);
      chunks := [CodeChunk(rel, 1, if |lines| > 1 then |lines| else 1, text, None)];
      return;
    }
    chunks := ChunkByFunction(rel, SplitLines(text), defName);
  }

  // ================================================================ _index_context

  /** ProjectIndex.query_symbol, which is the lookup of the index's symbol table. */
  type SymbolQuery = string -> seq<Location>

  const ContextHeader: string := "Known symbol locations:"

  /** The listing line of one reference: f"- {f}:{line}". */
  function RefLine(loc: Location): string
  {
    "- " + loc.file + ":" + IntString(loc.line)
  }

  /** The listing lines of the first five references, in lookup order. */
  function RefLines(refs: seq<Location>): (r: seq<string>)
    ensures |r| == if |refs| < 5 then |refs| else 5
    ensures forall k :: 0 <= k < |r| ==> r[k] == RefLine(refs[k])
  {
    var shown := Prefix(refs, 5);
    seq(|shown|, k requires 0 <= k < |shown| => RefLine(shown[k]))
  }

  /** _index_context: nothing without an index or a function name, else the known locations of the name. */
  function IndexContext(index: Option<SymbolQuery>, chunk: CodeChunk): string
  {
    if index.None? || chunk.funcName.None? || chunk.funcName.value == "" then ""
    else
      var refs := index.value(chunk.funcName.value);
      if refs == [] then "" else ContextHeader + "\n" + Join(RefLines(refs), "\n")
  }

  /** The context is empty exactly when there is no index, no function name, or no known location. */
  lemma IndexContextEmpty(index: Option<SymbolQuery>, chunk: CodeChunk)
    ensures IndexContext(index, chunk) == "" <==>
            index.None? || chunk.funcName.None? || chunk.funcName.value == "" ||
            index.value(chunk.funcName.value) == []
  {
    if !(index.None? || chunk.funcName.None? || chunk.funcName.value == "" || index.value(chunk.funcName.value) == []) {
      assert IndexContext(index, chunk)[0] == ContextHeader[0];
    }
  }

  /** A decimal rendering of an integer never holds a line feed. */
  lemma IntStringNoNewline(i: int)
    ensures NoChar(IntString(i), '\n')
  {
    if i < 0 {
      assert IntString(i) == "-" + Decimal(-i);
    }
  }

  /**
   * When the context is not empty its lines are the header and one line per reference,
   * the first five references in lookup order and no more (file paths hold no line feed).
   */
  lemma IndexContextLines(query: SymbolQuery, chunk: CodeChunk)
    requires chunk.funcName.Some? && chunk.funcName.value != ""
    requires query(chunk.funcName.value) != []
    requires forall k :: 0 <= k < |query(chunk.funcName.value)| ==> NoChar(query(chunk.funcName.value)[k].file, '\n')
    ensures var refs := query(chunk.funcName.value);
            var lines := Split(IndexContext(Some(query), chunk), "\n");
            |lines| == 1 + (if |refs| < 5 then |refs| else 5) && lines[0] == ContextHeader &&
            forall k :: 1 <= k < |lines| ==> lines[k] == RefLine(refs[k - 1])
  {
    var refs := query(chunk.funcName.value);
    var parts := [ContextHeader] + RefLines(refs);
    ContextJoin(refs);
    ContextPartsNoNewline(refs);
    SplitJoinChar(parts, '\n');
  }

  /** The context text is its header and listing lines joined with line feeds. */
  lemma ContextJoin(refs: seq<Location>)
    requires refs != []
    ensures Join([ContextHeader] + RefLines(refs), "\n") == ContextHeader + "\n" + Join(RefLines(refs), "\n")
  {
    var parts := [ContextHeader] + RefLines(refs);
    assert parts[1..] == RefLines(refs);
  }

  /** A reference line holds no line feed when its file path holds none. */
  lemma RefLineNoNewline(loc: Location)
    requires NoChar(loc.file, '\n')
    ensures NoChar(RefLine(loc), '\n')
  {
    var head := "- " + loc.file + ":";
    var num := IntString(loc.line);
    IntStringNoNewline(loc.line);
    assert NoChar(head, '\n') by {
      forall i | 0 <= i < |head| ensures head[i] != '\n' {
        if 2 <= i < |head| - 1 {
          assert head[i] == loc.file[i - 2];
        }
      }
    }
    forall i | 0 <= i < |head + num| ensures (head + num)[i] != '\n' {
      if i >= |head| {
        assert (head + num)[i] == num[i - |head|];
      }
    }
  }

  /** With file paths free of line feeds, no line of the context holds one. */
  lemma ContextPartsNoNewline(refs: seq<Location>)
    requires forall k :: 0 <= k < |refs| ==> NoChar(refs[k].file, '\n')
    ensures var parts := [ContextHeader] + RefLines(refs);
            forall k :: 0 <= k < |parts| ==> NoChar(parts[k], '\n')
  {
    var lines := RefLines(refs);
    forall k | 0 <= k < |lines| ensures NoChar(lines[k], '\n') {
      RefLineNoNewline(refs[k]);
    }
    var parts := [ContextHeader] + lines;
    forall k | 0 <= k < |parts| ensures NoChar(parts[k], '\n') {
      if k > 0 {
        assert parts[k] == lines[k - 1];
      }
    }
  }

  // ================================================================ run_chunk

  /** What the backend returns for one prompt: the generated text and an error message, if any. */
  datatype BackendResult = BackendResult(text: string, error: Option<string>)

  /** `if result.error:` — an error is raised when there is one and it is not the empty string. */
  predicate Failed(result: BackendResult)
  {
    result.error.Some? && result.error.value != ""
  }

  /** What one run_chunk call answers, and the next finding id after it. */
  datatype Turn = Turn(answer: Result<seq<Finding>, string>, nextId: int)

  /** parse_findings(text, chunk, start_id): the findings and the next id. */
  type Parser = (string, CodeChunk, int) -> Parsed

  /** The parse_findings of the program, for a given set of JSON and regex primitives. */
  function ParserOf(dec: Decoder): Parser
  {
    (raw: string, chunk: CodeChunk, n: int) => ParseFindings(dec, raw, chunk, n)
  }

  /** A parser numbers its findings from the id it is given and returns the id after the last. */
  ghost predicate NumbersFrom(parse: Parser)
  {
    forall raw: string, chunk: CodeChunk, n: int ::
      parse(raw, chunk, n).nextId == n + |parse(raw, chunk, n).findings| &&
      forall k :: 0 <= k < |parse(raw, chunk, n).findings| ==> parse(raw, chunk, n).findings[k].id == FormatId(n + k)
  }

  /** parse_findings numbers its findings from start_id and returns the id after the last. */
  lemma ParserOfNumbers(dec: Decoder)
    ensures NumbersFrom(ParserOf(dec))
  {
    forall raw: string, chunk: CodeChunk, n: int
      ensures var p := ParserOf(dec)(raw, chunk, n);
              p.nextId == n + |p.findings| &&
              forall k :: 0 <= k < |p.findings| ==> p.findings[k].id == FormatId(n + k)
    {
      var p := ParseFindings(dec, raw, chunk, n);
      assert ParserOf(dec)(raw, chunk, n) == p;
      forall k | 0 <= k < |p.findings| ensures p.findings[k].id == FormatId(n + k) {
        ParseNumbered(dec, Decode(dec, raw), raw, chunk, n, k);
      }
    }
  }

  /**
   * One run_chunk call whose backend answered `result`: a backend error is raised as a
   * RuntimeError before anything is parsed and leaves the next id alone; otherwise the
   * output is parsed with ids from `startId`, and the next id is the one the parser returns.
   */
  function ChunkTurn(parse: Parser, chunk: CodeChunk, startId: int, result: BackendResult): (t: Turn)
    ensures Failed(result) ==> t.answer == Err(result.error.value) && t.nextId == startId
    ensures !Failed(result) ==> t.answer.Ok?
  {
    if Failed(result) then Turn(Err(result.error.value), startId)
    else
      var p := parse(result.text, chunk, startId);
      Turn(Ok(p.findings), p.nextId)
  }

  /** The counters the run_chunk closure keeps across the scan. */
  class ScanSession {
    var nextId: int
    var pass1Progress: nat
    var pass2Progress: nat

    /** `next_id = 1`, both progress counters at 0. */
    constructor ()
      ensures nextId == 1 && pass1Progress == 0 && pass2Progress == 0
    {
      nextId := 1;
      pass1Progress := 0;
      pass2Progress := 0;
    }

    /**
     * run_chunk: counts the call in the progress counter of its pass, then answers as
     * ChunkTurn does and keeps the next id for the following call.
     */
    method RunChunk(parse: Parser, chunk: CodeChunk, deep: bool, result: BackendResult)
      returns (answer: Result<seq<Finding>, string>)
      modifies this
      ensures pass1Progress == old(pass1Progress) + (if deep then 0 else 1)
      ensures pass2Progress == old(pass2Progress) + (if deep then 1 else 0)
      ensures Turn(answer, nextId) == ChunkTurn(parse, chunk, old(nextId), result)
    {
      if deep {
        pass2Progress := pass2Progress + 1;
      } else {
        pass1Progress := pass1Progress + 1;
      }
      if result.error.Some? && result.error.value != "" {
        return Err(result.error.value);
      }
      var parsed := parse(result.text, chunk, nextId);
      nextId := parsed.nextId;
      answer := Ok(parsed.findings);
    }
  }

  /** One call of run_chunk during a scan: the chunk, the pass, and what the backend answered. */
  datatype Call = Call(chunk: CodeChunk, deep: bool, result: BackendResult)

  /** How a call answers, given the id it starts numbering from. */
  type Turner = (Call, int) -> Turn

  /** The answers of run_chunk with a given parser: ChunkTurn. */
  function TurnOf(parse: Parser): Turner
  {
    (c: Call, n: int) => ChunkTurn(parse, c.chunk, n, c.result)
  }

  /** A call that succeeds numbers its findings on from the id it is given. */
  ghost predicate Threads(turn: Turner)
  {
    forall c: Call, n: int :: turn(c, n).answer.Ok? ==>
      forall k :: 0 <= k < |turn(c, n).answer.value| ==> turn(c, n).answer.value[k].id == FormatId(n + k)
  }

  /** With a parser that numbers from the id it is given, run_chunk threads the ids. */
  lemma TurnOfThreads(parse: Parser)
    requires NumbersFrom(parse)
    ensures Threads(TurnOf(parse))
  {
    forall c: Call, n: int | TurnOf(parse)(c, n).answer.Ok?
      ensures forall k :: 0 <= k < |TurnOf(parse)(c, n).answer.value| ==> TurnOf(parse)(c, n).answer.value[k].id == FormatId(n + k)
    {
      assert TurnOf(parse)(c, n) == ChunkTurn(parse, c.chunk, n, c.result);
    }
  }

  /** The findings a call returns: its answer when it succeeded, nothing when it raised. */
  function Returned(t: Turn): seq<Finding>
  {
    if t.answer.Ok? then t.answer.value else []
  }

  /** The findings the successful calls return, in call order, with ids threaded from startId. */
  function Issued(turn: Turner, calls: seq<Call>, startId: int): seq<Finding>
  {
    if calls == [] then []
    else
      var before := Issued(turn, calls[..|calls| - 1], startId);
      before + Returned(turn(calls[|calls| - 1], startId + |before|))
  }

  /** The findings of a call are numbered on from where the previous calls stopped. */
  lemma ReturnedNumbered(turn: Turner, c: Call, before: seq<Finding>, startId: int, k: nat)
    requires Threads(turn)
    requires |before| <= k < |before| + |Returned(turn(c, startId + |before|))|
    ensures (before + Returned(turn(c, startId + |before|)))[k].id == FormatId(startId + k)
  {
    var t := turn(c, startId + |before|);
    assert (before + Returned(t))[k] == t.answer.value[k - |before|];
  }

  /** The number of calls of one pass. */
  function PassCalls(calls: seq<Call>, deep: bool): (n: nat)
    ensures n <= |calls|
  {
    if calls == [] then 0
    else PassCalls(calls[..|calls| - 1], deep) + (if calls[|calls| - 1].deep == deep then 1 else 0)
  }

  lemma IssuedStep(turn: Turner, calls: seq<Call>, startId: int, i: nat, before: seq<Finding>, n: int)
    requires i < |calls| && before == Issued(turn, calls[..i], startId) && n == startId + |before|
    ensures Issued(turn, calls[..i + 1], startId) == before + Returned(turn(calls[i], n))
  {
    assert calls[..i + 1][..i] == calls[..i];
  }

  lemma PassCallsStep(calls: seq<Call>, i: nat)
    requires i < |calls|
    ensures PassCalls(calls[..i + 1], false) == PassCalls(calls[..i], false) + (if calls[i].deep then 0 else 1)
    ensures PassCalls(calls[..i + 1], true) == PassCalls(calls[..i], true) + (if calls[i].deep then 1 else 0)
  {
    assert calls[..i + 1][..i] == calls[..i];
  }

  /**
   * Feeds the calls of a scan to the session in turn: every call counts towards its pass,
   * and the next id has moved past every finding issued, so the next call numbers after
   * them. A RuntimeError ends the scan, so only the last call of a scan can fail.
   */
  method RunCalls(s: ScanSession, parse: Parser, calls: seq<Call>) returns (issued: seq<Finding>)
    requires NumbersFrom(parse)
    requires forall i :: 0 <= i < |calls| - 1 ==> !Failed(calls[i].result)
    modifies s
    ensures issued == Issued(TurnOf(parse), calls, old(s.nextId))
    ensures s.nextId == old(s.nextId) + |issued|
    ensures s.pass1Progress == old(s.pass1Progress) + PassCalls(calls, false)
    ensures s.pass2Progress == old(s.pass2Progress) + PassCalls(calls, true)
  {
    issued := [];
    for i := 0 to |calls|
      invariant issued == Issued(TurnOf(parse), calls[..i], old(s.nextId))
      invariant s.nextId == old(s.nextId) + |issued|
      invariant s.pass1Progress == old(s.pass1Progress) + PassCalls(calls[..i], false)
      invariant s.pass2Progress == old(s.pass2Progress) + PassCalls(calls[..i], true)
    {
      var c := calls[i];
      IssuedStep(TurnOf(parse), calls, old(s.nextId), i, issued, s.nextId);
      PassCallsStep(calls, i);
      ghost var t := TurnOf(parse)(calls[i], s.nextId);
      ghost var prev := issued;
      assert t == ChunkTurn(parse, c.chunk, s.nextId, c.result);
      var answer := s.RunChunk(parse, c.chunk, c.deep, c.result);
      assert t == Turn(answer, s.nextId);
      if answer.Ok? {
        issued := issued + answer.value;
      }
      assert issued == prev + Returned(t);
    }
    assert calls[..|calls|] == calls;
  }

  /** Finding k issued in a scan has id number startId + k. */
  lemma {:induction false} IssuedNumbered(turn: Turner, calls: seq<Call>, startId: int, k: nat)
    requires Threads(turn)
    requires k < |Issued(turn, calls, startId)|
    ensures Issued(turn, calls, startId)[k].id == FormatId(startId + k)
    decreases |calls|
  {
    var front := calls[..|calls| - 1];
    var before := Issued(turn, front, startId);
    if k < |before| {
      IssuedNumbered(turn, front, startId, k);
    } else {
      ReturnedNumbered(turn, calls[|calls| - 1], before, startId, k);
    }
  }

  /** The number an id was made from: the inverse of FormatId. */
  function IdNumber(id: string): int
  {
    if |id| >= 3 && id[2] == '-' && AllDigits(id[3..]) then -(DecimalValue(id[3..]) as int)
    else if |id| >= 2 && AllDigits(id[2..]) then DecimalValue(id[2..])
    else 0
  }

  /** Reading the number back from an id gives the number it was made from. */
  lemma IdNumberOfFormatId(n: int)
    ensures IdNumber(FormatId(n)) == n
  {
    FormatIdDigits(n);
  }

  /** The number in the id of finding k issued in a scan is startId + k. */
  lemma ScanIdNumber(dec: Decoder, calls: seq<Call>, startId: int, k: nat)
    requires k < |Issued(TurnOf(ParserOf(dec)), calls, startId)|
    ensures IdNumber(Issued(TurnOf(ParserOf(dec)), calls, startId)[k].id) == startId + k
  {
    ParserOfNumbers(dec);
    TurnOfThreads(ParserOf(dec));
    IssuedNumbered(TurnOf(ParserOf(dec)), calls, startId, k);
    IdNumberOfFormatId(startId + k);
  }

  /** No two findings issued in one scan share an id. */
  lemma IssuedIdsUnique(dec: Decoder, calls: seq<Call>, startId: int, a: nat, b: nat)
    requires a < b < |Issued(TurnOf(ParserOf(dec)), calls, startId)|
    ensures Issued(TurnOf(ParserOf(dec)), calls, startId)[a].id != Issued(TurnOf(ParserOf(dec)), calls, startId)[b].id
  {
    ScanIdNumber(dec, calls, startId, a);
    ScanIdNumber(dec, calls, startId, b);
  }

  // ================================================================ post-processing and exit code

  /** Deduplicate, then keep the first maxFindings when maxFindings is positive. */
  function PostProcess(findings: seq<Finding>, maxFindings: int): seq<Finding>
  {
    var d := Dedupe(findings);
    if maxFindings > 0 then Prefix(d, maxFindings) else d
  }

  /**
   * The reported findings are the first of the deduplicated findings: all of them when
   * maxFindings is 0 or less, else at most maxFindings; no two share a key, and each key
   * reported is a key of the input.
   */
  lemma PostProcessProperties(findings: seq<Finding>, maxFindings: int)
    ensures var r := PostProcess(findings, maxFindings);
            r <= Dedupe(findings) &&
            (maxFindings <= 0 ==> r == Dedupe(findings)) &&
            (maxFindings > 0 ==> |r| == if maxFindings < |Dedupe(findings)| then maxFindings else |Dedupe(findings)|) &&
            (forall a, b :: 0 <= a < b < |r| ==> KeyOf(r[a]) != KeyOf(r[b])) &&
            KeySet(r) <= KeySet(findings)
  {
    var d := Dedupe(findings);
    var r := PostProcess(findings, maxFindings);
    DedupeKeys(findings);
    assert forall i :: 0 <= i < |r| ==> r[i] == d[i];
    assert KeySet(r) <= KeySet(d) by {
      forall key | key in KeySet(r) ensures key in KeySet(d) {
        var i :| 0 <= i < |r| && KeyOf(r[i]) == key;
        assert KeyOf(d[i]) == key;
      }
    }
  }

  /**
   * How run() ended: a configuration resolve_config rejected with a ValueError, an exception
   * of another kind escaping resolve_config (run() only catches ValueError there), a usage
   * error, any other exception during the scan, or written reports.
   */
  datatype Ending =
    | ConfigRejected(message: string)
    | Escaped(message: string)
    | UsageError(message: string)
    | RuntimeFailure(message: string)
    | Reported(findings: seq<Finding>)

  /** Whether a finding is a real one rather than a ParserError placeholder. */
  predicate Real(f: Finding)
  {
    f.vulnerabilityType != "ParserError"
  }

  /** The value run() returns; None when an exception leaves run() instead. */
  function ExitCode(e: Ending): Option<int>
  {
    match e
    case ConfigRejected(_) => Some(2)
    case Escaped(_) => None
    case UsageError(_) => Some(2)
    case RuntimeFailure(_) => Some(3)
    case Reported(fs) => if exists i :: 0 <= i < |fs| && Real(fs[i]) then Some(1) else Some(0)
  }

  /** The ending an exception raised inside the try block of run() gives. */
  function Caught(e: ConfigError): Ending
  {
    match e
    case ValueError(m) => UsageError(m)
    case OtherError(m) => RuntimeFailure(m)
  }

  /**
   * The ending of run(): resolve_config rejects the configuration, or the scan raises
   * (a RuntimeError from run_chunk, a ValueError of the prompt log, another failure), or
   * the output paths collide (checked only after the scan, so a scan failure wins), or the
   * reports are written. The scan and the output check are parameters: they are I/O and
   * the backend.
   */
  function Run(resolved: Result<Config, ConfigError>,
               scan: Config -> Result<seq<Finding>, ConfigError>,
               collectOutputs: Config -> Option<ConfigError>): Ending
  {
    match resolved
    case Err(ValueError(m)) => ConfigRejected(m)
    case Err(OtherError(m)) => Escaped(m)
    case Ok(cfg) =>
      match scan(cfg)
      case Err(e) => Caught(e)
      case Ok(findings) =>
        var reported := PostProcess(findings, cfg.scan.maxFindings);
        match collectOutputs(cfg)
        case Some(e) => Caught(e)
        case None => Reported(reported)
  }

  /**
   * The exit code: 2 for a rejected configuration or a usage error, 3 for any other
   * failure, and after a complete scan 1 exactly when a reported finding is not a
   * ParserError, else 0; an exception other than ValueError from resolve_config leaves
   * run() without a code.
   */
  lemma ExitCodes(resolved: Result<Config, ConfigError>,
                  scan: Config -> Result<seq<Finding>, ConfigError>,
                  collectOutputs: Config -> Option<ConfigError>)
    ensures var code := ExitCode(Run(resolved, scan, collectOutputs));
            (code.None? <==> resolved.Err? && resolved.error.OtherError?) &&
            (code.Some? ==> 0 <= code.value <= 3) &&
            (resolved.Err? && resolved.error.ValueError? ==> code == Some(2)) &&
            (resolved.Ok? && scan(resolved.value).Err? ==>
               code == if scan(resolved.value).error.ValueError? then Some(2) else Some(3)) &&
            (resolved.Ok? && scan(resolved.value).Ok? && collectOutputs(resolved.value).Some? ==>
               code == if collectOutputs(resolved.value).value.ValueError? then Some(2) else Some(3)) &&
            (resolved.Ok? && scan(resolved.value).Ok? && collectOutputs(resolved.value).None? ==>
               var reported := PostProcess(scan(resolved.value).value, resolved.value.scan.maxFindings);
               (code == Some(1) <==> exists i :: 0 <= i < |reported| && Real(reported[i])) &&
               (code == Some(0) <==> forall i :: 0 <= i < |reported| ==> !Real(reported[i])))
  {
  }
}
