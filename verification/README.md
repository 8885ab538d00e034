# vulnray scan engine — a Dafny model

vulnray scans a C code base for vulnerabilities with a local language model. It walks
the project, cuts each file into chunks, asks the model about each chunk in one or two
passes, parses the model's JSON answer into findings, removes duplicates and writes the
results as a JSON report, a CSV file and a Markdown document; a separate exporter packs
the source files into one plain-text container (comments stripped, blank runs collapsed). This project models the deterministic
core of that pipeline and proves what each step promises:

- `severity.dfy` (`Severity`): normalising free-form severities and ranking them.
- `params.dfy` (`Params`): the sampling parameters that each scan mode selects.
- `language_filter.dfy` (`LanguageFilter`): which file suffixes a language list allows.
- `symbol_table.dfy` (`Symbols`): the function-definition index and its per-file extractor.
- `chunking.dfy` (`Chunking`): the function chunker and the sliding-window chunker.
- `finding_model.dfy`, `finding_parser.dfy` (`FindingModel`, `FindingParser`): the finding
  record, locating the JSON in a model answer, and turning it into findings or a
  ParserError placeholder.
- `multipass.dfy` (`Multipass`): the optional second, deeper pass over chunks that reported
  something.
- `dedup.dfy` (`Dedup`), `summary.dfy` (`Summary`): deduplication and the severity summary.
- `json_report.dfy`, `csv_report.dfy`, `markdown_report.dfy` (`JsonReport`, `CsvReport`,
  `MarkdownReport`): the three report writers, including the incremental JSON report.
- `export_code.dfy` (`ExportCode`): the codebase exporter — language tags, C-family comment
  stripping, blank-line collapsing, the export records and the "CODEBASE_CONTAINER v1" text.
- `config.dfy`, `config_merge.dfy` (`Config`, `ConfigMerge`): defaults, layered overrides
  and validation of the configuration.
- `cli.dfy` (`Cli`): the scan driver — chunk building, per-chunk analysis, counters, ids,
  the finding cap and the exit code.
- `text.dfy`, `pyvalue.dfy`, `pydict.dfy`, `wrappers.dfy`: shared helpers (line splitting
  and joining, the JSON value model, ordered dictionaries, Option/Result).

Everything the engine does through the outside world — reading files, the regular
expressions, the JSON codec, number formatting, the clock and the language model itself —
enters the model as a parameter (a function value or an input), so each property holds for
whatever those return.


## Model

| member | source | states |
|---|---|---|
| Severity.NormalizeSeverity | vulnllm/findings/severity.py:6-16 | the result is always one of low/medium/high/critical; empty input gives medium; a name that is one of the four after lower-casing and trimming is kept; info/informational map to low, severe/very high to high, anything else to medium |
| Severity.SeverityRank | vulnllm/findings/severity.py:19-21 | the rank is between 1 and 4 and is the 1-based position of the normalised severity in the severity list |
| Severity.NormalizeSeverityName | vulnllm/findings/severity.py:10-11 | each of the four severity names normalises to itself |
| Severity.NormalizeIdempotent | vulnllm/findings/severity.py:6-16 | normalising an already normalised severity changes nothing |
| Severity.NormalizeIgnoresCaseAndPadding | vulnllm/findings/severity.py:9 | upper-casing a value and padding it with whitespace does not change what it normalises to |
| Severity.RankOrder | vulnllm/findings/severity.py:3 | low, medium, high and critical rank 1, 2, 3 and 4 |
| Severity.CanonOfSeverity | vulnllm/findings/severity.py:9-11 | a severity name is already stripped and lower-case |
| Params.ModeParams | vulnllm/inference/parameters.py:16-22 | deterministic mode pins temperature 0 and top_p 1 and keeps max_tokens; max-recall keeps top_p, raises max_tokens to at least 2000 (deep) or 1400 and temperature to at least 0.2, each result being either the configured value or the floor; other modes pass the configuration through; the seed is always the configured one |
| Params.DeepOnlyRaisesMaxTokens | vulnllm/inference/parameters.py:19-21 | a deep call differs from a shallow one only in max_tokens, never lower, and only in max-recall mode |
| Params.ResolvedDeterministicSampling | vulnllm/inference/parameters.py:17-18 | for a configuration that resolves successfully in deterministic mode the parameters are temperature 0, top_p 1 and the configured seed and max_tokens |
| LanguageFilter.Allowed | vulnllm/scanner/language_filter.py:8-12 | a suffix is allowed exactly when some listed language's table entry contains it |
| LanguageFilter.AllowedExtensions | vulnllm/scanner/language_filter.py:8-12 | the union loop computes exactly that set |
| LanguageFilter.AllowedSetOnly | vulnllm/scanner/language_filter.py:10-11 | the result depends only on which languages are listed, not on their order or repetition |
| LanguageFilter.AllowedTable | vulnllm/scanner/language_filter.py:3-5 | C allows .c and .h; a list without C, including the empty list, allows nothing; a list with C allows exactly .c and .h |
| Symbols.SymbolTable.constructor | vulnllm/indexing/symbol_table.py:12-14 | a new table maps no name |
| Symbols.SymbolTable.Add | vulnllm/indexing/symbol_table.py:16-17 | the location is appended to the name's list, which is created when missing, and every other name's list is unchanged |
| Symbols.AddedLookup | vulnllm/indexing/symbol_table.py:16-20 | after an add, lookup of the added name returns its old list plus the new location and lookup of any other name is unchanged |
| Symbols.LookupInsertionOrder | vulnllm/indexing/symbol_table.py:16-20 | after any sequence of adds, lookup returns exactly the locations added under that name in insertion order, and [] for a name never added |
| Symbols.ExtractFunctions | vulnllm/indexing/symbol_table.py:23-33 | the extractor returns nothing for an unreadable file and otherwise the definitions the pattern finds among the file's lines, numbered from 1 |
| Symbols.DefinitionsSound | vulnllm/indexing/symbol_table.py:29-32 | every extracted entry names a line within the file that the pattern matches with that name, and the line numbers strictly ascend |
| Symbols.DefinitionsComplete | vulnllm/indexing/symbol_table.py:29-32 | every line the pattern matches contributes its definition with its 1-based line number |
| Symbols.NoDefinitions | vulnllm/indexing/symbol_table.py:29-33 | a file none of whose lines match yields no definitions |
| Symbols.Added | vulnllm/indexing/symbol_table.py:16-17 | an add makes the added name a key and keeps every other key |
| Symbols.AddedUnder | vulnllm/indexing/symbol_table.py:16-20 | a name collects no more locations than there were adds |
| Symbols.Definitions | vulnllm/indexing/symbol_table.py:29-32 | a file yields no more definitions than it has lines |
| Dedup.DeduplicateFindings | vulnllm/findings/deduplicator.py:6-15 | the seen-set loop returns exactly the findings no earlier finding shares a key with |
| Dedup.DedupeKeys | vulnllm/findings/deduplicator.py:10-14 | the kept findings have pairwise distinct keys (file, start line, end line, vulnerability type) and between them cover every key of the input |
| Dedup.DedupeKeepsFirst | vulnllm/findings/deduplicator.py:9-14 | each kept finding is the first occurrence of its key in the input, and the kept findings keep their input order |
| Dedup.DedupeDistinct | vulnllm/findings/deduplicator.py:6-15 | a list whose keys are already distinct is returned unchanged |
| Dedup.DedupeIdempotent | vulnllm/findings/deduplicator.py:6-15 | deduplicating twice is deduplicating once |
| Dedup.Dedupe | vulnllm/findings/deduplicator.py:6-15 | deduplication never adds findings |
| Summary.CountIfExtremes | vulnllm/reporting/summary.py:9 | a count is zero exactly when no element qualifies and equals the length exactly when all do |
| Summary.CountIfPermutation | vulnllm/reporting/summary.py:9 | counting does not depend on the order of the elements |
| Summary.SummaryEmpty | vulnllm/reporting/summary.py:8-18 | no findings give a total of 0 and four zero buckets |
| Summary.SummaryAppend | vulnllm/reporting/summary.py:8-18 | the summary of a concatenation is the field-wise sum of the two summaries |
| Summary.SummaryAddOne | vulnllm/reporting/summary.py:9-17 | a ParserError placeholder leaves the summary unchanged; any other finding adds one to the total and one to the bucket of its severity, if it is one of the four |
| Summary.SummaryPermutation | vulnllm/reporting/summary.py:8-18 | the summary does not depend on the order of the findings |
| Summary.SummaryTotals | vulnllm/reporting/summary.py:9-17 | the buckets never add up to more than the total, nor the total to more than the number of findings; the buckets add up to exactly the total when every severity is one of the four; the total is 0 exactly when every finding is a ParserError placeholder |
| Chunking.CloseIndex | vulnllm/chunking/function_chunker.py:36-47 | the closing index is the first line from the opening line on at which the running `{`/`}` balance drops to zero or below, or the last line of the file when it never does |
| Chunking.CloseIndexUnique | vulnllm/chunking/function_chunker.py:36-47 | any index with that first-close property is the closing index |
| Chunking.CloseScan | vulnllm/chunking/function_chunker.py:36-47 | the brace walk stops at the closing index, or runs off the end of the file when the balance never closes |
| Chunking.ChunkAt | vulnllm/chunking/function_chunker.py:34-58 | the chunk opened by a matching line starts there, carries the captured name, ends at the closing line (capped at the file's end) and holds the newline-joined lines of that range; the scan resumes after the closing line |
| Chunking.ChunkByFunction | vulnllm/chunking/function_chunker.py:22-60 | every chunk is opened by a matching line and closed by the brace balance; chunks are in order without overlap; no matching line outside a chunk is skipped, up to the end of the file; when the pattern needs a `{` and the file has none, there are no chunks |
| Chunking.NoBraceNoChunks | vulnllm/chunking/function_chunker.py:7-9 | since the definition pattern requires a `{`, a file without one yields no function chunks |
| Chunking.CloseFrom | vulnllm/chunking/function_chunker.py:36-47 | the walk from an open line stops at the first line where the balance drops to 0 or below, or at the last line |
| Chunking.ScanSkip | vulnllm/chunking/function_chunker.py:28-32 | a line that does not match moves the scan on without a chunk |
| Chunking.AppendFunctionChunk | vulnllm/chunking/function_chunker.py:34-58 | appending a chunk opened by a matching line keeps every chunk a function chunk |
| Chunking.AppendOrdered | vulnllm/chunking/function_chunker.py:49-58 | a chunk starting after the resume point keeps the chunks in order |
| Chunking.AppendNoSkippedMatch | vulnllm/chunking/function_chunker.py:28-32 | no matching line between the resume point and the new chunk is skipped |
| Chunking.ScanTake | vulnllm/chunking/function_chunker.py:34-58 | taking a chunk moves the scan past its closing line |
| Chunking.TokenLen | vulnllm/chunking/sliding_chunker.py:8-9 | a line's token estimate is at least 1 and otherwise a quarter of its length, rounded down |
| Chunking.TokensAtLeastLength | vulnllm/chunking/sliding_chunker.py:8-9 | a range of lines is estimated at no fewer tokens than it has lines |
| Chunking.OverlapStart | vulnllm/chunking/sliding_chunker.py:39-43 | the backward walk from the window's end stops at the latest line from which the lines up to the end reach the overlap budget, or at the window's start when none does |
| Chunking.OverlapUnique | vulnllm/chunking/sliding_chunker.py:39-43 | any index with that stopping property is where the walk stops |
| Chunking.NextStart | vulnllm/chunking/sliding_chunker.py:44 | the next window starts inside the current one, one line on at least |
| Chunking.GrowWindow | vulnllm/chunking/sliding_chunker.py:20-26 | a window takes at least one line, keeps growing while it is under the token budget and stops at the budget or at the end of the file |
| Chunking.WalkBack | vulnllm/chunking/sliding_chunker.py:39-43 | the overlap loop computes the stopping index described above |
| Chunking.OverlapFrom | vulnllm/chunking/sliding_chunker.py:39-43 | the walk back stops at the window start or at the first index whose tail reaches the overlap |
| Chunking.GrownWindow | vulnllm/chunking/sliding_chunker.py:20-35 | a range grown that way, with its joined text and no function name, is a window the chunker may emit |
| Chunking.SlideStep | vulnllm/chunking/sliding_chunker.py:27-44 | appending a window keeps the chunker's state: either the file is covered to its last line, or the next window starts where the overlap walk says |
| Chunking.ChunkSliding | vulnllm/chunking/sliding_chunker.py:12-45 | an empty file gives no windows and any other file gives at least one; every window is within budget as above and carries its text; the first starts at line 1, the last ends at the file's last line, and each next window starts where the overlap walk from the previous one says |
| Chunking.WindowsCover | vulnllm/chunking/sliding_chunker.py:12-45 | every line of the file lies in some window |
| Chunking.WindowStartsIncrease | vulnllm/chunking/sliding_chunker.py:44 | window starts strictly increase, so the chunker always makes progress |
| FindingModel.Str | vulnllm/findings/model.py:245 | str() of a decoded string is the string itself, of None is "None", of an integer its decimal text |
| FindingModel.FormatId | vulnllm/findings/model.py:240 | a finding id is at least six characters long and starts with "F-" |
| FindingModel.FormatIdDigits | vulnllm/findings/model.py:240 | after "F-" the id holds the zero-padded decimal digits of a non-negative number, or "-" and the digits of a negative one |
| FindingModel.FormatIdInjective | vulnllm/findings/model.py:240 | different numbers give different ids |
| FindingModel.NormalizeChoice | vulnllm/findings/model.py:38-42 | the result is always one of the allowed values: the stripped, lower-cased text of the value (or of the fallback when the value is falsy) when that is allowed, else the fallback |
| FindingModel.FalsyGivesFallback | vulnllm/findings/model.py:39 | a falsy value normalises to the fallback |
| FindingModel.NormalizeAnalysisMode | vulnllm/findings/model.py:38-42 | the analysis mode is one of shallow, contract-aware, verified, and shallow for anything unrecognised |
| FindingModel.NormalizeContextSufficiency | vulnllm/findings/model.py:71-75 | the context sufficiency is one of sufficient, insufficient, unknown, and unknown for anything unrecognised |
| FindingModel.NormalizeExploitability | vulnllm/findings/model.py:78-82 | the exploitability is one of practical, theoretical, contract-break-only, and theoretical for anything unrecognised |
| FindingModel.ChoiceIgnoresCaseAndPadding | vulnllm/findings/model.py:39-41 | an allowed value in any letter case and with surrounding whitespace is recognised |
| FindingModel.EvidenceSpans | vulnllm/findings/model.py:45-56 | the result is a non-negative int or True: a list gives its length; True stays True, because max(0, True) is True, and False gives 0; an int is clamped at 0 and a float truncated and clamped; a string that str.isdigit() accepts after stripping, in any script, gives int() of it, so "١٢" gives 12; when int() rejects such a string ("²", or more than 4300 digits) the conversion fails with int()'s ValueError message; any other string, None and dicts give 0 |
| FindingModel.EvidenceSpansTrue | vulnllm/findings/model.py:48-49 | True is kept as True and False becomes 0 |
| FindingModel.EvidenceSpansSuperscript | vulnllm/findings/model.py:52-55 | "²" passes str.isdigit() but int() rejects it, so the conversion fails with "invalid literal for int() with base 10: '²'" |
| FindingModel.EvidenceSpansArabicIndic | vulnllm/findings/model.py:52-55 | "١٢" counts 12 |
| FindingModel.ParseBool | vulnllm/findings/model.py:59-68 | a boolean is itself; a string in true/1/yes/y (any case, padded) is true, one in false/0/no/n is false; anything else is the default |
| FindingModel.ToFloat | vulnllm/findings/model.py:247 | float() of an integer or float is its value and fails on lists, dicts and None |
| FindingModel.Chars | vulnllm/findings/model.py:250 | iterating a string visits its one-character strings in order |
| FindingModel.StrValues | vulnllm/findings/model.py:250 | iterating a dict visits its keys in order |
| FindingModel.Iterate | vulnllm/findings/model.py:250 | a list yields its items, a string its characters, a dict its keys; iterating None, booleans and numbers fails |
| FindingModel.TruthyStrings | vulnllm/findings/model.py:250 | keeping the truthy items keeps at most all of them, and a list of non-empty strings is kept whole, in order |
| FindingModel.TruthyStringsOfStrValues | vulnllm/findings/model.py:250 | non-empty strings survive the truthy filter and str() unchanged |
| FindingModel.ToFinding | vulnllm/findings/model.py:239-262 | a converted finding takes the given id number and the chunk's file, lines and function; its severity, analysis mode, context sufficiency and exploitability are always normalised, and its evidence count is a non-negative int or True; missing keys take the documented defaults (Potential Vulnerability, medium, 0.5, empty reasoning, no references) and string values are carried over; conversion fails exactly when float() of the confidence fails, iterating the references fails, or int() fails on an evidence_spans digit string |
| FindingModel.ParserErrorFinding | vulnllm/findings/model.py:266-279 | the placeholder for a failed parse has the given id, type ParserError, severity low, confidence 0, the first 1200 characters of the answer as reasoning, the error message, and the chunk's location |
| FindingParser.KnownKeyCount | vulnllm/findings/model.py:118-128 | an item scores at most one point per known key |
| FindingParser.ItemPoints | vulnllm/findings/model.py:115-128 | the known-key points of a list are at most seven per item |
| FindingParser.ScoreObj | vulnllm/findings/model.py:103-129 | an object scores 20 or more exactly when it carries a vulnerabilities list; without one it scores at most 16 (the two final-answer points), with one at most 16 + 20 + 5 + 7 per item |
| FindingParser.ListOutscoresAnswer | vulnllm/findings/model.py:105-113 | an object with a vulnerabilities list outscores every object without one |
| FindingParser.DictAt | vulnllm/findings/model.py:132-140 | a candidate is found only at a `{` and is the dict raw_decode returns there |
| FindingParser.CandidatesBelow | vulnllm/findings/model.py:130-146 | the candidates below a position are dicts, at most one per position |
| FindingParser.NoBraceNoCandidate | vulnllm/findings/model.py:132-134 | a stretch without `{` adds no candidate |
| FindingParser.Scores | vulnllm/findings/model.py:143 | each candidate's score, in order |
| FindingParser.FirstBest | vulnllm/findings/model.py:144-145 | the kept index scores highest and every earlier index scores strictly less |
| FindingParser.FirstBestUnique | vulnllm/findings/model.py:144-145 | only one index has that property |
| FindingParser.BestIsFirstMax | vulnllm/findings/model.py:140-149 | the kept candidate is a candidate, scores at least as high as every other and strictly higher than every earlier one, so ties keep the earliest |
| FindingParser.BestAppend | vulnllm/findings/model.py:144-145 | a later candidate replaces the kept one only with a strictly greater score |
| FindingParser.BraceBest | vulnllm/findings/model.py:130-151 | the brace scan yields something exactly when there is a candidate, and then the best one |
| FindingParser.SkippedNoBrace | vulnllm/findings/model.py:132 | the positions raw.find skipped hold no `{` |
| FindingParser.NextBrace | vulnllm/findings/model.py:132-134 | when find reports no `{`, no candidate remains; otherwise it lands on a `{` and skips none |
| FindingParser.KeepBest | vulnllm/findings/model.py:143-145 | the best_scored update keeps the pair of the best candidate so far and its score |
| FindingParser.CandidateAt | vulnllm/findings/model.py:135-142 | a `{` adds the dict raw_decode finds there, and nothing when it finds none or a non-dict |
| FindingParser.ScanAt | vulnllm/findings/model.py:135-146 | one decode attempt keeps best_any set to the first candidate and best_scored to the best one so far |
| FindingParser.ScanNext | vulnllm/findings/model.py:132-146 | one turn of the scan either ends it with every candidate seen, or advances past the next `{` keeping that state |
| FindingParser.BraceScan | vulnllm/findings/model.py:99-151 | the idx loop returns exactly the best candidate, or nothing when there is none |
| FindingParser.RemoveFences | vulnllm/findings/model.py:164 | removing fences never lengthens the text and leaves text without a backtick unchanged |
| FindingParser.RemoveAll | vulnllm/findings/model.py:164 | removing a pattern never lengthens the text and leaves text without it unchanged |
| FindingParser.NonCommas | vulnllm/findings/model.py:174 | the comma-free view of a text holds no comma |
| FindingParser.DropTrailingCommas | vulnllm/findings/model.py:174 | the repair only removes commas: everything else stays, in order, and text without commas is unchanged |
| FindingParser.Unfenced | vulnllm/findings/model.py:159-164 | text without a fence is only stripped |
| FindingParser.BraceSpan | vulnllm/findings/model.py:168-172 | a span exists exactly when the first `{` comes before the last `}`, and then it runs from one to the other |
| FindingParser.Repair | vulnllm/findings/model.py:158-178 | without a brace span there is no repair; a repair is the decoded span after trailing commas are dropped |
| FindingParser.ExtractJsonRun | vulnllm/findings/model.py:85-155 | the strategies run in the code's order (whole text, marker block, brace scan, repair), and the method returns exactly ExtractJson: the object found or the "No JSON object found" error |
| FindingParser.BlockDecides | vulnllm/findings/model.py:93-97 | once the marker pair is present the block's decode is the answer, even when it fails |
| FindingParser.BraceScanBeforeRepair | vulnllm/findings/model.py:148-149 | without a marker pair the best brace candidate wins whenever there is one |
| FindingParser.RepairLast | vulnllm/findings/model.py:150-155 | with no candidate the repaired payload is the answer, and with no repair the error |
| FindingParser.JudgeItem | vulnllm/findings/model.py:196-206 | the #judge item has the seven keys |
| FindingParser.JudgeType | vulnllm/findings/model.py:188-193 | the reported type is the stripped #type text unless that reads N/A |
| FindingParser.FinalAnswer | vulnllm/findings/model.py:181-207 | there is an answer exactly when both lines are present; #judge: no gives an empty vulnerabilities list; otherwise one #judge item |
| FindingParser.Decode | vulnllm/findings/model.py:225-230 | the extracted JSON when there is one, else the #judge answer, else the extraction's error |
| FindingParser.DictCount | vulnllm/findings/model.py:236-238 | the dict items of a list are at most all of them |
| FindingParser.FindingOfNumbers | vulnllm/findings/model.py:239-244 | every finding the conversion makes takes the asked number and the chunk's location |
| FindingParser.Convert | vulnllm/findings/model.py:235-264 | a successful conversion makes one finding per dict item |
| FindingParser.ConvertNumbered | vulnllm/findings/model.py:235-264 | finding k of a successful conversion is numbered firstId + k, so non-dict items consume no number |
| FindingParser.ConvertErrSticks | vulnllm/findings/model.py:236-264 | the first conversion error aborts the whole list with its message |
| FindingParser.ConvertRun | vulnllm/findings/model.py:235-265 | the loop over the vulnerabilities list computes exactly that conversion |
| FindingParser.Failure | vulnllm/findings/model.py:266-280 | a failure is one ParserError finding with the error's message, and the counter moves on by one |
| FindingParser.ParseDecoded | vulnllm/findings/model.py:231-280 | the counter always moves on by the number of findings returned |
| FindingParser.ParseFindings | vulnllm/findings/model.py:222-280 | parse_findings never raises, and the counter moves on by the number of findings returned |
| FindingParser.ParseFindingsRun | vulnllm/findings/model.py:222-280 | the code's run of parse_findings returns exactly that |
| FindingParser.DecodeRun | vulnllm/findings/model.py:225-230 | the first half returns exactly Decode: the decoded object or its error |
| FindingParser.ParseDecodedRun | vulnllm/findings/model.py:231-280 | the second half returns exactly the findings and next id that ParseDecoded gives |
| FindingParser.ParseNumbered | vulnllm/findings/model.py:239-279 | whatever happens, finding k is numbered startId + k, carries the chunk's file, lines and function, and has a normalised severity |
| FindingParser.FailureNumbered | vulnllm/findings/model.py:267-278 | the placeholder is numbered startId, sits in the chunk and has severity low |
| FindingParser.FailureIsOnePlaceholder | vulnllm/findings/model.py:266-280 | a decoding error gives exactly one placeholder: ParserError, low, confidence 0, the first 1200 characters as reasoning, the error as parse_error, counter + 1 |
| FindingParser.MalformedIsFailure | vulnllm/findings/model.py:231-233 | a decoded non-dict, or a vulnerabilities value that is not a list, is a failure too |
| FindingParser.SuccessOnePerDict | vulnllm/findings/model.py:235-265 | on success there is one finding per dict item, none a placeholder, and a dict without vulnerabilities gives none |
| FindingParser.ItemErrorFailsAll | vulnllm/findings/model.py:247-250 | a bad confidence or references value in any item fails the whole parse |
| FindingParser.JudgeNoGivesNothing | vulnllm/findings/model.py:189-190 | #judge: no, when every JSON strategy failed, gives no findings and keeps the counter |
| FindingParser.CweRefs | vulnllm/findings/model.py:194 | the references are non-empty CWE- names |
| FindingParser.JudgeItemLookups | vulnllm/findings/model.py:196-206 | the #judge item holds the type, medium, 0.6, the first 1200 characters and the CWE references |
| FindingParser.ConvertSingle | vulnllm/findings/model.py:236-264 | converting a one-dict list is converting that dict |
| FindingParser.ParseSingleDict | vulnllm/findings/model.py:231-280 | a single-dict vulnerabilities list parses to that item's finding, or to a failure |
| FindingParser.JudgeItemFinding | vulnllm/findings/model.py:239-262 | the #judge item converts to a medium finding with confidence 0.6, its type, reasoning and CWE reference |
| FindingParser.JudgeYesGivesOne | vulnllm/findings/model.py:192-207 | #judge: yes, when every JSON strategy failed, gives exactly one finding numbered startId with those values |
| Multipass.MaxOrZero | vulnllm/inference/multipass.py:10 | the maximum of the values, which is one of them, or 0 for none |
| Multipass.Score | vulnllm/inference/multipass.py:9-10 | a chunk's score is between 0 and 4, 0 exactly when it has no findings, at least every finding's severity rank and equal to one of them |
| Multipass.Runs | vulnllm/inference/multipass.py:23-38 | the run_chunk calls on a list of chunks, one per chunk in order, with the given depth |
| Multipass.Emits | vulnllm/inference/multipass.py:25-45 | the on_emit calls for a list of answers, one per answer in order |
| Multipass.SingleTrace | vulnllm/inference/multipass.py:20-27 | without multi-pass each chunk is run once, shallow, in input order, and each run is followed by one emission of exactly what that call returned |
| Multipass.SingleResult | vulnllm/inference/multipass.py:26-27 | without multi-pass the result is the emitted lists concatenated in order |
| Multipass.SinglePass | vulnllm/inference/multipass.py:20-27 | the multi-pass-off loop produces exactly that result and trace, stopping at the first RuntimeError |
| Multipass.ErrStops | vulnllm/inference/multipass.py:22-26 | once run_chunk raises, no further call or emission happens |
| Multipass.Batch | vulnllm/inference/multipass.py:31-38 | a batch of calls makes at most one call per chunk and, when none fails, returns one answer per chunk |
| Multipass.BatchAnswers | vulnllm/inference/multipass.py:31-38 | each answer is what run_chunk returned for that chunk given every earlier call, and a failure is the error of the call after the last answer |
| Multipass.Flagged | vulnllm/inference/multipass.py:36 | the flagged selection is exactly the chunks with a non-empty pass-1 answer, ParserError-only answers included, in ascending input order |
| Multipass.Scores | vulnllm/inference/multipass.py:33 | one score per chunk |
| Multipass.Insert | vulnllm/inference/multipass.py:33 | one step of the stable sort adds exactly the one new index |
| Multipass.InsertSorted | vulnllm/inference/multipass.py:33 | inserting a later index into a descending-score, input-order-tiebreak list keeps it so ordered |
| Multipass.HeadBeforeRest | vulnllm/inference/multipass.py:33 | the head of such a list ranks before everything the insertion leaves after it |
| Multipass.SortedCons | vulnllm/inference/multipass.py:33 | an index ranking before a sorted list can head it |
| Multipass.Ranked | vulnllm/inference/multipass.py:33 | the ranking is a permutation of the chunk indices, by descending score with ties in input order |
| Multipass.SliceTo | vulnllm/inference/multipass.py:34 | the slice [:k] is a prefix of length min(k, n), or n + k clamped at 0 for a negative k |
| Multipass.Selection | vulnllm/inference/multipass.py:32-36 | every selected index names a chunk |
| Multipass.SortedDistinct | vulnllm/inference/multipass.py:33 | a ranking never lists an index twice |
| Multipass.SelectionDistinct | vulnllm/inference/multipass.py:32-36 | no chunk is selected twice, so none is run twice in pass 2 |
| Multipass.SelectionFlagged | vulnllm/inference/multipass.py:35-36 | any target other than topk selects exactly the chunks with a non-empty pass-1 answer, in input order |
| Multipass.SelectionTopK | vulnllm/inference/multipass.py:32-34 | topk selects min(K, n) chunks (n + K clamped at 0 for a negative K), in descending score with ties in input order, and every chunk left out ranks after every chunk selected |
| Multipass.RankedPrefix | vulnllm/inference/multipass.py:33-34 | a prefix of the ranking is sorted and ranks before everything after it |
| Multipass.DeepMap | vulnllm/inference/multipass.py:38 | the pass-2 map has an entry exactly for the selected chunks |
| Multipass.DeepMapLookup | vulnllm/inference/multipass.py:38-42 | with no chunk selected twice, each selected chunk maps to its own pass-2 answer |
| Multipass.Chosen | vulnllm/inference/multipass.py:41-43 | the merge chooses one answer per chunk |
| Multipass.Picked | vulnllm/inference/multipass.py:34-38 | the selected chunks, in selection order |
| Multipass.RunScanMultipass | vulnllm/inference/multipass.py:13-48 | the scan returns or raises exactly what Scan gives for its mode, and makes exactly the calls of run_chunk and on_emit that Scan records |
| Multipass.Merge | vulnllm/inference/multipass.py:40-48 | the merge loop emits each chunk's chosen answer once in input order and returns their concatenation |
| Multipass.MultiShape | vulnllm/inference/multipass.py:29-48 | with multi-pass on and no error, pass 1 runs every chunk once in input order with deep == (pass1_budget == "normal"), then pass 2 runs each selected chunk deep in selection order, and only then is every chunk emitted once in input order with its pass-2 answer if selected and its pass-1 answer otherwise; the result is those answers concatenated |
| Multipass.Merged | vulnllm/inference/multipass.py:41-43 | one answer per chunk |
| Multipass.MultiUnfold | vulnllm/inference/multipass.py:29-48 | a successful multi-pass scan is pass 1, the selection, pass 2 and the merge, with neither pass failing |
| Multipass.ChosenLookup | vulnllm/inference/multipass.py:41-43 | each chunk's merged answer is its pass-2 answer when selected and its pass-1 answer otherwise |
| Multipass.IndexOf | vulnllm/inference/multipass.py:38 | the first position of a selected index |
| JsonReport.FindingItem | vulnllm/reporting/json_report.py:12-40 | an item is a dict |
| JsonReport.FindingItemKeys | vulnllm/reporting/json_report.py:12-40 | an item carries "reasoning" exactly when reasoning is asked for, and "parse_error" exactly when the finding has a non-empty one; id, file and reasoning hold the finding's values |
| JsonReport.Prefixed | vulnllm/reporting/json_report.py:60-61 | every line, in order, with the prefix in front |
| JsonReport.LastNonSpaceByte | vulnllm/reporting/json_report.py:43-56 | the result is at most one character, chr() of a byte, and it is empty exactly when chr() makes every byte whitespace |
| JsonReport.LastNonSpaceByteStep | vulnllm/reporting/json_report.py:50-54 | one more byte is the answer unless chr() makes it whitespace |
| JsonReport.ReadText | vulnllm/reporting/json_report.py:65 | reading with universal newlines never lengthens the text and leaves text without "\r" unchanged |
| JsonReport.StripSummary | vulnllm/reporting/json_report.py:64-70 | the text read with universal newlines is cut at its last marker, never growing; text without "\r" is cut back to a prefix of itself |
| JsonReport.Inner | vulnllm/reporting/json_report.py:91 | the lines without the first and the last, in order |
| JsonReport.PrefixEach | vulnllm/reporting/json_report.py:59-61 | the indenting loops compute exactly the prefixed lines |
| JsonReport.JsonReportFile.constructor | vulnllm/reporting/json_report.py:43-44 | a report file is its path and its text |
| JsonReport.JsonReportFile.LastNonWhitespaceChar | vulnllm/reporting/json_report.py:43-56 | reading the file's UTF-8 bytes backwards in blocks of at most 4096 bytes returns chr() of the last byte that chr() does not make whitespace, or "" when there is none, the same answer as reading all the bytes at once |
| JsonReport.JsonReportFile.StripFinalSummary | vulnllm/reporting/json_report.py:64-70 | the file, read with universal newlines, is cut at its last summary marker and written back; without a marker it is left exactly as it was |
| JsonReport.JsonReportFile.Init | vulnllm/reporting/json_report.py:73-94 | the file holds the opening lines, the metadata's inner lines re-indented, and the "findings" array opener |
| JsonReport.JsonReportFile.AppendFinding | vulnllm/reporting/json_report.py:97-108 | the append succeeds exactly when the stripped file ends in `[` or `}`, and then the file is the stripped text plus the separator and the indented item; otherwise it fails with the layout error and the file is left stripped |
| JsonReport.JsonReportFile.AppendSummary | vulnllm/reporting/json_report.py:111-123 | the summary append succeeds under the same guard, and then the file is the stripped text plus the closing bracket, the summary block and the closing brace |
| JsonReport.JsonReportFile.WriteReport | vulnllm/reporting/json_report.py:126-138 | writing a whole report always succeeds and yields the header, one item per finding in order, ParserError included, and one summary block of build_summary |
| JsonReport.Items | vulnllm/reporting/json_report.py:136-137 | one item block per finding |
| JsonReport.ItemsWellFormed | vulnllm/reporting/json_report.py:102-105 | every item block is one the surgery can work on |
| JsonReport.WriteStep | vulnllm/reporting/json_report.py:136-137 | each turn of the write loop grows the report by the next finding |
| JsonReport.ItemsSnoc | vulnllm/reporting/json_report.py:136-137 | the items of one more finding are the earlier items plus its block |
| JsonReport.WriteFinish | vulnllm/reporting/json_report.py:138 | the summary goes after all the findings |
| JsonReport.SpacesNoBreak | vulnllm/reporting/json_report.py:60 | an indent holds no line break |
| JsonReport.NoBreakConcat | vulnllm/reporting/json_report.py:61 | two pieces without line breaks make a line without one |
| JsonReport.SplitLinesNoBreaks | vulnllm/reporting/json_report.py:61 | the lines of a split hold no line break |
| JsonReport.PrefixedNoBreaks | vulnllm/reporting/json_report.py:61 | prefixing keeps lines free of breaks |
| JsonReport.ItemWellFormed | vulnllm/reporting/json_report.py:102-105 | every item json.dumps can produce, indented by four, is a well-formed block ending in `}` |
| JsonReport.IndentedBlock | vulnllm/reporting/json_report.py:102-105 | indenting a dict's lines by four gives such a block |
| JsonReport.HeaderWellFormed | vulnllm/reporting/json_report.py:89-93 | the header init writes is a well-formed block ending in `[` |
| JsonReport.HeaderBlock | vulnllm/reporting/json_report.py:90-93 | the opening lines around the metadata form such a block |
| JsonReport.HeaderFrameLines | vulnllm/reporting/json_report.py:90-93 | the fixed header lines hold no line break and cannot open a marker |
| JsonReport.TailWellFormed | vulnllm/reporting/json_report.py:116-121 | the summary tail is a block ending in `}` whose first line closes the findings array |
| JsonReport.TailBlock | vulnllm/reporting/json_report.py:118-121 | the tail built from the summary's lines is such a block |
| JsonReport.JoinConcat | vulnllm/reporting/json_report.py:123 | joining two lists is joining each and putting the separator between |
| JsonReport.LayoutConcat | vulnllm/reporting/json_report.py:94-123 | writing lines after lines is writing all of them |
| JsonReport.LayoutQuadFree | vulnllm/reporting/json_report.py:66 | a guarded layout never holds a line break followed by "  ]" |
| JsonReport.QuadStraddle | vulnllm/reporting/json_report.py:66 | such an occurrence cannot straddle a layout and a following ordinary line |
| JsonReport.MarkerHasQuad | vulnllm/reporting/json_report.py:66 | the marker begins with a line break and "  ]" |
| JsonReport.MarkerAtSeam | vulnllm/reporting/json_report.py:118-123 | the marker sits where the summary block begins |
| JsonReport.JoinHead | vulnllm/reporting/json_report.py:123 | a join begins with its first part |
| JsonReport.OccursAtSuffix | vulnllm/reporting/json_report.py:67 | an occurrence past a prefix is an occurrence in the rest |
| JsonReport.StripGuarded | vulnllm/reporting/json_report.py:67-69 | a report without a summary holds no marker, so stripping leaves it alone |
| JsonReport.StripTail | vulnllm/reporting/json_report.py:64-70 | stripping a report followed by a summary block cuts exactly that block |
| JsonReport.TailText | vulnllm/reporting/json_report.py:123 | a blank line and the tail after a layout is the text the summary append writes |
| JsonReport.TailStart | vulnllm/reporting/json_report.py:118-121 | the summary block's text begins with the rest of the marker |
| JsonReport.LastOfLayout | vulnllm/reporting/json_report.py:43-56 | the last non-whitespace character of a layout is the one its last line ends with |
| JsonReport.LastOfBlock | vulnllm/reporting/json_report.py:99-100 | a block ending in `[` or `}` passes the layout guard with that character |
| JsonReport.ReportWellFormed | vulnllm/reporting/json_report.py:93-108 | a report ends in `[` before its first item and in `}` after, and is always a well-formed block |
| JsonReport.BlockAppend | vulnllm/reporting/json_report.py:106-108 | a separator and an item after a block make a block ending in `}` |
| JsonReport.AppendToReport | vulnllm/reporting/json_report.py:97-108 | appending to a report, finalised or not, strips any summary and yields the report with one more item, the separator being "\n" after `[` and ",\n" after `}` |
| JsonReport.StripReport | vulnllm/reporting/json_report.py:64-70 | stripping a report, finalised or not, gives the report without its summary |
| JsonReport.ReportEnds | vulnllm/reporting/json_report.py:99-106 | a report's last non-whitespace character is `[` until its first item and `}` after |
| JsonReport.ReportGrows | vulnllm/reporting/json_report.py:106-108 | one more item adds exactly its separator, its lines and a newline, and the earlier text is unchanged |
| JsonReport.ReportNonEmpty | vulnllm/reporting/json_report.py:90-94 | a report always has lines |
| JsonReport.SummaryOnReport | vulnllm/reporting/json_report.py:111-123 | finalising a report, finalised or not, yields the report followed by exactly one summary block, so a summary is never duplicated |
| JsonReport.SummaryText | vulnllm/reporting/json_report.py:123 | the text the summary append adds is a newline, the joined tail and a newline |
| JsonReport.SummaryRoundTrip | vulnllm/reporting/json_report.py:111-123 | finalising and then stripping gives back the report exactly |
| JsonReport.BadLayoutRefused | vulnllm/reporting/json_report.py:99-115 | a file that does not end in `[` or `}` once stripped is refused by both appends with the layout error |
| CsvReport.Escape | vulnllm/reporting/csv_report.py:14-21 | escaping never shortens a field |
| CsvReport.EncodeFields | vulnllm/reporting/csv_report.py:14-21 | one encoded field per field |
| CsvReport.ReportRows | vulnllm/reporting/csv_report.py:33-36 | at most one row per finding, each with the six columns |
| CsvReport.CsvReportFile.constructor | vulnllm/reporting/csv_report.py:13 | a new file holds no rows and no text |
| CsvReport.CsvReportFile.Init | vulnllm/reporting/csv_report.py:12-14 | after init the file holds exactly the header row with the six column names |
| CsvReport.CsvReportFile.AppendFinding | vulnllm/reporting/csv_report.py:17-30 | a ParserError finding writes nothing; any other finding appends exactly its row (file, start, end, type, severity, confidence) at the end |
| CsvReport.CsvReportFile.WriteReport | vulnllm/reporting/csv_report.py:33-36 | the file holds the header and then one row per non-ParserError finding, in input order |
| CsvReport.InitContent | vulnllm/reporting/csv_report.py:12-14 | after init the text is the header line alone |
| CsvReport.ParseQuoted | vulnllm/reporting/csv_report.py:14-21 | reading a quoted field consumes input |
| CsvReport.ParseUnquoted | vulnllm/reporting/csv_report.py:14-21 | an unquoted field stops at a comma, a carriage return or the end |
| CsvReport.ParseField | vulnllm/reporting/csv_report.py:14-21 | reading a field never lengthens the rest |
| CsvReport.ParseRecord | vulnllm/reporting/csv_report.py:14-21 | a record has a field and consumes input |
| CsvReport.QuotedRoundTrip | vulnllm/reporting/csv_report.py:21 | an escaped, quoted field reads back as itself |
| CsvReport.QuotedStep | vulnllm/reporting/csv_report.py:21 | one escaped character reads back when the rest of the field does |
| CsvReport.UnquotedRoundTrip | vulnllm/reporting/csv_report.py:21 | a field without special characters reads back as itself |
| CsvReport.FieldRoundTrip | vulnllm/reporting/csv_report.py:21 | every field the writer writes reads back as itself when a comma or the row's end follows |
| CsvReport.RecordRoundTrip | vulnllm/reporting/csv_report.py:21-30 | every row the writer writes reads back as itself, and reading stops right after it |
| CsvReport.RecordLast | vulnllm/reporting/csv_report.py:21 | a row of one field reads back |
| CsvReport.RecordStep | vulnllm/reporting/csv_report.py:21 | a longer row reads back when its rest does |
| CsvReport.FileRoundTrip | vulnllm/reporting/csv_report.py:12-36 | reading a file of written rows gives back the rows, in order |
| CsvReport.EncodeRowsCons | vulnllm/reporting/csv_report.py:14 | the first row written comes first in the file |
| CsvReport.ConcatAssoc5 | vulnllm/reporting/csv_report.py:21 | string concatenation regroups freely |
| CsvReport.EncodeRowsSnoc | vulnllm/reporting/csv_report.py:20-21 | a row appended to the file comes last and the earlier text is unchanged |
| CsvReport.ReportRowsStep | vulnllm/reporting/csv_report.py:35-36 | each finding adds its row unless it is a ParserError |
| CsvReport.ReportRoundTrip | vulnllm/reporting/csv_report.py:33-36 | the text write_csv_report leaves reads back as the header and the rows |
| CsvReport.ReportRowsCount | vulnllm/reporting/csv_report.py:18-19 | the CSV lists exactly as many findings as the summary's total |
| MarkdownReport.OrElse | vulnllm/reporting/markdown_report.py:53-58 | a non-empty string is itself, an empty one the default |
| MarkdownReport.FunctionText | vulnllm/reporting/markdown_report.py:47 | the function text is never empty: the name when there is a non-empty one, "N/A" otherwise |
| MarkdownReport.Listed | vulnllm/reporting/markdown_report.py:30-40 | the listed findings are at most all of them and none is a ParserError placeholder |
| MarkdownReport.ListedCount | vulnllm/reporting/markdown_report.py:30-32 | the report lists exactly as many findings as the summary's total |
| MarkdownReport.ListedMembers | vulnllm/reporting/markdown_report.py:30-32 | a finding is listed exactly when it is one of the findings and not a ParserError placeholder |
| MarkdownReport.ListedSnoc | vulnllm/reporting/markdown_report.py:30-32 | one more finding is listed after the others unless it is a placeholder |
| MarkdownReport.Opening | vulnllm/reporting/markdown_report.py:12-28 | the opening is fifteen lines |
| MarkdownReport.TableRows | vulnllm/reporting/markdown_report.py:30-35 | one table row per listed finding |
| MarkdownReport.DetailHead | vulnllm/reporting/markdown_report.py:41-56 | a section's head is twelve lines |
| MarkdownReport.WriteMarkdownReport | vulnllm/reporting/markdown_report.py:10-64 | the text written is the report's lines joined, right-stripped and ended by one newline |
| MarkdownReport.AppendTableRows | vulnllm/reporting/markdown_report.py:30-35 | the table loop adds one row per non-ParserError finding, in input order |
| MarkdownReport.AppendDetails | vulnllm/reporting/markdown_report.py:38-62 | the sections loop adds one section per non-ParserError finding, in input order |
| MarkdownReport.BuildDetailBlock | vulnllm/reporting/markdown_report.py:41-62 | the loop body builds exactly that finding's section |
| MarkdownReport.DetailBlockLayout | vulnllm/reporting/markdown_report.py:41-62 | a section names the finding, shows "N/A" for a missing function and "(none)" for an empty description; its reasoning part is there exactly when reasoning is included, and its references and recommendation parts only when the finding has them |
| MarkdownReport.ReportTextShape | vulnllm/reporting/markdown_report.py:64 | the text opens with the report title and ends in exactly one line break after the last non-whitespace character |
| MarkdownReport.ReportTable | vulnllm/reporting/markdown_report.py:11-37 | the executive summary's total is the number of table rows; the rows follow the fifteen opening lines, one per listed finding in order, and the Detailed Findings heading follows them |
| MarkdownReport.OpeningTotal | vulnllm/reporting/markdown_report.py:18 | the total line shows the summary's total |
| MarkdownReport.Sections | vulnllm/reporting/markdown_report.py:12-37 | where the opening, the rows and the heading sit in the assembled lines |
| MarkdownReport.TableStep | vulnllm/reporting/markdown_report.py:30-35 | one turn of the table loop adds the finding's row unless it is a placeholder |
| MarkdownReport.DetailStep | vulnllm/reporting/markdown_report.py:38-62 | one turn of the sections loop adds the finding's section unless it is a placeholder |
| MarkdownReport.AppendAssoc | vulnllm/reporting/markdown_report.py:37 | list concatenation regroups freely |
| MarkdownReport.AppendEmpty | vulnllm/reporting/markdown_report.py:37 | appending nothing changes nothing |
| ExportCode.DetectLang | vulnllm/export_code.py:29-33 | the tag is never empty and never starts with a dot |
| ExportCode.DetectLangCode | vulnllm/export_code.py:7-33 | a C-family suffix (any case) gets one of the tags c, h, cpp, hpp |
| ExportCode.DetectLangOther | vulnllm/export_code.py:29-33 | any other suffix "." + name gets the lower-cased name, and no suffix gets "txt" |
| ExportCode.LStripDots | vulnllm/export_code.py:32 | stripping leading dots leaves no leading dot and keeps the rest |
| ExportCode.LStripOneDot | vulnllm/export_code.py:32 | the lower-cased "." + name loses exactly its one dot |
| ExportCode.DetectLangIgnoresCase | vulnllm/export_code.py:18-33 | the tag and whether comments are stripped depend on the suffix only up to ASCII case |
| ExportCode.StripCFamilyComments | vulnllm/export_code.py:36-110 | the character loop computes the scanner's output over the whole text, starting in code |
| ExportCode.Advance | vulnllm/export_code.py:43-110 | one turn of the loop appends the current move's output and continues where the scanner continues |
| ExportCode.Next | vulnllm/export_code.py:44 | the look-ahead character is the next one, or nothing at the end of the text |
| ExportCode.Step | vulnllm/export_code.py:45-108 | each move consumes one or two characters and emits no more than it consumes |
| ExportCode.StepNewlines | vulnllm/export_code.py:45-108 | every move emits exactly as many line breaks as it consumes |
| ExportCode.ScanNewlines | vulnllm/export_code.py:36-110 | the stripped text has as many line breaks as the original, from every state |
| ExportCode.ScanShorter | vulnllm/export_code.py:36-110 | stripping never lengthens the text |
| ExportCode.StepCopies | vulnllm/export_code.py:43-108 | outside comments, a move over text without '/' copies what it consumes |
| ExportCode.ScanNoSlash | vulnllm/export_code.py:46-53 | text without '/' outside a comment comes out unchanged |
| ExportCode.LiteralStep | vulnllm/export_code.py:88-108 | inside a literal, an escape pair or an ordinary character is copied and the literal goes on |
| ExportCode.ScanLiteralBody | vulnllm/export_code.py:88-108 | a literal body is copied through its closing quote, after which the scanner is back in code |
| ExportCode.LiteralKept | vulnllm/export_code.py:54-108 | a string or character literal is kept verbatim, escapes and comment openers inside it included |
| ExportCode.ScanLineComment | vulnllm/export_code.py:68-75 | a line comment's characters are dropped up to its line break, which is kept |
| ExportCode.LineCommentRemoved | vulnllm/export_code.py:46-75 | "//" up to the end of the line becomes just the line break |
| ExportCode.Newlines | vulnllm/export_code.py:77-86 | the line breaks kept from a block comment contain no '/' and are no longer than it |
| ExportCode.BlockStep | vulnllm/export_code.py:77-86 | inside a block comment before its "*/", only a line break is emitted |
| ExportCode.ScanBlockComment | vulnllm/export_code.py:77-86 | a block comment body up to the first "*/" becomes its line breaks only |
| ExportCode.BlockCommentRemoved | vulnllm/export_code.py:50-86 | "/*" through the first "*/" becomes only the line breaks it spanned |
| ExportCode.StripCommentsProperties | vulnllm/export_code.py:36-110 | stripping keeps every line break, never lengthens the text, and leaves text without '/' unchanged |
| ExportCode.StripCommentsForPath | vulnllm/export_code.py:113-116 | comments are stripped exactly for C-family suffixes |
| ExportCode.StripForSuffixProperties | vulnllm/export_code.py:113-116 | the line count is kept, the text never grows, and a non-C-family file is unchanged |
| ExportCode.Collapse | vulnllm/export_code.py:119-131 | collapsing never adds lines |
| ExportCode.CollapseBlankLineRuns | vulnllm/export_code.py:119-131 | the loop over lines computes the blank-run collapse of the text, "" staying "" |
| ExportCode.CollapseStep | vulnllm/export_code.py:124-130 | one turn drops a blank line that follows a blank line and keeps every other line |
| ExportCode.CollapseMembers | vulnllm/export_code.py:119-131 | every kept line was a line of the input |
| ExportCode.NonBlank | vulnllm/export_code.py:119-131 | the non-blank lines are never more than the lines |
| ExportCode.CollapseNoRun | vulnllm/export_code.py:119-131 | the result has no two consecutive blank lines |
| ExportCode.CollapseKeepsNonBlank | vulnllm/export_code.py:119-131 | every non-blank line is kept, in order |
| ExportCode.CollapseFixed | vulnllm/export_code.py:119-131 | lines without a blank run are left unchanged |
| ExportCode.CollapseIdempotent | vulnllm/export_code.py:119-131 | collapsing twice is collapsing once |
| ExportCode.CollapsedLines | vulnllm/export_code.py:119-131 | splitting the collapsed text gives back the collapsed lines |
| ExportCode.CollapseBlankRunsProperties | vulnllm/export_code.py:119-131 | the collapsed text has no blank run, keeps every non-blank line in order, and is a fixed point |
| ExportCode.PrefixLines | vulnllm/export_code.py:134-138 | prefixing keeps the number of lines |
| ExportCode.StuffContentLines | vulnllm/export_code.py:134-138 | empty content gives no content lines and any other content gives at least one |
| ExportCode.Unprefixed | vulnllm/export_code.py:134-138 | removing the prefix never adds lines |
| ExportCode.UnprefixedPrefixed | vulnllm/export_code.py:134-138 | removing the "> " prefix undoes adding it |
| ExportCode.StuffRoundTrip | vulnllm/export_code.py:134-138 | unprefixing and rejoining the content lines gives back the content |
| ExportCode.ForwardSlashes | vulnllm/export_code.py:145 | the path keeps its length, loses every backslash and keeps every other character |
| ExportCode.RecordProperties | vulnllm/export_code.py:141-157 | a record's size is its content's UTF-8 length, its path has no backslash, and its content is already collapsed |
| ExportCode.Map | vulnllm/export_code.py:141-157 | one record per file |
| ExportCode.MapAt | vulnllm/export_code.py:141-157 | the k-th output is the function applied to the k-th input |
| ExportCode.MapStep | vulnllm/export_code.py:141-157 | mapping one more input appends its image |
| ExportCode.MakeRecords | vulnllm/export_code.py:141-157 | there are as many records as files |
| ExportCode.MakeRecordsAt | vulnllm/export_code.py:141-157 | the k-th record is made from the k-th file |
| ExportCode.ExportRecord | vulnllm/export_code.py:144-156 | the record of one file: slashed path, language tag, normalised content and its size |
| ExportCode.BuildExportRecords | vulnllm/export_code.py:141-157 | the loop builds exactly the records of the files, in order |
| ExportCode.FlatMapStep | vulnllm/export_code.py:182-208 | one more record appends its lines |
| ExportCode.RenderCodebaseContainer | vulnllm/export_code.py:160-210 | the rendered text is the fixed header, the manifest and the file blocks joined by line breaks with one trailing break |
| ExportCode.FlatMapAt | vulnllm/export_code.py:182-208 | the k-th record's lines sit between the earlier and the later records' lines |
| ExportCode.ContainerParts | vulnllm/export_code.py:161-181 | the container opens with its 19 fixed lines, followed by the listing |
| ExportCode.ManifestLength | vulnllm/export_code.py:182-188 | the manifest has three lines per record |
| ExportCode.ManifestEnd | vulnllm/export_code.py:189-190 | "MANIFEST_END" follows the manifest's 3n lines |
| ExportCode.ManifestEntryAt | vulnllm/export_code.py:182-188 | the k-th manifest entry gives the k-th record's path, language and size |
| ExportCode.FileBlockAt | vulnllm/export_code.py:182-208 | the file blocks follow the manifest in record order |
| ExportCode.FileBlockContent | vulnllm/export_code.py:192-208 | a FILE block names the record and its content lines give back the content once unprefixed |
| ExportCode.ContainerShape | vulnllm/export_code.py:160-210 | the container starts with "---" and ends in exactly one line break |
| ConfigMerge.MergeUpTo | vulnllm/config.py:181-187 | merging keeps a dict's keys distinct |
| ConfigMerge.MergeEntry | vulnllm/config.py:182-186 | handling one entry keeps the keys distinct |
| ConfigMerge.Merge | vulnllm/config.py:181-187 | the merged dict has distinct keys when dst has |
| ConfigMerge.DeepUpdate | vulnllm/config.py:181-187 | the loop over src's entries computes the deep merge |
| ConfigMerge.DeepUpdateEntry | vulnllm/config.py:183-186 | one entry: recurse when both sides hold a dict, otherwise set src's value |
| ConfigMerge.MergeUpToGet | vulnllm/config.py:181-187 | after n entries each key holds dst's value, the recursive merge, or src's value |
| ConfigMerge.MergeGet | vulnllm/config.py:181-187 | keys only in dst keep their value, dict meets dict merges recursively, src wins otherwise |
| ConfigMerge.MergeKeys | vulnllm/config.py:181-187 | the merged keys are exactly dst's keys and src's keys |
| ConfigMerge.MergeTidy | vulnllm/config.py:181-187 | merging tidy dicts (distinct keys, nested dicts too) gives a tidy dict |
| ConfigMerge.MergeSetting | vulnllm/config.py:181-187 | one level down, a plain setting src holds wins and one it lacks keeps dst's |
| ConfigMerge.CommaItems | vulnllm/config.py:219 | the items are stripped, non-empty strings, no more than the parts |
| ConfigMerge.ParseEnvValue | vulnllm/config.py:209-220 | an environment value is never a dict and never None |
| ConfigMerge.ParseEnvValueCases | vulnllm/config.py:209-220 | "true"/"false" in any case are booleans, an int has no '.', a float has one, a list has a ',', and any other text comes back unchanged |
| ConfigMerge.ParseEnvDecimal | vulnllm/config.py:213-216 | a plain decimal number of at most 4300 digits reads back as that int; past that limit int() raises and the text is kept as a string |
| ConfigMerge.DigitsNotBool | vulnllm/config.py:210-212 | a string of digits is neither "true" nor "false" in any case |
| ConfigMerge.ParseEnvNonAsciiDigits | vulnllm/config.py:213-216 | "١٢" (Arabic-Indic digits) reads as the int 12, as int() reads it |
| ConfigMerge.ParseEnvList | vulnllm/config.py:217-219 | a non-boolean text with a ',' and no '.' becomes its trimmed non-empty parts, since int() accepts no ',' |
| ConfigMerge.NoCommaInInt | vulnllm/config.py:216-218 | text that int() accepts has no ',' |
| ConfigMerge.SetPath | vulnllm/config.py:230-233 | on success the value sits at the path and every other top-level key keeps its value, and a path whose first key is absent always succeeds |
| ConfigMerge.SetPathBlocked | vulnllm/config.py:230-233 | the first value on the path that is not a dict decides the exception: "'T' object has no attribute 'setdefault'" while parts remain after it, "list indices must be integers or slices, not str" for a list at the last part, "'T' object does not support item assignment" for any other value there |
| ConfigMerge.SetdefaultOnInt | vulnllm/config.py:231-232 | VULNLLM_SCAN=5 then VULNLLM_SCAN__A__B=1 raises "'int' object has no attribute 'setdefault'" |
| ConfigMerge.ListIndexedByStr | vulnllm/config.py:233 | VULNLLM_SCAN=a,b then VULNLLM_SCAN__X=1 raises "list indices must be integers or slices, not str" |
| ConfigMerge.EnvBlocked | vulnllm/config.py:223-234 | an override whose path runs into a value that is not a dict makes _load_env_overrides raise what that value raises |
| ConfigMerge.SetPathTidy | vulnllm/config.py:230-233 | setting a plain value at a path keeps the dict tidy |
| ConfigMerge.EnvPath | vulnllm/config.py:228-229 | the path is the lower-cased rest of the name cut at every "__" |
| ConfigMerge.ParsedEnv | vulnllm/config.py:225-233 | there is one parsed variable per environment variable, in order, keeping its name, and no parsed value is a dict |
| ConfigMerge.ParsedEnvAt | vulnllm/config.py:225-233 | the parsed variable at each position is that variable's name with _parse_env_value of its value |
| ConfigMerge.EnvStep | vulnllm/config.py:225-233 | a variable without the VULNLLM_ prefix, or after an error, changes nothing |
| ConfigMerge.RunErrSticks | vulnllm/config.py:225-233 | the first exception ends the loop |
| ConfigMerge.RunPrefix | vulnllm/config.py:225-233 | later variables do not change the dict built from earlier ones |
| ConfigMerge.EnvTidy | vulnllm/config.py:223-234 | the overrides dict is tidy |
| ConfigMerge.LoadEnvOverrides | vulnllm/config.py:223-234 | the loop over the environment returns exactly EnvOverrides: the overrides dict, or the first exception a write raises |
| ConfigMerge.EnvLoopStep | vulnllm/config.py:225-233 | one pass of the loop skips a variable without the VULNLLM_ prefix, writes one with it, and an exception there is the final result |
| ConfigMerge.EnvVarStep | vulnllm/config.py:225-233 | the same step over parsed variables, an exception staying the final result |
| ConfigMerge.EnvErrFinal | vulnllm/config.py:225-233 | once a write raised, later variables change nothing |
| ConfigMerge.ParsedEnvAppend | vulnllm/config.py:225 | one more variable leaves the earlier ones' values as they were |
| ConfigMerge.EnvIgnoresOthers | vulnllm/config.py:226-227 | a variable without the VULNLLM_ prefix changes nothing |
| ConfigMerge.EnvSetsPath | vulnllm/config.py:228-233 | a VULNLLM_ variable sets its parsed value at its path and leaves other top-level keys alone |
| ConfigMerge.SectionNames | vulnllm/config.py:238-245 | no section name is one of the cli dict's top-level keys |
| ConfigMerge.TopLevelNotSections | vulnllm/config.py:238-245 | path, config_path, dry_run and llm_inference_test are no section names |
| ConfigMerge.OptStr | vulnllm/config.py:289-291 | an option given gives a plain string value, one not given nothing |
| ConfigMerge.OptInt | vulnllm/config.py:289-291 | an option given gives a plain int value, one not given nothing |
| ConfigMerge.OptReal | vulnllm/config.py:278-291 | an option given gives a plain float value, one not given nothing |
| ConfigMerge.OptStrs | vulnllm/config.py:263-291 | an option given gives a plain list value, one not given nothing |
| ConfigMerge.OptCommaList | vulnllm/config.py:293-294 | a comma option given gives its trimmed items, one not given nothing |
| ConfigMerge.Flag | vulnllm/config.py:295-312 | a flag sets its value exactly when it was given |
| ConfigMerge.EarlyOverrides | vulnllm/config.py:247-298 | every write before llm_inference_test goes into a section and writes no dict |
| ConfigMerge.WellAimedConcat | vulnllm/config.py:247-312 | writes aimed at sections stay so when concatenated |
| ConfigMerge.OutputFileOverrides | vulnllm/config.py:247-265 | the output, scan and files writes go into sections |
| ConfigMerge.ChunkPromptOverrides | vulnllm/config.py:266-272 | the chunking, project and prompt writes go into sections |
| ConfigMerge.InferenceOverrides | vulnllm/config.py:273-282 | the inference writes go into sections |
| ConfigMerge.TailOverrides | vulnllm/config.py:283-298 | the multipass, logging, languages and flag writes go into sections |
| ConfigMerge.LateOverrides | vulnllm/config.py:301-312 | the writes after llm_inference_test go into sections |
| ConfigMerge.LastGiven | vulnllm/config.py:289-291 | the last write given for a setting is plain and aimed at a section |
| ConfigMerge.SetAll | vulnllm/config.py:289-291 | each setting holds the last value given for it, else what it held; keys that are no section stay |
| ConfigMerge.SetAllTidy | vulnllm/config.py:289-291 | the writes keep the cli dict tidy |
| ConfigMerge.ApplyOverrides | vulnllm/config.py:289-291 | the loop applies exactly the writes whose value was given, in order |
| ConfigMerge.ApplyCliOverrides | vulnllm/config.py:237-315 | the data ends as the deep merge of the cli dict into it |
| ConfigMerge.ThreeEntries | vulnllm/config.py:238-242 | the three-entry literal is tidy and holds its three values |
| ConfigMerge.CliBaseShape | vulnllm/config.py:238-242 | the cli dict starts with path, config_path and dry_run and no section |
| ConfigMerge.CliDictOfShape | vulnllm/config.py:238-312 | the cli dict is tidy and holds a dict or nothing under each section name |
| ConfigMerge.CliDictOfKeeps | vulnllm/config.py:238-312 | the section writes leave the top-level entries alone |
| ConfigMerge.CliDictTop | vulnllm/config.py:238-242 | the cli dict holds the given path, config_path and dry_run |
| ConfigMerge.CliDictTidy | vulnllm/config.py:238-312 | the cli dict is tidy and its sections are dicts |
| ConfigMerge.CliDictValues | vulnllm/config.py:247-312 | each section setting of the cli dict is the value the command line gave for it |
| ConfigMerge.CliDictOfValue | vulnllm/config.py:247-312 | a late write of a setting wins over an early one |
| ConfigMerge.CliOverridesOnlyGiven | vulnllm/config.py:237-315 | a setting the command line gives wins and every other setting keeps its value |
| ConfigMerge.FromFileSetting | vulnllm/config.py:339-342 | the file's section settings are the TOML's |
| ConfigMerge.PrecedenceCli | vulnllm/config.py:336-347 | a setting the command line gives is the one resolved |
| ConfigMerge.PrecedenceEnv | vulnllm/config.py:336-347 | otherwise a plain value the environment sets is the one resolved |
| ConfigMerge.PrecedenceFile | vulnllm/config.py:336-347 | a section neither the command line nor the environment touches comes from the file |
| ConfigMerge.CliConfigPath | vulnllm/config.py:237-315 | merging the cli dict leaves the command line's config_path |
| ConfigMerge.ConfigPathFromCommandLine | vulnllm/config.py:339-345 | config_path ends as the command line's, None when not given, even when a file was discovered |
| Config.FirstUnsupported | vulnllm/config.py:361-365 | the first format the loop rejects, none exactly when all are json, csv, md or markdown |
| Config.FirstUnsupportedAt | vulnllm/config.py:361-365 | the error names the first unsupported format |
| Config.NormalizeFormats | vulnllm/config.py:366 | "markdown" becomes "md", every other format and the order stay |
| Config.ResolveTail | vulnllm/config.py:349-368 | the field writes, the four checks and the format loop compute the resolution |
| Config.ResolveFailsIff | vulnllm/config.py:354-365 | resolution raises a ValueError exactly when max_findings is negative, the model is missing outside a dry run, the mode is unknown, or a format is unsupported |
| Config.ResolveErrorOrder | vulnllm/config.py:354-365 | the first broken rule, in source order, names the error |
| Config.ResolvedFormats | vulnllm/config.py:361-366 | the resolved formats are json, csv or md, "markdown" became "md", order kept |
| Config.ResolvedDeterministic | vulnllm/config.py:349-352 | deterministic mode gives temperature 0.0 and a positive top_p, 1.0 in place of a non-positive one |
| Config.ResolvedOtherModes | vulnllm/config.py:349-366 | outside deterministic mode only the format names change |
| Config.ResolveIdempotent | vulnllm/config.py:336-368 | resolving a resolved configuration changes nothing |
| Config.DefaultsResolve | vulnllm/config.py:349-368 | the defaults pass once a model is named or in a dry run, and fail for a missing model otherwise |
| Cli.WholeFileChunkCovers | vulnllm/cli.py:30-34 | the whole-file chunk spans lines 1 to max(1, line count), carries the text unchanged and names no function |
| Cli.BuildChunks | vulnllm/cli.py:27-35 | "file" gives the one whole-file chunk, "sliding" the sliding windows covering the file, any other name the function chunks in order with no definition skipped |
| Cli.RefLines | vulnllm/cli.py:44 | the listing has one "- file:line" line for each of the first five references, in lookup order |
| Cli.IndexContextEmpty | vulnllm/cli.py:38-43 | the context is empty exactly when there is no index, no function name, or no known location |
| Cli.IndexContextLines | vulnllm/cli.py:41-44 | a non-empty context is the header line followed by one line for each of at most five references |
| Cli.IntStringNoNewline | vulnllm/cli.py:44 | a rendered line number holds no line feed |
| Cli.ContextJoin | vulnllm/cli.py:44 | the context is the header, a line feed, and the joined listing |
| Cli.RefLineNoNewline | vulnllm/cli.py:44 | a reference line holds no line feed when its path holds none |
| Cli.ContextPartsNoNewline | vulnllm/cli.py:44 | no line of the context holds a line feed when no path does |
| Cli.ParserOfNumbers | vulnllm/cli.py:162-164 | parse_findings numbers its findings from the id it is given and returns the id after the last |
| Cli.ChunkTurn | vulnllm/cli.py:160-164 | a backend error is raised before parsing and leaves the next id alone; otherwise the output is parsed |
| Cli.ScanSession.constructor | vulnllm/cli.py:125-127 | the next id starts at 1 and both progress counters at 0 |
| Cli.ScanSession.RunChunk | vulnllm/cli.py:140-164 | a call counts in its pass's progress counter, raises on a backend error, else parses from the next id and advances it |
| Cli.TurnOfThreads | vulnllm/cli.py:162-164 | with such a parser every successful call numbers its findings on from the id it is given |
| Cli.ReturnedNumbered | vulnllm/cli.py:162-164 | a call's findings are numbered on from where the earlier calls stopped |
| Cli.PassCalls | vulnllm/cli.py:142-147 | a pass makes no more calls than the scan |
| Cli.IssuedStep | vulnllm/cli.py:162-164 | one more call appends what it returns, numbered from the current next id |
| Cli.PassCallsStep | vulnllm/cli.py:142-147 | one more call adds one to the counter of its own pass only |
| Cli.RunCalls | vulnllm/cli.py:140-164 | over a scan the issued findings are threaded, the next id moves past all of them, and each counter counts its pass's calls |
| Cli.IssuedNumbered | vulnllm/cli.py:125-164 | finding k of a scan has the id made from startId + k |
| Cli.IdNumberOfFormatId | vulnllm/findings/model.py:240 | the number can be read back from an id |
| Cli.ScanIdNumber | vulnllm/cli.py:125-164 | the number in the id of finding k of a scan is startId + k |
| Cli.IssuedIdsUnique | vulnllm/cli.py:162-164 | no two findings of a scan share an id |
| Cli.PostProcessProperties | vulnllm/cli.py:166-170 | the reported findings are a prefix of the deduplicated ones: all when max_findings is 0 or less, else the first max_findings; keys are unique and come from the input |
| Cli.ExitCodes | vulnllm/cli.py:96-197 | 2 for a config or usage ValueError, 3 for any other failure, and after a complete scan 1 exactly when a reported finding is not a ParserError, else 0; another exception from resolve_config leaves run() |
| PyDict.Put | vulnllm/config.py:233 | `d[key] = v`: the key holds v, every other key what it held, and keys stay distinct |
| PyDict.SetIn | vulnllm/config.py:289-291 | `sec(s)[k] = v`: that setting holds v and every other setting and top-level key is unchanged |
| Text.JoinSplit | vulnllm/config.py:229 | joining the parts of a split with its separator gives back the text |
| Text.ParseInt | vulnllm/config.py:216 | int() reads a string of decimal digits as its value when it has at most 4300 digits and raises the digit-limit error beyond that |
| Text.ParseIntDecimal | vulnllm/config.py:216 | int() reads the decimal text of n back as n up to 4300 digits, and past that raises the digit-limit error naming the digit count |
| Text.ParseIntNonAscii | vulnllm/findings/model.py:53-55 | int() accepts digits of any script, "١٢" giving 12, but raises the invalid-literal error for "²", which str.isdigit() accepts |
| Text.ParseIntArabicIndic | vulnllm/findings/model.py:53-55 | "١" and "٢" are the decimal digits 1 and 2, and int() reads "١٢" as 12 |
| Text.ParseIntSuperscript | vulnllm/findings/model.py:53-55 | "²" is a digit to str.isdigit() but no decimal digit, so int() raises the invalid-literal error |
| Text.AsciiDigitsAt | vulnllm/config.py:216 | each character of the text int() reads becomes the ASCII digit of the same value, or stays as it is |
| Text.DecimalDigit | vulnllm/config.py:216 | a decimal digit has a value below 10; among ASCII characters exactly 0-9 are decimal digits, each with its own value |
| Text.Utf8Concat | vulnllm/reporting/json_report.py:44-54 | the UTF-8 bytes of two texts joined are the bytes of each, in order |
| Text.Utf8Single | vulnllm/reporting/json_report.py:44-54 | a one-character text is encoded as that character's UTF-8 bytes |
| Text.Strip | vulnllm/config.py:219 | str.strip() never lengthens the text and leaves no whitespace at either end |
| Text.Utf8Length | vulnllm/export_code.py:154 | a text's UTF-8 size is between its length and four times its length |

## Left out

- File and process I/O is not modelled: reading source files, `export_codebase_container` (vulnllm/export_code.py:213-217), opening and rewriting report files, and directory creation. The model receives file texts as inputs and keeps a report file's content (JSON) or rows (CSV) as the fields of a class.
- The regular expressions are parameters, not implementations: the function-definition pattern (`defName`), the `#judge:`/`#type:` lines, and the markers and braces that JSON recovery searches for. So are `json.loads`, `raw_decode` and `json.dumps` (`Decoder`, `Dumps`). Every property holds for whatever those parameters return.
- Floating point is not modelled bit for bit. Floats are reals. `float()` of a string, `repr` and the `:.2f` formatting of confidences are parameters. The float branch of `_parse_env_value` is the parameter `parseFloat`.
- Report files are assumed to hold valid UTF-8, so the UnicodeDecodeError of `read_text` is not modelled. `write_text` is modelled as writing "\n" unchanged, as on POSIX; the translation to `os.linesep` on other systems is not modelled. Reading back does apply universal newlines (`ReadText`).
- `datetime.now()` in `init_json_report` is the parameter `timestamp`, and the resolved repository root is the parameter `repoRoot`.
- Text.Lower, Text.Upper: `str.lower()`/`str.upper()` are modelled on ASCII letters only. Other characters stay unchanged, which Python does not guarantee for non-ASCII letters.
- `Path.suffix`, `Path.relative_to` and `str(path)` are inputs (`SourceFile.suffix`, `SourceFile.relPath`), not computations on paths.
- vulnllm/indexing/project_index.py is not part of this model. `build_project_index` walks the files, and `query_symbol` is the parameter `SymbolQuery` of `Cli.IndexContext`. The table it queries is modelled in `Symbols`.
- `_collect_outputs`, `_prompt_output_log_path` and the prompt-log appenders in vulnllm/cli.py are file I/O. The output-path check is the parameter `collectOutputs` of `Cli.Run`, and the prompt log is left out.
- The progress display (`maybe_progress`) and logging are left out. Only the two progress counters are modelled.
- vulnllm/inference/llama_backend.py is not part of this model. The backend's answer for a call is an input: `BackendResult`, or the `run_chunk` oracle in `Multipass`.
- The prompt texts (vulnllm/prompt/) are constant text plus a file read, and are not part of this model.
- These readers are I/O and are not modelled: argparse (`build_parser`), `_discover_config_path`, `_load_toml` and the reading of `os.environ`. The command line is the datatype `Args`, the decoded TOML file is an input, and the environment is a list of (name, value) pairs in the order the process lists them.
- Config.ResolveTail: `_from_dict` (vulnllm/config.py:318-333) is not modelled. The tail of `resolve_config` starts from the typed `Config`, so the TypeError that an unknown key in a section raises is outside the model. Settings of the wrong type that the TOML file or the environment supply are outside the model as well, because the typed `Config` cannot hold them. For example, a single environment format `VULNLLM_OUTPUT__FORMATS=json` is read as the str "json", and `resolve_config` walks its characters and rejects the format "j". Likewise a str `max_findings` makes the `< 0` test at vulnllm/config.py:354 raise TypeError.
- `extract_decision_metadata` (vulnllm/findings/model.py:210-219) is not modelled; nothing in the scan engine uses its result.
- `discover_files`, the size filter and the glob matching in vulnllm/scanner/ are file-system walks and are not modelled. `allowed_extensions` is.
- FindingParser.ParseFindings tries the trailing-comma repair (vulnllm/findings/model.py:150-155) before the `#judge:` fallback (model.py:226-230), as the code does.
- These behaviours appear only in the tests and are not modelled, because the code has none of them: seed-incrementing retries, skip-on-error logging, context-window escalation, and incremental Markdown writing.
