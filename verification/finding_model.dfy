/**
 * The Finding record and the field-by-field conversion of one decoded
 * vulnerability object into a Finding (vulnllm/findings/model.py).
 *
 * Decoding JSON, the two `#judge:`/`#type:` regular expressions, float() of a
 * string and str() of floats, lists and dicts are not modelled: they are the
 * fields of a `Decoder` passed in by the caller.
 */
module FindingModel {
  import opened Wrappers
  import opened Text
  import opened PyValue
  import opened Severity
  import opened Chunking

  datatype Finding = Finding(
    id: string,
    file: string,
    startLine: int,
    endLine: int,
    funcName: Option<string>,
    vulnerabilityType: string,
    severity: string,
    confidence: real,
    description: string,
    reasoning: string,
    references: seq<string>,
    recommendation: string,
    claim: string,
    precondition: string,
    wherePreconditionIsEnforced: string,
    triggerPath: string,
    exploitability: string,
    contractBreachEvidence: bool,
    analysisMode: string,
    evidenceSpans: Value,
    requiresCallerViolation: bool,
    contextSufficiency: string,
    parseError: Option<string>)

  /** The primitives the parser relies on and that this model does not reimplement. */
  datatype Decoder = Decoder(
    loads: string -> Result<Value, string>,      // json.loads; the error is str() of the JSONDecodeError
    rawDecode: (string, nat) -> Option<Value>,  // JSONDecoder().raw_decode(s, idx), the decoded value
    judgeLine: string -> Option<string>,         // group 1 of the first `#judge: yes|no` line
    typeLine: string -> Option<string>,          // group 1 of the first `#type: ...` line
    parseFloat: string -> Result<real, string>,  // float(s); the error is str() of the ValueError
    repr: Value -> string)                       // str() of a float, list or dict

  /** Python's str() of a decoded value. */
  function Str(dec: Decoder, v: Value): (r: string)
    ensures v.VStr? ==> r == v.s
    ensures v.VNone? ==> r == "None"
    ensures v.VInt? ==> r == IntString(v.i)
  {
    match v
    case VStr(s) => s
    case VNone => "None"
    case VBool(b) => if b then "True" else "False"
    case VInt(i) => IntString(i)
    case _ => dec.repr(v)
  }

  /** The id text of finding number n: f"F-{n:04d}". */
  function FormatId(n: int): (r: string)
    ensures |r| >= 6 && r[..2] == "F-"
  {
    if n >= 0 then ZeroPadDigits(n, 4); "F-" + ZeroPad(n, 4)
    else ZeroPadDigits(-n, 3); "F--" + ZeroPad(-n, 3)
  }

  /** After "F-" an id holds the number's decimal digits (zero-padded), or "-" and the digits of a negative one. */
  lemma FormatIdDigits(n: int)
    ensures var r := FormatId(n);
            (n >= 0 ==> AllDigits(r[2..]) && DecimalValue(r[2..]) == n) &&
            (n < 0 ==> r[2] == '-' && AllDigits(r[3..]) && DecimalValue(r[3..]) == -n)
  {
    if n >= 0 {
      ZeroPadDigits(n, 4);
      assert FormatId(n)[2..] == ZeroPad(n, 4);
    } else {
      ZeroPadDigits(-n, 3);
      assert FormatId(n)[3..] == ZeroPad(-n, 3);
    }
  }

  /** Distinct numbers give distinct ids, so consecutive numbering never repeats an id. */
  lemma FormatIdInjective(n: int, m: int)
    requires n != m
    ensures FormatId(n) != FormatId(m)
  {
    var a, b := FormatId(n), FormatId(m);
    FormatIdDigits(n);
    FormatIdDigits(m);
    if n >= 0 && m >= 0 {
      assert a[2..] != b[2..];
    } else if n < 0 && m < 0 {
      assert a[3..] != b[3..];
    } else if n >= 0 {
      assert IsDigit(a[2]) && b[2] == '-';
    } else {
      assert a[2] == '-' && IsDigit(b[2]);
    }
  }

  // ---------------------------------------------------------------- closed-enum normalisers

  /** str(value or fallback).strip().lower(), kept when it is one of `allowed`, else `fallback`. */
  function NormalizeChoice(dec: Decoder, value: Value, allowed: set<string>, fallback: string): (r: string)
    requires fallback in allowed
    ensures r in allowed
    ensures Canon(Str(dec, Or(value, VStr(fallback)))) in allowed ==> r == Canon(Str(dec, Or(value, VStr(fallback))))
    ensures Canon(Str(dec, Or(value, VStr(fallback)))) !in allowed ==> r == fallback
  {
    var m := Canon(Str(dec, Or(value, VStr(fallback))));
    if m in allowed then m else fallback
  }

  /** A fallback that is its own canonical form is what a falsy value normalises to. */
  lemma FalsyGivesFallback(dec: Decoder, value: Value, allowed: set<string>, fallback: string)
    requires fallback in allowed && Canon(fallback) == fallback
    requires !Truthy(value)
    ensures NormalizeChoice(dec, value, allowed, fallback) == fallback
  {
  }

  const AnalysisModes: set<string> := {"shallow", "contract-aware", "verified"}
  const ContextLevels: set<string> := {"sufficient", "insufficient", "unknown"}
  const Exploitabilities: set<string> := {"practical", "theoretical", "contract-break-only"}

  /** _normalize_analysis_mode */
  function NormalizeAnalysisMode(dec: Decoder, value: Value): (r: string)
    ensures r in AnalysisModes
    ensures Canon(Str(dec, Or(value, VStr("shallow")))) !in AnalysisModes ==> r == "shallow"
  {
    NormalizeChoice(dec, value, AnalysisModes, "shallow")
  }

  /** _normalize_context_sufficiency */
  function NormalizeContextSufficiency(dec: Decoder, value: Value): (r: string)
    ensures r in ContextLevels
    ensures Canon(Str(dec, Or(value, VStr("unknown")))) !in ContextLevels ==> r == "unknown"
  {
    NormalizeChoice(dec, value, ContextLevels, "unknown")
  }

  /** _normalize_exploitability */
  function NormalizeExploitability(dec: Decoder, value: Value): (r: string)
    ensures r in Exploitabilities
    ensures Canon(Str(dec, Or(value, VStr("theoretical")))) !in Exploitabilities ==> r == "theoretical"
  {
    NormalizeChoice(dec, value, Exploitabilities, "theoretical")
  }

  /** A member of a closed set, in any case and with any surrounding whitespace, is recognised. */
  lemma ChoiceIgnoresCaseAndPadding(dec: Decoder, pre: string, s: string, post: string,
                                    allowed: set<string>, fallback: string)
    requires fallback in allowed && s in allowed && Canon(s) == s && s != ""
    requires AllSpace(pre) && AllSpace(post)
    ensures NormalizeChoice(dec, VStr(pre + Upper(s) + post), allowed, fallback) == s
  {
    var x := pre + Upper(s) + post;
    assert |x| > 0;
    assert Or(VStr(x), VStr(fallback)) == VStr(x);
    assert Str(dec, VStr(x)) == x;
    CanonIgnoresCaseAndPadding(pre, s, post);
    assert Canon(x) == s;
  }

  // ---------------------------------------------------------------- scalar parsers

  /** What _parse_evidence_spans_count returns: a count, or True itself, since max(0, True) is True. */
  predicate SpanCount(v: Value) { (v.VInt? && v.i >= 0) || v == VBool(true) }

  /**
   * str() of the ValueError int() raises on a text of digit characters. Its repr() is the
   * text in single quotes (digit characters are printable and none is a quote or a
   * backslash), of which the message keeps the first 200 characters.
   */
  function IntErrorMessage(text: string, e: IntError): string
  {
    match e
    case InvalidLiteral => "invalid literal for int() with base 10: " + Prefix("'" + text + "'", 200)
    case TooManyDigits(n) =>
      "Exceeds the limit (4300 digits) for integer string conversion: value has " + IntString(n) +
      " digits; use sys.set_int_max_str_digits() to increase the limit"
  }

  /** _parse_evidence_spans_count, or the message of the ValueError its int() raises. */
  function EvidenceSpans(value: Value): (r: Result<Value, string>)
    ensures r.Ok? ==> SpanCount(r.value)
    ensures value.VList? ==> r == Ok(VInt(|value.items|))
    ensures value.VBool? ==> r == Ok(if value.b then VBool(true) else VInt(0))
    ensures value.VInt? ==> r == Ok(VInt(if value.i > 0 then value.i else 0))
    ensures value.VStr? && AllDigits(Strip(value.s)) && 0 < |Strip(value.s)| <= MaxStrDigits ==>
              r == Ok(VInt(DecimalValue(Strip(value.s))))
    ensures r.Err? <==> value.VStr? && IsDigitString(Strip(value.s)) && ParseInt(Strip(value.s)).Err?
    ensures value.VNone? || value.VDict? ==> r == Ok(VInt(0))
  {
    match value
    case VList(items) => Ok(VInt(|items|))
    case VBool(b) => Ok(if b then VBool(true) else VInt(0))
    case VInt(i) => Ok(VInt(if i > 0 then i else 0))
    case VFloat(x) => Ok(VInt(if x >= 0.0 then x.Floor else 0))
    case VStr(s) =>
      var trimmed := Strip(s);
      if !IsDigitString(trimmed) then Ok(VInt(0))
      else
        assert trimmed[0] != '-' by {
          assert IsUnicodeDigit(trimmed[0]);
          assert !IsUnicodeDigit('-');
        }
        (match ParseInt(trimmed)
         case Ok(n) => Ok(VInt(n))
         case Err(e) => Err(IntErrorMessage(trimmed, e)))
    case _ => Ok(VInt(0))
  }

  /** True is kept as it is, where any other bool becomes a count. */
  lemma EvidenceSpansTrue()
    ensures EvidenceSpans(VBool(true)) == Ok(VBool(true))
    ensures EvidenceSpans(VBool(false)) == Ok(VInt(0))
  {
  }

  /** "²" is a digit to str.isdigit() but not to int(), so converting the item fails. */
  lemma EvidenceSpansSuperscript()
    ensures EvidenceSpans(VStr("\U{B2}")) == Err("invalid literal for int() with base 10: '\U{B2}'")
  {
    var sup := "\U{B2}";
    ParseIntNonAscii();
    assert IsDigitString(sup);
    assert Prefix("'" + sup + "'", 200) == "'" + sup + "'";
    assert IntErrorMessage(sup, InvalidLiteral) == "invalid literal for int() with base 10: '\U{B2}'";
  }

  /** "١٢" (Arabic-Indic digits) counts twelve. */
  lemma EvidenceSpansArabicIndic()
    ensures EvidenceSpans(VStr("\U{661}\U{662}")) == Ok(VInt(12))
  {
    var arabic := "\U{661}\U{662}";
    ParseIntNonAscii();
    assert Strip(arabic) == arabic && IsDigitString(arabic);
  }

  const TrueWords: set<string> := {"true", "1", "yes", "y"}
  const FalseWords: set<string> := {"false", "0", "no", "n"}

  /** _parse_bool */
  function ParseBool(value: Value, default: bool): (r: bool)
    ensures value.VBool? ==> r == value.b
    ensures value.VStr? && Canon(value.s) in TrueWords ==> r
    ensures value.VStr? && Canon(value.s) in FalseWords ==> !r
    ensures !value.VBool? && !(value.VStr? && Canon(value.s) in TrueWords + FalseWords) ==> r == default
  {
    match value
    case VBool(b) => b
    case VStr(s) =>
      var lowered := Canon(s);
      if lowered in TrueWords then true else if lowered in FalseWords then false else default
    case _ => default
  }

  /** float(value) */
  function ToFloat(dec: Decoder, value: Value): (r: Result<real, string>)
    ensures value.VInt? ==> r == Ok(value.i as real)
    ensures value.VFloat? ==> r == Ok(value.r)
    ensures value.VList? || value.VDict? || value.VNone? ==> r.Err?
  {
    match value
    case VBool(b) => Ok(if b then 1.0 else 0.0)
    case VInt(i) => Ok(i as real)
    case VFloat(x) => Ok(x)
    case VStr(s) => dec.parseFloat(s)
    case _ => Err("float() argument must be a string or a real number, not '" + TypeName(value) + "'")
  }

  /** The one-character strings of s, in order. */
  function Chars(s: string): (r: seq<Value>)
    ensures |r| == |s|
    ensures forall i :: 0 <= i < |s| ==> r[i] == VStr([s[i]])
  {
    if s == [] then [] else [VStr([s[0]])] + Chars(s[1..])
  }

  /** The strings of ks as values, in order. */
  function StrValues(ks: seq<string>): (r: seq<Value>)
    ensures |r| == |ks|
    ensures forall i :: 0 <= i < |ks| ==> r[i] == VStr(ks[i])
  {
    if ks == [] then [] else [VStr(ks[0])] + StrValues(ks[1..])
  }

  /** The items `for x in value` visits. */
  function Iterate(value: Value): (r: Result<seq<Value>, string>)
    ensures value.VList? ==> r == Ok(value.items)
    ensures value.VStr? ==> r == Ok(Chars(value.s))
    ensures value.VDict? ==> r == Ok(StrValues(Keys(value.entries)))
    ensures value.VNone? || value.VBool? || value.VInt? || value.VFloat? ==> r.Err?
  {
    match value
    case VList(items) => Ok(items)
    case VStr(s) => Ok(Chars(s))
    case VDict(entries) => Ok(StrValues(Keys(entries)))
    case _ => Err("'" + TypeName(value) + "' object is not iterable")
  }

  /** [str(x) for x in items if x] */
  function TruthyStrings(dec: Decoder, items: seq<Value>): (r: seq<string>)
    ensures |r| <= |items|
    ensures (forall i :: 0 <= i < |items| ==> items[i].VStr? && items[i].s != "") ==>
              |r| == |items| && forall i :: 0 <= i < |items| ==> r[i] == items[i].s
  {
    if items == [] then []
    else
      var rest := TruthyStrings(dec, items[1..]);
      if Truthy(items[0]) then [Str(dec, items[0])] + rest else rest
  }

  /** Keeping the truthy items of non-empty strings and printing them gives the strings back. */
  lemma TruthyStringsOfStrValues(dec: Decoder, ks: seq<string>)
    requires forall i :: 0 <= i < |ks| ==> ks[i] != ""
    ensures TruthyStrings(dec, StrValues(ks)) == ks
  {
    var items := StrValues(ks);
    assert forall i :: 0 <= i < |items| ==> items[i].VStr? && items[i].s != "";
    var r := TruthyStrings(dec, items);
    assert |r| == |ks| && forall i :: 0 <= i < |ks| ==> r[i] == ks[i];
  }

  // ---------------------------------------------------------------- one item

  /** The Finding that parse_findings builds from one vulnerability dict, or the message of what it raised. */
  function ToFinding(dec: Decoder, entries: seq<(string, Value)>, chunk: CodeChunk, n: int): (r: Result<Finding, string>)
    ensures r.Ok? ==> r.value.id == FormatId(n) && r.value.parseError.None?
    ensures r.Ok? ==> r.value.file == chunk.file && r.value.startLine == chunk.startLine &&
                      r.value.endLine == chunk.endLine && r.value.funcName == chunk.funcName
    ensures r.Ok? ==> IsSeverity(r.value.severity) && SpanCount(r.value.evidenceSpans)
    ensures r.Ok? ==> r.value.analysisMode in AnalysisModes && r.value.contextSufficiency in ContextLevels &&
                      r.value.exploitability in Exploitabilities
    ensures r.Err? <==> ToFloat(dec, Or(GetOr(VDict(entries), "confidence", VFloat(0.5)), VFloat(0.5))).Err? ||
                        Iterate(GetOr(VDict(entries), "references", VList([]))).Err? ||
                        EvidenceSpans(GetOr(VDict(entries), "evidence_spans", VNone)).Err?
    ensures r.Ok? ==> match Get(entries, "vulnerability_type")
                      case None => r.value.vulnerabilityType == "Potential Vulnerability"
                      case Some(x) => x.VStr? ==> r.value.vulnerabilityType == x.s
    ensures r.Ok? ==> match Get(entries, "severity")
                      case None => r.value.severity == "medium"
                      case Some(x) => x.VStr? ==> r.value.severity == NormalizeSeverity(x.s)
    ensures r.Ok? ==> match Get(entries, "confidence")
                      case None => r.value.confidence == 0.5
                      case Some(x) => (x.VFloat? && x.r != 0.0 ==> r.value.confidence == x.r) &&
                                      (!Truthy(x) ==> r.value.confidence == 0.5)
    ensures r.Ok? ==> match Get(entries, "reasoning")
                      case None => r.value.reasoning == ""
                      case Some(x) => x.VStr? ==> r.value.reasoning == x.s
    ensures r.Ok? ==> match Get(entries, "references")
                      case None => r.value.references == []
                      case Some(x) => x.VList? && (forall i :: 0 <= i < |x.items| ==> x.items[i].VStr? && x.items[i].s != "") ==>
                                        |r.value.references| == |x.items| &&
                                        forall i :: 0 <= i < |x.items| ==> r.value.references[i] == x.items[i].s
  {
    var v := VDict(entries);
    var conf := ToFloat(dec, Or(GetOr(v, "confidence", VFloat(0.5)), VFloat(0.5)));
    var refs := Iterate(GetOr(v, "references", VList([])));
    var spans := EvidenceSpans(GetOr(v, "evidence_spans", VNone));
    if conf.Err? then Err(conf.error)
    else if refs.Err? then Err(refs.error)
    else if spans.Err? then Err(spans.error)
    else
      NormalizeSeverityName("medium");
      Ok(Finding(
        id := FormatId(n),
        file := chunk.file,
        startLine := chunk.startLine,
        endLine := chunk.endLine,
        funcName := chunk.funcName,
        vulnerabilityType := Str(dec, GetOr(v, "vulnerability_type", VStr("Potential Vulnerability"))),
        severity := NormalizeSeverity(Str(dec, GetOr(v, "severity", VStr("medium")))),
        confidence := conf.value,
        description := Str(dec, GetOr(v, "description", VStr(""))),
        reasoning := Str(dec, GetOr(v, "reasoning", VStr(""))),
        references := TruthyStrings(dec, refs.value),
        recommendation := Str(dec, GetOr(v, "recommendation", VStr(""))),
        claim := Str(dec, GetOr(v, "claim", VStr(""))),
        precondition := Str(dec, GetOr(v, "precondition", VStr(""))),
        wherePreconditionIsEnforced := Str(dec, Or(GetOr(v, "where_precondition_is_enforced", VStr("none")), VStr("none"))),
        triggerPath := Str(dec, GetOr(v, "trigger_path", VStr(""))),
        exploitability := NormalizeExploitability(dec, GetOr(v, "exploitability", VStr("theoretical"))),
        contractBreachEvidence := ParseBool(GetOr(v, "contract_breach_evidence", VNone), false),
        analysisMode := NormalizeAnalysisMode(dec, GetOr(v, "analysis_mode", VStr("shallow"))),
        evidenceSpans := spans.value,
        requiresCallerViolation := ParseBool(GetOr(v, "requires_caller_violation", VNone), false),
        contextSufficiency := NormalizeContextSufficiency(dec, GetOr(v, "context_sufficiency", VStr("unknown"))),
        parseError := None))
  }

  /** The placeholder parse_findings returns when anything goes wrong. */
  function ParserErrorFinding(raw: string, chunk: CodeChunk, n: int, message: string): (f: Finding)
    ensures f.id == FormatId(n) && f.vulnerabilityType == "ParserError" && f.severity == "low"
    ensures f.confidence == 0.0 && f.reasoning == Prefix(raw, 1200) && f.parseError == Some(message)
    ensures f.file == chunk.file && f.startLine == chunk.startLine && f.endLine == chunk.endLine && f.funcName == chunk.funcName
  {
    Finding(FormatId(n), chunk.file, chunk.startLine, chunk.endLine, chunk.funcName, "ParserError", "low", 0.0,
            "Failed to parse model output", Prefix(raw, 1200), [], "", "", "", "none", "", "theoretical", false,
            "shallow", VInt(0), false, "unknown", Some(message))
  }
}
