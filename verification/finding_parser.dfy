/**
 * Finding recovery: turning the untrusted text a model produced into findings
 * (vulnllm/findings/model.py, `_extract_json`, `_repair_json_payload`,
 * `_extract_final_answer_format` and `parse_findings`).
 *
 * The strategies, in the order the code tries them:
 *   1. decode the whole stripped text;
 *   2. decode the text between BEGIN_FINDINGS_JSON and END_FINDINGS_JSON;
 *   3. scan every `{`, keep the decoded object with the best score;
 *   4. repair a trailing-comma payload and decode it;
 *   5. (in parse_findings, when 1-4 raised) read the `#judge:`/`#type:` lines.
 * Whatever fails, parse_findings returns exactly one ParserError finding.
 */
module FindingParser {
  import opened Wrappers
  import opened Text
  import opened PyValue
  import opened Severity
  import opened Chunking
  import opened FindingModel

  const BeginMarker: string := "BEGIN_FINDINGS_JSON"
  const EndMarker: string := "END_FINDINGS_JSON"

  // ---------------------------------------------------------------- scoring candidates

  const KnownKeys: seq<string> :=
    ["vulnerability_type", "severity", "confidence", "description", "reasoning", "recommendation", "references"]

  /** How many of the first n known keys the item has. */
  function KnownKeyCount(item: seq<(string, Value)>, n: nat): (c: nat)
    requires n <= |KnownKeys|
    ensures c <= n
  {
    if n == 0 then 0 else KnownKeyCount(item, n - 1) + (if HasKey(item, KnownKeys[n - 1]) then 1 else 0)
  }

  /** The known-key points of a vulnerabilities list: one per known key per dict item. */
  function ItemPoints(vulns: seq<Value>): (p: nat)
    ensures p <= 7 * |vulns|
  {
    if vulns == [] then 0
    else ItemPoints(vulns[..|vulns| - 1]) +
         (var v := vulns[|vulns| - 1]; if v.VDict? then KnownKeyCount(v.entries, 7) else 0)
  }

  /** score_obj */
  function ScoreObj(obj: Value): (score: nat)
    ensures score >= 20 <==> GetOr(obj, "vulnerabilities", VNone).VList?
    ensures !GetOr(obj, "vulnerabilities", VNone).VList? ==> score <= 16
    ensures GetOr(obj, "vulnerabilities", VNone).VList? ==>
              score <= 16 + 20 + 5 + 7 * |GetOr(obj, "vulnerabilities", VNone).items|
  {
    var fa := GetOr(obj, "final_answer", VNone);
    var answer :=
      if fa.VDict? then
        (if GetOr(fa, "judge", VNone).VStr? then 8 else 0) + (if GetOr(fa, "type", VNone).VStr? then 8 else 0)
      else 0;
    var vulns := GetOr(obj, "vulnerabilities", VNone);
    var list :=
      if vulns.VList? then 20 + (if |vulns.items| < 5 then |vulns.items| else 5) + ItemPoints(vulns.items)
      else 0;
    answer + list
  }

  /** A dict that carries a vulnerabilities list outscores every dict that does not. */
  lemma ListOutscoresAnswer(a: Value, b: Value)
    requires GetOr(a, "vulnerabilities", VNone).VList?
    requires !GetOr(b, "vulnerabilities", VNone).VList?
    ensures ScoreObj(a) > ScoreObj(b)
  {
  }

  /** The object raw_decode yields at position p, when p holds `{` and decoding gives a dict. */
  function DictAt(dec: Decoder, raw: string, p: nat): (r: Option<Value>)
    requires p < |raw|
    ensures r.Some? ==> raw[p] == '{' && r.value.VDict? && dec.rawDecode(raw, p) == r
  {
    if raw[p] == '{' then
      match dec.rawDecode(raw, p)
      case Some(v) => if v.VDict? then Some(v) else None
      case None => None
    else None
  }

  /** The dicts the brace scan finds at positions below n, in text order. */
  function CandidatesBelow(dec: Decoder, raw: string, n: nat): (c: seq<Value>)
    requires n <= |raw|
    ensures forall i :: 0 <= i < |c| ==> c[i].VDict?
    ensures |c| <= n
  {
    if n == 0 then []
    else CandidatesBelow(dec, raw, n - 1) + (match DictAt(dec, raw, n - 1) case Some(v) => [v] case None => [])
  }

  /** Positions without `{` add no candidate. */
  lemma {:induction false} NoBraceNoCandidate(dec: Decoder, raw: string, a: nat, b: nat)
    requires a <= b <= |raw|
    requires forall j :: a <= j < b ==> raw[j] != '{'
    ensures CandidatesBelow(dec, raw, b) == CandidatesBelow(dec, raw, a)
    decreases b - a
  {
    if a < b {
      NoBraceNoCandidate(dec, raw, a, b - 1);
      assert DictAt(dec, raw, b - 1).None?;
    }
  }

  /** The scores of a list of candidates. */
  function Scores(cands: seq<Value>): (s: seq<nat>)
    ensures |s| == |cands| && forall i :: 0 <= i < |cands| ==> s[i] == ScoreObj(cands[i])
  {
    seq(|cands|, i requires 0 <= i < |cands| => ScoreObj(cands[i]))
  }

  /** Index of the best score: the highest, and the earliest among equals. */
  function FirstBest(scores: seq<nat>): (k: nat)
    requires scores != []
    ensures k < |scores|
    ensures forall m :: 0 <= m < |scores| ==> scores[m] <= scores[k]
    ensures forall m :: 0 <= m < k ==> scores[m] < scores[k]
  {
    if |scores| == 1 then 0
    else
      var front := scores[..|scores| - 1];
      var k := FirstBest(front);
      assert forall m :: 0 <= m < |front| ==> front[m] == scores[m];
      if scores[|scores| - 1] > scores[k] then |scores| - 1 else k
  }

  /** Any index with the two properties FirstBest promises is FirstBest. */
  lemma FirstBestUnique(scores: seq<nat>, k: nat)
    requires k < |scores|
    requires forall m :: 0 <= m < |scores| ==> scores[m] <= scores[k]
    requires forall m :: 0 <= m < k ==> scores[m] < scores[k]
    ensures FirstBest(scores) == k
  {
  }

  /** The candidate the brace scan keeps: the first one with the highest score. */
  function Best(c: seq<Value>): Value
    requires c != []
  {
    c[FirstBest(Scores(c))]
  }

  /** The kept candidate is one of them, scores highest, and every earlier one scores strictly less. */
  lemma BestIsFirstMax(c: seq<Value>)
    requires c != []
    ensures exists k :: 0 <= k < |c| && c[k] == Best(c) && forall m :: 0 <= m < k ==> ScoreObj(c[m]) < ScoreObj(c[k])
    ensures forall m :: 0 <= m < |c| ==> ScoreObj(c[m]) <= ScoreObj(Best(c))
  {
    var k := FirstBest(Scores(c));
    assert c[k] == Best(c);
  }

  /** A later candidate displaces the kept one only with a strictly greater score. */
  lemma BestAppend(c: seq<Value>, v: Value)
    ensures Best(c + [v]) == if c == [] || ScoreObj(v) > ScoreObj(Best(c)) then v else Best(c)
  {
    if c != [] {
      assert Scores(c + [v])[..|c|] == Scores(c);
    }
  }

  /** What the brace scan yields: the best candidate, if any. */
  function BraceBest(dec: Decoder, raw: string): (r: Option<Value>)
    ensures r.Some? <==> CandidatesBelow(dec, raw, |raw|) != []
    ensures r.Some? ==> r.value.VDict? && r.value == Best(CandidatesBelow(dec, raw, |raw|))
  {
    var c := CandidatesBelow(dec, raw, |raw|);
    if c == [] then None else BestIsFirstMax(c); Some(Best(c))
  }

  /** Positions that raw.find("{", from) skipped hold no `{`. */
  lemma SkippedNoBrace(raw: string, from: nat, next: int)
    requires next == -1 || from <= next <= |raw|
    requires forall j :: from <= j && (next == -1 || j < next) ==> !OccursAt(raw, "{", j)
    ensures forall j :: from <= j < (if next == -1 then |raw| else next) ==> raw[j] != '{'
  {
    forall j | from <= j < (if next == -1 then |raw| else next) ensures raw[j] != '{' {
      assert !OccursAt(raw, "{", j);
      assert raw[j..j + 1] == [raw[j]];
    }
  }

  /** best_scored holds the best candidate so far and its score, or nothing when there is none. */
  ghost predicate Tracks(bestScored: Option<(nat, Value)>, cands: seq<Value>)
  {
    (bestScored.None? <==> cands == []) &&
    (cands != [] ==> bestScored.value == (ScoreObj(Best(cands)), Best(cands)))
  }

  /** Where raw.find("{", idx) lands, no candidate was skipped. */
  lemma NextBrace(dec: Decoder, raw: string, idx: nat, next: int)
    requires idx <= |raw| && next == FindFrom(raw, "{", idx)
    ensures next == -1 ==> CandidatesBelow(dec, raw, |raw|) == CandidatesBelow(dec, raw, idx)
    ensures next != -1 ==> idx <= next < |raw| && raw[next] == '{' &&
                           CandidatesBelow(dec, raw, next) == CandidatesBelow(dec, raw, idx)
  {
    SkippedNoBrace(raw, idx, next);
    if next == -1 {
      NoBraceNoCandidate(dec, raw, idx, |raw|);
    } else {
      assert raw[next..next + 1] == "{";
      NoBraceNoCandidate(dec, raw, idx, next);
    }
  }

  /**
   * The brace scan's state before position idx: best_any is the first candidate and
   * best_scored tracks the best, both unset while there is no candidate.
   */
  ghost predicate ScanState(dec: Decoder, raw: string, idx: int, bestAny: Option<Value>, bestScored: Option<(nat, Value)>)
  {
    0 <= idx <= |raw| &&
    (bestAny.None? <==> bestScored.None?) &&
    (bestAny.Some? ==> CandidatesBelow(dec, raw, idx) != [] && bestAny.value == CandidatesBelow(dec, raw, idx)[0]) &&
    Tracks(bestScored, CandidatesBelow(dec, raw, idx))
  }

  /** The update of best_scored for a new candidate keeps it tracking the best. */
  lemma KeepBest(bestScored: Option<(nat, Value)>, cands: seq<Value>, v: Value)
    requires Tracks(bestScored, cands)
    ensures Tracks(if bestScored.None? || ScoreObj(v) > bestScored.value.0 then Some((ScoreObj(v), v)) else bestScored,
                   cands + [v])
  {
    BestAppend(cands, v);
  }

  /** A `{` at idx adds the dict raw_decode finds there, if it finds one. */
  lemma CandidateAt(dec: Decoder, raw: string, idx: nat)
    requires idx < |raw| && raw[idx] == '{'
    ensures var obj := dec.rawDecode(raw, idx);
            CandidatesBelow(dec, raw, idx + 1) ==
              CandidatesBelow(dec, raw, idx) + (if obj.Some? && obj.value.VDict? then [obj.value] else [])
  {
  }

  /** One step of the `{` scan: try raw_decode at the `{` at idx and keep the better dict. */
  method ScanAt(dec: Decoder, raw: string, idx: nat, bestAny: Option<Value>, bestScored: Option<(nat, Value)>)
    returns (bestAny': Option<Value>, bestScored': Option<(nat, Value)>)
    requires idx < |raw| && raw[idx] == '{'
    requires ScanState(dec, raw, idx, bestAny, bestScored)
    ensures ScanState(dec, raw, idx + 1, bestAny', bestScored')
  {
    bestAny', bestScored' := bestAny, bestScored;
    var obj := dec.rawDecode(raw, idx);
    ghost var before := CandidatesBelow(dec, raw, idx);
    CandidateAt(dec, raw, idx);
    if obj.Some? && obj.value.VDict? {
      KeepBest(bestScored, before, obj.value);
      assert before != [] ==> (before + [obj.value])[0] == before[0];
      if bestAny.None? {
        bestAny' := obj;
      }
      var score := ScoreObj(obj.value);
      if bestScored.None? || score > bestScored.value.0 {
        bestScored' := Some((score, obj.value));
      }
    } else {
      assert before + [] == before;
    }
  }

  /** One turn of the `{` scan: find the next `{` from idx and, if there is one, try it. */
  method ScanNext(dec: Decoder, raw: string, idx: nat, bestAny: Option<Value>, bestScored: Option<(nat, Value)>)
    returns (next: int, bestAny': Option<Value>, bestScored': Option<(nat, Value)>)
    requires ScanState(dec, raw, idx, bestAny, bestScored)
    ensures next == -1 ==> bestAny' == bestAny && bestScored' == bestScored &&
                           CandidatesBelow(dec, raw, |raw|) == CandidatesBelow(dec, raw, idx)
    ensures next != -1 ==> idx <= next < |raw| && ScanState(dec, raw, next + 1, bestAny', bestScored')
  {
    next := FindFrom(raw, "{", idx);
    NextBrace(dec, raw, idx, next);
    bestAny', bestScored' := bestAny, bestScored;
    if next != -1 {
      bestAny', bestScored' := ScanAt(dec, raw, next, bestAny, bestScored);
    }
  }

  /**
   * The `{` scan of _extract_json. best_any is set exactly when best_scored is, so
   * the best_any fallback after the loop is never the one taken.
   */
  method BraceScan(dec: Decoder, raw: string) returns (best: Option<Value>)
    ensures best == BraceBest(dec, raw)
  {
    var bestAny: Option<Value> := None;
    var bestScored: Option<(nat, Value)> := None;
    var idx := 0;
    while true
      invariant ScanState(dec, raw, idx, bestAny, bestScored)
      decreases |raw| - idx
    {
      var next;
      next, bestAny, bestScored := ScanNext(dec, raw, idx, bestAny, bestScored);
      if next == -1 {
        break;
      }
      idx := next + 1;
    }
    if bestScored.Some? {
      return Some(bestScored.value.1);
    }
    if bestAny.Some? {
      return bestAny;
    }
    return None;
  }

  // ---------------------------------------------------------------- repair

  /** Does "json" (any case) start here? Case-insensitive matching also lets U+017F stand for `s`. */
  predicate JsonWordAt(s: string)
  {
    |s| >= 4 && LowerChar(s[0]) == 'j' && (LowerChar(s[1]) == 's' || s[1] == 'ſ') &&
    LowerChar(s[2]) == 'o' && LowerChar(s[3]) == 'n'
  }

  /** re.sub(r"```(?:json)?", "", s, flags=re.IGNORECASE) */
  function RemoveFences(s: string): (r: string)
    ensures |r| <= |s|
    ensures NoChar(s, '`') ==> r == s
    decreases |s|
  {
    if |s| >= 3 && s[..3] == "```" then
      var rest := s[3..];
      if JsonWordAt(rest) then RemoveFences(rest[4..]) else RemoveFences(rest)
    else if s == [] then []
    else [s[0]] + RemoveFences(s[1..])
  }

  /** s.replace(pat, "") */
  function RemoveAll(s: string, pat: string): (r: string)
    requires pat != []
    ensures |r| <= |s|
    ensures !Contains(s, pat) ==> r == s
    decreases |s|
  {
    if |s| >= |pat| && s[..|pat|] == pat then
      assert OccursAt(s, pat, 0);
      RemoveAll(s[|pat|..], pat)
    else if s == [] then []
    else
      assert forall j :: 0 <= j && OccursAt(s[1..], pat, j) ==> OccursAt(s, pat, j + 1) by {
        forall j | 0 <= j && OccursAt(s[1..], pat, j) ensures OccursAt(s, pat, j + 1) {
          assert s[1..][j..j + |pat|] == s[j + 1..j + 1 + |pat|];
        }
      }
      [s[0]] + RemoveAll(s[1..], pat)
  }

  /** The characters of s other than commas, in order. */
  function NonCommas(s: string): (r: string)
    ensures NoChar(r, ',')
  {
    if s == [] then [] else (if s[0] == ',' then [] else [s[0]]) + NonCommas(s[1..])
  }

  /** After optional whitespace, does t begin with `}` or `]`? */
  predicate ClosesNext(t: string)
  {
    var k := LeadingSpace(t);
    k < |t| && (t[k] == '}' || t[k] == ']')
  }

  /** re.sub(r",(\s*[}\]])", r"\1", s): drop every comma that only whitespace separates from `}` or `]`. */
  function DropTrailingCommas(s: string): (r: string)
    ensures |r| <= |s|
    ensures NonCommas(r) == NonCommas(s)
    ensures NoChar(s, ',') ==> r == s
  {
    if s == [] then []
    else if s[0] == ',' && ClosesNext(s[1..]) then DropTrailingCommas(s[1..])
    else [s[0]] + DropTrailingCommas(s[1..])
  }

  /** The text repair works on: stripped, and with code fences removed when there are any. */
  function Unfenced(raw: string): (t: string)
    ensures Find(Strip(raw), "```") == -1 ==> t == Strip(raw)
  {
    var text := Strip(raw);
    if Find(text, "```") != -1 then Strip(RemoveAll(RemoveFences(text), "```")) else text
  }

  /** The span from the first `{` to the last `}`, when the last comes after the first. */
  function BraceSpan(t: string): (r: Option<(nat, nat)>)
    ensures r.Some? <==> 0 <= Find(t, "{") < RFind(t, "}")
    ensures r.Some? ==> r.value == (Find(t, "{"), RFind(t, "}")) && r.value.1 < |t| &&
                        t[r.value.0] == '{' && t[r.value.1] == '}'
  {
    var start := Find(t, "{");
    var end := RFind(t, "}");
    if start == -1 || end == -1 || end <= start then None
    else
      assert t[start..start + 1] == "{" && t[end..end + 1] == "}";
      Some((start, end))
  }

  /** _repair_json_payload */
  function Repair(dec: Decoder, raw: string): (r: Option<Value>)
    ensures BraceSpan(Unfenced(raw)).None? ==> r.None?
    ensures r.Some? ==> var t, span := Unfenced(raw), BraceSpan(Unfenced(raw)).value;
                        dec.loads(DropTrailingCommas(t[span.0..span.1 + 1])) == Ok(r.value)
  {
    var text := Strip(raw);
    if text == "" then None
    else
      var text := Unfenced(raw);
      if text == "" then None
      else
        match BraceSpan(text)
        case None => None
        case Some((start, end)) =>
          match dec.loads(DropTrailingCommas(text[start..end + 1]))
          case Ok(v) => Some(v)
          case Err(_) => None
  }

  // ---------------------------------------------------------------- the JSON strategies

  /** _extract_json: the decoded value, or the message of the ValueError it raises. */
  function ExtractJson(dec: Decoder, raw0: string): (r: Result<Value, string>)
  {
    var raw := Strip(raw0);
    match dec.loads(raw)
    case Ok(v) => Ok(v)
    case Err(_) => FromMarkers(dec, raw)
  }

  /** When the whole text does not decode: the marked block if the marker pair is there, else the fallbacks. */
  function FromMarkers(dec: Decoder, raw: string): (r: Result<Value, string>)
  {
    var begin := Find(raw, BeginMarker);
    var end := Find(raw, EndMarker);
    if begin != -1 && end != -1 && end > begin then
      dec.loads(Strip(Slice(raw, begin + |BeginMarker|, end)))
    else
      FromBraces(dec, raw)
  }

  /** The brace scan's best candidate, else the repaired payload, else the error. */
  function FromBraces(dec: Decoder, raw: string): (r: Result<Value, string>)
  {
    match BraceBest(dec, raw)
    case Some(v) => Ok(v)
    case None =>
      match Repair(dec, raw)
      case Some(v) => Ok(v)
      case None => Err("No JSON object found")
  }

  /** The JSON strategies as the code runs them, brace scan included. */
  method ExtractJsonRun(dec: Decoder, raw0: string) returns (r: Result<Value, string>)
    ensures r == ExtractJson(dec, raw0)
  {
    var raw := Strip(raw0);
    var whole := dec.loads(raw);
    if whole.Ok? {
      return whole;
    }
    var begin := Find(raw, BeginMarker);
    var end := Find(raw, EndMarker);
    if begin != -1 && end != -1 && end > begin {
      var block := Strip(Slice(raw, begin + |BeginMarker|, end));
      return dec.loads(block);
    }
    assert ExtractJson(dec, raw0) == FromBraces(dec, raw);
    var best := BraceScan(dec, raw);
    if best.Some? {
      return Ok(best.value);
    }
    var repaired := Repair(dec, raw);
    if repaired.Some? {
      return Ok(repaired.value);
    }
    return Err("No JSON object found");
  }

  /** Once the marker pair is present, the block alone decides: no later strategy is tried. */
  lemma BlockDecides(dec: Decoder, raw0: string)
    requires dec.loads(Strip(raw0)).Err?
    requires var raw := Strip(raw0);
             var b, e := Find(raw, BeginMarker), Find(raw, EndMarker);
             b != -1 && e != -1 && e > b
    ensures var raw := Strip(raw0);
            ExtractJson(dec, raw0) == dec.loads(Strip(Slice(raw, Find(raw, BeginMarker) + |BeginMarker|, Find(raw, EndMarker))))
  {
  }

  /** Without a usable marker pair, the brace scan's best candidate wins whenever there is one. */
  lemma BraceScanBeforeRepair(dec: Decoder, raw0: string)
    requires dec.loads(Strip(raw0)).Err?
    requires var raw := Strip(raw0);
             var b, e := Find(raw, BeginMarker), Find(raw, EndMarker);
             !(b != -1 && e != -1 && e > b)
    requires CandidatesBelow(dec, Strip(raw0), |Strip(raw0)|) != []
    ensures ExtractJson(dec, raw0) == Ok(Best(CandidatesBelow(dec, Strip(raw0), |Strip(raw0)|)))
  {
  }

  /** With no usable marker pair and no decodable `{`, the repaired payload is the answer. */
  lemma RepairLast(dec: Decoder, raw0: string)
    requires dec.loads(Strip(raw0)).Err?
    requires var raw := Strip(raw0);
             var b, e := Find(raw, BeginMarker), Find(raw, EndMarker);
             !(b != -1 && e != -1 && e > b)
    requires CandidatesBelow(dec, Strip(raw0), |Strip(raw0)|) == []
    ensures Repair(dec, Strip(raw0)).Some? ==> ExtractJson(dec, raw0) == Ok(Repair(dec, Strip(raw0)).value)
    ensures Repair(dec, Strip(raw0)).None? ==> ExtractJson(dec, raw0) == Err("No JSON object found")
  {
  }

  // ---------------------------------------------------------------- #judge / #type

  /** The one vulnerability item the `#judge: yes` fallback builds. */
  function JudgeItem(vulnType: string, raw: string): (item: seq<(string, Value)>)
    ensures |item| == 7
  {
    var cwe := if "CWE-" <= Upper(vulnType) then Upper(vulnType) else "";
    [("vulnerability_type", VStr(vulnType)),
     ("severity", VStr("medium")),
     ("confidence", VFloat(0.6)),
     ("description", VStr("Parsed from #judge/#type output.")),
     ("reasoning", VStr(Prefix(raw, 1200))),
     ("recommendation", VStr("Manually review and confirm exploitability.")),
     ("references", VList(if cwe != "" then [VStr(cwe)] else []))]
  }

  /** The type the `#judge: yes` fallback reports: the `#type:` text, with N/A read as "Potential Vulnerability". */
  function JudgeType(t: string): (vt: string)
    ensures Upper(Strip(t)) != "N/A" ==> vt == Strip(t)
  {
    var vulnType := Strip(t);
    if Upper(vulnType) == "N/A" then "Potential Vulnerability" else vulnType
  }

  /** _extract_final_answer_format */
  function FinalAnswer(dec: Decoder, raw: string): (r: Option<Value>)
    ensures r.Some? <==> dec.judgeLine(raw).Some? && dec.typeLine(raw).Some?
    ensures r.Some? && Canon(dec.judgeLine(raw).value) == "no" ==> r.value == VDict([("vulnerabilities", VList([]))])
    ensures r.Some? && Canon(dec.judgeLine(raw).value) != "no" ==>
              r.value == VDict([("vulnerabilities", VList([VDict(JudgeItem(JudgeType(dec.typeLine(raw).value), raw))]))])
  {
    match (dec.judgeLine(raw), dec.typeLine(raw))
    case (Some(j), Some(t)) =>
      if Canon(j) == "no" then Some(VDict([("vulnerabilities", VList([]))]))
      else Some(VDict([("vulnerabilities", VList([VDict(JudgeItem(JudgeType(t), raw))]))]))
    case _ => None
  }

  // ---------------------------------------------------------------- parse_findings

  datatype Parsed = Parsed(findings: seq<Finding>, nextId: int)

  /** The object parse_findings works on: _extract_json, or the #judge fallback when it raised. */
  function Decode(dec: Decoder, raw: string): (r: Result<Value, string>)
    ensures ExtractJson(dec, raw).Ok? ==> r == ExtractJson(dec, raw)
    ensures ExtractJson(dec, raw).Err? && FinalAnswer(dec, raw).Some? ==> r == Ok(FinalAnswer(dec, raw).value)
    ensures ExtractJson(dec, raw).Err? && FinalAnswer(dec, raw).None? ==> r == ExtractJson(dec, raw)
  {
    match ExtractJson(dec, raw)
    case Ok(v) => Ok(v)
    case Err(e) =>
      match FinalAnswer(dec, raw)
      case Some(v) => Ok(v)
      case None => Err(e)
  }

  /** The number of dict items in a list. */
  function DictCount(items: seq<Value>): (n: nat)
    ensures n <= |items|
  {
    if items == [] then 0
    else DictCount(items[..|items| - 1]) + (if items[|items| - 1].VDict? then 1 else 0)
  }

  /** A finding parsed from a chunk's output and numbered n. */
  ghost predicate Numbered(f: Finding, chunk: CodeChunk, n: int)
  {
    f.id == FormatId(n) && f.file == chunk.file && f.startLine == chunk.startLine &&
    f.endLine == chunk.endLine && f.funcName == chunk.funcName && IsSeverity(f.severity) && f.parseError.None?
  }

  /** The conversion of one vulnerability dict into the finding numbered n. */
  type ItemConverter = (seq<(string, Value)>, int) -> Result<Finding, string>

  /** The conversion the loop of parse_findings applies to each dict item of a chunk's output. */
  function FindingOf(dec: Decoder, chunk: CodeChunk): ItemConverter
  {
    (entries, n) => ToFinding(dec, entries, chunk, n)
  }

  /** Every finding the converter makes is numbered as asked and located in the chunk. */
  ghost predicate NumbersFor(conv: ItemConverter, chunk: CodeChunk)
  {
    forall entries, n :: conv(entries, n).Ok? ==> Numbered(conv(entries, n).value, chunk, n)
  }

  /** The converter of parse_findings numbers its findings and places them in the chunk. */
  lemma FindingOfNumbers(dec: Decoder, chunk: CodeChunk)
    ensures NumbersFor(FindingOf(dec, chunk), chunk)
  {
    forall entries, n | FindingOf(dec, chunk)(entries, n).Ok?
      ensures Numbered(FindingOf(dec, chunk)(entries, n).value, chunk, n)
    {
      assert FindingOf(dec, chunk)(entries, n) == ToFinding(dec, entries, chunk, n);
    }
  }

  /** The findings of the dict items in order, numbered from firstId; the first conversion error aborts. */
  function Convert(conv: ItemConverter, items: seq<Value>, firstId: int): (r: Result<seq<Finding>, string>)
    ensures r.Ok? ==> |r.value| == DictCount(items)
  {
    if items == [] then Ok([])
    else
      match Convert(conv, items[..|items| - 1], firstId)
      case Err(m) => Err(m)
      case Ok(fs) =>
        var last := items[|items| - 1];
        if !last.VDict? then Ok(fs)
        else
          match conv(last.entries, firstId + |fs|)
          case Err(m) => Err(m)
          case Ok(f) => Ok(fs + [f])
  }

  /** Finding k of a successful conversion is numbered firstId + k and carries the chunk's location. */
  lemma {:induction false} ConvertNumbered(conv: ItemConverter, chunk: CodeChunk, items: seq<Value>, firstId: int, k: nat)
    requires NumbersFor(conv, chunk)
    requires Convert(conv, items, firstId).Ok? && k < |Convert(conv, items, firstId).value|
    ensures Numbered(Convert(conv, items, firstId).value[k], chunk, firstId + k)
    decreases |items|
  {
    var front := items[..|items| - 1];
    var last := items[|items| - 1];
    var fs := Convert(conv, front, firstId).value;
    var all := Convert(conv, items, firstId).value;
    if !last.VDict? {
      assert all == fs;
      ConvertNumbered(conv, chunk, front, firstId, k);
    } else {
      var f := conv(last.entries, firstId + |fs|).value;
      assert all == fs + [f];
      if k < |fs| {
        assert all[k] == fs[k];
        ConvertNumbered(conv, chunk, front, firstId, k);
      } else {
        assert all[k] == f && k == |fs|;
        assert Numbered(f, chunk, firstId + |fs|);
      }
    }
  }

  /** Once a prefix fails to convert, every longer prefix fails with the same message. */
  lemma {:induction false} ConvertErrSticks(conv: ItemConverter, items: seq<Value>, firstId: int, i: nat, m: string)
    requires i <= |items|
    requires Convert(conv, items[..i], firstId) == Err(m)
    ensures Convert(conv, items, firstId) == Err(m)
    decreases |items| - i
  {
    if i < |items| {
      assert items[..i + 1][..i] == items[..i];
      ConvertErrSticks(conv, items, firstId, i + 1, m);
    } else {
      assert items[..i] == items;
    }
  }

  /** The loop of parse_findings over the vulnerabilities list. */
  method ConvertRun(conv: ItemConverter, items: seq<Value>, startId: int) returns (r: Result<seq<Finding>, string>)
    ensures r == Convert(conv, items, startId)
  {
    var findings: seq<Finding> := [];
    var nextId := startId;
    var i := 0;
    while i < |items|
      invariant 0 <= i <= |items|
      invariant Convert(conv, items[..i], startId) == Ok(findings)
      invariant nextId == startId + |findings|
    {
      assert items[..i + 1][..i] == items[..i];
      var v := items[i];
      if v.VDict? {
        var f := conv(v.entries, nextId);
        if f.Err? {
          ConvertErrSticks(conv, items, startId, i + 1, f.error);
          return Err(f.error);
        }
        findings := findings + [f.value];
        nextId := nextId + 1;
      }
      i := i + 1;
    }
    assert items[..i] == items;
    return Ok(findings);
  }

  /** The single-placeholder result of a failed parse. */
  function Failure(raw: string, chunk: CodeChunk, startId: int, message: string): (p: Parsed)
    ensures |p.findings| == 1 && p.nextId == startId + 1
    ensures p.findings[0].vulnerabilityType == "ParserError" && p.findings[0].parseError == Some(message)
  {
    Parsed([ParserErrorFinding(raw, chunk, startId, message)], startId + 1)
  }

  /** What parse_findings makes of the decoded object, or of the error decoding raised. */
  function ParseDecoded(dec: Decoder, decoded: Result<Value, string>, raw: string, chunk: CodeChunk, startId: int): (p: Parsed)
    ensures p.nextId == startId + |p.findings|
  {
    match decoded
    case Err(m) => Failure(raw, chunk, startId, m)
    case Ok(obj) =>
      if !obj.VDict? then Failure(raw, chunk, startId, "'" + TypeName(obj) + "' object has no attribute 'get'")
      else
        var vulns := GetOr(obj, "vulnerabilities", VList([]));
        if !vulns.VList? then Failure(raw, chunk, startId, "vulnerabilities must be list")
        else
          match Convert(FindingOf(dec, chunk), vulns.items, startId)
          case Err(m) => Failure(raw, chunk, startId, m)
          case Ok(fs) => Parsed(fs, startId + |fs|)
  }

  /** parse_findings, as a function of its inputs; it never raises. */
  function ParseFindings(dec: Decoder, raw: string, chunk: CodeChunk, startId: int): (p: Parsed)
    ensures p.nextId == startId + |p.findings|
  {
    ParseDecoded(dec, Decode(dec, raw), raw, chunk, startId)
  }

  /** parse_findings as the code runs it. */
  method ParseFindingsRun(dec: Decoder, raw: string, chunk: CodeChunk, startId: int)
    returns (findings: seq<Finding>, nextId: int)
    ensures Parsed(findings, nextId) == ParseFindings(dec, raw, chunk, startId)
  {
    var obj := DecodeRun(dec, raw);
    findings, nextId := ParseDecodedRun(dec, obj, raw, chunk, startId);
  }

  /** The first half of parse_findings: _extract_json, falling back on the #judge answer when it raises. */
  method DecodeRun(dec: Decoder, raw: string) returns (obj: Result<Value, string>)
    ensures obj == Decode(dec, raw)
  {
    obj := ExtractJsonRun(dec, raw);
    if obj.Err? {
      var fallback := FinalAnswer(dec, raw);
      if fallback.Some? {
        obj := Ok(fallback.value);
      }
    }
  }

  /** The second half of parse_findings: the placeholder on any failure, else the converted findings. */
  method ParseDecodedRun(dec: Decoder, obj: Result<Value, string>, raw: string, chunk: CodeChunk, startId: int)
    returns (findings: seq<Finding>, nextId: int)
    ensures Parsed(findings, nextId) == ParseDecoded(dec, obj, raw, chunk, startId)
  {
    if obj.Err? {
      return [ParserErrorFinding(raw, chunk, startId, obj.error)], startId + 1;
    }
    if !obj.value.VDict? {
      return [ParserErrorFinding(raw, chunk, startId, "'" + TypeName(obj.value) + "' object has no attribute 'get'")], startId + 1;
    }
    var vulns := GetOr(obj.value, "vulnerabilities", VList([]));
    if !vulns.VList? {
      return [ParserErrorFinding(raw, chunk, startId, "vulnerabilities must be list")], startId + 1;
    }
    var converted := ConvertRun(FindingOf(dec, chunk), vulns.items, startId);
    if converted.Err? {
      return [ParserErrorFinding(raw, chunk, startId, converted.error)], startId + 1;
    }
    return converted.value, startId + |converted.value|;
  }

  // ---------------------------------------------------------------- properties of parse_findings

  /** Whatever happens, finding k is numbered startId + k and carries the chunk's location and a known severity. */
  lemma ParseNumbered(dec: Decoder, decoded: Result<Value, string>, raw: string, chunk: CodeChunk, startId: int, k: nat)
    requires k < |ParseDecoded(dec, decoded, raw, chunk, startId).findings|
    ensures var f := ParseDecoded(dec, decoded, raw, chunk, startId).findings[k];
            f.id == FormatId(startId + k) && f.file == chunk.file && f.startLine == chunk.startLine &&
            f.endLine == chunk.endLine && f.funcName == chunk.funcName && IsSeverity(f.severity)
  {
    var p := ParseDecoded(dec, decoded, raw, chunk, startId);
    if decoded.Err? {
      assert p == Failure(raw, chunk, startId, decoded.error);
      FailureNumbered(raw, chunk, startId, decoded.error);
    } else if !decoded.value.VDict? {
      var m := "'" + TypeName(decoded.value) + "' object has no attribute 'get'";
      assert p == Failure(raw, chunk, startId, m);
      FailureNumbered(raw, chunk, startId, m);
    } else {
      var vulns := GetOr(decoded.value, "vulnerabilities", VList([]));
      if !vulns.VList? {
        assert p == Failure(raw, chunk, startId, "vulnerabilities must be list");
        FailureNumbered(raw, chunk, startId, "vulnerabilities must be list");
      } else {
        var r := Convert(FindingOf(dec, chunk), vulns.items, startId);
        if r.Err? {
          assert p == Failure(raw, chunk, startId, r.error);
          FailureNumbered(raw, chunk, startId, r.error);
        } else {
          assert p.findings == r.value;
          FindingOfNumbers(dec, chunk);
          ConvertNumbered(FindingOf(dec, chunk), chunk, vulns.items, startId, k);
        }
      }
    }
  }

  /** The placeholder of a failed parse is numbered startId, sits in the chunk and has severity "low". */
  lemma FailureNumbered(raw: string, chunk: CodeChunk, startId: int, message: string)
    ensures var f := Failure(raw, chunk, startId, message).findings[0];
            f.id == FormatId(startId) && f.file == chunk.file && f.startLine == chunk.startLine &&
            f.endLine == chunk.endLine && f.funcName == chunk.funcName && IsSeverity(f.severity)
  {
    assert IsSeverity("low");
  }

  /** Any failure gives exactly one ParserError placeholder numbered startId, carrying the error's message. */
  lemma FailureIsOnePlaceholder(dec: Decoder, decoded: Result<Value, string>, raw: string, chunk: CodeChunk, startId: int)
    requires decoded.Err?
    ensures var p := ParseDecoded(dec, decoded, raw, chunk, startId);
            |p.findings| == 1 && p.nextId == startId + 1 &&
            p.findings[0].id == FormatId(startId) &&
            p.findings[0].vulnerabilityType == "ParserError" && p.findings[0].severity == "low" &&
            p.findings[0].confidence == 0.0 && p.findings[0].reasoning == Prefix(raw, 1200) &&
            p.findings[0].parseError == Some(decoded.error)
  {
  }

  /** Decoding to something other than a dict, or to a dict whose vulnerabilities is not a list, is a failure too. */
  lemma MalformedIsFailure(dec: Decoder, obj: Value, raw: string, chunk: CodeChunk, startId: int)
    requires !obj.VDict? || !GetOr(obj, "vulnerabilities", VList([])).VList?
    ensures var p := ParseDecoded(dec, Ok(obj), raw, chunk, startId);
            |p.findings| == 1 && p.nextId == startId + 1 && p.findings[0].vulnerabilityType == "ParserError" &&
            p.findings[0].parseError ==
              Some(if !obj.VDict? then "'" + TypeName(obj) + "' object has no attribute 'get'" else "vulnerabilities must be list")
  {
  }

  /** On success there is one finding per dict item, none of them a placeholder, and a dict without vulnerabilities gives none. */
  lemma SuccessOnePerDict(dec: Decoder, obj: Value, raw: string, chunk: CodeChunk, startId: int)
    requires obj.VDict? && GetOr(obj, "vulnerabilities", VList([])).VList?
    requires Convert(FindingOf(dec, chunk), GetOr(obj, "vulnerabilities", VList([])).items, startId).Ok?
    ensures var p := ParseDecoded(dec, Ok(obj), raw, chunk, startId);
            |p.findings| == DictCount(GetOr(obj, "vulnerabilities", VList([])).items) &&
            p.nextId == startId + |p.findings| &&
            (forall k :: 0 <= k < |p.findings| ==> p.findings[k].parseError.None?) &&
            (!HasKey(obj.entries, "vulnerabilities") ==> p.findings == [])
  {
    var p := ParseDecoded(dec, Ok(obj), raw, chunk, startId);
    GetFindsKey(obj.entries, "vulnerabilities");
    FindingOfNumbers(dec, chunk);
    forall k | 0 <= k < |p.findings| ensures p.findings[k].parseError.None? {
      ConvertNumbered(FindingOf(dec, chunk), chunk, GetOr(obj, "vulnerabilities", VList([])).items, startId, k);
    }
  }

  /** A conversion error in any item (a bad confidence or references value) fails the whole parse. */
  lemma ItemErrorFailsAll(dec: Decoder, obj: Value, raw: string, chunk: CodeChunk, startId: int, i: nat)
    requires obj.VDict? && GetOr(obj, "vulnerabilities", VList([])).VList?
    requires var items := GetOr(obj, "vulnerabilities", VList([])).items;
             i < |items| && Convert(FindingOf(dec, chunk), items[..i + 1], startId).Err?
    ensures var p := ParseDecoded(dec, Ok(obj), raw, chunk, startId);
            |p.findings| == 1 && p.findings[0].vulnerabilityType == "ParserError"
  {
    var items := GetOr(obj, "vulnerabilities", VList([])).items;
    var conv := FindingOf(dec, chunk);
    ConvertErrSticks(conv, items, startId, i + 1, Convert(conv, items[..i + 1], startId).error);
  }

  /** `#judge: no` (when every JSON strategy failed) yields no findings and keeps the counter. */
  lemma JudgeNoGivesNothing(dec: Decoder, raw: string, chunk: CodeChunk, startId: int)
    requires ExtractJson(dec, raw).Err?
    requires dec.judgeLine(raw).Some? && dec.typeLine(raw).Some? && Canon(dec.judgeLine(raw).value) == "no"
    ensures ParseFindings(dec, raw, chunk, startId) == Parsed([], startId)
  {
    var obj := VDict([("vulnerabilities", VList([]))]);
    assert Decode(dec, raw) == Ok(obj);
    assert GetOr(obj, "vulnerabilities", VList([])) == VList([]);
  }

  /** The references of the `#judge: yes` item: the upper-cased type when it names a CWE. */
  function CweRefs(vt: string): (refs: seq<string>)
    ensures forall i :: 0 <= i < |refs| ==> refs[i] != "" && "CWE-" <= refs[i]
  {
    if "CWE-" <= Upper(vt) then [Upper(vt)] else []
  }

  /** Lookups in a dict laid out with the keys of the `#judge: yes` item. */
  lemma JudgeKeysGet(e: seq<(string, Value)>)
    requires |e| == 7 && e[0].0 == "vulnerability_type" && e[1].0 == "severity" && e[2].0 == "confidence"
    requires e[3].0 == "description" && e[4].0 == "reasoning" && e[5].0 == "recommendation" && e[6].0 == "references"
    ensures Get(e, "vulnerability_type") == Some(e[0].1) && Get(e, "severity") == Some(e[1].1)
    ensures Get(e, "confidence") == Some(e[2].1) && Get(e, "reasoning") == Some(e[4].1)
    ensures Get(e, "references") == Some(e[6].1) && Get(e, "evidence_spans") == None
  {
    GetFindsKey(e, "evidence_spans");
    GetLastWins(e, "vulnerability_type", 0);
    GetLastWins(e, "severity", 1);
    GetLastWins(e, "confidence", 2);
    GetLastWins(e, "reasoning", 4);
    GetLastWins(e, "references", 6);
  }

  /** What the `#judge: yes` item holds, key by key. */
  lemma JudgeItemLookups(vt: string, raw: string)
    ensures var e := JudgeItem(vt, raw);
            Get(e, "vulnerability_type") == Some(VStr(vt)) && Get(e, "severity") == Some(VStr("medium")) &&
            Get(e, "confidence") == Some(VFloat(0.6)) && Get(e, "reasoning") == Some(VStr(Prefix(raw, 1200))) &&
            Get(e, "references") == Some(VList(StrValues(CweRefs(vt)))) && Get(e, "evidence_spans") == None
  {
    JudgeKeysGet(JudgeItem(vt, raw));
    assert StrValues(CweRefs(vt)) == JudgeItem(vt, raw)[6].1.items;
  }

  /** Converting a list holding one dict is converting that dict. */
  lemma ConvertSingle(conv: ItemConverter, e: seq<(string, Value)>, startId: int)
    ensures conv(e, startId).Ok? ==> Convert(conv, [VDict(e)], startId) == Ok([conv(e, startId).value])
    ensures conv(e, startId).Err? ==> Convert(conv, [VDict(e)], startId) == Err(conv(e, startId).error)
  {
    var items := [VDict(e)];
    assert items[..0] == [];
    assert Convert(conv, items[..0], startId) == Ok([]);
    if conv(e, startId).Ok? {
      assert [] + [conv(e, startId).value] == [conv(e, startId).value];
    }
  }

  /** A dict whose vulnerabilities is a single dict item parses to that item's finding, or to a failure. */
  lemma ParseSingleDict(dec: Decoder, e: seq<(string, Value)>, raw: string, chunk: CodeChunk, startId: int)
    ensures var p := ParseDecoded(dec, Ok(VDict([("vulnerabilities", VList([VDict(e)]))])), raw, chunk, startId);
            var r := ToFinding(dec, e, chunk, startId);
            (r.Ok? ==> p == Parsed([r.value], startId + 1)) && (r.Err? ==> p == Failure(raw, chunk, startId, r.error))
  {
    var obj := VDict([("vulnerabilities", VList([VDict(e)]))]);
    assert GetOr(obj, "vulnerabilities", VList([])) == VList([VDict(e)]);
    ConvertSingle(FindingOf(dec, chunk), e, startId);
    assert FindingOf(dec, chunk)(e, startId) == ToFinding(dec, e, chunk, startId);
  }

  // The facts about one converted item that the `#judge: yes` lemmas need, one key at a time.

  lemma ItemConverts(dec: Decoder, e: seq<(string, Value)>, chunk: CodeChunk, n: int, refs: seq<string>)
    requires Get(e, "confidence") == Some(VFloat(0.6)) && Get(e, "references") == Some(VList(StrValues(refs)))
    requires Get(e, "evidence_spans") == None
    ensures ToFinding(dec, e, chunk, n).Ok?
  {
    assert GetOr(VDict(e), "evidence_spans", VNone) == VNone;
    var v := VDict(e);
    assert GetOr(v, "confidence", VFloat(0.5)) == VFloat(0.6);
    assert Or(VFloat(0.6), VFloat(0.5)) == VFloat(0.6);
    assert ToFloat(dec, VFloat(0.6)) == Ok(0.6);
    assert GetOr(v, "references", VList([])) == VList(StrValues(refs));
  }

  lemma ItemSeverity(dec: Decoder, e: seq<(string, Value)>, chunk: CodeChunk, n: int)
    requires ToFinding(dec, e, chunk, n).Ok? && Get(e, "severity") == Some(VStr("medium"))
    ensures ToFinding(dec, e, chunk, n).value.severity == "medium"
  {
    NormalizeSeverityName("medium");
  }

  lemma ItemType(dec: Decoder, e: seq<(string, Value)>, chunk: CodeChunk, n: int, vt: string)
    requires ToFinding(dec, e, chunk, n).Ok? && Get(e, "vulnerability_type") == Some(VStr(vt))
    ensures ToFinding(dec, e, chunk, n).value.vulnerabilityType == vt
  {
  }

  lemma ItemReasoning(dec: Decoder, e: seq<(string, Value)>, chunk: CodeChunk, n: int, reasoning: string)
    requires ToFinding(dec, e, chunk, n).Ok? && Get(e, "reasoning") == Some(VStr(reasoning))
    ensures ToFinding(dec, e, chunk, n).value.reasoning == reasoning
  {
  }

  lemma ItemConfidence(dec: Decoder, e: seq<(string, Value)>, chunk: CodeChunk, n: int)
    requires ToFinding(dec, e, chunk, n).Ok? && Get(e, "confidence") == Some(VFloat(0.6))
    ensures ToFinding(dec, e, chunk, n).value.confidence == 0.6
  {
  }

  lemma ItemReferences(dec: Decoder, e: seq<(string, Value)>, chunk: CodeChunk, n: int, refs: seq<string>)
    requires ToFinding(dec, e, chunk, n).Ok?
    requires Get(e, "references") == Some(VList(StrValues(refs))) && forall i :: 0 <= i < |refs| ==> refs[i] != ""
    ensures ToFinding(dec, e, chunk, n).value.references == refs
  {
    assert GetOr(VDict(e), "references", VList([])) == VList(StrValues(refs));
    assert Iterate(VList(StrValues(refs))) == Ok(StrValues(refs));
    TruthyStringsOfStrValues(dec, refs);
  }

  /** The finding made from an item holding the `#judge: yes` values: medium, confidence 0.6, its type, reasoning and references. */
  lemma JudgeEntriesFinding(dec: Decoder, e: seq<(string, Value)>, chunk: CodeChunk, n: int,
                            vt: string, reasoning: string, refs: seq<string>)
    requires Get(e, "vulnerability_type") == Some(VStr(vt)) && Get(e, "severity") == Some(VStr("medium"))
    requires Get(e, "confidence") == Some(VFloat(0.6)) && Get(e, "reasoning") == Some(VStr(reasoning))
    requires Get(e, "references") == Some(VList(StrValues(refs))) && forall i :: 0 <= i < |refs| ==> refs[i] != ""
    requires Get(e, "evidence_spans") == None
    ensures var r := ToFinding(dec, e, chunk, n);
            r.Ok? && r.value.severity == "medium" && r.value.confidence == 0.6 &&
            r.value.vulnerabilityType == vt && r.value.reasoning == reasoning && r.value.references == refs
  {
    ItemConverts(dec, e, chunk, n, refs);
    ItemSeverity(dec, e, chunk, n);
    ItemType(dec, e, chunk, n, vt);
    ItemReasoning(dec, e, chunk, n, reasoning);
    ItemConfidence(dec, e, chunk, n);
    ItemReferences(dec, e, chunk, n, refs);
  }

  /** The finding made from the `#judge: yes` item: medium, confidence 0.6, the type, the reasoning and the CWE reference. */
  lemma JudgeItemFinding(dec: Decoder, vt: string, raw: string, chunk: CodeChunk, n: int)
    ensures var r := ToFinding(dec, JudgeItem(vt, raw), chunk, n);
            r.Ok? && r.value.id == FormatId(n) && r.value.severity == "medium" && r.value.confidence == 0.6 &&
            r.value.vulnerabilityType == vt && r.value.reasoning == Prefix(raw, 1200) && r.value.references == CweRefs(vt)
  {
    JudgeItemLookups(vt, raw);
    JudgeEntriesFinding(dec, JudgeItem(vt, raw), chunk, n, vt, Prefix(raw, 1200), CweRefs(vt));
  }

  /**
   * `#judge: yes` (when every JSON strategy failed) yields exactly one finding, numbered
   * startId: medium, confidence 0.6, the `#type:` text, the first 1200 characters as
   * reasoning, and the upper-cased type as reference when it names a CWE.
   */
  lemma JudgeYesGivesOne(dec: Decoder, raw: string, chunk: CodeChunk, startId: int)
    requires ExtractJson(dec, raw).Err?
    requires dec.judgeLine(raw).Some? && dec.typeLine(raw).Some? && Canon(dec.judgeLine(raw).value) != "no"
    ensures var p := ParseFindings(dec, raw, chunk, startId);
            var vt := JudgeType(dec.typeLine(raw).value);
            |p.findings| == 1 && p.nextId == startId + 1 && p.findings[0].id == FormatId(startId) &&
            p.findings[0].severity == "medium" && p.findings[0].confidence == 0.6 &&
            p.findings[0].vulnerabilityType == vt && p.findings[0].reasoning == Prefix(raw, 1200) &&
            p.findings[0].references == CweRefs(vt)
  {
    var vt := JudgeType(dec.typeLine(raw).value);
    var e := JudgeItem(vt, raw);
    assert Decode(dec, raw) == Ok(VDict([("vulnerabilities", VList([VDict(e)]))]));
    ParseSingleDict(dec, e, raw, chunk, startId);
    JudgeItemFinding(dec, vt, raw, chunk, startId);
  }
}
