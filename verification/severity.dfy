/**
 * Severity vocabulary of findings (vulnllm/findings/severity.py): every free-form
 * severity a model writes is mapped onto low < medium < high < critical.
 */
module Severity {
  import opened Text

  /** SEVERITIES, in rank order. */
  const Severities: seq<string> := ["low", "medium", "high", "critical"]

  predicate IsSeverity(s: string) { s in Severities }

  /** normalize_severity */
  function NormalizeSeverity(value: string): (r: string)
    ensures IsSeverity(r)
    ensures value == "" ==> r == "medium"
    ensures value != "" && IsSeverity(Canon(value)) ==> r == Canon(value)
    ensures value != "" && Canon(value) in {"info", "informational"} ==> r == "low"
    ensures value != "" && Canon(value) in {"severe", "very high"} ==> r == "high"
    ensures value != "" && !IsSeverity(Canon(value)) && Canon(value) !in {"info", "informational", "severe", "very high"}
            ==> r == "medium"
  {
    if value == "" then "medium"
    else
      var low := Canon(value);
      if low in Severities then low
      else if low in {"info", "informational"} then "low"
      else if low in {"severe", "very high"} then "high"
      else "medium"
  }

  /** severity_rank: the 1-based position of the normalised severity. */
  function SeverityRank(value: string): (r: int)
    ensures 1 <= r <= 4
    ensures Severities[r - 1] == NormalizeSeverity(value)
  {
    var v := NormalizeSeverity(value);
    if v == "low" then 1 else if v == "medium" then 2 else if v == "high" then 3 else 4
  }

  /** Each severity name is its own canonical form. */
  lemma CanonOfSeverity(s: string)
    requires IsSeverity(s)
    ensures Canon(s) == s
  {
    StripTrimmed(s);
    assert forall i :: 0 <= i < |s| ==> LowerChar(s[i]) == s[i];
  }

  /** Each severity name normalises to itself. */
  lemma NormalizeSeverityName(s: string)
    requires IsSeverity(s)
    ensures NormalizeSeverity(s) == s
  {
    CanonOfSeverity(s);
  }

  /** Normalising twice is normalising once. */
  lemma NormalizeIdempotent(value: string)
    ensures NormalizeSeverity(NormalizeSeverity(value)) == NormalizeSeverity(value)
  {
    CanonOfSeverity(NormalizeSeverity(value));
  }

  /** Matching ignores letter case and surrounding whitespace. */
  lemma NormalizeIgnoresCaseAndPadding(pre: string, value: string, post: string)
    requires AllSpace(pre) && AllSpace(post) && value != ""
    ensures NormalizeSeverity(pre + Upper(value) + post) == NormalizeSeverity(value)
  {
    CanonIgnoresCaseAndPadding(pre, value, post);
  }

  /** The ranks order the vocabulary low < medium < high < critical, and a name ranks at its position. */
  lemma RankOrder()
    ensures SeverityRank("low") == 1 && SeverityRank("medium") == 2
    ensures SeverityRank("high") == 3 && SeverityRank("critical") == 4
  {
    CanonOfSeverity("low");
    CanonOfSeverity("medium");
    CanonOfSeverity("high");
    CanonOfSeverity("critical");
  }
}
