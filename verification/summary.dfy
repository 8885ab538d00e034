/**
 * build_summary (vulnllm/reporting/summary.py): how many findings a report holds, in
 * total and per severity, ParserError placeholders excluded.
 */
module Summary {
  import opened FindingModel
  import opened Severity

  datatype Summary = Summary(total: nat, critical: nat, high: nat, medium: nat, low: nat)

  /** The findings the Counter sees: everything but ParserError placeholders. */
  predicate Counted(f: Finding)
  {
    f.vulnerabilityType != "ParserError"
  }

  /** Counted findings whose severity is exactly sev (the Counter's key, not normalised). */
  function InBucket(sev: string): Finding -> bool
  {
    f => Counted(f) && f.severity == sev
  }

  /** How many elements of s satisfy p. */
  function CountIf<T>(s: seq<T>, p: T -> bool): (n: nat)
    ensures n <= |s|
  {
    if s == [] then 0 else CountIf(s[..|s| - 1], p) + if p(s[|s| - 1]) then 1 else 0
  }

  /** Nothing is counted exactly when p holds of no element, and everything exactly when it holds of all. */
  lemma {:induction false} CountIfExtremes<T>(s: seq<T>, p: T -> bool)
    ensures CountIf(s, p) == 0 <==> forall i :: 0 <= i < |s| ==> !p(s[i])
    ensures CountIf(s, p) == |s| <==> forall i :: 0 <= i < |s| ==> p(s[i])
    decreases |s|
  {
    if s != [] {
      var front := s[..|s| - 1];
      CountIfExtremes(front, p);
      assert forall i :: 0 <= i < |front| ==> front[i] == s[i];
    }
  }

  /** build_summary */
  function BuildSummary(fs: seq<Finding>): Summary
  {
    Summary(CountIf(fs, Counted), CountIf(fs, InBucket("critical")), CountIf(fs, InBucket("high")),
            CountIf(fs, InBucket("medium")), CountIf(fs, InBucket("low")))
  }

  lemma {:induction false} CountIfAppend<T>(a: seq<T>, b: seq<T>, p: T -> bool)
    ensures CountIf(a + b, p) == CountIf(a, p) + CountIf(b, p)
    decreases |b|
  {
    if b != [] {
      var front := b[..|b| - 1];
      CountIfAppend(a, front, p);
      assert (a + b)[..|a + b| - 1] == a + front;
      assert (a + b)[|a + b| - 1] == b[|b| - 1];
    } else {
      assert a + b == a;
    }
  }

  /** Counting does not depend on the order of the elements. */
  lemma {:induction false} CountIfPermutation<T>(a: seq<T>, b: seq<T>, p: T -> bool)
    requires multiset(a) == multiset(b)
    ensures CountIf(a, p) == CountIf(b, p)
    decreases |a|
  {
    if a != [] {
      var x := a[|a| - 1];
      assert x in multiset(b);
      var j :| 0 <= j < |b| && b[j] == x;
      RemoveOne(a, |a| - 1);
      RemoveOne(b, j);
      CountIfRemove(a, |a| - 1, p);
      CountIfRemove(b, j, p);
      CountIfPermutation(a[..|a| - 1] + a[|a|..], b[..j] + b[j + 1..], p);
    }
  }

  /** Taking one element out lowers the count by one exactly when p holds of it. */
  lemma CountIfRemove<T>(s: seq<T>, j: nat, p: T -> bool)
    requires j < |s|
    ensures CountIf(s, p) == CountIf(s[..j] + s[j + 1..], p) + if p(s[j]) then 1 else 0
  {
    var m, r := s[..j + 1], s[j + 1..];
    assert s == m + r;
    CountIfAppend(m, r, p);
    assert m[..j] == s[..j];
    CountIfLast(m, p);
    CountIfAppend(s[..j], r, p);
  }

  lemma RemoveOne<T>(s: seq<T>, j: nat)
    requires j < |s|
    ensures multiset(s[..j] + s[j + 1..]) == multiset(s) - multiset{s[j]}
  {
    assert s == s[..j] + [s[j]] + s[j + 1..];
  }

  /** A weaker condition counts at least as many elements. */
  lemma {:induction false} CountIfMonotone<T>(s: seq<T>, p: T -> bool, q: T -> bool)
    requires forall x :: p(x) ==> q(x)
    ensures CountIf(s, p) <= CountIf(s, q)
    decreases |s|
  {
    if s != [] {
      CountIfMonotone(s[..|s| - 1], p, q);
    }
  }

  /** Conditions that agree on every element count the same. */
  lemma {:induction false} CountIfSame<T>(s: seq<T>, p: T -> bool, q: T -> bool)
    requires forall i :: 0 <= i < |s| ==> p(s[i]) == q(s[i])
    ensures CountIf(s, p) == CountIf(s, q)
    decreases |s|
  {
    if s != [] {
      var front := s[..|s| - 1];
      assert forall i :: 0 <= i < |front| ==> front[i] == s[i];
      CountIfSame(front, p, q);
    }
  }

  lemma CountIfLast<T>(s: seq<T>, p: T -> bool)
    requires s != []
    ensures CountIf(s, p) == CountIf(s[..|s| - 1], p) + if p(s[|s| - 1]) then 1 else 0
  {
  }

  /** The four buckets together count the counted findings whose severity is one of the four names. */
  lemma {:induction false} BucketsSum(fs: seq<Finding>)
    ensures CountIf(fs, InBucket("critical")) + CountIf(fs, InBucket("high")) +
            CountIf(fs, InBucket("medium")) + CountIf(fs, InBucket("low")) ==
            CountIf(fs, f => Counted(f) && IsSeverity(f.severity))
    decreases |fs|
  {
    if fs != [] {
      var front, f := fs[..|fs| - 1], fs[|fs| - 1];
      BucketsSum(front);
      CountIfLast(fs, InBucket("critical"));
      CountIfLast(fs, InBucket("high"));
      CountIfLast(fs, InBucket("medium"));
      CountIfLast(fs, InBucket("low"));
      CountIfLast(fs, f => Counted(f) && IsSeverity(f.severity));
    }
  }

  /** The summary of no findings is all zeros. */
  lemma SummaryEmpty()
    ensures BuildSummary([]) == Summary(0, 0, 0, 0, 0)
  {
  }

  /** Summaries add up over concatenation. */
  lemma SummaryAppend(a: seq<Finding>, b: seq<Finding>)
    ensures var s, x, y := BuildSummary(a + b), BuildSummary(a), BuildSummary(b);
            s.total == x.total + y.total && s.critical == x.critical + y.critical &&
            s.high == x.high + y.high && s.medium == x.medium + y.medium && s.low == x.low + y.low
  {
    CountIfAppend(a, b, Counted);
    CountIfAppend(a, b, InBucket("critical"));
    CountIfAppend(a, b, InBucket("high"));
    CountIfAppend(a, b, InBucket("medium"));
    CountIfAppend(a, b, InBucket("low"));
  }

  /** A ParserError placeholder changes nothing; any other finding adds one to the total and one to its bucket. */
  lemma SummaryAddOne(fs: seq<Finding>, f: Finding)
    ensures !Counted(f) ==> BuildSummary(fs + [f]) == BuildSummary(fs)
    ensures Counted(f) ==>
              var s, x := BuildSummary(fs + [f]), BuildSummary(fs);
              s == x.(total := x.total + 1,
                      critical := x.critical + (if f.severity == "critical" then 1 else 0),
                      high := x.high + (if f.severity == "high" then 1 else 0),
                      medium := x.medium + (if f.severity == "medium" then 1 else 0),
                      low := x.low + (if f.severity == "low" then 1 else 0))
  {
    SummaryAppend(fs, [f]);
    assert [f][..0] == [];
  }

  /** The summary does not depend on the order of the findings. */
  lemma SummaryPermutation(a: seq<Finding>, b: seq<Finding>)
    requires multiset(a) == multiset(b)
    ensures BuildSummary(a) == BuildSummary(b)
  {
    CountIfPermutation(a, b, Counted);
    CountIfPermutation(a, b, InBucket("critical"));
    CountIfPermutation(a, b, InBucket("high"));
    CountIfPermutation(a, b, InBucket("medium"));
    CountIfPermutation(a, b, InBucket("low"));
  }

  /**
   * The buckets never add up to more than the total, which never exceeds the number of
   * findings; when every severity is normalised the buckets add up to the total exactly.
   */
  lemma SummaryTotals(fs: seq<Finding>)
    ensures var s := BuildSummary(fs);
            s.critical + s.high + s.medium + s.low <= s.total <= |fs|
    ensures (forall i :: 0 <= i < |fs| ==> IsSeverity(fs[i].severity)) ==>
              var s := BuildSummary(fs);
              s.critical + s.high + s.medium + s.low == s.total
    ensures (forall i :: 0 <= i < |fs| ==> !Counted(fs[i])) <==> BuildSummary(fs).total == 0
  {
    BucketsSum(fs);
    CountIfMonotone(fs, f => Counted(f) && IsSeverity(f.severity), Counted);
    CountIfExtremes(fs, Counted);
    if forall i :: 0 <= i < |fs| ==> IsSeverity(fs[i].severity) {
      CountIfSame(fs, f => Counted(f) && IsSeverity(f.severity), Counted);
    }
  }
}
