/**
 * deduplicate_findings (vulnllm/findings/deduplicator.py): keep the first finding for
 * each (file, start_line, end_line, vulnerability_type) key, in input order.
 */
module Dedup {
  import opened FindingModel

  type Key = (string, int, int, string)

  /** The deduplication key of a finding. */
  function KeyOf(f: Finding): Key
  {
    (f.file, f.startLine, f.endLine, f.vulnerabilityType)
  }

  /** The keys of a list of findings. */
  function KeySet(fs: seq<Finding>): set<Key>
  {
    set i | 0 <= i < |fs| :: KeyOf(fs[i])
  }

  lemma KeySetAppend(fs: seq<Finding>, f: Finding)
    ensures KeySet(fs + [f]) == KeySet(fs) + {KeyOf(f)}
  {
    var all := fs + [f];
    forall k | k in KeySet(all) ensures k in KeySet(fs) + {KeyOf(f)} {
      var i :| 0 <= i < |all| && KeyOf(all[i]) == k;
      if i < |fs| {
        assert all[i] == fs[i];
      }
    }
    forall k | k in KeySet(fs) ensures k in KeySet(all) {
      var i :| 0 <= i < |fs| && KeyOf(fs[i]) == k;
      assert all[i] == fs[i];
    }
    assert KeyOf(all[|fs|]) == KeyOf(f);
  }

  /** The findings deduplicate_findings keeps: a finding stays when no earlier one has its key. */
  function Dedupe(fs: seq<Finding>): (r: seq<Finding>)
    ensures |r| <= |fs|
  {
    if fs == [] then []
    else
      var front := fs[..|fs| - 1];
      var last := fs[|fs| - 1];
      if KeyOf(last) in KeySet(front) then Dedupe(front) else Dedupe(front) + [last]
  }

  /** deduplicate_findings: one pass with the `seen` set. */
  method DeduplicateFindings(findings: seq<Finding>) returns (out: seq<Finding>)
    ensures out == Dedupe(findings)
  {
    var seen: set<Key> := {};
    out := [];
    for i := 0 to |findings|
      invariant seen == KeySet(findings[..i])
      invariant out == Dedupe(findings[..i])
    {
      var f := findings[i];
      var key := KeyOf(f);
      assert findings[..i + 1][..i] == findings[..i];
      KeySetAppend(findings[..i], f);
      assert findings[..i + 1] == findings[..i] + [f];
      if key in seen {
        continue;
      }
      seen := seen + {key};
      out := out + [f];
    }
    assert findings[..|findings|] == findings;
  }

  /** No two kept findings share a key, and the kept keys are exactly the input's keys. */
  lemma {:induction false} DedupeKeys(fs: seq<Finding>)
    ensures KeySet(Dedupe(fs)) == KeySet(fs)
    ensures forall a, b :: 0 <= a < b < |Dedupe(fs)| ==> KeyOf(Dedupe(fs)[a]) != KeyOf(Dedupe(fs)[b])
    decreases |fs|
  {
    if fs != [] {
      var front := fs[..|fs| - 1];
      var last := fs[|fs| - 1];
      DedupeKeys(front);
      assert fs == front + [last];
      KeySetAppend(front, last);
      if KeyOf(last) !in KeySet(front) {
        var r := Dedupe(front);
        KeySetAppend(r, last);
        forall a, b | 0 <= a < b < |r| + 1 ensures KeyOf((r + [last])[a]) != KeyOf((r + [last])[b]) {
          if b == |r| {
            assert (r + [last])[a] == r[a];
            assert KeyOf(r[a]) in KeySet(r);
          } else {
            assert (r + [last])[a] == r[a] && (r + [last])[b] == r[b];
          }
        }
      }
    }
  }

  /**
   * The output is a subsequence of the input (kept[j] is where output j came from, in
   * increasing order), and what is kept for a key is its first occurrence.
   */
  lemma {:induction false} DedupeKeepsFirst(fs: seq<Finding>) returns (kept: seq<nat>)
    ensures |kept| == |Dedupe(fs)|
    ensures forall j :: 0 <= j < |kept| ==> kept[j] < |fs| && Dedupe(fs)[j] == fs[kept[j]]
    ensures forall j, m :: 0 <= j < m < |kept| ==> kept[j] < kept[m]
    ensures forall j, m :: 0 <= j < |kept| && 0 <= m < kept[j] ==> KeyOf(fs[m]) != KeyOf(fs[kept[j]])
    decreases |fs|
  {
    if fs == [] {
      return [];
    }
    var front := fs[..|fs| - 1];
    var last := fs[|fs| - 1];
    var k := DedupeKeepsFirst(front);
    assert forall i :: 0 <= i < |front| ==> fs[i] == front[i];
    if KeyOf(last) in KeySet(front) {
      assert Dedupe(fs) == Dedupe(front);
      kept := k;
    } else {
      assert Dedupe(fs) == Dedupe(front) + [last];
      kept := k + [|fs| - 1];
      forall m | 0 <= m < |fs| - 1 ensures KeyOf(fs[m]) != KeyOf(last) {
        assert fs[m] == front[m];
      }
    }
  }

  /** A list whose keys are already distinct is its own deduplication. */
  lemma {:induction false} DedupeDistinct(fs: seq<Finding>)
    requires forall a, b :: 0 <= a < b < |fs| ==> KeyOf(fs[a]) != KeyOf(fs[b])
    ensures Dedupe(fs) == fs
    decreases |fs|
  {
    if fs != [] {
      var front := fs[..|fs| - 1];
      DedupeDistinct(front);
      forall i | 0 <= i < |front| ensures KeyOf(front[i]) != KeyOf(fs[|fs| - 1]) {
        assert front[i] == fs[i];
      }
      assert KeyOf(fs[|fs| - 1]) !in KeySet(front);
      assert front + [fs[|fs| - 1]] == fs;
    }
  }

  /** Deduplicating twice is deduplicating once. */
  lemma DedupeIdempotent(fs: seq<Finding>)
    ensures Dedupe(Dedupe(fs)) == Dedupe(fs)
  {
    DedupeKeys(fs);
    DedupeDistinct(Dedupe(fs));
  }
}
