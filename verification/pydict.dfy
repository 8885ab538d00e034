/**
 * Writing into Python dicts, on the entry-list representation of PyValue: `d[k] = v`
 * overwrites the key in place or appends it, and `d.setdefault(k, {})` for the
 * two-level section dicts the configuration code builds.
 */
module PyDict {
  import opened Wrappers
  import opened PyValue

  type Entries = seq<(string, Value)>

  /** No key occurs twice, as in every dict Python builds. */
  predicate DistinctKeys(e: Entries)
  {
    forall i, j :: 0 <= i < j < |e| ==> e[i].0 != e[j].0
  }

  /** Distinct keys, and so has every dict stored directly under a key. */
  ghost predicate Tidy(e: Entries)
  {
    DistinctKeys(e) &&
    forall k :: Get(e, k).Some? && Get(e, k).value.VDict? ==> DistinctKeys(Get(e, k).value.entries)
  }

  lemma {:induction false} GetBelowPrefix(e: Entries, x: Entries, k: string, n: nat)
    requires n <= |e|
    ensures GetBelow(e + x, k, n) == GetBelow(e, k, n)
  {
    if n > 0 {
      GetBelowPrefix(e, x, k, n - 1);
    }
  }

  /** Looking up in a dict with one more entry at the end. */
  lemma GetAppend(e: Entries, key: string, v: Value, k: string)
    ensures Get(e + [(key, v)], k) == if k == key then Some(v) else Get(e, k)
  {
    GetBelowPrefix(e, [(key, v)], k, |e|);
  }

  lemma HasKeyAppend(e: Entries, p: (string, Value), k: string)
    ensures HasKey(e + [p], k) <==> HasKey(e, k) || p.0 == k
  {
    if HasKey(e, k) {
      var i :| 0 <= i < |e| && e[i].0 == k;
      assert (e + [p])[i] == e[i];
    }
    if HasKey(e + [p], k) && !HasKey(e, k) {
      var i :| 0 <= i < |e| + 1 && (e + [p])[i].0 == k;
    }
    if p.0 == k {
      assert (e + [p])[|e|] == p;
    }
  }

  /** Every entry for `key` gets the value v; keys and their order stay as they are. */
  function Replace(e: Entries, key: string, v: Value): (r: Entries)
    ensures |r| == |e|
    ensures forall i :: 0 <= i < |e| ==> r[i].0 == e[i].0
  {
    if e == [] then []
    else
      var last := e[|e| - 1];
      Replace(e[..|e| - 1], key, v) + [if last.0 == key then (key, v) else last]
  }

  lemma {:induction false} ReplaceGet(e: Entries, key: string, v: Value, k: string)
    ensures Get(Replace(e, key, v), k) == if k == key && HasKey(e, key) then Some(v) else Get(e, k)
    decreases |e|
  {
    if e != [] {
      var front := e[..|e| - 1];
      var last := e[|e| - 1];
      ReplaceGet(front, key, v, k);
      var p := if last.0 == key then (key, v) else last;
      GetAppend(Replace(front, key, v), p.0, p.1, k);
      assert e == front + [last];
      GetAppend(front, last.0, last.1, k);
      HasKeyAppend(front, last, key);
    }
  }

  lemma ReplaceGetAll(e: Entries, key: string, v: Value)
    requires HasKey(e, key)
    ensures forall k :: Get(Replace(e, key, v), k) == if k == key then Some(v) else Get(e, k)
  {
    forall k {
      ReplaceGet(e, key, v, k);
    }
  }

  /** d[key] = v */
  function Put(e: Entries, key: string, v: Value): (r: Entries)
    ensures forall k :: Get(r, k) == if k == key then Some(v) else Get(e, k)
    ensures forall k :: HasKey(r, k) <==> HasKey(e, k) || k == key
    ensures DistinctKeys(e) ==> DistinctKeys(r)
  {
    if HasKey(e, key) then
      ReplaceGetAll(e, key, v);
      var r := Replace(e, key, v);
      assert forall k :: HasKey(r, k) ==> HasKey(e, k) by {
        forall k | HasKey(r, k) ensures HasKey(e, k) {
          var i :| 0 <= i < |r| && r[i].0 == k;
          assert e[i].0 == k;
        }
      }
      assert forall k :: HasKey(e, k) ==> HasKey(r, k) by {
        forall k | HasKey(e, k) ensures HasKey(r, k) {
          var i :| 0 <= i < |e| && e[i].0 == k;
          assert r[i].0 == k;
        }
      }
      r
    else
      var r := e + [(key, v)];
      assert forall k :: Get(r, k) == if k == key then Some(v) else Get(e, k) by {
        forall k {
          GetAppend(e, key, v, k);
        }
      }
      assert forall k :: HasKey(r, k) <==> HasKey(e, k) || k == key by {
        forall k {
          HasKeyAppend(e, (key, v), k);
        }
      }
      r
  }

  /** Putting a value whose own dict, if any, has distinct keys keeps a dict tidy. */
  lemma PutTidy(e: Entries, key: string, v: Value)
    requires Tidy(e)
    requires v.VDict? ==> DistinctKeys(v.entries)
    ensures Tidy(Put(e, key, v))
  {
  }

  /** d[s][k], when d[s] is a dict. */
  function GetIn(d: Entries, s: string, k: string): (r: Option<Value>)
    ensures r.Some? ==> Get(d, s).Some? && Get(d, s).value.VDict? && Get(Get(d, s).value.entries, k) == r
  {
    match Get(d, s)
    case Some(VDict(e)) => Get(e, k)
    case _ => None
  }

  /** The dict d.setdefault(s, {}) hands back, when what is there is a dict or nothing. */
  function SectionOf(d: Entries, s: string): (r: Entries)
    ensures Get(d, s).Some? && Get(d, s).value.VDict? ==> r == Get(d, s).value.entries
    ensures !(Get(d, s).Some? && Get(d, s).value.VDict?) ==> r == []
  {
    match Get(d, s)
    case Some(VDict(e)) => e
    case _ => []
  }

  /** d.setdefault(s, {})[k] = v */
  function SetIn(d: Entries, s: string, k: string, v: Value): (r: Entries)
    ensures forall s', k' :: GetIn(r, s', k') == if s' == s && k' == k then Some(v) else GetIn(d, s', k')
    ensures forall s' :: s' != s ==> Get(r, s') == Get(d, s')
  {
    var sec := SectionOf(d, s);
    Put(d, s, VDict(Put(sec, k, v)))
  }

  lemma SetInTidy(d: Entries, s: string, k: string, v: Value)
    requires Tidy(d)
    ensures Tidy(SetIn(d, s, k, v))
  {
    PutTidy(d, s, VDict(Put(SectionOf(d, s), k, v)));
  }
}
