/**
 * The values that JSON and TOML decoding hand to the scanner, as Python sees them:
 * None, bool, int, float, str, list and dict. A dict is its list of entries in
 * insertion order; when a key occurs more than once the last entry holds its value,
 * which is what Python's dict does with the pairs the JSON decoder produces.
 * Floats are modelled as reals.
 */
module PyValue {
  import opened Wrappers

  datatype Value =
    | VNone
    | VBool(b: bool)
    | VInt(i: int)
    | VFloat(r: real)
    | VStr(s: string)
    | VList(items: seq<Value>)
    | VDict(entries: seq<(string, Value)>)

  /** key in d */
  predicate HasKey(entries: seq<(string, Value)>, key: string)
  {
    exists i :: 0 <= i < |entries| && entries[i].0 == key
  }

  /** d.get(key): the value of the last entry with that key. */
  function Get(entries: seq<(string, Value)>, key: string): Option<Value>
  {
    GetBelow(entries, key, |entries|)
  }

  /** The value of the last entry with that key among the first n. */
  function GetBelow(entries: seq<(string, Value)>, key: string, n: nat): Option<Value>
    requires n <= |entries|
  {
    if n == 0 then None
    else if entries[n - 1].0 == key then Some(entries[n - 1].1)
    else GetBelow(entries, key, n - 1)
  }

  /** d.get(key) finds a value exactly when key is in d. */
  lemma GetFindsKey(entries: seq<(string, Value)>, key: string)
    ensures Get(entries, key).Some? <==> HasKey(entries, key)
  {
    GetBelowFinds(entries, key, |entries|);
  }

  lemma {:induction false} GetBelowFinds(entries: seq<(string, Value)>, key: string, n: nat)
    requires n <= |entries|
    ensures GetBelow(entries, key, n).Some? <==> exists i :: 0 <= i < n && entries[i].0 == key
  {
    if n > 0 && entries[n - 1].0 != key {
      GetBelowFinds(entries, key, n - 1);
    }
  }

  /** The value d.get(key) yields is the one in the last entry for that key. */
  lemma GetLastWins(entries: seq<(string, Value)>, key: string, i: nat)
    requires i < |entries| && entries[i].0 == key
    requires forall j :: i < j < |entries| ==> entries[j].0 != key
    ensures Get(entries, key) == Some(entries[i].1)
  {
    GetBelowLastWins(entries, key, i, |entries|);
  }

  lemma {:induction false} GetBelowLastWins(entries: seq<(string, Value)>, key: string, i: nat, n: nat)
    requires i < n <= |entries| && entries[i].0 == key
    requires forall j :: i < j < n ==> entries[j].0 != key
    ensures GetBelow(entries, key, n) == Some(entries[i].1)
  {
    if i < n - 1 {
      GetBelowLastWins(entries, key, i, n - 1);
    }
  }

  /** d.get(key, default) */
  function GetOr(v: Value, key: string, default: Value): (r: Value)
    ensures v.VDict? && Get(v.entries, key).Some? ==> Get(v.entries, key) == Some(r)
    ensures !(v.VDict? && Get(v.entries, key).Some?) ==> r == default
  {
    if v.VDict? then
      match Get(v.entries, key)
      case Some(x) => x
      case None => default
    else default
  }

  /** Python truthiness. */
  predicate Truthy(v: Value)
  {
    match v
    case VNone => false
    case VBool(b) => b
    case VInt(i) => i != 0
    case VFloat(r) => r != 0.0
    case VStr(s) => s != ""
    case VList(items) => items != []
    case VDict(entries) => entries != []
  }

  /** `value or default` */
  function Or(v: Value, default: Value): (r: Value)
    ensures Truthy(v) ==> r == v
    ensures !Truthy(v) ==> r == default
  {
    if Truthy(v) then v else default
  }

  /** type(v).__name__ */
  function TypeName(v: Value): string
  {
    match v
    case VNone => "NoneType"
    case VBool(_) => "bool"
    case VInt(_) => "int"
    case VFloat(_) => "float"
    case VStr(_) => "str"
    case VList(_) => "list"
    case VDict(_) => "dict"
  }

  /** The keys of a dict, once each, in the order they were first inserted. */
  function Keys(entries: seq<(string, Value)>): (r: seq<string>)
    ensures forall k :: k in r <==> HasKey(entries, k)
    ensures forall a, b :: 0 <= a < b < |r| ==> r[a] != r[b]
  {
    if entries == [] then []
    else
      var front := entries[..|entries| - 1];
      var k := entries[|entries| - 1].0;
      assert forall i :: 0 <= i < |front| ==> front[i] == entries[i];
      var r := if HasKey(front, k) then Keys(front) else Keys(front) + [k];
      assert forall k' :: HasKey(entries, k') <==> HasKey(front, k') || k' == k;
      r
  }
}
