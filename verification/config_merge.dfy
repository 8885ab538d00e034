/**
 * How resolve_config (vulnllm/config.py) assembles the configuration dict before it
 * is typed: the TOML file, then VULNLLM_* environment variables, then command-line
 * options, each merged into the previous with _deep_update.
 */
module ConfigMerge {
  import opened Wrappers
  import opened Text
  import opened PyValue
  import opened PyDict

  /** What resolve_config can raise: ValueError, or another exception (TypeError, AttributeError). */
  datatype ConfigError = ValueError(msg: string) | OtherError(msg: string)

  // ---------------------------------------------------------------- _deep_update

  /** The dict _deep_update(dst, src) leaves once it has handled the first n entries of src. */
  function MergeUpTo(dst: Entries, src: Entries, n: nat): (r: Entries)
    requires n <= |src|
    ensures DistinctKeys(dst) ==> DistinctKeys(r)
    decreases VDict(src), n
  {
    if n == 0 then dst
    else MergeEntry(MergeUpTo(dst, src, n - 1), src[n - 1].0, src[n - 1].1)
  }

  /** One entry k: v of src: a dict merges into a dict already under k, anything else overwrites. */
  function MergeEntry(d: Entries, k: string, v: Value): (r: Entries)
    ensures DistinctKeys(d) ==> DistinctKeys(r)
    decreases v, if v.VDict? then |v.entries| + 2 else 0
  {
    var cur := Get(d, k);
    if v.VDict? && cur.Some? && cur.value.VDict? then
      Put(d, k, VDict(Merge(cur.value.entries, v.entries)))
    else
      Put(d, k, v)
  }

  /** The dict _deep_update(dst, src) leaves. */
  function Merge(dst: Entries, src: Entries): (r: Entries)
    ensures DistinctKeys(dst) ==> DistinctKeys(r)
    decreases VDict(src), |src| + 1
  {
    MergeUpTo(dst, src, |src|)
  }

  /** _deep_update: walk src, handling one entry at a time. */
  method DeepUpdate(dst: Entries, src: Entries) returns (r: Entries)
    ensures r == Merge(dst, src)
    decreases VDict(src), 0
  {
    r := dst;
    for i := 0 to |src|
      invariant r == MergeUpTo(dst, src, i)
    {
      r := DeepUpdateEntry(r, src[i].0, src[i].1);
    }
  }

  /** One entry of _deep_update: merge a dict into a dict, overwrite everything else. */
  method DeepUpdateEntry(d: Entries, k: string, v: Value) returns (r: Entries)
    ensures r == MergeEntry(d, k, v)
    decreases v, 1
  {
    var cur := Get(d, k);
    if v.VDict? && cur.Some? && cur.value.VDict? {
      var sub := DeepUpdate(cur.value.entries, v.entries);
      r := Put(d, k, VDict(sub));
    } else {
      r := Put(d, k, v);
    }
  }

  lemma {:induction false} MergeUpToGet(dst: Entries, src: Entries, n: nat, k: string)
    requires n <= |src| && DistinctKeys(src)
    ensures var s := GetBelow(src, k, n);
            var d := Get(dst, k);
            Get(MergeUpTo(dst, src, n), k) ==
              if s.None? then d
              else if s.value.VDict? && d.Some? && d.value.VDict? then Some(VDict(Merge(d.value.entries, s.value.entries)))
              else s
    decreases n
  {
    if n > 0 {
      MergeUpToGet(dst, src, n - 1, k);
      if k == src[n - 1].0 {
        GetBelowFinds(src, k, n - 1);
      }
    }
  }

  /**
   * What _deep_update leaves under each key: dst's value where src lacks the key, the
   * recursive merge where both hold a dict, and src's value otherwise.
   */
  lemma MergeGet(dst: Entries, src: Entries, k: string)
    requires DistinctKeys(src)
    ensures Get(src, k).None? ==> Get(Merge(dst, src), k) == Get(dst, k)
    ensures Get(src, k).Some? && Get(src, k).value.VDict? && Get(dst, k).Some? && Get(dst, k).value.VDict? ==>
              Get(Merge(dst, src), k) == Some(VDict(Merge(Get(dst, k).value.entries, Get(src, k).value.entries)))
    ensures Get(src, k).Some? && !(Get(src, k).value.VDict? && Get(dst, k).Some? && Get(dst, k).value.VDict?) ==>
              Get(Merge(dst, src), k) == Get(src, k)
  {
    MergeUpToGet(dst, src, |src|, k);
  }

  /** The merged dict has exactly the keys of both. */
  lemma MergeKeys(dst: Entries, src: Entries, k: string)
    requires DistinctKeys(src)
    ensures HasKey(Merge(dst, src), k) <==> HasKey(dst, k) || HasKey(src, k)
  {
    MergeGet(dst, src, k);
    GetFindsKey(Merge(dst, src), k);
    GetFindsKey(dst, k);
    GetFindsKey(src, k);
  }

  /** Merging tidy dicts gives a tidy dict. */
  lemma MergeTidy(dst: Entries, src: Entries)
    requires Tidy(dst) && Tidy(src)
    ensures Tidy(Merge(dst, src))
  {
    forall k ensures Get(Merge(dst, src), k).Some? && Get(Merge(dst, src), k).value.VDict? ==>
                     DistinctKeys(Get(Merge(dst, src), k).value.entries) {
      MergeGet(dst, src, k);
    }
  }

  /**
   * One level down: a non-dict setting src holds in a section wins; a setting src does
   * not hold keeps dst's.
   */
  lemma MergeSetting(dst: Entries, src: Entries, s: string, k: string)
    requires Tidy(src)
    ensures GetIn(src, s, k).Some? && !GetIn(src, s, k).value.VDict? ==>
              GetIn(Merge(dst, src), s, k) == GetIn(src, s, k)
    ensures GetIn(src, s, k).None? && !(Get(src, s).Some? && !Get(src, s).value.VDict?) ==>
              GetIn(Merge(dst, src), s, k) == GetIn(dst, s, k)
  {
    MergeGet(dst, src, s);
    var d := Get(dst, s);
    var v := Get(src, s);
    if v.Some? && v.value.VDict? && d.Some? && d.value.VDict? {
      MergeGet(d.value.entries, v.value.entries, k);
    }
  }

  // ---------------------------------------------------------------- environment

  /** [x.strip() for x in parts if x.strip()] */
  function CommaItems(parts: seq<string>): (r: seq<Value>)
    ensures |r| <= |parts|
    ensures forall i :: 0 <= i < |r| ==> r[i].VStr? && r[i].s != "" && Strip(r[i].s) == r[i].s
  {
    if parts == [] then []
    else
      var x := Strip(parts[0]);
      StripTrimmed(x);
      (if x != "" then [VStr(x)] else []) + CommaItems(parts[1..])
  }

  /**
   * _parse_env_value. `parseFloat` is Python's float() on a string, None where it raises;
   * it is only consulted when the text holds a '.'.
   */
  function ParseEnvValue(raw: string, parseFloat: string -> Option<real>): (r: Value)
    ensures !r.VDict? && !r.VNone?
  {
    var low := Lower(raw);
    if low == "true" || low == "false" then VBool(low == "true")
    else if Find(raw, ".") != -1 && parseFloat(raw).Some? then VFloat(parseFloat(raw).value)
    else if Find(raw, ".") == -1 && ParseInt(raw).Ok? then VInt(ParseInt(raw).value)
    else if Find(raw, ",") != -1 then VList(CommaItems(Split(raw, ",")))
    else VStr(raw)
  }

  /**
   * What each kind of result says about the text: booleans are exactly "true"/"false" in
   * any case, an int has no '.' and is what int() reads, a float has a '.', a list a ','
   * and a string is the text unchanged, holding no ','.
   */
  lemma ParseEnvValueCases(raw: string, parseFloat: string -> Option<real>)
    ensures var r := ParseEnvValue(raw, parseFloat);
            (Lower(raw) == "true" ==> r == VBool(true)) &&
            (Lower(raw) == "false" ==> r == VBool(false)) &&
            (r.VBool? ==> Lower(raw) == "true" || Lower(raw) == "false") &&
            (r.VInt? ==> Find(raw, ".") == -1 && ParseInt(raw) == Ok(r.i)) &&
            (r.VFloat? ==> Find(raw, ".") != -1 && parseFloat(raw) == Some(r.r)) &&
            (r.VList? ==> Find(raw, ",") != -1) &&
            (r.VStr? ==> r.s == raw && Find(raw, ",") == -1)
  {
  }

  /**
   * A plain decimal number reads back as that int, up to int()'s digit limit; past it
   * int() raises and the text is kept as a string.
   */
  lemma ParseEnvDecimal(n: nat, parseFloat: string -> Option<real>)
    ensures |Decimal(n)| <= MaxStrDigits ==> ParseEnvValue(Decimal(n), parseFloat) == VInt(n)
    ensures |Decimal(n)| > MaxStrDigits ==> ParseEnvValue(Decimal(n), parseFloat) == VStr(Decimal(n))
  {
    var d := Decimal(n);
    ParseIntDecimal(n);
    DigitsNotBool(d);
    NotFound(d, '.');
    NotFound(d, ',');
  }

  /** Digits do not spell "true" or "false" in any case. */
  lemma DigitsNotBool(d: string)
    requires |d| > 0 && AllDigits(d)
    ensures Lower(d) != "true" && Lower(d) != "false"
  {
    assert IsDigit(d[0]) && LowerChar(d[0]) == d[0];
  }

  /** Digits of other scripts are read as a number too: "١٢" (Arabic-Indic) is the int 12. */
  lemma ParseEnvNonAsciiDigits(parseFloat: string -> Option<real>)
    ensures ParseEnvValue("\U{661}\U{662}", parseFloat) == VInt(12)
  {
    var d := "\U{661}\U{662}";
    ParseIntNonAscii();
    assert Lower(d) == d;
    NotFound(d, '.');
  }

  /** A character the text does not hold is not found. */
  lemma NotFound(s: string, c: char)
    requires NoChar(s, c)
    ensures Find(s, [c]) == -1
  {
    assert forall j :: OccursAt(s, [c], j) ==> s[j] == s[j..j + 1][0];
  }

  /** A comma list reads back as its trimmed, non-empty items. */
  lemma ParseEnvList(raw: string, parseFloat: string -> Option<real>)
    requires Find(raw, ".") == -1 && Find(raw, ",") != -1
    requires Lower(raw) != "true" && Lower(raw) != "false"
    ensures ParseEnvValue(raw, parseFloat) == VList(CommaItems(Split(raw, ",")))
  {
    if ParseInt(raw).Ok? {
      NoCommaInInt(raw);
    }
  }

  /** Python's int() never accepts a ','. */
  lemma NoCommaInInt(raw: string)
    requires ParseInt(raw).Ok?
    ensures Find(raw, ",") == -1
  {
    var t := Strip(raw);
    var p, q := StripParts(raw);
    var signed := |t| > 0 && (t[0] == '-' || t[0] == '+');
    var body := if signed then t[1..] else t;
    assert GroupedDigits(AsciiDigits(body));
    assert NoChar(body, ',') by {
      forall i | 0 <= i < |body| ensures body[i] != ',' {
        AsciiDigitsAt(body, i);
        assert AsciiDigit(',') == ',';
      }
    }
    assert NoChar(t, ',') by {
      forall i | 0 <= i < |t| ensures t[i] != ',' {
        if signed && i > 0 {
          assert t[i] == body[i - 1];
        }
      }
    }
    assert NoChar(raw, ',') by {
      forall i | 0 <= i < |raw| ensures raw[i] != ',' {
        if i < |p| {
          assert raw[i] == p[i];
        } else if i < |p| + |t| {
          assert raw[i] == t[i - |p|];
        } else {
          assert raw[i] == q[i - |p| - |t|];
        }
      }
    }
    NotFound(raw, ',');
  }

  /** d[path[0]][path[1]]…, following dicts. */
  function GetPath(d: Entries, path: seq<string>): Option<Value>
    requires path != []
    decreases |path|
  {
    if |path| == 1 then Get(d, path[0])
    else
      match Get(d, path[0])
      case Some(VDict(e)) => GetPath(e, path[1..])
      case _ => None
  }

  /**
   * The inner loop of _load_env_overrides: `cur = cur.setdefault(part, {})` for all but
   * the last part, then `cur[parts[-1]] = value`. The first value on the path that is not
   * a dict raises: AttributeError when setdefault is still to be called on it, and at the
   * last part TypeError, whose message for a list differs from the one for other values.
   */
  function SetPath(d: Entries, parts: seq<string>, v: Value): (r: Result<Entries, ConfigError>)
    requires parts != []
    ensures r.Ok? ==> GetPath(r.value, parts) == Some(v)
    ensures r.Ok? ==> forall k :: k != parts[0] ==> Get(r.value, k) == Get(d, k)
    ensures r.Ok? && DistinctKeys(d) ==> DistinctKeys(r.value)
    ensures Get(d, parts[0]).None? ==> r.Ok?
    decreases |parts|
  {
    if |parts| == 1 then Ok(Put(d, parts[0], v))
    else
      var cur := Get(d, parts[0]);
      if cur.Some? && !cur.value.VDict? then
        Err(OtherError(BlockedMessage(cur.value, |parts| > 2)))
      else
        var sub := if cur.Some? then cur.value.entries else [];
        var inner := SetPath(sub, parts[1..], v);
        if inner.Err? then Err(inner.error)
        else
          assert GetPath(inner.value, parts[1..]) == Some(v);
          Ok(Put(d, parts[0], VDict(inner.value)))
  }

  /**
   * What Python raises on meeting the value x that is not a dict: `x.setdefault(...)` when
   * more parts follow, `x[last] = value` otherwise.
   */
  function BlockedMessage(x: Value, more: bool): string
  {
    if more then "'" + TypeName(x) + "' object has no attribute 'setdefault'"
    else if x.VList? then "list indices must be integers or slices, not str"
    else "'" + TypeName(x) + "' object does not support item assignment"
  }

  /**
   * The first value that is not a dict on the path, j parts in, decides the exception: the
   * setdefault AttributeError when it is not the last container, the item-assignment
   * TypeError when it is.
   */
  lemma {:induction false} SetPathBlocked(d: Entries, parts: seq<string>, v: Value, j: nat, x: Value)
    requires 1 <= j < |parts|
    requires GetPath(d, parts[..j]) == Some(x) && !x.VDict?
    ensures SetPath(d, parts, v) == Err(OtherError(BlockedMessage(x, j < |parts| - 1)))
    decreases j
  {
    if j > 1 {
      assert parts[..j][1..] == parts[1..][..j - 1];
      match Get(d, parts[0])
      case Some(VDict(e)) =>
        SetPathBlocked(e, parts[1..], v, j - 1, x);
      case _ =>
        assert false;
    } else {
      assert parts[..j] == [parts[0]];
    }
  }

  /** VULNLLM_SCAN=5 and then VULNLLM_SCAN__A__B=1: setdefault is called on the int 5. */
  lemma SetdefaultOnInt()
    ensures SetPath([("scan", VInt(5))], ["scan", "a", "b"], VInt(1)) ==
              Err(OtherError("'int' object has no attribute 'setdefault'"))
  {
    var parts := ["scan", "a", "b"];
    var d := [("scan", VInt(5))];
    assert parts[..1] == ["scan"];
    assert GetPath(d, ["scan"]) == Some(VInt(5));
    SetPathBlocked(d, parts, VInt(1), 1, VInt(5));
    IntSetdefaultMessage();
  }

  /** The AttributeError message for an int, written out. */
  lemma IntSetdefaultMessage()
    ensures BlockedMessage(VInt(5), true) == "'int' object has no attribute 'setdefault'"
  {
    assert TypeName(VInt(5)) == "int";
    assert "'" + "int" + "' object has no attribute 'setdefault'" == "'int' object has no attribute 'setdefault'";
  }

  /** VULNLLM_SCAN=a,b and then VULNLLM_SCAN__X=1: the list is indexed by a str. */
  lemma ListIndexedByStr()
    ensures SetPath([("scan", VList([VStr("a"), VStr("b")]))], ["scan", "x"], VInt(1)) ==
              Err(OtherError("list indices must be integers or slices, not str"))
  {
    var parts := ["scan", "x"];
    assert parts[..1] == ["scan"];
    SetPathBlocked([("scan", VList([VStr("a"), VStr("b")]))], parts, VInt(1), 1, VList([VStr("a"), VStr("b")]));
  }

  /** Setting a path keeps a dict tidy when the value set is no dict with repeated keys. */
  lemma {:induction false} SetPathTidy(d: Entries, parts: seq<string>, v: Value)
    requires parts != [] && Tidy(d) && !v.VDict?
    ensures SetPath(d, parts, v).Ok? ==> Tidy(SetPath(d, parts, v).value)
    decreases |parts|
  {
    if |parts| > 1 {
      var cur := Get(d, parts[0]);
      if !(cur.Some? && !cur.value.VDict?) {
        var sub := if cur.Some? then cur.value.entries else [];
        var inner := SetPath(sub, parts[1..], v);
        if inner.Ok? {
          assert DistinctKeys(inner.value);
          PutTidy(d, parts[0], VDict(inner.value));
        }
      }
    } else {
      PutTidy(d, parts[0], v);
    }
  }

  /** The key prefix of the environment variables that override the configuration. */
  const EnvPrefix: string := "VULNLLM_"

  predicate IsEnvOverride(k: string)
  {
    |k| >= |EnvPrefix| && k[..|EnvPrefix|] == EnvPrefix
  }

  /** The nested path an override names: the rest of the key, lower-cased, cut at each "__". */
  function EnvPath(k: string): (parts: seq<string>)
    requires IsEnvOverride(k)
    ensures parts != [] && Join(parts, "__") == Lower(k[|EnvPrefix|..])
    ensures forall i :: 0 <= i < |parts| ==> !Contains(parts[i], "__")
  {
    var key := Lower(k[|EnvPrefix|..]);
    JoinSplit(key, "__");
    Split(key, "__")
  }

  /** The environment's (name, value) pairs with each value read by _parse_env_value; no value is a dict. */
  function ParsedEnv(env: seq<(string, string)>, parseFloat: string -> Option<real>): (vars: seq<(string, Value)>)
    ensures |vars| == |env|
    ensures forall i :: 0 <= i < |vars| ==> vars[i].0 == env[i].0 && !vars[i].1.VDict?
  {
    if env == [] then []
    else
      var front := env[..|env| - 1];
      assert forall i :: 0 <= i < |front| ==> front[i] == env[i];
      ParsedEnv(front, parseFloat) + [(env[|env| - 1].0, ParseEnvValue(env[|env| - 1].1, parseFloat))]
  }

  /** One variable of the loop in _load_env_overrides, its value already parsed. */
  function EnvStep(prev: Result<Entries, ConfigError>, kv: (string, Value)): (r: Result<Entries, ConfigError>)
    ensures prev.Err? || !IsEnvOverride(kv.0) ==> r == prev
  {
    if prev.Err? || !IsEnvOverride(kv.0) then prev
    else SetPath(prev.value, EnvPath(kv.0), kv.1)
  }

  /** The result after a loop has run `step` over the first n items, starting from an empty dict. */
  function Run<T>(step: (Result<Entries, ConfigError>, T) -> Result<Entries, ConfigError>, xs: seq<T>, n: nat)
    : Result<Entries, ConfigError>
    requires n <= |xs|
  {
    if n == 0 then Ok([]) else step(Run(step, xs, n - 1), xs[n - 1])
  }

  /** A step that passes an error on unchanged keeps the first error to the end. */
  lemma {:induction false} RunErrSticks<T>(step: (Result<Entries, ConfigError>, T) -> Result<Entries, ConfigError>,
                                           xs: seq<T>, n: nat, m: nat)
    requires forall p: Result<Entries, ConfigError>, x: T :: p.Err? ==> step(p, x) == p
    requires n <= m <= |xs| && Run(step, xs, n).Err?
    ensures Run(step, xs, m) == Run(step, xs, n)
    decreases m
  {
    if m > n {
      RunErrSticks(step, xs, n, m - 1);
    }
  }

  /** Items after the first n do not matter to the result after n. */
  lemma {:induction false} RunPrefix<T>(step: (Result<Entries, ConfigError>, T) -> Result<Entries, ConfigError>,
                                        xs: seq<T>, more: seq<T>, n: nat)
    requires n <= |xs|
    ensures Run(step, xs + more, n) == Run(step, xs, n)
  {
    if n > 0 {
      RunPrefix(step, xs, more, n - 1);
      assert (xs + more)[n - 1] == xs[n - 1];
    }
  }

  /** The overrides dict _load_env_overrides has built after the first n variables. */
  function EnvUpTo(vars: seq<(string, Value)>, n: nat): Result<Entries, ConfigError>
    requires n <= |vars|
  {
    Run(EnvStep, vars, n)
  }

  function EnvOverrides(env: seq<(string, string)>, parseFloat: string -> Option<real>): Result<Entries, ConfigError>
  {
    EnvUpTo(ParsedEnv(env, parseFloat), |env|)
  }

  /** The overrides dict is tidy. */
  lemma {:induction false} EnvTidy(vars: seq<(string, Value)>, n: nat)
    requires n <= |vars|
    requires forall i :: 0 <= i < |vars| ==> !vars[i].1.VDict?
    ensures EnvUpTo(vars, n).Ok? ==> Tidy(EnvUpTo(vars, n).value)
  {
    if n > 0 {
      EnvTidy(vars, n - 1);
      var prev := EnvUpTo(vars, n - 1);
      var k := vars[n - 1].0;
      if prev.Ok? && IsEnvOverride(k) {
        SetPathTidy(prev.value, EnvPath(k), vars[n - 1].1);
      }
    }
  }

  /**
   * _load_env_overrides, with the process environment passed in as its list of
   * (name, value) pairs.
   */
  method LoadEnvOverrides(env: seq<(string, string)>, parseFloat: string -> Option<real>)
    returns (r: Result<Entries, ConfigError>)
    ensures r == EnvOverrides(env, parseFloat)
  {
    var out: Entries := [];
    for i := 0 to |env|
      invariant EnvUpTo(ParsedEnv(env, parseFloat), i) == Ok(out)
    {
      var k := env[i].0;
      EnvLoopStep(env, parseFloat, i, out);
      if IsEnvOverride(k) {
        var res := SetPath(out, EnvPath(k), ParseEnvValue(env[i].1, parseFloat));
        if res.Err? {
          return res;
        }
        out := res.value;
      }
    }
    return Ok(out);
  }

  /**
   * One pass of the loop in _load_env_overrides, as a step of the fold over the parsed
   * variables: a variable without the prefix is skipped, one with it is set at its path,
   * and a failure there is the final result.
   */
  lemma EnvLoopStep(env: seq<(string, string)>, parseFloat: string -> Option<real>, i: nat, out: Entries)
    requires i < |env| && EnvUpTo(ParsedEnv(env, parseFloat), i) == Ok(out)
    ensures !IsEnvOverride(env[i].0) ==> EnvUpTo(ParsedEnv(env, parseFloat), i + 1) == Ok(out)
    ensures IsEnvOverride(env[i].0) ==>
              EnvUpTo(ParsedEnv(env, parseFloat), i + 1) == SetPath(out, EnvPath(env[i].0), ParseEnvValue(env[i].1, parseFloat))
    ensures EnvUpTo(ParsedEnv(env, parseFloat), i + 1).Err? ==>
              EnvOverrides(env, parseFloat) == EnvUpTo(ParsedEnv(env, parseFloat), i + 1)
  {
    var vars := ParsedEnv(env, parseFloat);
    ParsedEnvAt(env, parseFloat, i);
    EnvVarStep(vars, i, out);
  }

  /** The same step for any list of parsed variables. */
  lemma EnvVarStep(vars: seq<(string, Value)>, i: nat, out: Entries)
    requires i < |vars| && EnvUpTo(vars, i) == Ok(out)
    ensures !IsEnvOverride(vars[i].0) ==> EnvUpTo(vars, i + 1) == Ok(out)
    ensures IsEnvOverride(vars[i].0) ==> EnvUpTo(vars, i + 1) == SetPath(out, EnvPath(vars[i].0), vars[i].1)
    ensures EnvUpTo(vars, i + 1).Err? ==> EnvUpTo(vars, |vars|) == EnvUpTo(vars, i + 1)
  {
    EnvUpToStep(vars, i);
    if EnvUpTo(vars, i + 1).Err? {
      EnvErrFinal(vars, i + 1);
    }
  }

  /** The fold over the first i + 1 variables is one more step of the fold over the first i. */
  lemma EnvUpToStep(vars: seq<(string, Value)>, i: nat)
    requires i < |vars|
    ensures EnvUpTo(vars, i + 1) == EnvStep(EnvUpTo(vars, i), vars[i])
  {
  }

  /** The i-th variable's value is its own text read by _parse_env_value. */
  lemma {:induction false} ParsedEnvAt(env: seq<(string, string)>, parseFloat: string -> Option<real>, i: nat)
    requires i < |env|
    ensures ParsedEnv(env, parseFloat)[i] == (env[i].0, ParseEnvValue(env[i].1, parseFloat))
    decreases |env|
  {
    if i < |env| - 1 {
      var front := env[..|env| - 1];
      ParsedEnvAt(front, parseFloat, i);
      assert front[i] == env[i];
    }
  }

  /** Once a variable has failed, the later ones leave the failure as it is. */
  lemma EnvErrFinal(vars: seq<(string, Value)>, n: nat)
    requires n <= |vars| && EnvUpTo(vars, n).Err?
    ensures EnvUpTo(vars, |vars|) == EnvUpTo(vars, n)
  {
    RunErrSticks(EnvStep, vars, n, |vars|);
  }

  /** One more variable at the end: the earlier ones are parsed as before. */
  lemma ParsedEnvAppend(env: seq<(string, string)>, k: string, v: string, parseFloat: string -> Option<real>)
    ensures ParsedEnv(env + [(k, v)], parseFloat) == ParsedEnv(env, parseFloat) + [(k, ParseEnvValue(v, parseFloat))]
  {
    var all := env + [(k, v)];
    assert all[..|all| - 1] == env;
  }

  /** A variable without the VULNLLM_ prefix changes nothing. */
  lemma EnvIgnoresOthers(env: seq<(string, string)>, k: string, v: string, parseFloat: string -> Option<real>)
    requires !IsEnvOverride(k)
    ensures EnvOverrides(env + [(k, v)], parseFloat) == EnvOverrides(env, parseFloat)
  {
    ParsedEnvAppend(env, k, v, parseFloat);
    RunPrefix(EnvStep, ParsedEnv(env, parseFloat), [(k, ParseEnvValue(v, parseFloat))], |env|);
  }

  /**
   * A VULNLLM_ variable sets the parsed value at its path and leaves the other
   * top-level keys as they were; it can only fail when an earlier variable put a
   * non-dict where its path needs a dict.
   */
  lemma EnvSetsPath(env: seq<(string, string)>, k: string, v: string, parseFloat: string -> Option<real>)
    requires IsEnvOverride(k) && EnvOverrides(env, parseFloat).Ok?
    ensures var before := EnvOverrides(env, parseFloat).value;
            var after := EnvOverrides(env + [(k, v)], parseFloat);
            (after.Ok? ==> GetPath(after.value, EnvPath(k)) == Some(ParseEnvValue(v, parseFloat))) &&
            (after.Ok? ==> forall t :: t != EnvPath(k)[0] ==> Get(after.value, t) == Get(before, t)) &&
            (Get(before, EnvPath(k)[0]).None? ==> after.Ok?)
  {
    var vars := ParsedEnv(env, parseFloat);
    var last := (k, ParseEnvValue(v, parseFloat));
    ParsedEnvAppend(env, k, v, parseFloat);
    RunPrefix(EnvStep, vars, [last], |env|);
    assert EnvOverrides(env + [(k, v)], parseFloat) == EnvStep(EnvUpTo(vars, |env|), last);
  }

  /**
   * An override whose path runs into a value that is not a dict, j parts in, makes
   * _load_env_overrides raise what that value raises.
   */
  lemma EnvBlocked(env: seq<(string, string)>, k: string, v: string, parseFloat: string -> Option<real>, j: nat, x: Value)
    requires IsEnvOverride(k) && EnvOverrides(env, parseFloat).Ok?
    requires 1 <= j < |EnvPath(k)| && !x.VDict?
    requires GetPath(EnvOverrides(env, parseFloat).value, EnvPath(k)[..j]) == Some(x)
    ensures EnvOverrides(env + [(k, v)], parseFloat) == Err(OtherError(BlockedMessage(x, j < |EnvPath(k)| - 1)))
  {
    var vars := ParsedEnv(env, parseFloat);
    var last := (k, ParseEnvValue(v, parseFloat));
    ParsedEnvAppend(env, k, v, parseFloat);
    RunPrefix(EnvStep, vars, [last], |env|);
    assert EnvOverrides(env + [(k, v)], parseFloat) == EnvStep(EnvUpTo(vars, |env|), last);
    SetPathBlocked(EnvOverrides(env, parseFloat).value, EnvPath(k), last.1, j, x);
  }

  // ---------------------------------------------------------------- command line

  /** The parsed command line; None is an option that was not given. */
  datatype Args = Args(
    path: string, configPath: Option<string>, dryRun: bool, llmInferenceTest: Option<bool>,
    output: Option<string>, outDir: Option<string>, outPrefix: Option<string>, overwrite: bool,
    includeReasoning: Option<bool>, noIncludeReasoning: bool, maxFindings: Option<int>,
    mode: Option<string>, lang: Option<string>, includeGlobs: Option<seq<string>>, excludeGlobs: Option<seq<string>>,
    followSymlinks: bool, maxFileBytes: Option<int>,
    context: Option<int>, chunkStrategy: Option<string>, chunkTokens: Option<int>, chunkOverlap: Option<int>,
    projectIndex: Option<string>,
    multiPass: bool, pass1Budget: Option<string>, pass2Target: Option<string>, pass2Topk: Option<int>,
    focus: Option<seq<string>>, promptFile: Option<string>, profile: Option<string>,
    model: Option<string>, quant: Option<string>, threads: Option<int>, batch: Option<int>,
    temp: Option<real>, topP: Option<real>, seed: Option<int>, metal: bool, gpuLayers: Option<int>,
    maxTokens: Option<int>,
    progress: Option<bool>, quiet: bool, verbose: bool, logFile: Option<string>, logPrompts: bool,
    logModelOutputs: bool, promptOutputMd: Option<string>)

  /** The configuration sections the command line can write into. */
  const Sections: set<string> := {"output", "scan", "files", "chunking", "project", "prompt", "inference", "multipass", "logging"}

  /** No section is named like a top-level entry of the configuration dict. */
  lemma SectionNames(s: string)
    requires s in Sections
    ensures s != "path" && s != "config_path" && s != "dry_run" && s != "llm_inference_test"
  {
  }

  /** The same, seen from the top-level entries. */
  lemma TopLevelNotSections()
    ensures "path" !in Sections && "config_path" !in Sections && "dry_run" !in Sections
    ensures "llm_inference_test" !in Sections
  {
  }

  /** One `sec(section)[key] = value` the command line may ask for; None when the option is absent. */
  type Override = (string, string, Option<Value>)

  predicate Plain(o: Option<Value>) { o.Some? ==> !o.value.VDict? }

  predicate WellAimed(ov: seq<Override>)
  {
    forall i :: 0 <= i < |ov| ==> ov[i].0 in Sections && Plain(ov[i].2)
  }

  function OptStr(o: Option<string>): (r: Option<Value>)
    ensures Plain(r) && (r.Some? <==> o.Some?)
  {
    if o.Some? then Some(VStr(o.value)) else None
  }

  function OptInt(o: Option<int>): (r: Option<Value>)
    ensures Plain(r) && (r.Some? <==> o.Some?)
  {
    if o.Some? then Some(VInt(o.value)) else None
  }

  function OptReal(o: Option<real>): (r: Option<Value>)
    ensures Plain(r) && (r.Some? <==> o.Some?)
  {
    if o.Some? then Some(VFloat(o.value)) else None
  }

  function OptStrs(o: Option<seq<string>>): (r: Option<Value>)
    ensures Plain(r) && (r.Some? <==> o.Some?)
  {
    if o.Some? then Some(VList(seq(|o.value|, i requires 0 <= i < |o.value| => VStr(o.value[i])))) else None
  }

  /** `[x.strip() for x in text.split(",") if x.strip()]` */
  function OptCommaList(o: Option<string>): (r: Option<Value>)
    ensures Plain(r) && (r.Some? <==> o.Some?)
  {
    if o.Some? then Some(VList(CommaItems(Split(o.value, ",")))) else None
  }

  /** A store_true flag: the value when the flag was given. */
  function Flag(given: bool, v: bool): (r: Option<Value>)
    ensures Plain(r) && (r.Some? <==> given)
  {
    if given then Some(VBool(v)) else None
  }

  /** The writes _apply_cli_overrides makes before llm_inference_test, in its order. */
  function EarlyOverrides(a: Args): (ov: seq<Override>)
    ensures WellAimed(ov)
  {
    var x, y, z, w := OutputFileOverrides(a), ChunkPromptOverrides(a), InferenceOverrides(a), TailOverrides(a);
    WellAimedConcat(x, y);
    WellAimedConcat(x + y, z);
    WellAimedConcat(x + y + z, w);
    x + y + z + w
  }

  lemma WellAimedConcat(x: seq<Override>, y: seq<Override>)
    requires WellAimed(x) && WellAimed(y)
    ensures WellAimed(x + y)
  {
    assert forall i :: 0 <= i < |y| ==> (x + y)[|x| + i] == y[i];
  }

  /** The output, scan and files writes. */
  function OutputFileOverrides(a: Args): (ov: seq<Override>)
    ensures WellAimed(ov)
  {
    [("output", "formats", OptCommaList(a.output)),
     ("output", "out_dir", OptStr(a.outDir)),
     ("output", "out_prefix", OptStr(a.outPrefix)),
     ("output", "overwrite", Flag(a.overwrite, true)),
     ("output", "include_reasoning", Flag(a.includeReasoning == Some(true), true)),
     ("output", "include_reasoning", Flag(a.noIncludeReasoning, false)),
     ("scan", "mode", OptStr(a.mode)),
     ("scan", "max_findings", OptInt(a.maxFindings)),
     ("files", "include", OptStrs(a.includeGlobs)),
     ("files", "exclude", OptStrs(a.excludeGlobs)),
     ("files", "max_file_bytes", OptInt(a.maxFileBytes))]
  }

  /** The chunking, project and prompt writes. */
  function ChunkPromptOverrides(a: Args): (ov: seq<Override>)
    ensures WellAimed(ov)
  {
    [("chunking", "strategy", OptStr(a.chunkStrategy)),
     ("chunking", "chunk_tokens", OptInt(a.chunkTokens)),
     ("chunking", "overlap", OptInt(a.chunkOverlap)),
     ("project", "index", OptStr(a.projectIndex)),
     ("prompt", "focus", OptStrs(a.focus)),
     ("prompt", "prompt_file", OptStr(a.promptFile)),
     ("prompt", "profile", OptStr(a.profile))]
  }

  /** The inference writes. */
  function InferenceOverrides(a: Args): (ov: seq<Override>)
    ensures WellAimed(ov)
  {
    [("inference", "model", OptStr(a.model)),
     ("inference", "quant", OptStr(a.quant)),
     ("inference", "context", OptInt(a.context)),
     ("inference", "threads", OptInt(a.threads)),
     ("inference", "batch", OptInt(a.batch)),
     ("inference", "temperature", OptReal(a.temp)),
     ("inference", "top_p", OptReal(a.topP)),
     ("inference", "seed", OptInt(a.seed)),
     ("inference", "gpu_layers", OptInt(a.gpuLayers)),
     ("inference", "max_tokens", OptInt(a.maxTokens))]
  }

  /** The multi-pass and logging writes, then languages, follow_symlinks and multi_pass. */
  function TailOverrides(a: Args): (ov: seq<Override>)
    ensures WellAimed(ov)
  {
    [("multipass", "pass1_budget", OptStr(a.pass1Budget)),
     ("multipass", "pass2_target", OptStr(a.pass2Target)),
     ("multipass", "pass2_topk", OptInt(a.pass2Topk)),
     ("logging", "log_file", OptStr(a.logFile)),
     ("logging", "prompt_output_md", OptStr(a.promptOutputMd)),
     ("scan", "languages", OptCommaList(a.lang)),
     ("files", "follow_symlinks", Flag(a.followSymlinks, true)),
     ("scan", "multi_pass", Flag(a.multiPass, true))]
  }

  /** The writes _apply_cli_overrides makes after llm_inference_test. */
  function LateOverrides(a: Args): (ov: seq<Override>)
    ensures WellAimed(ov)
  {
    [("inference", "metal", Flag(a.metal, true)),
     ("logging", "progress", Flag(a.progress == Some(true), true)),
     ("logging", "quiet", Flag(a.quiet, true)),
     ("logging", "verbose", Flag(a.verbose, true)),
     ("logging", "log_prompts", Flag(a.logPrompts, true)),
     ("logging", "log_model_outputs", Flag(a.logModelOutputs, true))]
  }

  /** The value the last given override for section s, key k writes, if any. */
  function LastGiven(ov: seq<Override>, s: string, k: string): (r: Option<Value>)
    ensures WellAimed(ov) ==> Plain(r)
    ensures r.Some? ==> s in Sections || !WellAimed(ov)
  {
    if ov == [] then None
    else
      var last := ov[|ov| - 1];
      if last.0 == s && last.1 == k && last.2.Some? then last.2
      else LastGiven(ov[..|ov| - 1], s, k)
  }

  /** What is under t is a dict, or nothing. */
  predicate DictOrAbsent(d: Entries, t: string)
  {
    Get(d, t).None? || Get(d, t).value.VDict?
  }

  /** The cli dict after applying the given overrides in order. */
  function SetAll(d: Entries, ov: seq<Override>): (r: Entries)
    ensures WellAimed(ov) ==> forall t :: t !in Sections ==> Get(r, t) == Get(d, t)
    ensures forall t :: DictOrAbsent(d, t) ==> DictOrAbsent(r, t)
    ensures forall s, k :: GetIn(r, s, k) == if LastGiven(ov, s, k).Some? then LastGiven(ov, s, k) else GetIn(d, s, k)
  {
    if ov == [] then d
    else
      var front := ov[..|ov| - 1];
      var last := ov[|ov| - 1];
      assert WellAimed(ov) ==> WellAimed(front);
      var prev := SetAll(d, front);
      if last.2.Some? then SetIn(prev, last.0, last.1, last.2.value) else prev
  }

  lemma {:induction false} SetAllTidy(d: Entries, ov: seq<Override>)
    requires Tidy(d)
    ensures Tidy(SetAll(d, ov))
  {
    if ov != [] {
      var last := ov[|ov| - 1];
      SetAllTidy(d, ov[..|ov| - 1]);
      if last.2.Some? {
        SetInTidy(SetAll(d, ov[..|ov| - 1]), last.0, last.1, last.2.value);
      }
    }
  }

  /** The loop `for (s, k), v in mapping.items(): if v is not None: sec(s)[k] = v`, and the flag writes. */
  method ApplyOverrides(cli: Entries, ov: seq<Override>) returns (r: Entries)
    ensures r == SetAll(cli, ov)
  {
    r := cli;
    for i := 0 to |ov|
      invariant r == SetAll(cli, ov[..i])
    {
      assert ov[..i + 1][..i] == ov[..i];
      if ov[i].2.Some? {
        r := SetIn(r, ov[i].0, ov[i].1, ov[i].2.value);
      }
    }
    assert ov[..|ov|] == ov;
  }

  /** The dict literal the cli dict starts with: path, config_path and dry_run. */
  function CliBase(a: Args): Entries
  {
    var withPath := Put([], "path", VStr(a.path));
    var withConfig := Put(withPath, "config_path", if a.configPath.Some? then VStr(a.configPath.value) else VNone);
    Put(withConfig, "dry_run", VBool(a.dryRun))
  }

  /** The cli dict: the early writes, llm_inference_test when asked for, then the late writes. */
  function CliDictOf(base: Entries, early: seq<Override>, llm: bool, late: seq<Override>): Entries
  {
    var withEarly := SetAll(base, early);
    SetAll(if llm then Put(withEarly, "llm_inference_test", VBool(true)) else withEarly, late)
  }

  /** The cli dict _apply_cli_overrides builds. */
  function CliDict(a: Args): Entries
  {
    CliDictOf(CliBase(a), EarlyOverrides(a), a.llmInferenceTest == Some(true), LateOverrides(a))
  }

  /** The value the command line sets for section s, key k, if it sets one. */
  function CliValue(a: Args, s: string, k: string): Option<Value>
  {
    if LastGiven(LateOverrides(a), s, k).Some? then LastGiven(LateOverrides(a), s, k)
    else LastGiven(EarlyOverrides(a), s, k)
  }

  /** _apply_cli_overrides: build the cli dict, then _deep_update the data with it. */
  method ApplyCliOverrides(data: Entries, a: Args) returns (r: Entries)
    ensures r == Merge(data, CliDict(a))
  {
    var cli := CliBase(a);
    cli := ApplyOverrides(cli, EarlyOverrides(a));
    if a.llmInferenceTest == Some(true) {
      cli := Put(cli, "llm_inference_test", VBool(true));
    }
    cli := ApplyOverrides(cli, LateOverrides(a));
    r := DeepUpdate(data, cli);
  }

  /** A three-entry dict literal with distinct keys and plain values. */
  lemma ThreeEntries(k1: string, v1: Value, k2: string, v2: Value, k3: string, v3: Value)
    requires k1 != k2 && k1 != k3 && k2 != k3
    requires !v1.VDict? && !v2.VDict? && !v3.VDict?
    ensures var d := Put(Put(Put([], k1, v1), k2, v2), k3, v3);
            Tidy(d) && Get(d, k1) == Some(v1) && Get(d, k2) == Some(v2) && Get(d, k3) == Some(v3) &&
            forall t :: t != k1 && t != k2 && t != k3 ==> Get(d, t).None?
  {
    var d1 := Put([], k1, v1);
    var d2 := Put(d1, k2, v2);
    PutTidy([], k1, v1);
    PutTidy(d1, k2, v2);
    PutTidy(d2, k3, v3);
  }

  /** The starting dict is tidy and holds no section. */
  lemma CliBaseShape(a: Args)
    ensures Tidy(CliBase(a))
    ensures Get(CliBase(a), "path") == Some(VStr(a.path))
    ensures Get(CliBase(a), "config_path") == Some(if a.configPath.Some? then VStr(a.configPath.value) else VNone)
    ensures Get(CliBase(a), "dry_run") == Some(VBool(a.dryRun))
    ensures forall s :: s in Sections ==> Get(CliBase(a), s).None?
  {
    ThreeEntries("path", VStr(a.path), "config_path", if a.configPath.Some? then VStr(a.configPath.value) else VNone,
                 "dry_run", VBool(a.dryRun));
    forall s | s in Sections ensures Get(CliBase(a), s).None? {
      SectionNames(s);
    }
  }

  /** The cli dict is tidy, and what it holds under a section name is a dict or nothing. */
  lemma CliDictOfShape(base: Entries, early: seq<Override>, llm: bool, late: seq<Override>)
    requires Tidy(base)
    requires forall s :: s in Sections ==> Get(base, s).None?
    ensures var r := CliDictOf(base, early, llm, late);
            Tidy(r) && forall s :: s in Sections ==> DictOrAbsent(r, s)
  {
    var withEarly := SetAll(base, early);
    var mid := if llm then Put(withEarly, "llm_inference_test", VBool(true)) else withEarly;
    SetAllTidy(base, early);
    if llm {
      PutTidy(withEarly, "llm_inference_test", VBool(true));
    }
    SetAllTidy(mid, late);
    forall s | s in Sections ensures Get(mid, s) == Get(withEarly, s) {
      SectionNames(s);
    }
    assert forall s :: s in Sections ==> DictOrAbsent(base, s);
  }

  /** A top-level key that names no section and is not llm_inference_test keeps its value. */
  lemma CliDictOfKeeps(base: Entries, early: seq<Override>, llm: bool, late: seq<Override>, t: string)
    requires WellAimed(early) && WellAimed(late)
    requires t !in Sections && t != "llm_inference_test"
    ensures Get(CliDictOf(base, early, llm, late), t) == Get(base, t)
  {
  }

  /** The cli dict holds the three top-level entries of its literal. */
  lemma CliDictTop(a: Args)
    ensures Get(CliDict(a), "path") == Some(VStr(a.path))
    ensures Get(CliDict(a), "config_path") == Some(if a.configPath.Some? then VStr(a.configPath.value) else VNone)
    ensures Get(CliDict(a), "dry_run") == Some(VBool(a.dryRun))
  {
    var base, early, llm, late := CliBase(a), EarlyOverrides(a), a.llmInferenceTest == Some(true), LateOverrides(a);
    CliBaseShape(a);
    TopLevelNotSections();
    CliDictOfKeeps(base, early, llm, late, "path");
    CliDictOfKeeps(base, early, llm, late, "config_path");
    CliDictOfKeeps(base, early, llm, late, "dry_run");
  }

  /** The cli dict is tidy, and what it holds under a section name is a dict or nothing. */
  lemma CliDictTidy(a: Args)
    ensures Tidy(CliDict(a))
    ensures forall s :: s in Sections ==> DictOrAbsent(CliDict(a), s)
  {
    CliBaseShape(a);
    CliDictOfShape(CliBase(a), EarlyOverrides(a), a.llmInferenceTest == Some(true), LateOverrides(a));
  }

  /** In each section the cli dict holds what the command line gave. */
  lemma CliDictValues(a: Args)
    ensures forall s, k :: s in Sections ==> GetIn(CliDict(a), s, k) == CliValue(a, s, k)
  {
    var base, early, llm, late := CliBase(a), EarlyOverrides(a), a.llmInferenceTest == Some(true), LateOverrides(a);
    CliBaseShape(a);
    forall s, k | s in Sections ensures GetIn(CliDict(a), s, k) == CliValue(a, s, k) {
      CliDictOfValue(base, early, llm, late, s, k);
    }
  }

  /** A section setting of the cli dict is the last one the late writes give, else the last early one. */
  lemma CliDictOfValue(base: Entries, early: seq<Override>, llm: bool, late: seq<Override>, s: string, k: string)
    requires s in Sections && Get(base, s).None?
    ensures GetIn(CliDictOf(base, early, llm, late), s, k) ==
            if LastGiven(late, s, k).Some? then LastGiven(late, s, k) else LastGiven(early, s, k)
  {
    var withEarly := SetAll(base, early);
    SectionNames(s);
    assert GetIn(if llm then Put(withEarly, "llm_inference_test", VBool(true)) else withEarly, s, k) == GetIn(withEarly, s, k);
  }

  /**
   * Only options actually given change the configuration: a section setting the
   * command line gives wins, every other one keeps the value the data had.
   */
  lemma CliOverridesOnlyGiven(data: Entries, a: Args, s: string, k: string)
    requires s in Sections
    ensures CliValue(a, s, k).Some? ==> GetIn(Merge(data, CliDict(a)), s, k) == CliValue(a, s, k)
    ensures CliValue(a, s, k).None? ==> GetIn(Merge(data, CliDict(a)), s, k) == GetIn(data, s, k)
  {
    CliDictTidy(a);
    CliDictValues(a);
    MergeSetting(data, CliDict(a), s, k);
  }

  // ---------------------------------------------------------------- precedence

  /** The dict after the configuration file: its decoded TOML with its path recorded, or empty. */
  function FromFile(toml: Option<(string, Entries)>): Entries
  {
    if toml.Some? then Put(Merge([], toml.value.1), "config_path", VStr(toml.value.0)) else []
  }

  /**
   * The dict resolve_config types: the configuration file (given by its path and its
   * decoded TOML, when one was named or found), then the environment overrides, then
   * the command line.
   */
  function ResolveData(toml: Option<(string, Entries)>, env: seq<(string, string)>,
                       parseFloat: string -> Option<real>, a: Args): Result<Entries, ConfigError>
  {
    var e := EnvOverrides(env, parseFloat);
    if e.Err? then Err(e.error) else Ok(Merge(Merge(FromFile(toml), e.value), CliDict(a)))
  }

  /** A section setting of the file dict is the TOML's. */
  lemma FromFileSetting(toml: Option<(string, Entries)>, s: string, k: string)
    requires toml.Some? ==> Tidy(toml.value.1)
    requires s != "config_path"
    ensures GetIn(FromFile(toml), s, k) == GetIn(if toml.Some? then toml.value.1 else [], s, k)
  {
    if toml.Some? {
      MergeGet([], toml.value.1, s);
    }
  }

  /** Later sources win (1): a setting the command line gives is the one resolved. */
  lemma PrecedenceCli(toml: Option<(string, Entries)>, env: seq<(string, string)>,
                      parseFloat: string -> Option<real>, a: Args, s: string, k: string)
    requires s in Sections
    requires EnvOverrides(env, parseFloat).Ok?
    requires CliValue(a, s, k).Some?
    ensures ResolveData(toml, env, parseFloat, a).Ok?
    ensures GetIn(ResolveData(toml, env, parseFloat, a).value, s, k) == CliValue(a, s, k)
  {
    CliOverridesOnlyGiven(Merge(FromFile(toml), EnvOverrides(env, parseFloat).value), a, s, k);
  }

  /** Later sources win (2): without the command line, a plain value the environment sets is the one resolved. */
  lemma PrecedenceEnv(toml: Option<(string, Entries)>, env: seq<(string, string)>,
                      parseFloat: string -> Option<real>, a: Args, s: string, k: string)
    requires s in Sections
    requires EnvOverrides(env, parseFloat).Ok?
    requires CliValue(a, s, k).None?
    requires var e := EnvOverrides(env, parseFloat).value;
             GetIn(e, s, k).Some? && !GetIn(e, s, k).value.VDict?
    ensures ResolveData(toml, env, parseFloat, a).Ok?
    ensures GetIn(ResolveData(toml, env, parseFloat, a).value, s, k) == GetIn(EnvOverrides(env, parseFloat).value, s, k)
  {
    var e := EnvOverrides(env, parseFloat).value;
    EnvTidy(ParsedEnv(env, parseFloat), |env|);
    CliOverridesOnlyGiven(Merge(FromFile(toml), e), a, s, k);
    MergeSetting(FromFile(toml), e, s, k);
  }

  /** Later sources win (3): a section neither the command line nor the environment touches comes from the file. */
  lemma PrecedenceFile(toml: Option<(string, Entries)>, env: seq<(string, string)>,
                       parseFloat: string -> Option<real>, a: Args, s: string, k: string)
    requires toml.Some? ==> Tidy(toml.value.1)
    requires s in Sections
    requires EnvOverrides(env, parseFloat).Ok?
    requires CliValue(a, s, k).None?
    requires Get(EnvOverrides(env, parseFloat).value, s).None?
    ensures ResolveData(toml, env, parseFloat, a).Ok?
    ensures GetIn(ResolveData(toml, env, parseFloat, a).value, s, k) == GetIn(if toml.Some? then toml.value.1 else [], s, k)
  {
    var e := EnvOverrides(env, parseFloat).value;
    EnvTidy(ParsedEnv(env, parseFloat), |env|);
    CliOverridesOnlyGiven(Merge(FromFile(toml), e), a, s, k);
    MergeGet(FromFile(toml), e, s);
    SectionNames(s);
    FromFileSetting(toml, s, k);
  }

  /** Merging the cli dict into any dict leaves the command line's config_path there. */
  lemma CliConfigPath(data: Entries, a: Args)
    ensures Get(Merge(data, CliDict(a)), "config_path") ==
            Some(if a.configPath.Some? then VStr(a.configPath.value) else VNone)
  {
    CliDictTop(a);
    CliDictTidy(a);
    MergeGet(data, CliDict(a), "config_path");
  }

  /** The command line always decides config_path, even over the path of a discovered file. */
  lemma ConfigPathFromCommandLine(toml: Option<(string, Entries)>, env: seq<(string, string)>,
                                  parseFloat: string -> Option<real>, a: Args)
    requires ResolveData(toml, env, parseFloat, a).Ok?
    ensures Get(ResolveData(toml, env, parseFloat, a).value, "config_path") ==
            Some(if a.configPath.Some? then VStr(a.configPath.value) else VNone)
  {
    var e := EnvOverrides(env, parseFloat).value;
    CliConfigPath(Merge(FromFile(toml), e), a);
  }

}
