/**
 * run_scan_multipass (vulnllm/inference/multipass.py): pass 1 over every chunk, a
 * selection of chunks worth a second look ("flagged" or the top K by severity), a
 * deep pass 2 over the selection, and a merge in which a chunk's pass-2 findings
 * replace its pass-1 findings.
 *
 * `run_chunk` is an oracle: its answer may depend on everything that happened before
 * the call (every earlier call and every emission), which is how the model covers the
 * state a real `run_chunk` keeps. An `Err` answer is the RuntimeError it raises, which
 * ends the scan. `on_emit` is recorded as an `Emit` event in the same trace.
 */
module Multipass {
  import opened Wrappers
  import opened Chunking
  import opened FindingModel
  import opened Severity
  import opened Config

  /** What the scan does, in order: a call of run_chunk, or a call of on_emit. */
  datatype Event = Run(chunk: CodeChunk, deep: bool) | Emit(findings: seq<Finding>)

  /** run_chunk(chunk, deep) given the events so far; Err(message) is a raised RuntimeError. */
  type Oracle = (seq<Event>, CodeChunk, bool) -> Result<seq<Finding>, string>

  datatype Outcome = Outcome(result: Result<seq<Finding>, string>, trace: seq<Event>)

  /** max(xs, default=0) */
  function MaxOrZero(xs: seq<int>): (r: int)
    ensures xs == [] ==> r == 0
    ensures forall i :: 0 <= i < |xs| ==> xs[i] <= r
    ensures xs != [] ==> exists i :: 0 <= i < |xs| && r == xs[i]
  {
    if xs == [] then 0
    else
      var front := xs[..|xs| - 1];
      var best := MaxOrZero(front);
      assert forall i :: 0 <= i < |front| ==> front[i] == xs[i];
      if best < xs[|xs| - 1] || front == [] then xs[|xs| - 1] else best
  }

  /** _score: the highest severity rank among the findings, 0 for none. */
  function Score(fs: seq<Finding>): (r: int)
    ensures 0 <= r <= 4
    ensures fs == [] <==> r == 0
    ensures forall i :: 0 <= i < |fs| ==> SeverityRank(fs[i].severity) <= r
    ensures fs != [] ==> exists i :: 0 <= i < |fs| && r == SeverityRank(fs[i].severity)
  {
    var ranks := seq(|fs|, i requires 0 <= i < |fs| => SeverityRank(fs[i].severity));
    assert forall i :: 0 <= i < |fs| ==> ranks[i] == SeverityRank(fs[i].severity) && 1 <= ranks[i] <= 4;
    var r := MaxOrZero(ranks);
    assert forall i :: 0 <= i < |fs| ==> SeverityRank(fs[i].severity) <= r by {
      forall i | 0 <= i < |fs| ensures SeverityRank(fs[i].severity) <= r {
        assert ranks[i] <= r;
      }
    }
    r
  }

  /** merged.extend(...) over a list of lists. */
  function Concat(xs: seq<seq<Finding>>): seq<Finding>
  {
    if xs == [] then [] else Concat(xs[..|xs| - 1]) + xs[|xs| - 1]
  }

  /** The Run events of calling run_chunk on each chunk in turn. */
  function Runs(cs: seq<CodeChunk>, deep: bool): (r: seq<Event>)
    ensures |r| == |cs|
    ensures forall i :: 0 <= i < |cs| ==> r[i] == Run(cs[i], deep)
  {
    seq(|cs|, i requires 0 <= i < |cs| => Run(cs[i], deep))
  }

  /** The Emit events of calling on_emit with each list in turn. */
  function Emits(xs: seq<seq<Finding>>): (r: seq<Event>)
    ensures |r| == |xs|
  {
    seq(|xs|, i requires 0 <= i < |xs| => Emit(xs[i]))
  }

  /** The list an Emit event passed to on_emit. */
  function FindingsOf(e: Event): seq<Finding>
  {
    if e.Emit? then e.findings else []
  }

  // ================================================================ single pass

  /** multi_pass off: run, emit and extend, chunk by chunk, over the first n chunks. */
  function Single(o: Oracle, chunks: seq<CodeChunk>, n: nat): Outcome
    requires n <= |chunks|
  {
    if n == 0 then Outcome(Ok([]), [])
    else
      var prev := Single(o, chunks, n - 1);
      if prev.result.Err? then prev
      else
        match o(prev.trace, chunks[n - 1], false)
        case Err(e) => Outcome(Err(e), prev.trace + [Run(chunks[n - 1], false)])
        case Ok(fs) => Outcome(Ok(prev.result.value + fs), prev.trace + [Run(chunks[n - 1], false), Emit(fs)])
  }

  /**
   * Without multi-pass each chunk is run once, shallow, in input order, and each run is
   * followed by one emission of the answer that call returned.
   */
  lemma {:induction false} SingleTrace(o: Oracle, chunks: seq<CodeChunk>, n: nat)
    requires n <= |chunks|
    requires Single(o, chunks, n).result.Ok?
    ensures var out := Single(o, chunks, n);
            |out.trace| == 2 * n &&
            forall i :: 0 <= i < n ==>
              out.trace[2 * i] == Run(chunks[i], false) &&
              o(out.trace[..2 * i], chunks[i], false).Ok? &&
              out.trace[2 * i + 1] == Emit(o(out.trace[..2 * i], chunks[i], false).value)
  {
    if n > 0 {
      var prev := Single(o, chunks, n - 1);
      SingleTrace(o, chunks, n - 1);
      var out := Single(o, chunks, n);
      var fs := o(prev.trace, chunks[n - 1], false).value;
      assert out.trace == prev.trace + [Run(chunks[n - 1], false), Emit(fs)];
      forall i | 0 <= i < n - 1
        ensures out.trace[..2 * i] == prev.trace[..2 * i]
        ensures out.trace[2 * i] == prev.trace[2 * i] && out.trace[2 * i + 1] == prev.trace[2 * i + 1]
      {
      }
      assert out.trace[..2 * (n - 1)] == prev.trace;
    }
  }

  /** Without multi-pass the result is the emitted lists, concatenated in order. */
  lemma {:induction false} SingleResult(o: Oracle, chunks: seq<CodeChunk>, n: nat)
    requires n <= |chunks|
    requires Single(o, chunks, n).result.Ok?
    ensures var out := Single(o, chunks, n);
            |out.trace| == 2 * n &&
            out.result.value == Concat(seq(n, i requires 0 <= i < n => FindingsOf(out.trace[2 * i + 1])))
  {
    if n > 0 {
      var prev := Single(o, chunks, n - 1);
      SingleResult(o, chunks, n - 1);
      var out := Single(o, chunks, n);
      var fs := o(prev.trace, chunks[n - 1], false).value;
      assert out.trace == prev.trace + [Run(chunks[n - 1], false), Emit(fs)];
      var em := seq(n, i requires 0 <= i < n => FindingsOf(out.trace[2 * i + 1]));
      assert em[..n - 1] == seq(n - 1, i requires 0 <= i < n - 1 => FindingsOf(prev.trace[2 * i + 1]));
      assert em[n - 1] == fs;
    }
  }

  // ================================================================ pass 1 and pass 2

  /** The answers of a batch of calls, and the error that cut it short, if one did. */
  datatype Ran = Ran(answers: seq<seq<Finding>>, failure: Option<string>)

  /** How many calls a batch made: one per answer, plus the one that failed. */
  function Calls(r: Ran): nat
  {
    |r.answers| + if r.failure.Some? then 1 else 0
  }

  /**
   * Calling run_chunk on cs[0..n) in order after the events `before`: call i sees
   * before plus the i earlier calls; the first Err stops the batch.
   */
  function Batch(o: Oracle, before: seq<Event>, cs: seq<CodeChunk>, deep: bool, n: nat): (r: Ran)
    requires n <= |cs|
    ensures Calls(r) <= n
    ensures r.failure.None? ==> |r.answers| == n
  {
    if n == 0 then Ran([], None)
    else
      var prev := Batch(o, before, cs, deep, n - 1);
      if prev.failure.Some? then prev
      else
        match o(before + Runs(cs[..n - 1], deep), cs[n - 1], deep)
        case Err(e) => Ran(prev.answers, Some(e))
        case Ok(fs) => Ran(prev.answers + [fs], None)
  }

  /** Each answer of a batch is what run_chunk returned for that chunk, given the calls before it. */
  lemma {:induction false} BatchAnswers(o: Oracle, before: seq<Event>, cs: seq<CodeChunk>, deep: bool, n: nat)
    requires n <= |cs|
    ensures var r := Batch(o, before, cs, deep, n);
            forall i :: 0 <= i < |r.answers| ==> o(before + Runs(cs[..i], deep), cs[i], deep) == Ok(r.answers[i])
    ensures var r := Batch(o, before, cs, deep, n);
            r.failure.Some? ==> o(before + Runs(cs[..|r.answers|], deep), cs[|r.answers|], deep) == Err(r.failure.value)
  {
    if n > 0 {
      BatchAnswers(o, before, cs, deep, n - 1);
    }
  }

  // ================================================================ selection

  /** `[c for c, fs in pass1 if fs]`, as indices into the first n chunks. */
  function Flagged(answers: seq<seq<Finding>>, n: nat): (sel: seq<nat>)
    requires n <= |answers|
    ensures forall k :: 0 <= k < |sel| ==> sel[k] < n
    ensures forall k, m :: 0 <= k < m < |sel| ==> sel[k] < sel[m]
    ensures forall i :: 0 <= i < n ==> (i in sel <==> answers[i] != [])
  {
    if n == 0 then []
    else
      var front := Flagged(answers, n - 1);
      front + if answers[n - 1] != [] then [n - 1] else []
  }

  /** The pass-1 score of every chunk. */
  function Scores(answers: seq<seq<Finding>>): (r: seq<int>)
    ensures |r| == |answers|
  {
    seq(|answers|, i requires 0 <= i < |answers| => Score(answers[i]))
  }

  /** Chunk a goes before chunk b in `sorted(..., key=_score, reverse=True)`: higher score, or the same score and earlier. */
  predicate Before(scores: seq<int>, a: nat, b: nat)
  {
    a < |scores| && b < |scores| && (scores[a] > scores[b] || (scores[a] == scores[b] && a < b))
  }

  predicate Sorted(scores: seq<int>, r: seq<nat>)
  {
    forall p, q :: 0 <= p < q < |r| ==> Before(scores, r[p], r[q])
  }

  /** One step of the stable sort: i goes after every chunk scoring at least as much. */
  function Insert(scores: seq<int>, r: seq<nat>, i: nat): (s: seq<nat>)
    ensures |s| == |r| + 1
    ensures forall x :: x in s <==> x in r || x == i
  {
    if r == [] then [i]
    else if i < |scores| && r[0] < |scores| && scores[r[0]] < scores[i] then [i] + r
    else [r[0]] + Insert(scores, r[1..], i)
  }

  lemma {:induction false} InsertSorted(scores: seq<int>, r: seq<nat>, i: nat)
    requires i < |scores| && Sorted(scores, r)
    requires forall x :: x in r ==> x < i
    ensures Sorted(scores, Insert(scores, r, i))
  {
    if r != [] {
      assert r[0] in r;
      var tail := r[1..];
      if scores[r[0]] < scores[i] {
        forall q | 0 <= q < |r| ensures Before(scores, i, r[q]) {
          if q > 0 {
            assert Before(scores, r[0], r[q]);
          }
        }
        SortedCons(scores, i, r);
      } else {
        assert forall x :: x in tail ==> x in r;
        InsertSorted(scores, tail, i);
        HeadBeforeRest(scores, r, i);
        SortedCons(scores, r[0], Insert(scores, tail, i));
      }
    }
  }

  /** The head of a sorted list ranks before everything after it and before i, when i scores no higher and comes later. */
  lemma HeadBeforeRest(scores: seq<int>, r: seq<nat>, i: nat)
    requires r != [] && i < |scores| && Sorted(scores, r)
    requires r[0] < i && r[0] < |scores| && scores[i] <= scores[r[0]]
    ensures forall q :: 0 <= q < |Insert(scores, r[1..], i)| ==> Before(scores, r[0], Insert(scores, r[1..], i)[q])
  {
    var tail := r[1..];
    var s := Insert(scores, tail, i);
    forall q | 0 <= q < |s| ensures Before(scores, r[0], s[q]) {
      assert s[q] in s;
      if s[q] != i {
        var p :| 0 <= p < |tail| && tail[p] == s[q];
        assert r[p + 1] == s[q];
      }
    }
  }

  lemma SortedCons(scores: seq<int>, x: nat, rest: seq<nat>)
    requires Sorted(scores, rest)
    requires forall q :: 0 <= q < |rest| ==> Before(scores, x, rest[q])
    ensures Sorted(scores, [x] + rest)
  {
    var s := [x] + rest;
    forall p, q | 0 <= p < q < |s| ensures Before(scores, s[p], s[q]) {
      if p > 0 {
        assert s[p] == rest[p - 1] && s[q] == rest[q - 1];
      } else {
        assert s[q] == rest[q - 1];
      }
    }
  }

  /** `sorted(range(n), key=score, reverse=True)`, built by stable insertion. */
  function Ranked(scores: seq<int>, n: nat): (r: seq<nat>)
    requires n <= |scores|
    ensures |r| == n
    ensures forall x: int :: x in r <==> 0 <= x < n
    ensures Sorted(scores, r)
  {
    if n == 0 then []
    else
      var prev := Ranked(scores, n - 1);
      InsertSorted(scores, prev, n - 1);
      Insert(scores, prev, n - 1)
  }

  /** Python's s[:k], negative k counting from the end. */
  function SliceTo(s: seq<nat>, k: int): (r: seq<nat>)
    ensures |r| <= |s|
    ensures r == s[..|r|]
    ensures |r| == if k >= 0 then (if k < |s| then k else |s|) else (if |s| + k > 0 then |s| + k else 0)
  {
    if k >= 0 then (if k < |s| then s[..k] else s)
    else if |s| + k > 0 then s[..|s| + k] else []
  }

  /** The chunks pass 2 runs, as indices in the order they are run. */
  function Selection(target: string, topk: int, answers: seq<seq<Finding>>): (sel: seq<nat>)
    ensures forall k :: 0 <= k < |sel| ==> sel[k] < |answers|
  {
    if target == "topk" then
      var ranked := Ranked(Scores(answers), |answers|);
      var sel := SliceTo(ranked, topk);
      assert forall k :: 0 <= k < |sel| ==> sel[k] in ranked;
      sel
    else Flagged(answers, |answers|)
  }

  /** Strictly sorted means no index twice. */
  lemma SortedDistinct(scores: seq<int>, r: seq<nat>)
    requires Sorted(scores, r)
    ensures forall p, q :: 0 <= p < |r| && 0 <= q < |r| && p != q ==> r[p] != r[q]
  {
    forall p, q | 0 <= p < |r| && 0 <= q < |r| && p != q ensures r[p] != r[q] {
      if p < q {
        assert Before(scores, r[p], r[q]);
      } else {
        assert Before(scores, r[q], r[p]);
      }
    }
  }

  /** No chunk is selected twice, so no chunk is run twice in pass 2. */
  lemma SelectionDistinct(target: string, topk: int, answers: seq<seq<Finding>>)
    ensures var sel := Selection(target, topk, answers);
            forall p, q :: 0 <= p < |sel| && 0 <= q < |sel| && p != q ==> sel[p] != sel[q]
  {
    if target == "topk" {
      var ranked := Ranked(Scores(answers), |answers|);
      SortedDistinct(Scores(answers), ranked);
    }
  }

  /** "flagged" (any target but "topk") selects exactly the chunks with a non-empty pass-1 answer, in input order. */
  lemma SelectionFlagged(target: string, topk: int, answers: seq<seq<Finding>>)
    requires target != "topk"
    ensures var sel := Selection(target, topk, answers);
            (forall k, m :: 0 <= k < m < |sel| ==> sel[k] < sel[m]) &&
            (forall i :: 0 <= i < |answers| ==> (i in sel <==> answers[i] != []))
  {
  }

  /**
   * "topk" selects min(K, n) chunks (fewer when K is negative, as a Python slice does), in
   * descending score with ties in input order, and every chunk left out ranks after every
   * chunk selected.
   */
  lemma SelectionTopK(topk: int, answers: seq<seq<Finding>>)
    ensures var sel := Selection("topk", topk, answers);
            var n := |answers|;
            (0 <= topk ==> |sel| == if topk < n then topk else n) &&
            (topk < 0 ==> |sel| == if n + topk > 0 then n + topk else 0) &&
            Sorted(Scores(answers), sel) &&
            (forall k, u :: 0 <= k < |sel| && 0 <= u < n && u !in sel ==> Before(Scores(answers), sel[k], u))
  {
    RankedPrefix(Scores(answers), topk);
  }

  /** A prefix of the ranking is sorted, and everything after it ranks below everything in it. */
  lemma RankedPrefix(scores: seq<int>, topk: int)
    ensures var sel := SliceTo(Ranked(scores, |scores|), topk);
            Sorted(scores, sel) &&
            (forall k, u :: 0 <= k < |sel| && 0 <= u < |scores| && u !in sel ==> Before(scores, sel[k], u))
  {
    var ranked := Ranked(scores, |scores|);
    var sel := SliceTo(ranked, topk);
    assert sel == ranked[..|sel|];
    forall k, u | 0 <= k < |sel| && 0 <= u < |scores| && u !in sel ensures Before(scores, sel[k], u) {
      assert u in ranked;
      var q :| 0 <= q < |ranked| && ranked[q] == u;
      assert q >= |sel| by {
        assert forall j :: 0 <= j < |sel| ==> sel[j] == ranked[j];
      }
      assert ranked[k] == sel[k];
    }
  }

  // ================================================================ merge

  /** `{id(c): run_chunk(c, deep=True) for c in selected}`, over the first n selected chunks. */
  function DeepMap<T>(sel: seq<nat>, deep: seq<T>, n: nat): (m: map<nat, T>)
    requires n <= |sel| && n <= |deep|
    ensures forall i :: i in m <==> exists k :: 0 <= k < n && sel[k] == i
  {
    if n == 0 then map[] else DeepMap(sel, deep, n - 1)[sel[n - 1] := deep[n - 1]]
  }

  /** With no index selected twice, each selected chunk maps to its own pass-2 answer. */
  lemma {:induction false} DeepMapLookup<T>(sel: seq<nat>, deep: seq<T>, n: nat, k: nat)
    requires n <= |sel| && n <= |deep| && k < n
    requires forall p, q :: 0 <= p < |sel| && 0 <= q < |sel| && p != q ==> sel[p] != sel[q]
    ensures sel[k] in DeepMap(sel, deep, n) && DeepMap(sel, deep, n)[sel[k]] == deep[k]
  {
    var m := DeepMap(sel, deep, n - 1);
    assert DeepMap(sel, deep, n) == m[sel[n - 1] := deep[n - 1]];
    if k < n - 1 {
      DeepMapLookup(sel, deep, n - 1, k);
      assert sel[k] != sel[n - 1];
    }
  }

  /** What the merge uses for each chunk: the pass-2 answer when there is one, else the pass-1 answer. */
  function Chosen(answers: seq<seq<Finding>>, m: map<nat, seq<Finding>>): (r: seq<seq<Finding>>)
    ensures |r| == |answers|
  {
    seq(|answers|, i requires 0 <= i < |answers| => if i in m then m[i] else answers[i])
  }

  // ================================================================ the scan

  /** The selected chunks, in pass-2 order. */
  function Picked(chunks: seq<CodeChunk>, sel: seq<nat>): (r: seq<CodeChunk>)
    requires forall k :: 0 <= k < |sel| ==> sel[k] < |chunks|
    ensures |r| == |sel|
    ensures forall k :: 0 <= k < |sel| ==> r[k] == chunks[sel[k]]
  {
    seq(|sel|, k requires 0 <= k < |sel| => chunks[sel[k]])
  }

  /** What run_scan_multipass returns or raises, and the events it causes. */
  function Scan(multiPass: bool, mp: MultiPassConfig, chunks: seq<CodeChunk>, o: Oracle): Outcome
  {
    if !multiPass then Single(o, chunks, |chunks|)
    else
      var d1 := mp.pass1Budget == "normal";
      var p1 := Batch(o, [], chunks, d1, |chunks|);
      if p1.failure.Some? then Outcome(Err(p1.failure.value), Runs(chunks[..Calls(p1)], d1))
      else
        var sel := Selection(mp.pass2Target, mp.pass2Topk, p1.answers);
        var picked := Picked(chunks, sel);
        var before := Runs(chunks, d1);
        var p2 := Batch(o, before, picked, true, |picked|);
        if p2.failure.Some? then Outcome(Err(p2.failure.value), before + Runs(picked[..Calls(p2)], true))
        else
          var chosen := Chosen(p1.answers, DeepMap(sel, p2.answers, |sel|));
          Outcome(Ok(Concat(chosen)), before + Runs(picked, true) + Emits(chosen))
  }

  /** run_scan_multipass; the oracle calls and the on_emit calls are recorded in `trace`. */
  method RunScanMultipass(cfg: Config, chunks: seq<CodeChunk>, o: Oracle)
    returns (result: Result<seq<Finding>, string>, trace: seq<Event>)
    ensures Outcome(result, trace) == Scan(cfg.scan.multiPass, cfg.multipass, chunks, o)
  {
    if !cfg.scan.multiPass {
      result, trace := SinglePass(chunks, o);
      return;
    }
    var d1 := cfg.multipass.pass1Budget == "normal";
    var p1 := Batch(o, [], chunks, d1, |chunks|);
    if p1.failure.Some? {
      return Err(p1.failure.value), Runs(chunks[..Calls(p1)], d1);
    }
    var sel := Selection(cfg.multipass.pass2Target, cfg.multipass.pass2Topk, p1.answers);
    var picked := Picked(chunks, sel);
    trace := Runs(chunks, d1);
    var p2 := Batch(o, trace, picked, true, |picked|);
    if p2.failure.Some? {
      return Err(p2.failure.value), trace + Runs(picked[..Calls(p2)], true);
    }
    trace := trace + Runs(picked, true);
    var deepMap := DeepMap(sel, p2.answers, |sel|);
    var merged, emitted := Merge(p1.answers, deepMap);
    trace := trace + emitted;
    result := Ok(merged);
  }

  /** The merge loop: for each chunk in input order, its pass-2 answer if it has one, else its pass-1 answer. */
  method Merge(answers: seq<seq<Finding>>, deepMap: map<nat, seq<Finding>>)
    returns (merged: seq<Finding>, emitted: seq<Event>)
    ensures emitted == Emits(Chosen(answers, deepMap))
    ensures merged == Concat(Chosen(answers, deepMap))
  {
    ghost var chosen := Chosen(answers, deepMap);
    merged := [];
    emitted := [];
    for i := 0 to |answers|
      invariant emitted == Emits(chosen[..i])
      invariant merged == Concat(chosen[..i])
    {
      var replacement := if i in deepMap then Some(deepMap[i]) else None;
      var pick := if replacement.Some? then replacement.value else answers[i];
      assert pick == chosen[i];
      assert chosen[..i + 1] == chosen[..i] + [pick];
      assert Emits(chosen[..i + 1]) == Emits(chosen[..i]) + [Emit(pick)];
      emitted := emitted + [Emit(pick)];
      merged := merged + pick;
    }
    assert chosen[..|answers|] == chosen;
  }

  /** The multi_pass-off loop: run, emit, extend. */
  method SinglePass(chunks: seq<CodeChunk>, o: Oracle) returns (result: Result<seq<Finding>, string>, trace: seq<Event>)
    ensures Outcome(result, trace) == Single(o, chunks, |chunks|)
  {
    var merged: seq<Finding> := [];
    trace := [];
    for i := 0 to |chunks|
      invariant Single(o, chunks, i) == Outcome(Ok(merged), trace)
    {
      var answer := o(trace, chunks[i], false);
      trace := trace + [Run(chunks[i], false)];
      if answer.Err? {
        result := Err(answer.error);
        ErrStops(o, chunks, i + 1, |chunks|);
        return;
      }
      trace := trace + [Emit(answer.value)];
      merged := merged + answer.value;
    }
    result := Ok(merged);
  }

  /** Once a RuntimeError ends the single-pass loop, nothing more happens. */
  lemma {:induction false} ErrStops(o: Oracle, chunks: seq<CodeChunk>, i: nat, n: nat)
    requires i <= n <= |chunks|
    requires Single(o, chunks, i).result.Err?
    ensures Single(o, chunks, n) == Single(o, chunks, i)
    decreases n - i
  {
    if i < n {
      ErrStops(o, chunks, i, n - 1);
    }
  }

  /**
   * With multi-pass on and no error the trace is three blocks: pass 1 runs every chunk
   * once in input order with deep == (pass1_budget == "normal"); then pass 2 runs each
   * selected chunk, deep, in selection order; then every chunk is emitted once, in input
   * order, with its pass-2 answer if it was selected and its pass-1 answer otherwise. The
   * result is those answers concatenated. (BatchAnswers says which oracle call produced
   * each answer; SelectionDistinct that no chunk is run twice in pass 2.)
   */
  lemma MultiShape(mp: MultiPassConfig, chunks: seq<CodeChunk>, o: Oracle)
    requires Scan(true, mp, chunks, o).result.Ok?
    ensures var out := Scan(true, mp, chunks, o);
            var n := |chunks|;
            var d1 := mp.pass1Budget == "normal";
            var r1 := Batch(o, [], chunks, d1, n);
            var sel := Selection(mp.pass2Target, mp.pass2Topk, r1.answers);
            var r2 := Batch(o, Runs(chunks, d1), Picked(chunks, sel), true, |sel|);
            r1.failure.None? && r2.failure.None? &&
            var merged := Merged(r1.answers, sel, r2.answers);
            out.trace == Runs(chunks, d1) + Runs(Picked(chunks, sel), true) + Emits(merged) &&
            out.result.value == Concat(merged)
  {
    var r1, sel, r2, chosen := MultiUnfold(mp, chunks, o);
    SelectionDistinct(mp.pass2Target, mp.pass2Topk, r1.answers);
    var c := ChosenLookup(r1.answers, sel, r2.answers);
    assert Merged(r1.answers, sel, r2.answers) == chosen;
  }

  /** Each chunk's pass-2 answer when it was selected, its pass-1 answer otherwise. */
  function Merged(first: seq<seq<Finding>>, sel: seq<nat>, deep: seq<seq<Finding>>): (m: seq<seq<Finding>>)
    requires |deep| == |sel|
    ensures |m| == |first|
  {
    seq(|first|, i requires 0 <= i < |first| => if i in sel then deep[IndexOf(sel, i)] else first[i])
  }

  /** A successful multi-pass scan, taken apart. */
  lemma MultiUnfold(mp: MultiPassConfig, chunks: seq<CodeChunk>, o: Oracle)
    returns (r1: Ran, sel: seq<nat>, r2: Ran, chosen: seq<seq<Finding>>)
    requires Scan(true, mp, chunks, o).result.Ok?
    ensures var d1 := mp.pass1Budget == "normal";
            r1 == Batch(o, [], chunks, d1, |chunks|) && r1.failure.None? &&
            sel == Selection(mp.pass2Target, mp.pass2Topk, r1.answers) &&
            r2 == Batch(o, Runs(chunks, d1), Picked(chunks, sel), true, |sel|) && r2.failure.None? &&
            chosen == Chosen(r1.answers, DeepMap(sel, r2.answers, |sel|)) &&
            Scan(true, mp, chunks, o) == Outcome(Ok(Concat(chosen)), Runs(chunks, d1) + Runs(Picked(chunks, sel), true) + Emits(chosen))
  {
    var d1 := mp.pass1Budget == "normal";
    r1 := Batch(o, [], chunks, d1, |chunks|);
    sel := Selection(mp.pass2Target, mp.pass2Topk, r1.answers);
    r2 := Batch(o, Runs(chunks, d1), Picked(chunks, sel), true, |sel|);
    chosen := Chosen(r1.answers, DeepMap(sel, r2.answers, |sel|));
  }

  /** Each chunk's merged answer: the pass-2 answer of a selected chunk, the pass-1 answer of any other. */
  lemma ChosenLookup(answers: seq<seq<Finding>>, sel: seq<nat>, deep: seq<seq<Finding>>)
    returns (chosen: seq<seq<Finding>>)
    requires |deep| == |sel|
    requires forall p, q :: 0 <= p < |sel| && 0 <= q < |sel| && p != q ==> sel[p] != sel[q]
    ensures chosen == Chosen(answers, DeepMap(sel, deep, |sel|))
    ensures forall i :: 0 <= i < |answers| ==> chosen[i] == if i in sel then deep[IndexOf(sel, i)] else answers[i]
  {
    var m := DeepMap(sel, deep, |sel|);
    chosen := Chosen(answers, m);
    forall i | 0 <= i < |answers| ensures chosen[i] == if i in sel then deep[IndexOf(sel, i)] else answers[i] {
      if i in sel {
        DeepMapLookup(sel, deep, |sel|, IndexOf(sel, i));
      } else {
        assert i !in m by {
          assert forall k :: 0 <= k < |sel| ==> sel[k] in sel;
        }
      }
    }
  }

  /** The position of x in s. */
  function IndexOf(s: seq<nat>, x: nat): (k: nat)
    requires x in s
    ensures k < |s| && s[k] == x
    ensures forall j :: 0 <= j < k ==> s[j] != x
  {
    if s[0] == x then 0 else 1 + IndexOf(s[1..], x)
  }
}
