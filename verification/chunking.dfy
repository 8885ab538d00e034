/**
 * The chunkers: cut a file, given as its list of lines, into CodeChunks.
 *   - ChunkByFunction: a definition-looking line opens a chunk and the running
 *     `{`/`}` balance closes it (vulnllm/chunking/function_chunker.py).
 *   - ChunkSliding: token-budgeted windows with a backward overlap walk
 *     (vulnllm/chunking/sliding_chunker.py).
 * Reading the file and splitting it into lines is I/O and is not modelled: the
 * chunkers receive the lines. The definition regex is the parameter `defName`,
 * which yields the captured function name of a matching line.
 */
module Chunking {
  import opened Wrappers
  import opened Text

  /** One unit of analysis: 1-based inclusive line range, its text, optional function name. */
  datatype CodeChunk = CodeChunk(file: string, startLine: int, endLine: int, text: string, funcName: Option<string>)

  // ================================================================ function chunker

  /** Number of `{` minus number of `}` on one line. */
  function Balance(line: string): int
  {
    Count(line, '{') as int - Count(line, '}') as int
  }

  /** The running balance over lines s..t (inclusive). */
  function Depth(lines: seq<string>, s: nat, t: nat): int
    requires s <= t < |lines|
    decreases t - s
  {
    if t == s then Balance(lines[s]) else Depth(lines, s, t - 1) + Balance(lines[t])
  }

  /**
   * 0-based index of the last line of the body whose signature is line s: the first
   * line at which the running balance from s is <= 0, or the last line of the file.
   */
  function CloseIndex(lines: seq<string>, s: nat): (c: nat)
    requires s < |lines|
    ensures s <= c < |lines|
    ensures forall t :: s <= t < c ==> Depth(lines, s, t) > 0
    ensures c == |lines| - 1 || Depth(lines, s, c) <= 0
  {
    CloseFrom(lines, s, s)
  }

  function CloseFrom(lines: seq<string>, s: nat, t: nat): (c: nat)
    requires s <= t < |lines|
    requires forall u :: s <= u < t ==> Depth(lines, s, u) > 0
    ensures t <= c < |lines|
    ensures forall u :: s <= u < c ==> Depth(lines, s, u) > 0
    ensures c == |lines| - 1 || Depth(lines, s, c) <= 0
    decreases |lines| - t
  {
    if Depth(lines, s, t) <= 0 || t == |lines| - 1 then t else CloseFrom(lines, s, t + 1)
  }

  /** The closing line is determined by the two properties CloseIndex promises. */
  lemma CloseIndexUnique(lines: seq<string>, s: nat, c: nat)
    requires s <= c < |lines|
    requires forall t :: s <= t < c ==> Depth(lines, s, t) > 0
    requires c == |lines| - 1 || Depth(lines, s, c) <= 0
    ensures CloseIndex(lines, s) == c
  {
  }

  /** A chunk the function chunker may emit for this file: opened by a matching line and closed by the balance. */
  ghost predicate FunctionChunkOf(file: string, lines: seq<string>, defName: string -> Option<string>, c: CodeChunk)
  {
    1 <= c.startLine <= |lines| &&
    defName(lines[c.startLine - 1]).Some? &&
    c.funcName == defName(lines[c.startLine - 1]) &&
    c.endLine == CloseIndex(lines, c.startLine - 1) + 1 &&
    c.text == Join(lines[c.startLine - 1..c.endLine], "\n") &&
    c.file == file
  }

  /** 0-based index of the line where scanning resumed before chunk k. */
  function ResumeBefore(chunks: seq<CodeChunk>, k: nat): int
    requires k < |chunks|
  {
    if k == 0 then 0 else chunks[k - 1].endLine
  }

  /** 0-based index of the line where scanning resumed after the last chunk. */
  function ResumeAfter(chunks: seq<CodeChunk>): int
  {
    if chunks == [] then 0 else chunks[|chunks| - 1].endLine
  }

  /** Does the definition pattern only ever match lines that contain `{`? (FUNC_DEF_RE ends in `\{`.) */
  ghost predicate MatchNeedsBrace(defName: string -> Option<string>)
  {
    forall line :: defName(line).Some? ==> Count(line, '{') > 0
  }

  /** Every chunk so far is one the chunker may emit. */
  ghost predicate AllFunctionChunks(file: string, lines: seq<string>, defName: string -> Option<string>, chunks: seq<CodeChunk>)
  {
    forall k :: 0 <= k < |chunks| ==> FunctionChunkOf(file, lines, defName, chunks[k])
  }

  /** Each chunk ends before the next one starts. */
  ghost predicate Ordered(chunks: seq<CodeChunk>)
  {
    forall k :: 0 <= k < |chunks| - 1 ==> chunks[k].endLine < chunks[k + 1].startLine
  }

  /** No matching line lies between a chunk and the one before it. */
  ghost predicate NoSkippedMatch(lines: seq<string>, defName: string -> Option<string>, chunks: seq<CodeChunk>)
  {
    forall k, idx ::
      0 <= k < |chunks| && ResumeBefore(chunks, k) <= idx < chunks[k].startLine - 1 && 0 <= idx < |lines|
      ==> defName(lines[idx]).None?
  }

  /**
   * The state of the function chunker's scan at position i: every chunk so far is one
   * the chunker may emit, they are ordered, and no matching line was passed over.
   */
  ghost predicate ScannedUpTo(file: string, lines: seq<string>, defName: string -> Option<string>,
                              chunks: seq<CodeChunk>, i: int)
  {
    AllFunctionChunks(file, lines, defName, chunks) &&
    Ordered(chunks) &&
    NoSkippedMatch(lines, defName, chunks) &&
    (forall idx :: ResumeAfter(chunks) <= idx < i && idx < |lines| ==> defName(lines[idx]).None?) &&
    0 <= ResumeAfter(chunks) <= i <= |lines| + 1
  }

  lemma ScanSkip(file: string, lines: seq<string>, defName: string -> Option<string>, chunks: seq<CodeChunk>, i: int)
    requires ScannedUpTo(file, lines, defName, chunks, i)
    requires 0 <= i < |lines| && defName(lines[i]).None?
    ensures ScannedUpTo(file, lines, defName, chunks, i + 1)
  {
  }

  lemma AppendFunctionChunk(file: string, lines: seq<string>, defName: string -> Option<string>,
                            chunks: seq<CodeChunk>, c: CodeChunk)
    requires AllFunctionChunks(file, lines, defName, chunks)
    requires FunctionChunkOf(file, lines, defName, c)
    ensures AllFunctionChunks(file, lines, defName, chunks + [c])
  {
    var all := chunks + [c];
    forall k | 0 <= k < |all|
      ensures FunctionChunkOf(file, lines, defName, all[k])
    {
      if k < |chunks| {
        assert all[k] == chunks[k];
      }
    }
  }

  lemma AppendOrdered(chunks: seq<CodeChunk>, c: CodeChunk)
    requires Ordered(chunks)
    requires ResumeAfter(chunks) < c.startLine
    ensures Ordered(chunks + [c])
  {
    var all := chunks + [c];
    forall k | 0 <= k < |all| - 1
      ensures all[k].endLine < all[k + 1].startLine
    {
      if k < |chunks| - 1 {
        assert all[k] == chunks[k] && all[k + 1] == chunks[k + 1];
      } else {
        assert all[k] == chunks[k] && all[k + 1] == c;
      }
    }
  }

  lemma AppendNoSkippedMatch(lines: seq<string>, defName: string -> Option<string>, chunks: seq<CodeChunk>,
                             c: CodeChunk)
    requires NoSkippedMatch(lines, defName, chunks)
    requires forall idx :: ResumeAfter(chunks) <= idx < c.startLine - 1 && 0 <= idx < |lines| ==> defName(lines[idx]).None?
    ensures NoSkippedMatch(lines, defName, chunks + [c])
  {
    var all := chunks + [c];
    forall k, idx | 0 <= k < |all| && ResumeBefore(all, k) <= idx < all[k].startLine - 1 && 0 <= idx < |lines|
      ensures defName(lines[idx]).None?
    {
      if k < |chunks| {
        assert all[k] == chunks[k];
        assert ResumeBefore(all, k) == ResumeBefore(chunks, k);
      } else {
        assert all[k] == c;
        assert ResumeBefore(all, k) == ResumeAfter(chunks);
      }
    }
  }

  lemma ScanTake(file: string, lines: seq<string>, defName: string -> Option<string>,
                 chunks: seq<CodeChunk>, i: int, c: CodeChunk, next: int)
    requires ScannedUpTo(file, lines, defName, chunks, i)
    requires 0 <= i < |lines| && c.startLine == i + 1
    requires FunctionChunkOf(file, lines, defName, c)
    requires next == c.endLine || (next == |lines| + 1 && c.endLine == |lines|)
    ensures ScannedUpTo(file, lines, defName, chunks + [c], next)
  {
    AppendFunctionChunk(file, lines, defName, chunks, c);
    AppendOrdered(chunks, c);
    AppendNoSkippedMatch(lines, defName, chunks, c);
    assert ResumeAfter(chunks + [c]) == c.endLine;
  }

  /** A pattern that needs `{` finds nothing to chunk in a file without `{`. */
  lemma NoBraceNoChunks(file: string, lines: seq<string>, defName: string -> Option<string>, chunks: seq<CodeChunk>)
    requires forall k :: 0 <= k < |chunks| ==> FunctionChunkOf(file, lines, defName, chunks[k])
    ensures MatchNeedsBrace(defName) && (forall i :: 0 <= i < |lines| ==> NoChar(lines[i], '{')) ==> chunks == []
  {
    if MatchNeedsBrace(defName) && chunks != [] {
      var s := chunks[0].startLine - 1;
      assert defName(lines[s]).Some?;
      assert !NoChar(lines[s], '{');
    }
  }

  /**
   * The brace walk of chunk_file_by_function from the matching line i: the index at
   * which it stops (the closing line, or |lines| when the file ends first).
   */
  method CloseScan(lines: seq<string>, i: nat) returns (j: nat)
    requires i < |lines|
    ensures i <= j <= |lines|
    ensures CloseIndex(lines, i) == if j < |lines| then j else |lines| - 1
  {
    var braceDepth := Balance(lines[i]);
    if braceDepth <= 0 {
      CloseIndexUnique(lines, i, i);
      return i;
    }
    j := i + 1;
    while j < |lines|
      invariant i + 1 <= j <= |lines|
      invariant braceDepth == Depth(lines, i, j - 1)
      invariant forall t :: i <= t < j ==> Depth(lines, i, t) > 0
    {
      braceDepth := braceDepth + Balance(lines[j]);
      if braceDepth <= 0 {
        break;
      }
      j := j + 1;
    }
    CloseIndexUnique(lines, i, if j < |lines| then j else |lines| - 1);
  }

  /** The chunk opened by the matching line i, and the index at which the scan resumes. */
  method ChunkAt(file: string, lines: seq<string>, defName: string -> Option<string>, i: nat)
    returns (chunk: CodeChunk, next: int)
    requires i < |lines| && defName(lines[i]).Some?
    ensures FunctionChunkOf(file, lines, defName, chunk) && chunk.startLine == i + 1
    ensures next == chunk.endLine || (next == |lines| + 1 && chunk.endLine == |lines|)
  {
    var start := i + 1;
    var j := CloseScan(lines, i);
    var end := if j + 1 < |lines| then j + 1 else |lines|;
    var text := Join(lines[start - 1..end], "\n");
    chunk := CodeChunk(file, start, end, text, defName(lines[i]));
    next := j + 1;
  }

  /**
   * chunk_file_by_function. The chunks are exactly the matching lines that are not
   * inside an earlier chunk, each running to the line where its balance closes.
   */
  method ChunkByFunction(file: string, lines: seq<string>, defName: string -> Option<string>)
    returns (chunks: seq<CodeChunk>)
    ensures AllFunctionChunks(file, lines, defName, chunks)
    ensures Ordered(chunks)
    ensures NoSkippedMatch(lines, defName, chunks)
    ensures forall i :: ResumeAfter(chunks) <= i < |lines| ==> defName(lines[i]).None?
    ensures MatchNeedsBrace(defName) && (forall i :: 0 <= i < |lines| ==> NoChar(lines[i], '{')) ==> chunks == []
  {
    chunks := [];
    var i := 0;
    while i < |lines|
      invariant ScannedUpTo(file, lines, defName, chunks, i)
      decreases |lines| + 1 - i
    {
      var name := defName(lines[i]);
      if name.None? {
        ScanSkip(file, lines, defName, chunks, i);
        i := i + 1;
        continue;
      }
      var chunk, next := ChunkAt(file, lines, defName, i);
      ScanTake(file, lines, defName, chunks, i, chunk, next);
      chunks := chunks + [chunk];
      i := next;
    }
    NoBraceNoChunks(file, lines, defName, chunks);
  }

  // ================================================================ sliding chunker

  /** _approx_token_len: a quarter of the length, never less than one. */
  function TokenLen(line: string): (t: nat)
    ensures t >= 1
    ensures t == 1 || 4 * t <= |line| < 4 * t + 4
  {
    if |line| / 4 >= 1 then |line| / 4 else 1
  }

  /** Tokens of lines a..b-1. */
  function Tokens(lines: seq<string>, a: nat, b: nat): nat
    requires a <= b <= |lines|
    decreases b - a
  {
    if a == b then 0 else Tokens(lines, a, b - 1) + TokenLen(lines[b - 1])
  }

  lemma {:induction false} TokensFront(lines: seq<string>, a: nat, b: nat)
    requires a < b <= |lines|
    ensures Tokens(lines, a, b) == TokenLen(lines[a]) + Tokens(lines, a + 1, b)
    decreases b - a
  {
    if b - 1 > a {
      TokensFront(lines, a, b - 1);
    }
  }

  /** Every line costs at least one token, so a range costs at least its length. */
  lemma {:induction false} TokensAtLeastLength(lines: seq<string>, a: nat, b: nat)
    requires a <= b <= |lines|
    ensures Tokens(lines, a, b) >= b - a
    decreases b - a
  {
    if a < b {
      TokensAtLeastLength(lines, a, b - 1);
    }
  }

  /**
   * Where the backward overlap walk from line j stops: moving down from j towards i,
   * the first index whose tokens up to j reach `overlap`, or i.
   */
  function OverlapStart(lines: seq<string>, i: nat, j: nat, overlap: int): (k: nat)
    requires i <= j <= |lines|
    ensures i <= k <= j
    ensures k == i || Tokens(lines, k, j) >= overlap
    ensures forall m :: k < m <= j ==> Tokens(lines, m, j) < overlap
    decreases j - i
  {
    OverlapFrom(lines, i, j, j, overlap)
  }

  function OverlapFrom(lines: seq<string>, i: nat, j: nat, k: nat, overlap: int): (r: nat)
    requires i <= k <= j <= |lines|
    requires forall m :: k < m <= j ==> Tokens(lines, m, j) < overlap
    ensures i <= r <= k
    ensures r == i || Tokens(lines, r, j) >= overlap
    ensures forall m :: r < m <= j ==> Tokens(lines, m, j) < overlap
    decreases k - i
  {
    if k == i || Tokens(lines, k, j) >= overlap then k else OverlapFrom(lines, i, j, k - 1, overlap)
  }

  /** A window the sliding chunker may emit: non-empty, grown while under budget, the right text. */
  ghost predicate WindowOf(file: string, lines: seq<string>, chunkTokens: int, c: CodeChunk)
  {
    1 <= c.startLine <= c.endLine <= |lines| &&
    (c.startLine == c.endLine || Tokens(lines, c.startLine - 1, c.endLine - 1) < chunkTokens) &&
    (c.endLine == |lines| || Tokens(lines, c.startLine - 1, c.endLine) >= chunkTokens) &&
    c.text == Join(lines[c.startLine - 1..c.endLine], "\n") &&
    c.funcName == None &&
    c.file == file
  }

  /** Index (0-based) where the next window starts after window c: the overlap walk, but at least one line on. */
  function NextStart(lines: seq<string>, c: CodeChunk, overlap: int): (r: int)
    requires 1 <= c.startLine <= c.endLine <= |lines|
    ensures c.startLine <= r <= c.endLine
  {
    var b := OverlapStart(lines, c.startLine - 1, c.endLine, overlap);
    if b > c.startLine then b else c.startLine
  }

  /** Two consecutive windows of the sliding chunker. */
  ghost predicate Follows(lines: seq<string>, overlap: int, a: CodeChunk, b: CodeChunk)
  {
    1 <= a.startLine <= a.endLine < |lines| &&
    b.startLine - 1 == NextStart(lines, a, overlap)
  }

  /** The sliding chunker's state before the window that starts at index i. */
  ghost predicate SlidUpTo(file: string, lines: seq<string>, chunkTokens: int, overlap: int,
                           chunks: seq<CodeChunk>, i: int)
  {
    0 <= i < |lines| &&
    (forall k :: 0 <= k < |chunks| ==> WindowOf(file, lines, chunkTokens, chunks[k])) &&
    (forall k :: 0 <= k < |chunks| - 1 ==> Follows(lines, overlap, chunks[k], chunks[k + 1])) &&
    (chunks == [] ==> i == 0) &&
    (chunks != [] ==> chunks[0].startLine == 1 && chunks[|chunks| - 1].endLine < |lines| &&
                      i == NextStart(lines, chunks[|chunks| - 1], overlap))
  }

  /** What chunk_file_sliding returns for a non-empty file. */
  ghost predicate SlidingDone(file: string, lines: seq<string>, chunkTokens: int, overlap: int, chunks: seq<CodeChunk>)
  {
    chunks != [] &&
    (forall k :: 0 <= k < |chunks| ==> WindowOf(file, lines, chunkTokens, chunks[k])) &&
    (forall k :: 0 <= k < |chunks| - 1 ==> Follows(lines, overlap, chunks[k], chunks[k + 1])) &&
    chunks[0].startLine == 1 && chunks[|chunks| - 1].endLine == |lines|
  }

  lemma SlideStep(file: string, lines: seq<string>, chunkTokens: int, overlap: int,
                  chunks: seq<CodeChunk>, i: int, c: CodeChunk)
    requires SlidUpTo(file, lines, chunkTokens, overlap, chunks, i)
    requires WindowOf(file, lines, chunkTokens, c) && c.startLine == i + 1
    ensures c.endLine < |lines| ==>
              SlidUpTo(file, lines, chunkTokens, overlap, chunks + [c], NextStart(lines, c, overlap))
    ensures c.endLine == |lines| ==> SlidingDone(file, lines, chunkTokens, overlap, chunks + [c])
  {
    var all := chunks + [c];
    forall k | 0 <= k < |all|
      ensures WindowOf(file, lines, chunkTokens, all[k])
    {
      if k < |chunks| {
        assert all[k] == chunks[k];
      }
    }
    forall k | 0 <= k < |all| - 1
      ensures Follows(lines, overlap, all[k], all[k + 1])
    {
      if k < |chunks| - 1 {
        assert all[k] == chunks[k] && all[k + 1] == chunks[k + 1];
      } else {
        assert all[k] == chunks[|chunks| - 1] && all[k + 1] == c;
      }
    }
    assert all[0].startLine == 1;
    assert all[|all| - 1] == c;
  }

  /** The forward walk of chunk_file_sliding: where the window that starts at index i ends (exclusive). */
  method GrowWindow(lines: seq<string>, i: nat, chunkTokens: int) returns (j: nat)
    requires i < |lines|
    ensures i < j <= |lines|
    ensures j == i + 1 || Tokens(lines, i, j - 1) < chunkTokens
    ensures j == |lines| || Tokens(lines, i, j) >= chunkTokens
  {
    var tok := 0;
    j := i;
    while j < |lines| && tok < chunkTokens
      invariant i <= j <= |lines|
      invariant tok == Tokens(lines, i, j)
      invariant j == i || Tokens(lines, i, j - 1) < chunkTokens
    {
      tok := tok + TokenLen(lines[j]);
      j := j + 1;
    }
    if j <= i {
      j := i + 1;
    }
  }

  /** The backward overlap walk of chunk_file_sliding from the window end j down to its start i. */
  method WalkBack(lines: seq<string>, i: nat, j: nat, overlap: int) returns (k: nat)
    requires i <= j <= |lines|
    ensures k == OverlapStart(lines, i, j, overlap)
  {
    var backTok := 0;
    k := j;
    while k > i && backTok < overlap
      invariant i <= k <= j
      invariant backTok == Tokens(lines, k, j)
      invariant forall m :: k < m <= j ==> Tokens(lines, m, j) < overlap
    {
      k := k - 1;
      TokensFront(lines, k, j);
      backTok := backTok + TokenLen(lines[k]);
    }
    OverlapUnique(lines, i, j, overlap, k);
  }

  /**
   * chunk_file_sliding. Each window grows until it holds chunkTokens tokens or reaches
   * the end; the next starts where the overlap walk back from the window's end stops,
   * but always at least one line further; the windows cover the file up to its last line.
   */
  method ChunkSliding(file: string, lines: seq<string>, chunkTokens: int, overlap: int)
    returns (chunks: seq<CodeChunk>)
    ensures chunks == [] <==> lines == []
    ensures forall k :: 0 <= k < |chunks| ==> WindowOf(file, lines, chunkTokens, chunks[k])
    ensures chunks != [] ==> chunks[0].startLine == 1 && chunks[|chunks| - 1].endLine == |lines|
    ensures forall k :: 0 <= k < |chunks| - 1 ==> Follows(lines, overlap, chunks[k], chunks[k + 1])
  {
    chunks := [];
    var n := |lines|;
    if n == 0 {
      return;
    }
    var i := 0;
    while true
      invariant SlidUpTo(file, lines, chunkTokens, overlap, chunks, i)
      decreases n - i
    {
      var j := GrowWindow(lines, i, chunkTokens);
      var chunk := CodeChunk(file, i + 1, j, Join(lines[i..j], "\n"), None);
      GrownWindow(file, lines, chunkTokens, i, j);
      SlideStep(file, lines, chunkTokens, overlap, chunks, i, chunk);
      chunks := chunks + [chunk];
      if j >= n {
        return;
      }
      var k := WalkBack(lines, i, j, overlap);
      var next := if i + 1 > k then i + 1 else k;
      assert next == NextStart(lines, chunk, overlap);
      i := next;
    }
  }

  /** A window grown as GrowWindow grows it is a window of the sliding chunker. */
  lemma GrownWindow(file: string, lines: seq<string>, chunkTokens: int, i: nat, j: nat)
    requires i < j <= |lines|
    requires j == i + 1 || Tokens(lines, i, j - 1) < chunkTokens
    requires j == |lines| || Tokens(lines, i, j) >= chunkTokens
    ensures WindowOf(file, lines, chunkTokens, CodeChunk(file, i + 1, j, Join(lines[i..j], "\n"), None))
  {
  }

  lemma OverlapUnique(lines: seq<string>, i: nat, j: nat, overlap: int, k: nat)
    requires i <= k <= j <= |lines|
    requires k == i || Tokens(lines, k, j) >= overlap
    requires forall m :: k < m <= j ==> Tokens(lines, m, j) < overlap
    ensures OverlapStart(lines, i, j, overlap) == k
  {
  }

  /**
   * No gaps: in the sliding chunker's output every line of the file lies in some window
   * (the window returned is one that holds line l).
   */
  lemma {:induction false} WindowsCover(file: string, lines: seq<string>, chunkTokens: int, overlap: int,
                                        chunks: seq<CodeChunk>, l: int) returns (m: nat)
    requires forall k :: 0 <= k < |chunks| ==> WindowOf(file, lines, chunkTokens, chunks[k])
    requires forall k :: 0 <= k < |chunks| - 1 ==> Follows(lines, overlap, chunks[k], chunks[k + 1])
    requires chunks != [] && chunks[0].startLine == 1
    requires 1 <= l <= chunks[|chunks| - 1].endLine
    ensures m < |chunks| && chunks[m].startLine <= l <= chunks[m].endLine
    decreases |chunks|
  {
    var last := |chunks| - 1;
    if l >= chunks[last].startLine {
      return last;
    }
    var prefix := chunks[..last];
    assert Follows(lines, overlap, chunks[last - 1], chunks[last]);
    assert l <= prefix[|prefix| - 1].endLine;
    m := WindowsCover(file, lines, chunkTokens, overlap, prefix, l);
  }

  /** Window starts strictly increase, so the chunker's loop terminates. */
  lemma {:induction false} WindowStartsIncrease(file: string, lines: seq<string>, chunkTokens: int, overlap: int,
                             chunks: seq<CodeChunk>, a: nat, b: nat)
    requires forall k :: 0 <= k < |chunks| ==> WindowOf(file, lines, chunkTokens, chunks[k])
    requires forall k :: 0 <= k < |chunks| - 1 ==> Follows(lines, overlap, chunks[k], chunks[k + 1])
    requires a < b < |chunks|
    ensures chunks[a].startLine < chunks[b].startLine
    decreases b - a
  {
    if a + 1 < b {
      WindowStartsIncrease(file, lines, chunkTokens, overlap, chunks, a, b - 1);
      assert Follows(lines, overlap, chunks[b - 1], chunks[b]);
    } else {
      assert Follows(lines, overlap, chunks[a], chunks[b]);
    }
  }
}
