/**
 * Character and string helpers with the semantics of the Python string
 * operations the scanner relies on: str.isspace, strip, lower/upper (ASCII),
 * find/rfind, count, split, join, splitlines, decimal formatting and int().
 */
module Text {
  import opened Wrappers

  /** Python's str.isspace() for one character (the complete Unicode list). */
  predicate IsSpace(c: char)
  {
    var n := c as int;
    n == 32 || 9 <= n <= 13 || 0x1c <= n <= 0x1f || n == 0x85 || n == 0xa0 ||
    n == 0x1680 || 0x2000 <= n <= 0x200a || n == 0x2028 || n == 0x2029 ||
    n == 0x202f || n == 0x205f || n == 0x3000
  }

  /** Characters at which Python's str.splitlines() breaks a line. */
  predicate IsLineBreak(c: char)
  {
    var n := c as int;
    10 <= n <= 13 || 0x1c <= n <= 0x1e || n == 0x85 || n == 0x2028 || n == 0x2029
  }

  predicate IsDigit(c: char) { '0' <= c <= '9' }

  predicate AllDigits(s: string) { forall i :: 0 <= i < |s| ==> IsDigit(s[i]) }

  predicate NoChar(s: string, c: char) { forall i :: 0 <= i < |s| ==> s[i] != c }

  function Spaces(n: nat): (r: string)
    ensures |r| == n && forall i :: 0 <= i < n ==> r[i] == ' '
  {
    if n == 0 then "" else Spaces(n - 1) + " "
  }

  // ---------------------------------------------------------------- slicing

  /** A Python slice bound: negative counts from the end, then clamped to 0..n. */
  function SliceBound(i: int, n: nat): (r: nat)
    ensures r <= n
    ensures 0 <= i <= n ==> r == i
  {
    if i < 0 then (if i + n < 0 then 0 else i + n) else if i > n then n else i
  }

  /** s[a:b] with Python's rules for out-of-range and negative bounds. */
  function Slice<T>(s: seq<T>, a: int, b: int): (r: seq<T>)
    ensures |r| <= |s|
    ensures 0 <= a <= b <= |s| ==> r == s[a..b]
  {
    var lo, hi := SliceBound(a, |s|), SliceBound(b, |s|);
    if hi <= lo then [] else s[lo..hi]
  }

  /** s[:k] */
  function Prefix<T>(s: seq<T>, k: int): (r: seq<T>)
    ensures r <= s
    ensures 0 <= k ==> |r| == if k < |s| then k else |s|
  {
    Slice(s, 0, k)
  }

  // ---------------------------------------------------------------- strip

  /** Number of leading whitespace characters. */
  function LeadingSpace(s: string): (k: nat)
    ensures k <= |s|
    ensures forall i :: 0 <= i < k ==> IsSpace(s[i])
    ensures k < |s| ==> !IsSpace(s[k])
  {
    if s == [] || !IsSpace(s[0]) then 0 else 1 + LeadingSpace(s[1..])
  }

  predicate AllSpace(s: string) { forall i :: 0 <= i < |s| ==> IsSpace(s[i]) }

  lemma AllSpaceConcat(x: string, y: string)
    requires AllSpace(x) && AllSpace(y)
    ensures AllSpace(x + y)
  {
    forall i | 0 <= i < |x + y| ensures IsSpace((x + y)[i]) {
      if i < |x| { assert (x + y)[i] == x[i]; } else { assert (x + y)[i] == y[i - |x|]; }
    }
  }

  /** str.lstrip() */
  function LStrip(s: string): (r: string)
    ensures |r| <= |s|
    ensures r != [] ==> !IsSpace(r[0])
  {
    if s != [] && IsSpace(s[0]) then LStrip(s[1..]) else s
  }

  /** str.rstrip() */
  function RStrip(s: string): (r: string)
    ensures r <= s
    ensures r != [] ==> !IsSpace(r[|r| - 1])
  {
    if s != [] && IsSpace(s[|s| - 1]) then RStrip(s[..|s| - 1]) else s
  }

  /** What lstrip removes is all whitespace. */
  lemma {:induction false} LStripParts(s: string) returns (p: string)
    ensures s == p + LStrip(s) && AllSpace(p)
  {
    if s != [] && IsSpace(s[0]) {
      var rest := LStrip(s[1..]);
      var p' := LStripParts(s[1..]);
      assert LStrip(s) == rest;
      p := [s[0]] + p';
      calc {
        s;
        [s[0]] + s[1..];
        [s[0]] + (p' + rest);
        p + rest;
      }
      assert AllSpace(p) by {
        forall i | 0 <= i < |p| ensures IsSpace(p[i]) {
          if i > 0 {
            assert p[i] == p'[i - 1];
          }
        }
      }
    } else {
      p := [];
    }
  }

  /** What rstrip removes is all whitespace. */
  lemma {:induction false} RStripParts(s: string) returns (q: string)
    ensures s == RStrip(s) + q && AllSpace(q)
  {
    if s != [] && IsSpace(s[|s| - 1]) {
      var q' := RStripParts(s[..|s| - 1]);
      q := q' + [s[|s| - 1]];
      assert s == s[..|s| - 1] + [s[|s| - 1]];
    } else {
      q := [];
    }
  }

  /** str.strip(): the longest middle part with no whitespace at either end. */
  function Strip(s: string): (r: string)
    ensures |r| <= |s|
    ensures r != [] ==> !IsSpace(r[0]) && !IsSpace(r[|r| - 1])
  {
    RStrip(LStrip(s))
  }

  /** Strip(s) cuts s into all-space prefix, the result, and all-space suffix. */
  lemma StripParts(s: string) returns (p: string, q: string)
    ensures s == p + Strip(s) + q && AllSpace(p) && AllSpace(q)
  {
    p := LStripParts(s);
    q := RStripParts(LStrip(s));
  }

  /** The first character of a string that begins with a non-space survives lstrip. */
  lemma {:induction false} LStripAllSpace(p: string, t: string)
    requires AllSpace(p)
    requires t != [] ==> !IsSpace(t[0])
    ensures LStrip(p + t) == t
  {
    if p != [] {
      assert (p + t)[1..] == p[1..] + t;
      LStripAllSpace(p[1..], t);
    } else {
      assert p + t == t;
    }
  }

  /** Trailing whitespace after a string that ends in a non-space is exactly what rstrip removes. */
  lemma {:induction false} RStripAllSpace(t: string, q: string)
    requires AllSpace(q)
    requires t != [] ==> !IsSpace(t[|t| - 1])
    ensures RStrip(t + q) == t
  {
    if q != [] {
      assert (t + q)[..|t + q| - 1] == t + q[..|q| - 1];
      RStripAllSpace(t, q[..|q| - 1]);
    } else {
      assert t + q == t;
    }
  }

  /** Strip yields exactly the core of any space-padded string whose core has no space at its ends. */
  lemma StripUnique(s: string, p: string, r: string, q: string)
    requires s == p + r + q
    requires AllSpace(p) && AllSpace(q)
    requires r != [] ==> !IsSpace(r[0]) && !IsSpace(r[|r| - 1])
    ensures Strip(s) == r
  {
    if r == [] {
      AllSpaceConcat(p, q);
      assert s == p + q;
      LStripAllSpace(p + q, []);
      assert p + q + [] == p + q;
      assert LStrip(s) == [];
    } else {
      assert s == p + (r + q);
      LStripAllSpace(p, r + q);
      RStripAllSpace(r, q);
    }
  }

  /** A string with no whitespace at either end is its own strip. */
  lemma StripTrimmed(s: string)
    requires s != [] ==> !IsSpace(s[0]) && !IsSpace(s[|s| - 1])
    ensures Strip(s) == s
  {
    StripUnique(s, [], s, []);
  }

  /** Surrounding whitespace does not change what strip yields. */
  lemma StripPadded(pre: string, v: string, post: string)
    requires AllSpace(pre) && AllSpace(post)
    ensures Strip(pre + v + post) == Strip(v)
  {
    var r := Strip(v);
    var p, q := StripParts(v);
    assert pre + v + post == (pre + p) + r + (q + post);
    AllSpaceConcat(pre, p);
    AllSpaceConcat(q, post);
    StripUnique(pre + v + post, pre + p, r, q + post);
  }

  // ---------------------------------------------------------------- case

  function LowerChar(c: char): char
  {
    if 'A' <= c <= 'Z' then (c as int + 32) as char else c
  }

  function UpperChar(c: char): char
  {
    if 'a' <= c <= 'z' then (c as int - 32) as char else c
  }

  /** str.lower() restricted to ASCII letters. */
  function Lower(s: string): (r: string)
    ensures |r| == |s| && forall i :: 0 <= i < |s| ==> r[i] == LowerChar(s[i])
  {
    if s == [] then [] else [LowerChar(s[0])] + Lower(s[1..])
  }

  /** str.upper() restricted to ASCII letters. */
  function Upper(s: string): (r: string)
    ensures |r| == |s| && forall i :: 0 <= i < |s| ==> r[i] == UpperChar(s[i])
  {
    if s == [] then [] else [UpperChar(s[0])] + Upper(s[1..])
  }

  /** The usual normalisation of an enum-like value: lower-case and strip (the two commute). */
  function Canon(s: string): string { Lower(Strip(s)) }

  lemma UpperConcat(x: string, y: string)
    ensures Upper(x + y) == Upper(x) + Upper(y)
  {
    assert forall i :: 0 <= i < |x| ==> (x + y)[i] == x[i];
    assert forall i :: |x| <= i < |x + y| ==> (x + y)[i] == y[i - |x|];
  }

  /** Upper-casing never turns a space into a non-space or back. */
  lemma UpperSpaces(s: string)
    ensures AllSpace(s) ==> AllSpace(Upper(s))
    ensures s != [] ==> (IsSpace(Upper(s)[0]) <==> IsSpace(s[0]))
    ensures s != [] ==> (IsSpace(Upper(s)[|s| - 1]) <==> IsSpace(s[|s| - 1]))
  {
  }

  /** Upper-casing keeps whitespace where it was, so it commutes with strip. */
  lemma StripUpper(s: string)
    ensures Strip(Upper(s)) == Upper(Strip(s))
  {
    var r := Strip(s);
    var p, q := StripParts(s);
    UpperConcat(p, r);
    UpperConcat(p + r, q);
    assert Upper(s) == Upper(p) + Upper(r) + Upper(q);
    UpperSpaces(p);
    UpperSpaces(q);
    UpperSpaces(r);
    StripUnique(Upper(s), Upper(p), Upper(r), Upper(q));
  }

  lemma LowerUpper(s: string)
    ensures Lower(Upper(s)) == Lower(s)
  {
  }

  /** Canon ignores case and surrounding whitespace. */
  lemma CanonIgnoresCaseAndPadding(pre: string, v: string, post: string)
    requires AllSpace(pre) && AllSpace(post)
    ensures Canon(pre + Upper(v) + post) == Canon(v)
  {
    var u := Upper(v);
    StripPadded(pre, u, post);
    assert Strip(pre + u + post) == Strip(u);
    StripUpper(v);
    assert Strip(u) == Upper(Strip(v));
    LowerUpper(Strip(v));
  }

  // ---------------------------------------------------------------- search

  predicate OccursAt(s: string, pat: string, i: int)
  {
    0 <= i && i + |pat| <= |s| && s[i..i + |pat|] == pat
  }

  ghost predicate Contains(s: string, pat: string)
  {
    exists i :: OccursAt(s, pat, i)
  }

  /** str.find(pat, from): the first occurrence at or after `from`, or -1. */
  function FindFrom(s: string, pat: string, from: nat): (r: int)
    ensures r == -1 || (from <= r && OccursAt(s, pat, r))
    ensures forall j :: from <= j && (r == -1 || j < r) ==> !OccursAt(s, pat, j)
    decreases |s| - from
  {
    if from + |pat| > |s| then -1
    else if s[from..from + |pat|] == pat then from
    else FindFrom(s, pat, from + 1)
  }

  /** str.find(pat) */
  function Find(s: string, pat: string): (r: int)
    ensures r == -1 || OccursAt(s, pat, r)
    ensures forall j :: 0 <= j && (r == -1 || j < r) ==> !OccursAt(s, pat, j)
    ensures r == -1 <==> !Contains(s, pat)
  {
    FindFrom(s, pat, 0)
  }

  /** str.rfind(pat): the last occurrence, or -1. */
  function RFind(s: string, pat: string): (r: int)
    ensures r == -1 || OccursAt(s, pat, r)
    ensures forall j :: r < j ==> !OccursAt(s, pat, j)
    ensures r == -1 <==> !Contains(s, pat)
  {
    RFindBelow(s, pat, |s|)
  }

  function RFindBelow(s: string, pat: string, bound: nat): (r: int)
    requires bound <= |s|
    ensures r == -1 || (r <= bound && OccursAt(s, pat, r))
    ensures forall j :: r < j <= bound ==> !OccursAt(s, pat, j)
    ensures forall j :: bound < j ==> !OccursAt(s, pat, j) ==> (r == -1 || j > r)
    decreases bound
  {
    if OccursAt(s, pat, bound) then bound
    else if bound == 0 then -1
    else RFindBelow(s, pat, bound - 1)
  }

  /** str.count(c) for a one-character pattern. */
  function Count(s: string, c: char): (n: nat)
    ensures n <= |s|
    ensures n == 0 <==> NoChar(s, c)
  {
    if s == [] then 0 else (if s[|s| - 1] == c then 1 else 0) + Count(s[..|s| - 1], c)
  }

  /** Counting a character is additive over concatenation. */
  lemma {:induction false} CountConcat(a: string, b: string, c: char)
    ensures Count(a + b, c) == Count(a, c) + Count(b, c)
    decreases |b|
  {
    if b != [] {
      var b' := b[..|b| - 1];
      assert (a + b)[..|a + b| - 1] == a + b';
      CountConcat(a, b', c);
    } else {
      assert a + b == a;
    }
  }

  // ---------------------------------------------------------------- join / split

  /** sep.join(parts) */
  function Join(parts: seq<string>, sep: string): (r: string)
    ensures |parts| == 1 ==> r == parts[0]
    ensures parts == [] ==> r == ""
  {
    if parts == [] then "" else if |parts| == 1 then parts[0] else parts[0] + sep + Join(parts[1..], sep)
  }

  /** Regrouping a concatenation of three strings. */
  lemma ConcatAssoc(a: string, b: string, c: string)
    ensures a + b + c == a + (b + c)
  {
  }

  lemma JoinAppend(parts: seq<string>, last: string, sep: string)
    requires parts != []
    ensures Join(parts + [last], sep) == Join(parts, sep) + sep + last
  {
    if |parts| == 1 {
      assert parts + [last] == [parts[0], last];
    } else {
      assert (parts + [last])[1..] == parts[1..] + [last];
      JoinAppend(parts[1..], last, sep);
    }
  }

  /** `"\n".join(lines).rstrip() + "\n"`: how the report writers finish a text. */
  function TrimmedJoin(lines: seq<string>): string
  {
    RStrip(Join(lines, "\n")) + "\n"
  }

  /**
   * What a trimmed join keeps: it starts with the first line when that line ends in a
   * non-space character, and it ends in exactly one line break.
   */
  lemma TrimmedJoinShape(lines: seq<string>)
    requires lines != [] && lines[0] != [] && !IsSpace(lines[0][|lines[0]| - 1])
    ensures var t := TrimmedJoin(lines);
            |t| > |lines[0]| && t[..|lines[0]|] == lines[0] &&
            t[|t| - 1] == '\n' && !IsSpace(t[|t| - 2])
  {
    var first := lines[0];
    var joined := Join(lines, "\n");
    assert joined[..|first|] == first by {
      if |lines| > 1 {
        assert joined == first + "\n" + Join(lines[1..], "\n");
      }
    }
    var kept := RStrip(joined);
    var q := RStripParts(joined);
    assert |kept| >= |first|;
    assert kept[..|first|] == joined[..|first|];
  }

  /** s.split(sep) for a non-empty separator. */
  function Split(s: string, sep: string): (r: seq<string>)
    requires sep != []
    ensures |r| >= 1
    ensures forall k :: 0 <= k < |r| ==> !Contains(r[k], sep)
    decreases |s|
  {
    var k := Find(s, sep);
    if k == -1 then [s]
    else
      var head := s[..k];
      assert !Contains(head, sep) by {
        forall j | OccursAt(head, sep, j) ensures false {
          assert s[j..j + |sep|] == head[j..j + |sep|];
          assert OccursAt(s, sep, j);
        }
      }
      [head] + Split(s[k + |sep|..], sep)
  }

  /** A text is its three pieces around two cut points. */
  lemma ThreeParts(s: string, i: nat, j: nat)
    requires i <= j <= |s|
    ensures s == s[..i] + s[i..j] + s[j..]
  {
  }

  /** Splitting and joining back with the same separator restores the text. */
  lemma {:induction false} JoinSplit(s: string, sep: string)
    requires sep != []
    ensures Join(Split(s, sep), sep) == s
    decreases |s|
  {
    var k := Find(s, sep);
    if k != -1 {
      var rest := s[k + |sep|..];
      var tail := Split(rest, sep);
      assert Split(s, sep) == [s[..k]] + tail;
      assert Join([s[..k]] + tail, sep) == s[..k] + sep + Join(tail, sep) by {
        assert ([s[..k]] + tail)[1..] == tail;
      }
      JoinSplit(rest, sep);
      assert s[k..k + |sep|] == sep;
      ThreeParts(s, k, k + |sep|);
      calc {
        Join(Split(s, sep), sep);
        s[..k] + sep + Join(tail, sep);
        s[..k] + s[k..k + |sep|] + rest;
        s;
      }
    }
  }

  /** The first occurrence of a one-character pattern is the first copy of that character. */
  lemma FindChar(p: string, c: char, rest: string)
    requires NoChar(p, c)
    ensures Find(p, [c]) == -1
    ensures Find(p + [c] + rest, [c]) == |p|
  {
    var s := p + [c] + rest;
    forall j | 0 <= j < |p| ensures !OccursAt(p, [c], j) && !OccursAt(s, [c], j) {
      assert p[j..j + 1][0] == s[j..j + 1][0] == p[j];
    }
    assert OccursAt(s, [c], |p|);
  }

  /** Splitting on a one-character separator undoes a join of parts that do not contain it. */
  lemma {:induction false} SplitJoinChar(parts: seq<string>, c: char)
    requires parts != []
    requires forall k :: 0 <= k < |parts| ==> NoChar(parts[k], c)
    ensures Split(Join(parts, [c]), [c]) == parts
    decreases |parts|
  {
    var p := parts[0];
    if |parts| == 1 {
      FindChar(p, c, []);
    } else {
      var rest := Join(parts[1..], [c]);
      var s := p + [c] + rest;
      assert Join(parts, [c]) == s;
      FindChar(p, c, rest);
      assert s[..|p|] == p && s[|p| + 1..] == rest;
      assert Split(s, [c]) == [p] + Split(rest, [c]);
      SplitJoinChar(parts[1..], c);
      assert parts == [p] + parts[1..];
    }
  }

  /** Index of the first line-break character, or |s|. */
  function FirstLineBreak(s: string): (k: nat)
    ensures k <= |s|
    ensures forall i :: 0 <= i < k ==> !IsLineBreak(s[i])
    ensures k < |s| ==> IsLineBreak(s[k])
  {
    if s == [] || IsLineBreak(s[0]) then 0 else 1 + FirstLineBreak(s[1..])
  }

  /** str.splitlines(): "\r\n" is one break, no trailing empty line. */
  function SplitLines(s: string): (r: seq<string>)
    ensures s == [] <==> r == []
    ensures forall k :: 0 <= k < |r| ==> forall i :: 0 <= i < |r[k]| ==> !IsLineBreak(r[k][i])
    decreases |s|
  {
    if s == [] then []
    else
      var k := FirstLineBreak(s);
      if k == |s| then [s]
      else
        var w := if s[k] == '\r' && k + 1 < |s| && s[k + 1] == '\n' then 2 else 1;
        [s[..k]] + SplitLines(s[k + w..])
  }

  predicate NoLineBreak(s: string) { forall i :: 0 <= i < |s| ==> !IsLineBreak(s[i]) }

  /** A line without breaks followed by "\n" splits off as the first line. */
  lemma SplitLinesHead(p: string, rest: string)
    requires NoLineBreak(p)
    ensures SplitLines(p + "\n" + rest) == [p] + SplitLines(rest)
  {
    var s := p + "\n" + rest;
    assert forall i :: 0 <= i < |p| ==> s[i] == p[i];
    assert s[|p|] == '\n';
    var k := FirstLineBreak(s);
    assert k == |p|;
    assert s[..k] == p;
    assert s[k + 1..] == rest;
  }

  /** Lines joined with "\n" split back into the same lines, when the last is not empty. */
  lemma {:induction false} SplitLinesJoin(lines: seq<string>)
    requires forall k :: 0 <= k < |lines| ==> NoLineBreak(lines[k])
    requires lines != [] ==> lines[|lines| - 1] != ""
    ensures SplitLines(Join(lines, "\n")) == lines
  {
    if |lines| > 1 {
      assert Join(lines, "\n") == lines[0] + "\n" + Join(lines[1..], "\n");
      SplitLinesHead(lines[0], Join(lines[1..], "\n"));
      SplitLinesJoin(lines[1..]);
      assert lines == [lines[0]] + lines[1..];
    } else if |lines| == 1 {
      var k := FirstLineBreak(lines[0]);
      assert k == |lines[0]|;
    }
  }

  // ---------------------------------------------------------------- numbers

  function DigitChar(d: nat): char
    requires d < 10
  {
    ('0' as int + d) as char
  }

  function DigitValue(c: char): nat
    requires IsDigit(c)
  {
    c as int - '0' as int
  }

  /** Decimal digits of n, without leading zeros ("0" for zero). */
  function Decimal(n: nat): (r: string)
    ensures |r| >= 1 && AllDigits(r)
    ensures n > 0 ==> r[0] != '0'
    ensures n < 10 ==> |r| == 1
  {
    if n < 10 then [DigitChar(n)] else Decimal(n / 10) + [DigitChar(n % 10)]
  }

  /** Python str() of an int. */
  function IntString(i: int): (r: string)
    ensures |r| >= 1
  {
    if i < 0 then "-" + Decimal(-i) else Decimal(i)
  }

  /** The value of a string of decimal digits (leading zeros allowed). */
  function DecimalValue(s: string): nat
    requires AllDigits(s)
  {
    if s == [] then 0 else 10 * DecimalValue(s[..|s| - 1]) + DigitValue(s[|s| - 1])
  }

  lemma {:induction false} DecimalValueOfDecimal(n: nat)
    ensures DecimalValue(Decimal(n)) == n
  {
    if n >= 10 {
      var d := Decimal(n / 10);
      var r := d + [DigitChar(n % 10)];
      assert r[..|r| - 1] == d;
      DecimalValueOfDecimal(n / 10);
    }
  }

  lemma {:induction false} LeadingZerosIgnored(zeros: string, s: string)
    requires forall i :: 0 <= i < |zeros| ==> zeros[i] == '0'
    requires AllDigits(s)
    ensures AllDigits(zeros + s) && DecimalValue(zeros + s) == DecimalValue(s)
    decreases |s|
  {
    if s == [] {
      assert zeros + s == zeros;
      AllZerosValue(zeros);
    } else {
      var t := zeros + s;
      assert t[..|t| - 1] == zeros + s[..|s| - 1];
      LeadingZerosIgnored(zeros, s[..|s| - 1]);
    }
  }

  lemma {:induction false} AllZerosValue(zeros: string)
    requires forall i :: 0 <= i < |zeros| ==> zeros[i] == '0'
    ensures AllDigits(zeros) && DecimalValue(zeros) == 0
  {
    if zeros != [] {
      AllZerosValue(zeros[..|zeros| - 1]);
    }
  }

  /** Python's format(n, "0{width}d") for n >= 0: zero-padded to at least `width` digits. */
  function ZeroPad(n: nat, width: nat): string
    decreases width
  {
    var d := Decimal(n);
    if |d| >= width then d else "0" + ZeroPad(n, width - 1)
  }

  /** A padded number is all digits, at least `width` of them, and denotes the number. */
  lemma {:induction false} ZeroPadDigits(n: nat, width: nat)
    ensures var r := ZeroPad(n, width);
            AllDigits(r) && |r| >= width && DecimalValue(r) == n
    decreases width
  {
    if |Decimal(n)| >= width {
      DecimalValueOfDecimal(n);
    } else {
      ZeroPadDigits(n, width - 1);
      LeadingZerosIgnored("0", ZeroPad(n, width - 1));
    }
  }

  /** UTF-8 length of one character. */
  function Utf8Width(c: char): nat
  {
    if c as int < 0x80 then 1 else if c as int < 0x800 then 2 else if c as int < 0x10000 then 3 else 4
  }

  /** len(s.encode("utf-8")) */
  function Utf8Length(s: string): (n: nat)
    ensures |s| <= n <= 4 * |s|
  {
    if s == [] then 0 else Utf8Length(s[..|s| - 1]) + Utf8Width(s[|s| - 1])
  }

  /** A byte of an encoded text. */
  type Byte = b: int | 0 <= b < 256

  /** c.encode("utf-8"): one byte below 0x80, otherwise a lead byte and continuation bytes, all at least 0x80. */
  function Utf8Char(c: char): (r: seq<Byte>)
    ensures |r| == Utf8Width(c)
    ensures c as int < 0x80 ==> r == [c as int]
    ensures c as int >= 0x80 ==> forall i :: 0 <= i < |r| ==> r[i] >= 0x80
  {
    var n := c as int;
    if n < 0x80 then [n]
    else if n < 0x800 then [0xC0 + n / 64, 0x80 + n % 64]
    else if n < 0x10000 then [0xE0 + n / 4096, 0x80 + n / 64 % 64, 0x80 + n % 64]
    else [0xF0 + n / 262144, 0x80 + n / 4096 % 64, 0x80 + n / 64 % 64, 0x80 + n % 64]
  }

  /** The encodings of the characters of s, one after the other. */
  function EncodeEach(s: string, enc: char -> seq<Byte>): seq<Byte>
  {
    if s == [] then [] else EncodeEach(s[..|s| - 1], enc) + enc(s[|s| - 1])
  }

  /** s.encode("utf-8") */
  function Utf8(s: string): seq<Byte>
  {
    EncodeEach(s, Utf8Char)
  }

  /** The encoding is as long as len(s.encode("utf-8")) says. */
  lemma {:induction false} Utf8Size(s: string)
    ensures |Utf8(s)| == Utf8Length(s)
    decreases |s|
  {
    if s != [] {
      Utf8Size(s[..|s| - 1]);
    }
  }

  /** A single character encodes as itself. */
  lemma Utf8Single(c: char)
    ensures Utf8([c]) == Utf8Char(c)
  {
    assert [c][..0] == [];
    assert EncodeEach([c], Utf8Char) == EncodeEach([], Utf8Char) + Utf8Char(c);
  }

  /** Encoding is done character by character, so it distributes over concatenation. */
  lemma Utf8Concat(a: string, b: string)
    ensures Utf8(a + b) == Utf8(a) + Utf8(b)
  {
    EncodeConcat(a, b, Utf8Char);
  }

  lemma {:induction false} EncodeConcat(a: string, b: string, enc: char -> seq<Byte>)
    ensures EncodeEach(a + b, enc) == EncodeEach(a, enc) + EncodeEach(b, enc)
    decreases |b|
  {
    if b == [] {
      assert a + b == a;
    } else {
      var ab, front, c := a + b, b[..|b| - 1], b[|b| - 1];
      assert ab[..|ab| - 1] == a + front && ab[|ab| - 1] == c;
      EncodeConcat(a, front, enc);
    }
  }

  // ---------------------------------------------------------------- Unicode digits

  /** The first code points of runs of ten decimal digits, in ascending order. */
  datatype DigitRuns = NoRuns | Run(zero: int, rest: DigitRuns)

  /** Ranges lo..hi of code points, inclusive, in ascending order. */
  datatype CodeRanges = NoRanges | Range(lo: int, hi: int, rest: CodeRanges)

  /**
   * The first code points of the runs of ten decimal digits (general category Nd) beyond
   * ASCII, in ascending order, from Unicode 15.0 (the database of Python 3.12). The d-th
   * character of a run is the digit d.
   */
  const DecimalZeros: DigitRuns :=
    Run(0x660, Run(0x6F0, Run(0x7C0, Run(0x966, Run(0x9E6, Run(0xA66, Run(0xAE6,
    Run(0xB66, Run(0xBE6, Run(0xC66, Run(0xCE6, Run(0xD66, Run(0xDE6, Run(0xE50,
    Run(0xED0, Run(0xF20, Run(0x1040, Run(0x1090, Run(0x17E0, Run(0x1810, Run(0x1946,
    Run(0x19D0, Run(0x1A80, Run(0x1A90, Run(0x1B50, Run(0x1BB0, Run(0x1C40, Run(0x1C50,
    Run(0xA620, Run(0xA8D0, Run(0xA900, Run(0xA9D0, Run(0xA9F0, Run(0xAA50, Run(0xABF0,
    Run(0xFF10, Run(0x104A0, Run(0x10D30, Run(0x11066, Run(0x110F0, Run(0x11136,
    Run(0x111D0, Run(0x112F0, Run(0x11450, Run(0x114D0, Run(0x11650, Run(0x116C0,
    Run(0x11730, Run(0x118E0, Run(0x11950, Run(0x11C50, Run(0x11D50, Run(0x11DA0,
    Run(0x11F50, Run(0x16A60, Run(0x16AC0, Run(0x16B50, Run(0x1D7CE, Run(0x1D7D8,
    Run(0x1D7E2, Run(0x1D7EC, Run(0x1D7F6, Run(0x1E140, Run(0x1E2F0, Run(0x1E4F0,
    Run(0x1E950, Run(0x1FBF0, NoRuns)))))))))))))))))))))))))))))))))))))))))))))))))))))))))))))))))))

  /**
   * The ranges, in ascending order, of the characters beyond the decimal digits that
   * str.isdigit() accepts (numeric type Digit: superscripts, circled and parenthesised
   * digits and the like), Unicode 15.0.
   */
  const OtherDigitRanges: CodeRanges :=
    Range(0xB2, 0xB3, Range(0xB9, 0xB9, Range(0x1369, 0x1371, Range(0x19DA, 0x19DA,
    Range(0x2070, 0x2070, Range(0x2074, 0x2079, Range(0x2080, 0x2089,
    Range(0x2460, 0x2468, Range(0x2474, 0x247C, Range(0x2488, 0x2490,
    Range(0x24EA, 0x24EA, Range(0x24F5, 0x24FD, Range(0x24FF, 0x24FF,
    Range(0x2776, 0x277E, Range(0x2780, 0x2788, Range(0x278A, 0x2792,
    Range(0x10A40, 0x10A43, Range(0x10E60, 0x10E68, Range(0x11052, 0x1105A,
    Range(0x1F100, 0x1F10A, NoRanges))))))))))))))))))))

  /** unicodedata.decimal(c, None): the value of a decimal digit of any script. */
  function DecimalDigit(c: char): (r: Option<nat>)
    ensures r.Some? ==> r.value < 10
    ensures c as int < 0x80 ==> (r.Some? <==> IsDigit(c))
    ensures IsDigit(c) ==> r == Some(DigitValue(c))
  {
    if c as int < 0x80 then (if IsDigit(c) then Some(DigitValue(c)) else None)
    else DecimalIn(c as int, DecimalZeros)
  }

  /** The digit value of code point n if it lies in one of the runs that start at `zeros`. */
  function DecimalIn(n: int, zeros: DigitRuns): (r: Option<nat>)
    ensures r.Some? ==> r.value < 10
  {
    match zeros
    case NoRuns => None
    case Run(zero, rest) =>
      if n < zero then None
      else if n < zero + 10 then Some(n - zero)
      else DecimalIn(n, rest)
  }

  /** Code point n lies in one of the ranges. */
  predicate InRanges(n: int, ranges: CodeRanges)
  {
    match ranges
    case NoRanges => false
    case Range(lo, hi, rest) => lo <= n && (n <= hi || InRanges(n, rest))
  }

  /** str.isdigit() for one character. */
  predicate IsUnicodeDigit(c: char)
  {
    DecimalDigit(c).Some? || InRanges(c as int, OtherDigitRanges)
  }

  /** str.isdigit(): at least one character, and every character a digit. */
  predicate IsDigitString(s: string)
  {
    |s| > 0 && forall i :: 0 <= i < |s| ==> IsUnicodeDigit(s[i])
  }

  /** A decimal digit of any script as the ASCII digit of the same value; any other character unchanged. */
  function AsciiDigit(c: char): (r: char)
    ensures IsDigit(r) <==> DecimalDigit(c).Some?
    ensures DecimalDigit(c).Some? ==> DigitValue(r) == DecimalDigit(c).value
    ensures IsDigit(c) ==> r == c
  {
    match DecimalDigit(c)
    case Some(d) => DigitChar(d)
    case None => c
  }

  /** The text as int() reads it: every decimal digit of any script made an ASCII digit. */
  function AsciiDigits(s: string): (r: string)
    ensures |r| == |s|
  {
    if s == [] then [] else [AsciiDigit(s[0])] + AsciiDigits(s[1..])
  }

  /** Each character is read on its own. */
  lemma {:induction false} AsciiDigitsAt(s: string, i: nat)
    requires i < |s|
    ensures AsciiDigits(s)[i] == AsciiDigit(s[i])
    decreases i
  {
    if i > 0 {
      AsciiDigitsAt(s[1..], i - 1);
    }
  }

  // ---------------------------------------------------------------- int()

  /** Digits with single underscores between them, as Python's int() accepts. */
  predicate GroupedDigits(s: string)
  {
    |s| >= 1 && IsDigit(s[0]) && IsDigit(s[|s| - 1]) &&
    (forall i :: 0 <= i < |s| ==> IsDigit(s[i]) || s[i] == '_') &&
    (forall i :: 0 <= i < |s| - 1 ==> !(s[i] == '_' && s[i + 1] == '_'))
  }

  function DropUnderscores(s: string): (r: string)
    requires forall i :: 0 <= i < |s| ==> IsDigit(s[i]) || s[i] == '_'
    ensures AllDigits(r)
  {
    if s == [] then "" else (if s[0] == '_' then "" else [s[0]]) + DropUnderscores(s[1..])
  }

  /** Python's default limit on the digits int() converts from a decimal string (sys.get_int_max_str_digits()). */
  const MaxStrDigits: nat := 4300

  /** Why int() raises ValueError: the text is not an integer literal, or it has more digits than the limit. */
  datatype IntError = InvalidLiteral | TooManyDigits(count: nat)

  /**
   * Python's int(raw) on a string, base 10: surrounding whitespace and one sign allowed,
   * decimal digits of any script with single underscores between them. A well-formed
   * literal with more than MaxStrDigits digits is refused after the literal is checked.
   */
  function ParseInt(raw: string): (r: Result<int, IntError>)
    ensures AllDigits(raw) && 0 < |raw| <= MaxStrDigits ==> r == Ok(DecimalValue(raw))
    ensures AllDigits(raw) && |raw| > MaxStrDigits ==> r == Err(TooManyDigits(|raw|))
  {
    var t := Strip(raw);
    var neg := |t| > 0 && t[0] == '-';
    var body := AsciiDigits(if |t| > 0 && (t[0] == '-' || t[0] == '+') then t[1..] else t);
    assert AllDigits(raw) && raw != [] ==> !neg && body == raw && DropUnderscores(body) == raw by {
      if AllDigits(raw) && raw != [] {
        AsciiDigitsFixed(raw);
        DropNoUnderscores(raw);
      }
    }
    if !GroupedDigits(body) then Err(InvalidLiteral)
    else
      var digits := DropUnderscores(body);
      if |digits| > MaxStrDigits then Err(TooManyDigits(|digits|))
      else
        var v := DecimalValue(digits);
        Ok(if neg then -(v as int) else v)
  }

  /** The decimal text of a number reads back as that number, up to the digit limit. */
  lemma ParseIntDecimal(n: nat)
    ensures |Decimal(n)| <= MaxStrDigits ==> ParseInt(Decimal(n)) == Ok(n)
    ensures |Decimal(n)| > MaxStrDigits ==> ParseInt(Decimal(n)) == Err(TooManyDigits(|Decimal(n)|))
  {
    DecimalValueOfDecimal(n);
  }

  /** int() reads decimal digits of any script ("١٢", Arabic-Indic, is twelve) but refuses other digit characters ("²"). */
  lemma ParseIntNonAscii()
    ensures DecimalDigit('\U{661}') == Some(1) && DecimalDigit('\U{662}') == Some(2)
    ensures Strip("\U{661}\U{662}") == "\U{661}\U{662}" && Strip("\U{B2}") == "\U{B2}"
    ensures ParseInt("\U{661}\U{662}") == Ok(12)
    ensures DecimalDigit('\U{B2}') == None && IsUnicodeDigit('\U{B2}')
    ensures ParseInt("\U{B2}") == Err(InvalidLiteral)
  {
    ParseIntArabicIndic();
    ParseIntSuperscript();
  }

  /** "١٢" reads as twelve. */
  lemma ParseIntArabicIndic()
    ensures DecimalDigit('\U{661}') == Some(1) && DecimalDigit('\U{662}') == Some(2)
    ensures Strip("\U{661}\U{662}") == "\U{661}\U{662}"
    ensures ParseInt("\U{661}\U{662}") == Ok(12)
  {
    var arabic := "\U{661}\U{662}";
    ArabicIndicDigits();
    assert Strip(arabic) == arabic;
    assert AsciiDigits(arabic) == "12";
    assert GroupedDigits("12") && DropUnderscores("12") == "12" && DecimalValue("12") == 12;
  }

  lemma ArabicIndicDigits()
    ensures DecimalDigit('\U{661}') == Some(1) && DecimalDigit('\U{662}') == Some(2)
  {
  }

  /** "²" is a digit to str.isdigit() but not a decimal digit, so int() refuses it. */
  lemma ParseIntSuperscript()
    ensures Strip("\U{B2}") == "\U{B2}"
    ensures DecimalDigit('\U{B2}') == None && IsUnicodeDigit('\U{B2}')
    ensures ParseInt("\U{B2}") == Err(InvalidLiteral)
  {
    var sup := "\U{B2}";
    SuperscriptDigit();
    assert Strip(sup) == sup;
    assert AsciiDigits(sup) == sup;
  }

  lemma SuperscriptDigit()
    ensures DecimalDigit('\U{B2}') == None && IsUnicodeDigit('\U{B2}')
  {
  }

  /** ASCII digits are read as themselves. */
  lemma {:induction false} AsciiDigitsFixed(s: string)
    requires AllDigits(s)
    ensures AsciiDigits(s) == s
  {
    if s != [] {
      AsciiDigitsFixed(s[1..]);
    }
  }

  lemma {:induction false} DropNoUnderscores(s: string)
    requires AllDigits(s)
    ensures DropUnderscores(s) == s
  {
    if s != [] { DropNoUnderscores(s[1..]); }
  }
}
