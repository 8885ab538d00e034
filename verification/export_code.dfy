/**
 * The codebase export: every selected source file is turned into an export record
 * (comments stripped from C-family files, runs of blank lines collapsed, UTF-8 size
 * recorded) and the records are rendered as one "CODEBASE_CONTAINER v1" text with a
 * manifest followed by one FILE block per record whose content lines carry a "> " prefix.
 */
module ExportCode {
  import opened Text

  // ================================================================ records

  /** One exported file: its relative path, its language tag, its normalised content and that content's UTF-8 size. */
  datatype ExportFile = ExportFile(relPath: string, lang: string, content: string, byteLen: nat)

  /**
   * A file handed to the exporter: its path relative to the export root as the platform
   * spells it, `Path.suffix` of its name (an input), and its text.
   */
  datatype SourceFile = SourceFile(relPath: string, suffix: string, raw: string)

  // ================================================================ languages

  /** The language tag of each C-family suffix; these suffixes are the ones whose comments are stripped. */
  const LangBySuffix: map<string, string> :=
    map[".c" := "c", ".h" := "h", ".cc" := "cpp", ".cpp" := "cpp", ".cxx" := "cpp",
        ".hh" := "hpp", ".hpp" := "hpp", ".hxx" := "hpp"]

  predicate IsCodeSuffix(suffix: string)
  {
    Lower(suffix) in LangBySuffix
  }

  /** str.lstrip(".") */
  function LStripDots(s: string): (r: string)
    ensures |r| <= |s| && r == s[|s| - |r|..]
    ensures r == [] || r[0] != '.'
    ensures forall i :: 0 <= i < |s| - |r| ==> s[i] == '.'
  {
    if s != [] && s[0] == '.' then LStripDots(s[1..]) else s
  }

  /**
   * _detect_lang: the tag of a known C-family suffix (compared case-insensitively),
   * otherwise the suffix without its dot, and "txt" for a file without a suffix.
   */
  function DetectLang(suffix: string): (r: string)
    ensures r != [] && r[0] != '.'
  {
    var s := Lower(suffix);
    if s in LangBySuffix then LangBySuffix[s]
    else
      var bare := LStripDots(s);
      if bare != "" then bare else "txt"
  }

  /** A C-family suffix gets one of the four C-family tags. */
  lemma DetectLangCode(suffix: string)
    requires IsCodeSuffix(suffix)
    ensures DetectLang(suffix) in {"c", "h", "cpp", "hpp"}
  {
  }

  /** Any other suffix "." + name gets the lower-cased name as its tag, and no suffix at all gets "txt". */
  lemma DetectLangOther(name: string)
    requires !IsCodeSuffix("." + name) && (name == [] || name[0] != '.')
    ensures DetectLang("." + name) == if name == [] then "txt" else Lower(name)
    ensures DetectLang("") == "txt"
  {
    LStripOneDot(name);
  }

  lemma LStripOneDot(name: string)
    requires name == [] || name[0] != '.'
    ensures LStripDots(Lower("." + name)) == Lower(name)
    ensures Lower(name) == [] <==> name == []
  {
    var dotted := "." + name;
    assert dotted[1..] == name;
    var s := Lower(dotted);
    assert s == [LowerChar('.')] + Lower(name);
    assert s[1..] == Lower(name);
    if name != [] {
      assert Lower(name)[0] == LowerChar(name[0]);
    }
  }

  /** The tag depends on the suffix only up to ASCII case. */
  lemma DetectLangIgnoresCase(suffix: string)
    ensures DetectLang(Upper(suffix)) == DetectLang(suffix)
    ensures IsCodeSuffix(Upper(suffix)) == IsCodeSuffix(suffix)
  {
    LowerUpper(suffix);
  }

  // ================================================================ comment stripping

  /** The scanner's states; `Quoted(q)` is inside a string (q = '"') or character (q = '\'') literal. */
  datatype State = Code | LineComment | BlockComment | Quoted(close: char)

  /** One move of the scanner: the characters it emits, where it continues and in which state. */
  datatype Move = Move(emit: string, next: nat, state: State)

  /** The character after position i, as a string of length at most one. */
  function Next(text: string, i: nat): (r: string)
    ensures |r| <= 1 && (r != [] <==> i + 1 < |text|)
  {
    if i + 1 < |text| then [text[i + 1]] else ""
  }

  /** What the scanner does with the character at position i in state `st`. */
  function Step(text: string, i: nat, st: State): (m: Move)
    requires i < |text|
    ensures i < m.next <= i + 2 && m.next <= |text|
    ensures |m.emit| <= m.next - i
  {
    var ch := text[i];
    var nxt := Next(text, i);
    match st
    case Code =>
      if ch == '/' && nxt == "/" then Move("", i + 2, LineComment)
      else if ch == '/' && nxt == "*" then Move("", i + 2, BlockComment)
      else if ch == '"' || ch == '\'' then Move([ch], i + 1, Quoted(ch))
      else Move([ch], i + 1, Code)
    case LineComment =>
      if ch == '\n' then Move("\n", i + 1, Code) else Move("", i + 1, LineComment)
    case BlockComment =>
      if ch == '*' && nxt == "/" then Move("", i + 2, Code)
      else Move(if ch == '\n' then "\n" else "", i + 1, BlockComment)
    case Quoted(q) =>
      if ch == '\\' && i + 1 < |text| then Move([ch, text[i + 1]], i + 2, st)
      else if ch == q then Move([ch], i + 1, Code)
      else Move([ch], i + 1, st)
  }

  /** The output of the scanner from position i in state `st` to the end of the text. */
  function Scan(text: string, i: nat, st: State): string
    requires i <= |text|
    decreases |text| - i
  {
    if i == |text| then ""
    else
      var m := Step(text, i, st);
      m.emit + Scan(text, m.next, m.state)
  }

  /** The comment-free text: the scanner run from the start in code state. */
  function StripComments(text: string): string
  {
    Scan(text, 0, Code)
  }

  /** One move appended to what has been emitted so far leaves the final output unchanged. */
  lemma Advance(out: string, text: string, i: nat, st: State)
    requires i < |text|
    ensures var m := Step(text, i, st);
            out + Scan(text, i, st) == (out + m.emit) + Scan(text, m.next, m.state)
  {
    var m := Step(text, i, st);
    ConcatAssoc(out, m.emit, Scan(text, m.next, m.state));
  }

  /**
   * _strip_c_family_comments: removes line comments (from a double slash) and block comments
   * (slash-star to star-slash) outside string and character
   * literals, keeping the line break that ends a line comment and every line break inside
   * a block comment.
   */
  method StripCFamilyComments(text: string) returns (r: string)
    ensures r == StripComments(text)
  {
    var out := "";
    var i := 0;
    var n := |text|;
    var state := Code;
    while i < n
      invariant 0 <= i <= n
      invariant out + Scan(text, i, state) == StripComments(text)
      decreases n - i
    {
      var ch := text[i];
      var nxt := if i + 1 < n then [text[i + 1]] else "";
      ghost var m := Step(text, i, state);
      ghost var before := out;
      Advance(out, text, i, state);
      match state {
        case Code =>
          if ch == '/' && nxt == "/" {
            i, state := i + 2, LineComment;
          } else if ch == '/' && nxt == "*" {
            i, state := i + 2, BlockComment;
          } else if ch == '"' {
            out, i, state := out + [ch], i + 1, Quoted('"');
          } else if ch == '\'' {
            out, i, state := out + [ch], i + 1, Quoted('\'');
          } else {
            out, i := out + [ch], i + 1;
          }
        case LineComment =>
          if ch == '\n' {
            out, i, state := out + "\n", i + 1, Code;
          } else {
            i := i + 1;
          }
        case BlockComment =>
          if ch == '*' && nxt == "/" {
            i, state := i + 2, Code;
          } else {
            if ch == '\n' {
              out := out + "\n";
            }
            i := i + 1;
          }
        case Quoted(q) =>
          out, i := out + [ch], i + 1;
          if ch == '\\' && i < n {
            out, i := out + [text[i]], i + 1;
          } else if ch == q {
            state := Code;
          }
      }
      assert out == before + m.emit && i == m.next && state == m.state;
    }
    assert Scan(text, i, state) == "";
    r := out;
  }

  // ---------------------------------------------------------------- properties of the scanner

  /** A single move emits exactly as many line breaks as it consumes. */
  lemma StepNewlines(text: string, i: nat, st: State)
    requires i < |text|
    ensures var m := Step(text, i, st); Count(m.emit, '\n') == Count(text[i..m.next], '\n')
  {
    var m := Step(text, i, st);
    var a := text[i];
    CountOne(a);
    CountOne('\n');
    if m.next == i + 2 {
      assert text[i..m.next] == [a, text[i + 1]];
      CountPair(a, text[i + 1]);
    } else {
      assert text[i..m.next] == [a];
    }
  }

  lemma CountOne(a: char)
    ensures Count([a], '\n') == if a == '\n' then 1 else 0
  {
    assert [a][..0] == [];
  }

  lemma CountPair(a: char, b: char)
    ensures Count([a, b], '\n') == (if a == '\n' then 1 else 0) + (if b == '\n' then 1 else 0)
  {
    assert [a, b][..1] == [a];
    CountOne(a);
  }

  /** The scanner keeps every line break, so line numbers survive comment stripping. */
  lemma {:induction false} ScanNewlines(text: string, i: nat, st: State)
    requires i <= |text|
    ensures Count(Scan(text, i, st), '\n') == Count(text[i..], '\n')
    decreases |text| - i
  {
    if i < |text| {
      var m := Step(text, i, st);
      var rest := Scan(text, m.next, m.state);
      assert Scan(text, i, st) == m.emit + rest;
      StepNewlines(text, i, st);
      ScanNewlines(text, m.next, m.state);
      CountConcat(m.emit, rest, '\n');
      CountAt(text, i, m.next);
    }
  }

  /** Line breaks in a suffix of the text: those before a cut point and those after it. */
  lemma CountAt(text: string, i: nat, j: nat)
    requires i <= j <= |text|
    ensures Count(text[i..], '\n') == Count(text[i..j], '\n') + Count(text[j..], '\n')
  {
    assert text[i..] == text[i..j] + text[j..];
    CountConcat(text[i..j], text[j..], '\n');
  }

  /** The scanner never emits more characters than it reads. */
  lemma {:induction false} ScanShorter(text: string, i: nat, st: State)
    requires i <= |text|
    ensures |Scan(text, i, st)| <= |text| - i
    decreases |text| - i
  {
    if i < |text| {
      var m := Step(text, i, st);
      ScanShorter(text, m.next, m.state);
    }
  }

  /** Outside comments, a move over text without '/' copies what it reads and stays outside comments. */
  lemma StepCopies(text: string, i: nat, st: State)
    requires i < |text| && (st.Code? || st.Quoted?)
    requires NoChar(text[i..], '/')
    ensures var m := Step(text, i, st);
            m.emit == text[i..m.next] && (m.state.Code? || m.state.Quoted?)
  {
    assert text[i] == text[i..][0];
    var m := Step(text, i, st);
    if m.next == i + 2 {
      assert text[i..m.next] == [text[i], text[i + 1]];
    } else {
      assert text[i..m.next] == [text[i]];
    }
  }

  /** Text without a '/' has no comment to strip: the scanner returns it unchanged. */
  lemma {:induction false} ScanNoSlash(text: string, i: nat, st: State)
    requires i <= |text| && (st.Code? || st.Quoted?)
    requires NoChar(text[i..], '/')
    ensures Scan(text, i, st) == text[i..]
    decreases |text| - i
  {
    if i < |text| {
      var m := Step(text, i, st);
      StepCopies(text, i, st);
      assert text[m.next..] == text[i..][m.next - i..];
      ScanNoSlash(text, m.next, m.state);
      assert text[i..] == text[i..m.next] + text[m.next..];
    }
  }

  /** The body of a string or character literal closed by `q`: escapes are a backslash and any character. */
  predicate LiteralBody(s: string, q: char)
    decreases |s|
  {
    s == [] ||
    (s[0] == '\\' && |s| >= 2 && LiteralBody(s[2..], q)) ||
    (s[0] != '\\' && s[0] != q && LiteralBody(s[1..], q))
  }

  /** One move inside a literal whose body is well formed copies what it reads and stays in the literal. */
  lemma LiteralStep(text: string, k: nat, j: nat, q: char)
    requires q != '\\'
    requires k < j < |text| && LiteralBody(text[k..j], q)
    ensures var m := Step(text, k, Quoted(q));
            m.state == Quoted(q) && m.next <= j && m.emit == text[k..m.next] &&
            LiteralBody(text[m.next..j], q)
  {
    var body := text[k..j];
    assert body[0] == text[k];
    if text[k] == '\\' {
      assert body[2..] == text[k + 2..j];
      assert text[k..k + 2] == [text[k], text[k + 1]];
    } else {
      assert body[1..] == text[k + 1..j];
      assert text[k..k + 1] == [text[k]];
    }
  }

  /** Inside a literal, the scanner copies the body and the closing quote verbatim and returns to code. */
  lemma {:induction false} ScanLiteralBody(text: string, k: nat, j: nat, q: char)
    requires q != '\\'
    requires k <= j < |text| && text[j] == q
    requires LiteralBody(text[k..j], q)
    ensures Scan(text, k, Quoted(q)) == text[k..j + 1] + Scan(text, j + 1, Code)
    decreases j - k
  {
    if k == j {
      assert text[k..j + 1] == [q];
    } else {
      var m := Step(text, k, Quoted(q));
      LiteralStep(text, k, j, q);
      ScanLiteralBody(text, m.next, j, q);
      assert text[k..j + 1] == text[k..m.next] + text[m.next..j + 1];
      ConcatAssoc(m.emit, text[m.next..j + 1], Scan(text, j + 1, Code));
    }
  }

  /**
   * A string or character literal in code is copied verbatim, escapes included, even
   * when it contains what would open a comment outside it.
   */
  lemma LiteralKept(text: string, i: nat, j: nat)
    requires i < j < |text| && (text[i] == '"' || text[i] == '\'') && text[j] == text[i]
    requires LiteralBody(text[i + 1..j], text[i])
    ensures Scan(text, i, Code) == text[i..j + 1] + Scan(text, j + 1, Code)
  {
    var q := text[i];
    ScanLiteralBody(text, i + 1, j, q);
    assert text[i..j + 1] == [q] + text[i + 1..j + 1];
    ConcatAssoc([q], text[i + 1..j + 1], Scan(text, j + 1, Code));
  }

  /** Inside a line comment the scanner drops everything up to the line break, which it keeps. */
  lemma {:induction false} ScanLineComment(text: string, k: nat, j: nat)
    requires k <= j < |text| && text[j] == '\n' && NoChar(text[k..j], '\n')
    ensures Scan(text, k, LineComment) == "\n" + Scan(text, j + 1, Code)
    decreases j - k
  {
    if k < j {
      assert text[k] == text[k..j][0];
      assert text[k + 1..j] == text[k..j][1..];
      ScanLineComment(text, k + 1, j);
    }
  }

  /** A line comment in code disappears up to, not including, the line break that ends it. */
  lemma LineCommentRemoved(text: string, i: nat, j: nat)
    requires OccursAt(text, "//", i) && i + 2 <= j < |text|
    requires text[j] == '\n' && NoChar(text[i + 2..j], '\n')
    ensures Scan(text, i, Code) == "\n" + Scan(text, j + 1, Code)
  {
    assert text[i] == '/' && text[i + 1] == '/' by {
      assert text[i..i + 2] == "//";
    }
    ScanLineComment(text, i + 2, j);
  }

  /** The line breaks of a text, in order: what a block comment leaves behind. */
  function Newlines(s: string): (r: string)
    ensures NoChar(Newlines(s), '/') && |r| <= |s|
  {
    if s == [] then "" else (if s[0] == '\n' then "\n" else "") + Newlines(s[1..])
  }

  /** Inside a block comment, a character that does not start "*" "/" moves on by one, emitting it only if it is a line break. */
  lemma BlockStep(text: string, k: nat, j: nat)
    requires k < j && OccursAt(text, "*/", j) && !OccursAt(text, "*/", k)
    ensures Step(text, k, BlockComment) == Move(if text[k] == '\n' then "\n" else "", k + 1, BlockComment)
    ensures Newlines(text[k..j]) == (if text[k] == '\n' then "\n" else "") + Newlines(text[k + 1..j])
  {
    assert text[k..k + 2] == [text[k], text[k + 1]];
    assert text[k..j][0] == text[k] && text[k..j][1..] == text[k + 1..j];
  }

  /** Inside a block comment the scanner keeps only line breaks, up to the first star-slash. */
  lemma {:induction false} ScanBlockComment(text: string, k: nat, j: nat)
    requires k <= j && OccursAt(text, "*/", j)
    requires forall p :: k <= p < j ==> !OccursAt(text, "*/", p)
    ensures Scan(text, k, BlockComment) == Newlines(text[k..j]) + Scan(text, j + 2, Code)
    decreases j - k
  {
    if k == j {
      assert text[j..j + 2] == "*/";
      assert text[k] == '*' && text[k + 1] == '/';
    } else {
      BlockStep(text, k, j);
      ScanBlockComment(text, k + 1, j);
      var e := if text[k] == '\n' then "\n" else "";
      ConcatAssoc(e, Newlines(text[k + 1..j]), Scan(text, j + 2, Code));
    }
  }

  /** A block comment in code is replaced by the line breaks it spanned. */
  lemma BlockCommentRemoved(text: string, i: nat, j: nat)
    requires OccursAt(text, "/*", i) && i + 2 <= j && OccursAt(text, "*/", j)
    requires forall p :: i + 2 <= p < j ==> !OccursAt(text, "*/", p)
    ensures Scan(text, i, Code) == Newlines(text[i + 2..j]) + Scan(text, j + 2, Code)
  {
    assert text[i] == '/' && text[i + 1] == '*' by {
      assert text[i..i + 2] == "/*";
    }
    ScanBlockComment(text, i + 2, j);
  }

  /** Comment stripping keeps every line break, never lengthens the text, and leaves a text without '/' alone. */
  lemma StripCommentsProperties(text: string)
    ensures Count(StripComments(text), '\n') == Count(text, '\n')
    ensures |StripComments(text)| <= |text|
    ensures NoChar(text, '/') ==> StripComments(text) == text
  {
    assert text[0..] == text;
    ScanNewlines(text, 0, Code);
    ScanShorter(text, 0, Code);
    if NoChar(text, '/') {
      ScanNoSlash(text, 0, Code);
    }
  }

  /** _strip_comments_for_path as a value: only C-family files lose their comments. */
  function StripForSuffix(suffix: string, text: string): (r: string)
  {
    if IsCodeSuffix(suffix) then StripComments(text) else text
  }

  /** _strip_comments_for_path */
  method StripCommentsForPath(suffix: string, text: string) returns (r: string)
    ensures r == StripForSuffix(suffix, text)
  {
    if Lower(suffix) in LangBySuffix {
      r := StripCFamilyComments(text);
      return;
    }
    r := text;
  }

  /** Whatever the suffix, the text keeps its line breaks; other files are untouched. */
  lemma StripForSuffixProperties(suffix: string, text: string)
    ensures Count(StripForSuffix(suffix, text), '\n') == Count(text, '\n')
    ensures |StripForSuffix(suffix, text)| <= |text|
    ensures !IsCodeSuffix(suffix) ==> StripForSuffix(suffix, text) == text
  {
    StripCommentsProperties(text);
  }

  // ================================================================ blank-line runs

  /** `line.strip() == ""` */
  predicate Blank(line: string)
  {
    Strip(line) == ""
  }

  /** The lines kept by the collapse loop from here on, given whether the last kept line was blank. */
  function Collapse(lines: seq<string>, prevBlank: bool): (r: seq<string>)
    ensures |r| <= |lines|
  {
    if lines == [] then []
    else if Blank(lines[0]) && prevBlank then Collapse(lines[1..], prevBlank)
    else [lines[0]] + Collapse(lines[1..], Blank(lines[0]))
  }

  /** _collapse_blank_line_runs as a value. */
  function CollapseBlankRuns(text: string): (r: string)
  {
    if text == "" then text else Join(Collapse(Split(text, "\n"), false), "\n")
  }

  /** _collapse_blank_line_runs: keeps the first blank line of every run of blank lines. */
  method CollapseBlankLineRuns(text: string) returns (r: string)
    ensures r == CollapseBlankRuns(text)
  {
    if text == "" {
      return text;
    }
    var lines := Split(text, "\n");
    var out: seq<string> := [];
    var prevBlank := false;
    for k := 0 to |lines|
      invariant out + Collapse(lines[k..], prevBlank) == Collapse(lines, false)
    {
      CollapseStep(out, lines, k, prevBlank);
      var line := lines[k];
      var isBlank := Strip(line) == "";
      if isBlank && prevBlank {
        continue;
      }
      out := out + [line];
      prevBlank := isBlank;
    }
    assert out + [] == out;
    r := Join(out, "\n");
  }

  /** One iteration of the collapse loop: a blank line after a blank line is dropped, any other line kept. */
  lemma CollapseStep(out: seq<string>, lines: seq<string>, k: nat, prevBlank: bool)
    requires k < |lines|
    ensures Blank(lines[k]) && prevBlank ==>
              out + Collapse(lines[k..], prevBlank) == out + Collapse(lines[k + 1..], prevBlank)
    ensures !(Blank(lines[k]) && prevBlank) ==>
              out + Collapse(lines[k..], prevBlank) == (out + [lines[k]]) + Collapse(lines[k + 1..], Blank(lines[k]))
  {
    assert lines[k..][0] == lines[k] && lines[k..][1..] == lines[k + 1..];
    if !(Blank(lines[k]) && prevBlank) {
      var rest := Collapse(lines[k + 1..], Blank(lines[k]));
      assert out + ([lines[k]] + rest) == (out + [lines[k]]) + rest;
    }
  }

  /** Every kept line is one of the input lines. */
  lemma {:induction false} CollapseMembers(lines: seq<string>, prevBlank: bool)
    ensures forall x :: x in Collapse(lines, prevBlank) ==> x in lines
    decreases |lines|
  {
    if lines != [] {
      CollapseMembers(lines[1..], prevBlank);
      CollapseMembers(lines[1..], Blank(lines[0]));
    }
  }

  /** No two adjacent lines are both blank. */
  predicate NoBlankRun(lines: seq<string>)
  {
    forall k :: 0 <= k < |lines| - 1 ==> !(Blank(lines[k]) && Blank(lines[k + 1]))
  }

  /** The non-blank lines, in order. */
  function NonBlank(lines: seq<string>): (r: seq<string>)
    ensures |r| <= |lines|
  {
    if lines == [] then [] else (if Blank(lines[0]) then [] else [lines[0]]) + NonBlank(lines[1..])
  }

  /** After collapsing, no two adjacent lines are blank, and none opens the rest when the last kept one was blank. */
  lemma {:induction false} CollapseNoRun(lines: seq<string>, prevBlank: bool)
    ensures NoBlankRun(Collapse(lines, prevBlank))
    ensures prevBlank && Collapse(lines, prevBlank) != [] ==> !Blank(Collapse(lines, prevBlank)[0])
    decreases |lines|
  {
    if lines != [] {
      if Blank(lines[0]) && prevBlank {
        CollapseNoRun(lines[1..], prevBlank);
      } else {
        var rest := Collapse(lines[1..], Blank(lines[0]));
        CollapseNoRun(lines[1..], Blank(lines[0]));
        var r := [lines[0]] + rest;
        assert forall k :: 1 <= k < |r| ==> r[k] == rest[k - 1];
      }
    }
  }

  /** Collapsing drops blank lines only: the non-blank lines are all kept, in order. */
  lemma {:induction false} CollapseKeepsNonBlank(lines: seq<string>, prevBlank: bool)
    ensures NonBlank(Collapse(lines, prevBlank)) == NonBlank(lines)
    decreases |lines|
  {
    if lines != [] {
      if Blank(lines[0]) && prevBlank {
        CollapseKeepsNonBlank(lines[1..], prevBlank);
      } else {
        var rest := Collapse(lines[1..], Blank(lines[0]));
        CollapseKeepsNonBlank(lines[1..], Blank(lines[0]));
        assert ([lines[0]] + rest)[1..] == rest;
      }
    }
  }

  /** Lines without blank runs are left as they are. */
  lemma {:induction false} CollapseFixed(lines: seq<string>, prevBlank: bool)
    requires NoBlankRun(lines)
    requires prevBlank && lines != [] ==> !Blank(lines[0])
    ensures Collapse(lines, prevBlank) == lines
    decreases |lines|
  {
    if lines != [] {
      var rest := lines[1..];
      forall k | 0 <= k < |rest| - 1 ensures !(Blank(rest[k]) && Blank(rest[k + 1])) {
        assert rest[k] == lines[k + 1] && rest[k + 1] == lines[k + 2];
      }
      if |lines| > 1 {
        assert !(Blank(lines[0]) && Blank(lines[1]));
      }
      CollapseFixed(rest, Blank(lines[0]));
      assert lines == [lines[0]] + rest;
    }
  }

  /** Collapsing twice is collapsing once, on lines. */
  lemma CollapseIdempotent(lines: seq<string>)
    ensures Collapse(Collapse(lines, false), false) == Collapse(lines, false)
  {
    CollapseNoRun(lines, false);
    CollapseFixed(Collapse(lines, false), false);
  }

  /** A collapsed text splits back into the collapsed lines. */
  lemma CollapsedLines(text: string)
    requires text != ""
    ensures var out := Collapse(Split(text, "\n"), false);
            out != [] && Split(CollapseBlankRuns(text), "\n") == out
  {
    var lines := Split(text, "\n");
    var out := Collapse(lines, false);
    assert out != [] && out[0] == lines[0];
    CollapseMembers(lines, false);
    forall k | 0 <= k < |out| ensures NoChar(out[k], '\n') {
      assert out[k] in lines;
      var j :| 0 <= j < |lines| && lines[j] == out[k];
      assert !Contains(lines[j], "\n");
      forall p | 0 <= p < |out[k]| ensures out[k][p] != '\n' {
        if out[k][p] == '\n' {
          assert OccursAt(lines[j], "\n", p);
        }
      }
    }
    SplitJoinChar(out, '\n');
  }

  /**
   * _collapse_blank_line_runs leaves no two adjacent blank lines, keeps the non-blank lines
   * in order, and is idempotent.
   */
  lemma CollapseBlankRunsProperties(text: string)
    ensures text != "" ==> NoBlankRun(Split(CollapseBlankRuns(text), "\n"))
    ensures text != "" ==> NonBlank(Split(CollapseBlankRuns(text), "\n")) == NonBlank(Split(text, "\n"))
    ensures CollapseBlankRuns(CollapseBlankRuns(text)) == CollapseBlankRuns(text)
  {
    if text != "" {
      var lines := Split(text, "\n");
      var out := Collapse(lines, false);
      CollapsedLines(text);
      CollapseNoRun(lines, false);
      CollapseKeepsNonBlank(lines, false);
      var r := CollapseBlankRuns(text);
      if r != "" {
        CollapseIdempotent(lines);
      }
    }
  }

  // ================================================================ content stuffing

  /** Every line with the "> " prefix. */
  function PrefixLines(lines: seq<string>): (r: seq<string>)
    ensures |r| == |lines|
  {
    if lines == [] then [] else ["> " + lines[0]] + PrefixLines(lines[1..])
  }

  /** _stuff_content_lines: the content's lines, a trailing empty line included, each prefixed by "> ". */
  function StuffContentLines(content: string): (r: seq<string>)
    ensures content == "" <==> r == []
  {
    if content == "" then [] else PrefixLines(Split(content, "\n"))
  }

  /** A reader's side: the lines that carry the "> " prefix, without it. */
  function Unprefixed(lines: seq<string>): (r: seq<string>)
    ensures |r| <= |lines|
  {
    if lines == [] then []
    else (if |lines[0]| >= 2 && lines[0][..2] == "> " then [lines[0][2..]] else []) + Unprefixed(lines[1..])
  }

  lemma {:induction false} UnprefixedPrefixed(lines: seq<string>)
    ensures Unprefixed(PrefixLines(lines)) == lines
    decreases |lines|
  {
    if lines != [] {
      var l := "> " + lines[0];
      assert l[..2] == "> " && l[2..] == lines[0];
      assert PrefixLines(lines)[1..] == PrefixLines(lines[1..]);
      UnprefixedPrefixed(lines[1..]);
    }
  }

  /** Removing the prefix from the stuffed lines and joining them with "\n" restores the content exactly. */
  lemma StuffRoundTrip(content: string)
    ensures Join(Unprefixed(StuffContentLines(content)), "\n") == content
  {
    if content != "" {
      UnprefixedPrefixed(Split(content, "\n"));
      JoinSplit(content, "\n");
    }
  }

  // ================================================================ export records

  /** `str(...).replace("\\", "/")`: the relative path with forward slashes. */
  function ForwardSlashes(path: string): (r: string)
    ensures |r| == |path| && NoChar(r, '\\')
    ensures forall i :: 0 <= i < |path| && path[i] != '\\' ==> r[i] == path[i]
  {
    if path == [] then [] else [if path[0] == '\\' then '/' else path[0]] + ForwardSlashes(path[1..])
  }

  /** The record build_export_records makes of one file. */
  function MakeRecord(f: SourceFile): ExportFile
  {
    var normalized := CollapseBlankRuns(StripForSuffix(f.suffix, f.raw));
    ExportFile(ForwardSlashes(f.relPath), DetectLang(f.suffix), normalized, Utf8Length(normalized))
  }

  /**
   * A record's size is the UTF-8 length of its content, its path uses forward slashes, and its
   * content is already normalised: collapsing it again changes nothing.
   */
  lemma RecordProperties(f: SourceFile)
    ensures var rec := MakeRecord(f);
            rec.byteLen == Utf8Length(rec.content) && NoChar(rec.relPath, '\\') &&
            CollapseBlankRuns(rec.content) == rec.content
  {
    CollapseBlankRunsProperties(StripForSuffix(f.suffix, f.raw));
  }

  /** `[g(x) for x in xs]` */
  function Map<X, Y>(xs: seq<X>, g: X -> Y): (r: seq<Y>)
    ensures |r| == |xs|
  {
    if xs == [] then [] else Map(xs[..|xs| - 1], g) + [g(xs[|xs| - 1])]
  }

  /** The k-th element of the mapped list is g of the k-th element. */
  lemma {:induction false} MapAt<X, Y>(xs: seq<X>, g: X -> Y, k: nat)
    requires k < |xs|
    ensures Map(xs, g)[k] == g(xs[k])
    decreases |xs|
  {
    var n := |xs| - 1;
    if k < n {
      MapAt(xs[..n], g, k);
    }
  }

  lemma MapStep<X, Y>(xs: seq<X>, g: X -> Y, k: nat)
    requires k < |xs|
    ensures Map(xs[..k + 1], g) == Map(xs[..k], g) + [g(xs[k])]
  {
    assert xs[..k + 1][..k] == xs[..k];
  }

  /** The records of a list of files, one per file in order. */
  function MakeRecords(files: seq<SourceFile>): (r: seq<ExportFile>)
    ensures |r| == |files|
  {
    Map(files, MakeRecord)
  }

  /** The k-th record is the k-th file's. */
  lemma MakeRecordsAt(files: seq<SourceFile>, k: nat)
    requires k < |files|
    ensures MakeRecords(files)[k] == MakeRecord(files[k])
  {
    MapAt(files, MakeRecord, k);
  }

  /** The loop body of build_export_records: the record of one file. */
  method ExportRecord(f: SourceFile) returns (rec: ExportFile)
    ensures rec == MakeRecord(f)
  {
    var rel := ForwardSlashes(f.relPath);
    var stripped := StripCommentsForPath(f.suffix, f.raw);
    var normalized := CollapseBlankLineRuns(stripped);
    rec := ExportFile(rel, DetectLang(f.suffix), normalized, Utf8Length(normalized));
  }

  /** build_export_records, with the files' relative paths, suffixes and texts given: one record per file, in order. */
  method BuildExportRecords(files: seq<SourceFile>) returns (records: seq<ExportFile>)
    ensures records == MakeRecords(files)
  {
    records := [];
    for k := 0 to |files|
      invariant records == MakeRecords(files[..k])
    {
      MapStep(files, MakeRecord, k);
      var rec := ExportRecord(files[k]);
      records := records + [rec];
    }
    assert files[..|files|] == files;
  }

  // ================================================================ the container

  /** The fixed opening of the container, up to and including "MANIFEST_BEGIN". */
  const ContainerHeader: seq<string> := [
    "---",
    "",
    "CODEBASE_CONTAINER v1",
    "",
    "PURPOSE:",
    "This file contains multiple source files merged into one document for LLM ingestion.",
    "",
    "PARSING RULES:",
    "1. Read MANIFEST first.",
    "2. Each FILE block has:",
    "   - PATH: original relative path",
    "   - LANG: c / cpp / h / hpp / txt / etc",
    "   - BYTES: exact byte length of CONTENT after unescaping",
    "   - ENCODING: utf-8",
    "   - STUFFING: lines beginning with \"> \" are content lines; remove the leading \"> \" from each content line",
    "3. The visible delimiter lines are only structural markers.",
    "4. If a delimiter-like string appears inside source code, it is harmless because only lines inside CONTENT are data, and BYTES is authoritative.",
    "",
    "MANIFEST_BEGIN"
  ]

  /** A record's three manifest lines. */
  function ManifestEntry(rec: ExportFile): seq<string>
  {
    ["- path: " + rec.relPath, "  lang: " + rec.lang, "  bytes: " + IntString(rec.byteLen)]
  }

  /** A record's FILE block, ending with an empty line. */
  function FileBlock(rec: ExportFile): seq<string>
  {
    ["FILE_BEGIN", "PATH: " + rec.relPath, "LANG: " + rec.lang, "BYTES: " + IntString(rec.byteLen),
     "ENCODING: utf-8", "STUFFING: prefix_lines(\"> \")", "CONTENT_BEGIN"] +
    StuffContentLines(rec.content) + ["CONTENT_END", "FILE_END", ""]
  }

  /** The lines each record contributes, record after record. */
  function FlatMap(records: seq<ExportFile>, g: ExportFile -> seq<string>): seq<string>
  {
    if records == [] then [] else FlatMap(records[..|records| - 1], g) + g(records[|records| - 1])
  }

  /** What follows the fixed opening: the manifest entries, the manifest's end, then the FILE blocks. */
  function Listing(records: seq<ExportFile>): seq<string>
  {
    Manifest(records) + FlatMap(records, FileBlock)
  }

  /** The manifest entries and the manifest's end. */
  function Manifest(records: seq<ExportFile>): seq<string>
  {
    FlatMap(records, ManifestEntry) + ["MANIFEST_END", ""]
  }

  /** Every line of the container, before the join. */
  function ContainerLines(records: seq<ExportFile>): seq<string>
  {
    ContainerHeader + Listing(records)
  }

  lemma FlatMapStep(head: seq<string>, records: seq<ExportFile>, i: nat, g: ExportFile -> seq<string>)
    requires i < |records|
    ensures head + FlatMap(records[..i + 1], g) == head + FlatMap(records[..i], g) + g(records[i])
  {
    assert records[..i + 1][..i] == records[..i];
  }

  /** render_codebase_container */
  method RenderCodebaseContainer(records: seq<ExportFile>) returns (text: string)
    ensures text == TrimmedJoin(ContainerLines(records))
  {
    var lines := ContainerHeader;
    var head := lines;
    assert records[..0] == [];
    for i := 0 to |records|
      invariant lines == head + FlatMap(records[..i], ManifestEntry)
    {
      FlatMapStep(head, records, i, ManifestEntry);
      var rec := records[i];
      lines := lines + ["- path: " + rec.relPath, "  lang: " + rec.lang, "  bytes: " + IntString(rec.byteLen)];
    }
    assert records[..|records|] == records;
    lines := lines + ["MANIFEST_END", ""];
    head := lines;
    for i := 0 to |records|
      invariant lines == head + FlatMap(records[..i], FileBlock)
    {
      FlatMapStep(head, records, i, FileBlock);
      var rec := records[i];
      var stuffed := StuffContentLines(rec.content);
      lines := lines + (["FILE_BEGIN", "PATH: " + rec.relPath, "LANG: " + rec.lang,
                         "BYTES: " + IntString(rec.byteLen), "ENCODING: utf-8",
                         "STUFFING: prefix_lines(\"> \")", "CONTENT_BEGIN"] +
                        stuffed + ["CONTENT_END", "FILE_END", ""]);
    }
    assert records[..|records|] == records;
    Regroup(ContainerHeader, FlatMap(records, ManifestEntry), ["MANIFEST_END", ""], FlatMap(records, FileBlock));
    text := RStrip(Join(lines, "\n")) + "\n";
  }

  lemma Regroup(h: seq<string>, m: seq<string>, e: seq<string>, b: seq<string>)
    ensures h + m + e + b == h + (m + e + b)
  {
  }

  // ---------------------------------------------------------------- properties of the container

  /** Where one record's lines sit among all records' lines. */
  lemma {:induction false} FlatMapAt(records: seq<ExportFile>, k: nat, g: ExportFile -> seq<string>)
    requires k < |records|
    ensures FlatMap(records, g) == FlatMap(records[..k], g) + g(records[k]) + FlatMap(records[k + 1..], g)
    decreases |records|
  {
    var n := |records| - 1;
    var front := records[..n];
    if k == n {
      assert records[k + 1..] == [];
    } else {
      FlatMapAt(front, k, g);
      assert front[..k] == records[..k] && front[k] == records[k];
      assert records[k + 1..][..|records[k + 1..]| - 1] == front[k + 1..];
      assert records[k + 1..][|records[k + 1..]| - 1] == records[n];
    }
  }

  /** A piece of a sequence, found after what precedes it. */
  lemma PieceAt(x: seq<string>, b: seq<string>, y: seq<string>)
    ensures (x + b + y)[|x|..|x| + |b|] == b
  {
  }

  lemma SliceOfPrefix(m: seq<string>, e: seq<string>, b: seq<string>, lo: nat, hi: nat)
    requires lo <= hi <= |m|
    ensures (m + e + b)[lo..hi] == m[lo..hi]
  {
  }

  /** The container is the 19 fixed lines followed by the listing. */
  lemma ContainerParts(records: seq<ExportFile>)
    ensures var lines := ContainerLines(records);
            |lines| == 19 + |Listing(records)| && lines[..19] == ContainerHeader && lines[19..] == Listing(records)
  {
  }

  /** The manifest has three lines per record, so "MANIFEST_END" comes right after 3n of them. */
  lemma {:induction false} ManifestLength(records: seq<ExportFile>)
    ensures |FlatMap(records, ManifestEntry)| == 3 * |records|
    decreases |records|
  {
    if records != [] {
      ManifestLength(records[..|records| - 1]);
    }
  }

  /** "MANIFEST_END" follows the 3n manifest lines. */
  lemma ManifestEnd(records: seq<ExportFile>)
    ensures 3 * |records| < |Listing(records)| && Listing(records)[3 * |records|] == "MANIFEST_END"
  {
    ManifestLength(records);
  }

  /** The k-th manifest entry describes the k-th record: its path, language and byte length. */
  lemma ManifestEntryAt(records: seq<ExportFile>, k: nat)
    requires k < |records|
    ensures var listing := Listing(records);
            3 + 3 * k <= |listing| && listing[3 * k..3 + 3 * k] == ManifestEntry(records[k])
  {
    var g := ManifestEntry;
    FlatMapAt(records, k, g);
    ManifestLength(records[..k]);
    PieceAt(FlatMap(records[..k], g), g(records[k]), FlatMap(records[k + 1..], g));
    var m := FlatMap(records, g);
    SliceOfPrefix(m, ["MANIFEST_END", ""], FlatMap(records, FileBlock), 3 * k, 3 * k + 3);
    assert Listing(records) == m + ["MANIFEST_END", ""] + FlatMap(records, FileBlock);
  }

  /**
   * The listing is the manifest (three lines per record and its two closing lines), then the
   * earlier records' FILE blocks, the k-th record's FILE block, and the later records' blocks.
   */
  lemma FileBlockAt(records: seq<ExportFile>, k: nat)
    requires k < |records|
    ensures |Manifest(records)| == 2 + 3 * |records|
    ensures Listing(records) ==
            Manifest(records) + FlatMap(records[..k], FileBlock) + FileBlock(records[k]) +
            FlatMap(records[k + 1..], FileBlock)
  {
    ManifestLength(records);
    FlatMapAt(records, k, FileBlock);
    Regroup(Manifest(records), FlatMap(records[..k], FileBlock), FileBlock(records[k]),
            FlatMap(records[k + 1..], FileBlock));
  }

  /**
   * A FILE block names the record's path, language and byte length, and its content lines,
   * between "CONTENT_BEGIN" and "CONTENT_END", give back the content once the prefix is removed.
   */
  lemma FileBlockContent(rec: ExportFile)
    ensures var b := FileBlock(rec);
            var body := StuffContentLines(rec.content);
            |b| == 10 + |body| &&
            b[0] == "FILE_BEGIN" && b[1] == "PATH: " + rec.relPath && b[2] == "LANG: " + rec.lang &&
            b[3] == "BYTES: " + IntString(rec.byteLen) && b[6] == "CONTENT_BEGIN" &&
            b[7..|b| - 3] == body && b[|b| - 3] == "CONTENT_END" && b[|b| - 2] == "FILE_END" &&
            Join(Unprefixed(b[7..|b| - 3]), "\n") == rec.content
  {
    StuffRoundTrip(rec.content);
  }

  /** The container opens with "---" and ends in exactly one line break. */
  lemma ContainerShape(records: seq<ExportFile>)
    ensures var t := TrimmedJoin(ContainerLines(records));
            |t| > 3 && t[..3] == "---" && t[|t| - 1] == '\n' && !IsSpace(t[|t| - 2])
  {
    var lines := ContainerLines(records);
    assert lines[0] == "---";
    TrimmedJoinShape(lines);
  }
}
