/**
 * The symbol table of the project index: a multimap from a function name to the places
 * where it is defined, and the per-file extraction of function definitions. Reading the
 * file is I/O: the extractor receives the file's text, or None when it cannot be read.
 * The definition regex is the parameter `defName`, which yields the captured function
 * name of a matching line.
 */
module Symbols {
  import opened Wrappers
  import opened Text

  /** Where a function is defined: a file path and a 1-based line number. */
  datatype Location = Location(file: string, line: int)

  /** `functions.get(name, [])` */
  function EntriesOf(functions: map<string, seq<Location>>, name: string): seq<Location>
  {
    if name in functions then functions[name] else []
  }

  /** The table after one add: the location is appended to that name's list, which is created if missing. */
  function Added(functions: map<string, seq<Location>>, name: string, loc: Location): (r: map<string, seq<Location>>)
    ensures r.Keys == functions.Keys + {name}
  {
    functions[name := EntriesOf(functions, name) + [loc]]
  }

  class SymbolTable {
    var functions: map<string, seq<Location>>

    constructor ()
      ensures functions == map[]
    {
      functions := map[];
    }

    /** lookup */
    function Lookup(name: string): seq<Location>
      reads this
    {
      EntriesOf(functions, name)
    }

    /** add: `functions.setdefault(name, []).append((file_path, line))` */
    method Add(name: string, filePath: string, line: int)
      modifies this
      ensures functions == Added(old(functions), name, Location(filePath, line))
      ensures Lookup(name) == old(Lookup(name)) + [Location(filePath, line)]
      ensures forall other :: other != name ==> Lookup(other) == old(Lookup(other))
    {
      var entries := if name in functions then functions[name] else [];
      functions := functions[name := entries + [Location(filePath, line)]];
    }
  }

  /** An add extends the list of the name added and leaves every other name's list as it was. */
  lemma AddedLookup(functions: map<string, seq<Location>>, name: string, loc: Location, other: string)
    ensures EntriesOf(Added(functions, name, loc), other) ==
            if other == name then EntriesOf(functions, name) + [loc] else EntriesOf(functions, other)
  {
  }

  /** One call of add: the name, file path and line. */
  datatype Addition = Addition(name: string, file: string, line: int)

  /** The table after a sequence of adds, starting from the empty table. */
  function AddAll(adds: seq<Addition>): map<string, seq<Location>>
  {
    if adds == [] then map[]
    else
      var a := adds[|adds| - 1];
      Added(AddAll(adds[..|adds| - 1]), a.name, Location(a.file, a.line))
  }

  /** The locations of the adds made under `name`, in the order they were made. */
  function AddedUnder(adds: seq<Addition>, name: string): (r: seq<Location>)
    ensures |r| <= |adds|
  {
    if adds == [] then []
    else
      var a := adds[|adds| - 1];
      AddedUnder(adds[..|adds| - 1], name) + (if a.name == name then [Location(a.file, a.line)] else [])
  }

  /**
   * lookup returns exactly the locations added under that name, in insertion order; in
   * particular a name that was never added looks up to [].
   */
  lemma {:induction false} LookupInsertionOrder(adds: seq<Addition>, name: string)
    ensures EntriesOf(AddAll(adds), name) == AddedUnder(adds, name)
    ensures (forall k :: 0 <= k < |adds| ==> adds[k].name != name) ==> EntriesOf(AddAll(adds), name) == []
    decreases |adds|
  {
    if adds != [] {
      var front := adds[..|adds| - 1];
      var a := adds[|adds| - 1];
      LookupInsertionOrder(front, name);
      AddedLookup(AddAll(front), a.name, Location(a.file, a.line), name);
      if forall k :: 0 <= k < |adds| ==> adds[k].name != name {
        assert forall k :: 0 <= k < |front| ==> front[k].name != name by {
          forall k | 0 <= k < |front| ensures front[k].name != name {
            assert front[k] == adds[k];
          }
        }
      }
    }
  }

  // ================================================================ extract_functions

  /** The definition pattern: the captured name when a line is a function definition header. */
  type DefMatcher = string -> Option<string>

  /** One extracted definition: the function's name and its 1-based line. */
  datatype Definition = Definition(name: string, line: int)

  /** The definitions among the given lines, numbered from 1, in line order. */
  function Definitions(lines: seq<string>, defName: DefMatcher): (r: seq<Definition>)
    ensures |r| <= |lines|
  {
    if lines == [] then []
    else
      var n := |lines|;
      Definitions(lines[..n - 1], defName) +
      (match defName(lines[n - 1]) case Some(name) => [Definition(name, n)] case None => [])
  }

  /** What extract_functions returns: nothing for an unreadable file, else the definitions of its lines. */
  function FileDefinitions(text: Option<string>, defName: DefMatcher): seq<Definition>
  {
    match text
    case None => []
    case Some(t) => Definitions(SplitLines(t), defName)
  }

  lemma DefinitionsStep(lines: seq<string>, k: nat, defName: DefMatcher)
    requires k < |lines|
    ensures Definitions(lines[..k + 1], defName) ==
            Definitions(lines[..k], defName) +
            (match defName(lines[k]) case Some(name) => [Definition(name, k + 1)] case None => [])
  {
    assert lines[..k + 1][..k] == lines[..k];
  }

  /** extract_functions, with the file's text given (None when reading it fails). */
  method ExtractFunctions(text: Option<string>, defName: DefMatcher) returns (out: seq<Definition>)
    ensures out == FileDefinitions(text, defName)
  {
    out := [];
    if text.None? {
      return;
    }
    var lines := SplitLines(text.value);
    for idx := 1 to |lines| + 1
      invariant out == Definitions(lines[..idx - 1], defName)
    {
      DefinitionsStep(lines, idx - 1, defName);
      var m := defName(lines[idx - 1]);
      if m.Some? {
        out := out + [Definition(m.value, idx)];
      }
    }
    assert lines[..|lines|] == lines;
  }

  /**
   * Every entry of `defs` names a line of `lines` (1-based) that the pattern matches with
   * that name, and the entries are in strictly ascending line order.
   */
  ghost predicate FoundIn(defs: seq<Definition>, lines: seq<string>, defName: DefMatcher)
  {
    (forall k :: 0 <= k < |defs| ==> 1 <= defs[k].line <= |lines| && defName(lines[defs[k].line - 1]) == Some(defs[k].name)) &&
    (forall k, j :: 0 <= k < j < |defs| ==> defs[k].line < defs[j].line)
  }

  /**
   * The extracted line numbers are 1-based, at most the number of lines, and strictly
   * ascending, and each names the line it was found on.
   */
  lemma {:induction false} DefinitionsSound(lines: seq<string>, defName: DefMatcher)
    ensures FoundIn(Definitions(lines, defName), lines, defName)
    decreases |lines|
  {
    if lines != [] {
      var n := |lines|;
      var front := lines[..n - 1];
      DefinitionsSound(front, defName);
      var p := Definitions(front, defName);
      var r := Definitions(lines, defName);
      assert FoundIn(p, front, defName);
      assert forall k :: 0 <= k < |p| ==> r[k] == p[k];
      forall k | 0 <= k < |p| ensures 1 <= r[k].line < n && defName(lines[r[k].line - 1]) == Some(r[k].name) {
        assert front[p[k].line - 1] == lines[p[k].line - 1];
      }
      if |r| > |p| {
        assert r[|p|] == Definition(defName(lines[n - 1]).value, n);
      }
    }
  }

  /** Every line the pattern matches contributes its definition. */
  lemma {:induction false} DefinitionsComplete(lines: seq<string>, defName: DefMatcher, i: nat)
    requires i < |lines| && defName(lines[i]).Some?
    ensures Definition(defName(lines[i]).value, i + 1) in Definitions(lines, defName)
    decreases |lines|
  {
    var n := |lines|;
    var front := lines[..n - 1];
    if i < n - 1 {
      assert front[i] == lines[i];
      DefinitionsComplete(front, defName, i);
    }
  }

  /** A file that cannot be read, or whose lines the pattern never matches, has no definitions. */
  lemma {:induction false} NoDefinitions(lines: seq<string>, defName: DefMatcher)
    requires forall k :: 0 <= k < |lines| ==> defName(lines[k]).None?
    ensures Definitions(lines, defName) == []
    decreases |lines|
  {
    if lines != [] {
      var front := lines[..|lines| - 1];
      assert forall k :: 0 <= k < |front| ==> front[k] == lines[k];
      NoDefinitions(front, defName);
    }
  }
}
