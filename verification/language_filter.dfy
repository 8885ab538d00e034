/**
 * allowed_extensions (vulnllm/scanner/language_filter.py): the file suffixes scanned for
 * the configured languages.
 */
module LanguageFilter {
  /** LANG_EXTENSIONS.get(lang, set()) */
  function LangExtensions(lang: string): set<string>
  {
    if lang == "c" then {".c", ".h"} else {}
  }

  /** The union of the languages' suffix sets. */
  function Allowed(languages: seq<string>): (r: set<string>)
    ensures forall e :: e in r <==> exists i :: 0 <= i < |languages| && e in LangExtensions(languages[i])
  {
    if languages == [] then {}
    else
      var front := languages[..|languages| - 1];
      var r := Allowed(front) + LangExtensions(languages[|languages| - 1]);
      assert forall i :: 0 <= i < |front| ==> front[i] == languages[i];
      r
  }

  /** allowed_extensions: the `exts |= ...` loop. */
  method AllowedExtensions(languages: seq<string>) returns (exts: set<string>)
    ensures exts == Allowed(languages)
  {
    exts := {};
    for i := 0 to |languages|
      invariant exts == Allowed(languages[..i])
    {
      assert languages[..i + 1][..i] == languages[..i];
      exts := exts + LangExtensions(languages[i]);
    }
    assert languages[..|languages|] == languages;
  }

  /** Only the listed languages matter: not their order, not repetitions. */
  lemma AllowedSetOnly(a: seq<string>, b: seq<string>)
    requires forall l :: l in a <==> l in b
    ensures Allowed(a) == Allowed(b)
  {
    forall e | e in Allowed(a) ensures e in Allowed(b) {
      var i :| 0 <= i < |a| && e in LangExtensions(a[i]);
      assert a[i] in b;
      var j :| 0 <= j < |b| && b[j] == a[i];
    }
    forall e | e in Allowed(b) ensures e in Allowed(a) {
      var i :| 0 <= i < |b| && e in LangExtensions(b[i]);
      assert b[i] in a;
      var j :| 0 <= j < |a| && a[j] == b[i];
    }
  }

  /** C selects .c and .h; languages without a table entry add nothing; no languages, no suffixes. */
  lemma AllowedTable(languages: seq<string>)
    ensures Allowed([]) == {}
    ensures Allowed(["c"]) == {".c", ".h"}
    ensures (forall i :: 0 <= i < |languages| ==> languages[i] != "c") ==> Allowed(languages) == {}
    ensures "c" in languages ==> Allowed(languages) == {".c", ".h"}
  {
    if "c" in languages {
      var i :| 0 <= i < |languages| && languages[i] == "c";
      assert ".c" in LangExtensions(languages[i]) && ".h" in LangExtensions(languages[i]);
    }
  }
}
