/** The part of Node's `path` module the upload code relies on: the last
    path segment of a file name, and its split into name and extension as
    `path.parse` and `path.extname` do it (POSIX separators). */
module Paths {

  /** Index of the last occurrence of `c` in `s`, or -1. */
  function LastIndexOf(s: string, c: char): (r: int)
    ensures -1 <= r < |s|
    ensures r >= 0 ==> s[r] == c
    ensures forall j :: r < j < |s| ==> s[j] != c
  {
    if s == [] then -1
    else if s[|s| - 1] == c then |s| - 1
    else LastIndexOf(s[..|s| - 1], c)
  }

  /** The last segment of a '/'-separated name. */
  function Basename(path: string): (r: string)
    ensures '/' !in r
    ensures exists k :: 0 <= k <= |path| && r == path[k..]
  {
    var k := LastIndexOf(path, '/') + 1;
    assert forall j :: 0 <= j < |path[k..]| ==> path[k..][j] == path[k + j];
    path[k..]
  }

  /** Whether a base name has an extension: there is a last '.', it is not the
      first character, and the name is not "..". */
  predicate HasExtension(base: string) {
    LastIndexOf(base, '.') > 0 && base != ".."
  }

  /** A base name split into (name, ext), ext being "" or starting with the
      last '.' of the base. */
  function SplitExtension(base: string): (r: (string, string))
    ensures r.0 + r.1 == base
    ensures HasExtension(base) <==> r.1 != ""
    ensures r.1 != "" ==> r.1[0] == '.' && '.' !in r.1[1..] && r.0 != ""
  {
    var d := LastIndexOf(base, '.');
    if HasExtension(base) then
      assert base[..d] + base[d..] == base;
      assert forall j :: 1 <= j < |base[d..]| ==> base[d..][j] == base[d + j];
      (base[..d], base[d..])
    else (base, "")
  }

  /** `path.extname(p)` */
  function Extname(p: string): string {
    SplitExtension(Basename(p)).1
  }

  /** `path.parse(p).name` */
  function ParsedName(p: string): string {
    SplitExtension(Basename(p)).0
  }

  /** The base name of a file is its parsed name followed by its extension. */
  lemma NameAndExtension(p: string)
    ensures ParsedName(p) + Extname(p) == Basename(p)
    ensures Extname(p) == "" || Extname(p)[0] == '.'
  {
  }

  /** The last occurrence is determined by its two defining facts. */
  lemma LastIndexIs(s: string, c: char, k: int)
    requires 0 <= k < |s| && s[k] == c
    requires forall j :: k < j < |s| ==> s[j] != c
    ensures LastIndexOf(s, c) == k
  {
  }

  lemma NoOccurrence(s: string, c: char)
    requires c !in s
    ensures LastIndexOf(s, c) == -1
  {
  }

  /** An upper-case extension keeps its case. */
  lemma UpperCaseExtension()
    ensures Extname("photo.JPG") == ".JPG" && ParsedName("photo.JPG") == "photo"
  {
    NoOccurrence("photo.JPG", '/');
    assert Basename("photo.JPG") == "photo.JPG";
    LastIndexIs("photo.JPG", '.', 5);
    assert "photo.JPG"[..5] == "photo";
  }

  /** Only the last dot starts the extension. */
  lemma LastDotExtension()
    ensures Extname("a.b.png") == ".png" && ParsedName("a.b.png") == "a.b"
  {
    NoOccurrence("a.b.png", '/');
    assert Basename("a.b.png") == "a.b.png";
    LastIndexIs("a.b.png", '.', 3);
    assert "a.b.png"[..3] == "a.b";
  }

  /** A leading dot does not start an extension. */
  lemma DotFileHasNoExtension()
    ensures Extname(".webp") == "" && ParsedName(".webp") == ".webp"
  {
    NoOccurrence(".webp", '/');
    assert Basename(".webp") == ".webp";
    LastIndexIs(".webp", '.', 0);
  }
}
