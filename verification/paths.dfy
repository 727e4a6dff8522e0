/**
 * Unix-style paths as strings with `/` separators, and the parts of Rust's
 * `Path`/`PathBuf` API the transcoder uses: `file_name`, `file_stem`,
 * `extension` and `join`.
 */
module Paths {
  import opened Wrappers
  import opened Text

  /** A final path component that `file_name` can return. */
  predicate IsNormalName(n: string)
  {
    n != [] && '/' !in n && n != "." && n != ".."
  }

  /**
   * `path.file_name()`: the last component, skipping empty and `.`
   * components; `None` when there is none or it is `..`.
   */
  function FileName(p: string): (r: Option<string>)
    ensures r.Some? ==> IsNormalName(r.value)
    decreases |p|
  {
    match LastIndexOf(p, '/')
    case None => if p == [] || p == "." || p == ".." then None else Some(p)
    case Some(i) =>
      var last := p[i + 1..];
      if last == [] || last == "." then FileName(p[..i])
      else if last == ".." then None
      else Some(last)
  }

  /**
   * Splits a file name at its last dot, as `file_stem` and `extension` do:
   * a name whose only dot is its first character has no extension.
   */
  function SplitName(name: string): (r: (string, Option<string>))
    ensures r.1.None? ==> r.0 == name
    ensures r.1.Some? ==> name == r.0 + "." + r.1.value && r.0 != [] && '.' !in r.1.value
  {
    match LastIndexOf(name, '.')
    case None => (name, None)
    case Some(i) =>
      if i == 0 then (name, None)
      else
        assert name == name[..i] + "." + name[i + 1..];
        (name[..i], Some(name[i + 1..]))
  }

  /** `path.file_stem()`. */
  function FileStem(p: string): Option<string>
  {
    match FileName(p)
    case None => None
    case Some(n) => Some(SplitName(n).0)
  }

  /** `path.extension()`. */
  function Extension(p: string): Option<string>
  {
    match FileName(p)
    case None => None
    case Some(n) => SplitName(n).1
  }

  /**
   * `dir.join(name)`: an absolute `name` replaces `dir`; otherwise one `/`
   * is inserted unless `dir` is empty or already ends in one.
   */
  function PathJoin(dir: string, name: string): (r: string)
    ensures '/' !in name && dir == [] ==> r == name
  {
    if |name| > 0 && name[0] == '/' then name
    else if dir == [] || dir[|dir| - 1] == '/' then dir + name
    else dir + "/" + name
  }

  /** The last occurrence of `c` is pinned down by its defining property. */
  lemma LastIndexOfAt(s: string, c: char, i: nat)
    requires i < |s| && s[i] == c && c !in s[i + 1..]
    ensures LastIndexOf(s, c) == Some(i)
  {
  }

  /** Joining a plain name onto any directory makes it the file name. */
  lemma FileNameOfJoin(dir: string, name: string)
    requires IsNormalName(name)
    ensures FileName(PathJoin(dir, name)) == Some(name)
  {
    var p := PathJoin(dir, name);
    if dir == [] {
      assert LastIndexOf(p, '/') == None;
    } else {
      var i := if dir[|dir| - 1] == '/' then |dir| - 1 else |dir|;
      assert p[i] == '/';
      assert p[i + 1..] == name;
      LastIndexOfAt(p, '/', i);
    }
  }

  /** A name built as stem, dot, dot-free extension splits back into them. */
  lemma SplitNameOf(stem: string, ext: string)
    requires stem != [] && '.' !in ext
    ensures SplitName(stem + "." + ext) == (stem, Some(ext))
  {
    var n := stem + "." + ext;
    assert n[|stem|] == '.' && n[|stem| + 1..] == ext;
    LastIndexOfAt(n, '.', |stem|);
    assert n[..|stem|] == stem;
  }

  /** A name whose only dot is its first character has no extension. */
  lemma HiddenNameHasNoExtension(rest: string)
    requires '.' !in rest
    ensures SplitName("." + rest).1 == None
  {
    assert ("." + rest)[0] == '.' && ("." + rest)[1..] == rest;
    LastIndexOfAt("." + rest, '.', 0);
  }
}
