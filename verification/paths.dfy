/** The two `pathlib` operations the pipeline uses, on paths written with "/" separators. */
module Paths {
  import opened Strings

  /** `Path(dir) / name`. */
  function JoinPath(dir: string, name: string): string
  {
    dir + "/" + name
  }

  /**
   * The final component `name` after the directory part `dir`, with its suffix (from its
   * last ".", when that dot is neither its first nor its last character) replaced by
   * `suffix`, or with `suffix` appended when it has no such suffix.
   */
  function Rename(dir: string, name: string, suffix: string): string
  {
    var i := LastIndex(name, '.');
    if 0 < i < |name| - 1 then dir + name[..i] + suffix else dir + name + suffix
  }

  /** `PurePath.with_suffix(suffix)`: the final component is everything after the last "/". */
  function WithSuffix(path: string, suffix: string): string
  {
    var k := LastIndex(path, '/');
    Rename(path[..k + 1], path[k + 1..], suffix)
  }

  /**
   * `PurePath.suffix`: the final component's suffix, from its last "." when that dot is
   * neither its first nor its last character, or "" when it has none.
   */
  function Suffix(path: string): string
  {
    var k := LastIndex(path, '/');
    var name := path[k + 1..];
    var i := LastIndex(name, '.');
    if 0 < i < |name| - 1 then name[i..] else ""
  }

  /** The renamed component follows the directory part unchanged and ends with `suffix`. */
  lemma RenameShape(dir: string, name: string, suffix: string)
    ensures dir <= Rename(dir, name, suffix)
    ensures EndsWith(Rename(dir, name, suffix), suffix)
  {
    var i := LastIndex(name, '.');
    if 0 < i < |name| - 1 {
      assert dir + name[..i] + suffix == dir + (name[..i] + suffix);
      EndsWithAppend(dir + name[..i], suffix);
    } else {
      assert dir + name + suffix == dir + (name + suffix);
      EndsWithAppend(dir + name, suffix);
    }
  }

  /** The renamed path keeps the directory part of `path` and ends with `suffix`. */
  lemma WithSuffixShape(path: string, suffix: string)
    ensures path[..LastIndex(path, '/') + 1] <= WithSuffix(path, suffix)
    ensures EndsWith(WithSuffix(path, suffix), suffix)
  {
    var k := LastIndex(path, '/');
    RenameShape(path[..k + 1], path[k + 1..], suffix);
  }

  /** The last `c` of `u + [c] + t` is the one after `u` when `t` holds no `c`. */
  lemma {:induction false} LastIndexAfter(u: string, c: char, t: string)
    requires c !in t
    ensures LastIndex(u + [c] + t, c) == |u|
    decreases |t|
  {
    var s := u + [c] + t;
    if t != [] {
      assert s[..|s| - 1] == u + [c] + t[..|t| - 1];
      assert s[|s| - 1] == t[|t| - 1];
      LastIndexAfter(u, c, t[..|t| - 1]);
    } else {
      assert s == u + [c];
    }
  }

  /**
   * For a file `dir/base.ext` whose base and extension hold no separator and whose
   * extension holds no dot, the lyrics-style rename gives `dir/base` + `suffix`.
   */
  lemma WithSuffixReplacesExtension(dir: string, base: string, ext: string, suffix: string)
    requires base != "" && ext != ""
    requires '/' !in base && '/' !in ext && '.' !in ext
    ensures WithSuffix(JoinPath(dir, base + "." + ext), suffix) == JoinPath(dir, base + suffix)
  {
    var name := base + "." + ext;
    var path := JoinPath(dir, name);
    assert path == dir + ['/'] + name;
    LastIndexAfter(dir, '/', name);
    assert path[|dir| + 1..] == name;
    assert path[..|dir| + 1] == dir + "/";
    assert name == base + ['.'] + ext;
    LastIndexAfter(base, '.', ext);
    assert name[..|base|] == base;
    assert WithSuffix(path, suffix) == dir + "/" + base + suffix;
    assert dir + "/" + base + suffix == dir + "/" + (base + suffix);
  }

  /**
   * For a file `dir/base.ext` whose base and extension hold no separator and whose
   * extension holds no dot, the suffix is "." + ext.
   */
  lemma SuffixOfFile(dir: string, base: string, ext: string)
    requires base != "" && ext != ""
    requires '/' !in base && '/' !in ext && '.' !in ext
    ensures Suffix(JoinPath(dir, base + "." + ext)) == "." + ext
  {
    var name := base + "." + ext;
    var path := JoinPath(dir, name);
    assert path == dir + ['/'] + name;
    LastIndexAfter(dir, '/', name);
    assert path[|dir| + 1..] == name;
    assert name == base + ['.'] + ext;
    LastIndexAfter(base, '.', ext);
    assert name[|base|..] == "." + ext;
  }

  /**
   * A file whose name is only "." + ext (an empty rendered template) has no suffix in
   * `pathlib`'s sense, so the new suffix is appended after the extension.
   */
  lemma WithSuffixOfDotName(dir: string, ext: string, suffix: string)
    requires ext != "" && '/' !in ext && '.' !in ext
    ensures WithSuffix(JoinPath(dir, "." + ext), suffix) == JoinPath(dir, "." + ext) + suffix
  {
    var path := JoinPath(dir, "." + ext);
    assert path == dir + ['/'] + ("." + ext);
    LastIndexAfter(dir, '/', "." + ext);
    var name := path[|dir| + 1..];
    assert name == [] + ['.'] + ext;
    LastIndexAfter([], '.', ext);
  }

  /** Such a file has no suffix. */
  lemma SuffixOfDotName(dir: string, ext: string)
    requires ext != "" && '/' !in ext && '.' !in ext
    ensures Suffix(JoinPath(dir, "." + ext)) == ""
  {
    var path := JoinPath(dir, "." + ext);
    assert path == dir + ['/'] + ("." + ext);
    LastIndexAfter(dir, '/', "." + ext);
    var name := path[|dir| + 1..];
    assert name == [] + ['.'] + ext;
    LastIndexAfter([], '.', ext);
  }

  /** `with_suffix` replaces exactly the suffix `suffix` reports, and nothing else. */
  lemma WithSuffixReplacesSuffix(path: string, suffix: string)
    ensures |Suffix(path)| <= |path|
    ensures WithSuffix(path, suffix) == path[..|path| - |Suffix(path)|] + suffix
  {
    var k := LastIndex(path, '/');
    var dir := path[..k + 1];
    var name := path[k + 1..];
    var i := LastIndex(name, '.');
    assert path == dir + name;
    if 0 < i < |name| - 1 {
      assert |Suffix(path)| == |name| - i;
      assert path[..|path| - |Suffix(path)|] == dir + name[..i];
    } else {
      assert path[..|path| - |Suffix(path)|] == path;
    }
  }
}
