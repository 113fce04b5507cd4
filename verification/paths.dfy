/**
 * File paths as the transcoder builds them: `os.path.join` of a directory and
 * a name, a media path split into directory, stem and extension the way
 * `os.path.dirname` and `os.path.splitext` split it, and the patterns with a
 * single `*` that `glob` expands.
 */
module Paths {
  import opened Text

  predicate IsAbsolute(name: string) { name != [] && name[0] == '/' }

  /** What `os.path.join(dir, name)` puts in front of a relative `name`. */
  function Prefix(dir: string): (p: string)
    ensures p == [] || p[|p| - 1] == '/'
    ensures |dir| <= |p| && p[..|dir|] == dir
    ensures dir == [] ==> p == []
    ensures |p| <= |dir| + 1
    ensures dir != [] && dir[|dir| - 1] == '/' ==> p == dir
  {
    if dir == [] || dir[|dir| - 1] == '/' then dir else dir + "/"
  }

  /**
   * `os.path.join(dir, name)`: an absolute `name` replaces the directory;
   * otherwise the result is `dir`, a separator unless `dir` is empty or
   * already ends with one, and `name`.
   */
  function Join(dir: string, name: string): (p: string)
    ensures |name| <= |p| && p[|p| - |name|..] == name
    ensures IsAbsolute(name) ==> p == name
    ensures !IsAbsolute(name) ==> StartsWith(p, Prefix(dir))
    ensures !IsAbsolute(name) ==> |p| == |Prefix(dir)| + |name|
  {
    if IsAbsolute(name) then name else Prefix(dir) + name
  }

  /** Joining a relative, non-empty name and then appending equals joining the longer name. */
  lemma JoinAppend(dir: string, a: string, b: string)
    requires a != [] && !IsAbsolute(a)
    ensures Join(dir, a) + b == Join(dir, a + b)
  {
    assert (a + b)[0] == a[0];
  }

  /**
   * A media file's path as `(dir, stem, ext)`: `dir` is `os.path.dirname` of
   * the path, `stem + ext` its base name, and `ext` what `os.path.splitext`
   * returns as the extension.
   */
  datatype MediaPath = MediaPath(dir: string, stem: string, ext: string) {

    /** The path itself: the base name `stem + ext` in the directory. */
    function Full(): (f: string)
      ensures |stem + ext| <= |f| && f[|f| - |stem + ext|..] == stem + ext
      ensures !IsAbsolute(stem + ext) ==> StartsWith(f, Prefix(dir))
    {
      Join(dir, stem + ext)
    }

    /** `os.path.splitext(path)[0]`: the path without its extension. */
    function Name(): (n: string)
      ensures |stem| <= |n| && n[|n| - |stem|..] == stem
      ensures !IsAbsolute(stem) ==> StartsWith(n, Prefix(dir))
    {
      Join(dir, stem)
    }

    /**
     * Necessary conditions on the shape `dirname` and `splitext` give: a
     * non-empty stem, no separator in stem or extension, and an extension
     * that is empty or starts with a dot. Not every such triple is one
     * `splitext` would return (a stem of dots, say).
     */
    predicate WellFormed() {
      && stem != [] && '/' !in stem && '/' !in ext
      && (ext == [] || ext[0] == '.')
    }
  }

  /**
   * Whether `glob(before + "*" + after)` yields the existing file `p`, for a
   * pattern whose directory part holds no wildcard: `p` is `before`, then a
   * run of characters without a separator, then `after`.
   */
  predicate GlobMatch(p: string, before: string, after: string) {
    && |before| + |after| <= |p|
    && p[..|before|] == before
    && p[|p| - |after|..] == after
    && '/' !in p[|before|..|p| - |after|]
  }

  /** Filling the wildcard with a run free of separators gives a match. */
  lemma GlobMatchesFill(before: string, mid: string, after: string)
    requires '/' !in mid
    ensures GlobMatch(before + mid + after, before, after)
  {
    var p := before + mid + after;
    assert p[..|before|] == before;
    assert p[|p| - |after|..] == after;
    assert p[|before|..|p| - |after|] == mid;
  }

  /** Every match is such a filling. */
  lemma GlobMatchIsFill(p: string, before: string, after: string)
    requires GlobMatch(p, before, after)
    ensures p == before + p[|before|..|p| - |after|] + after
  {
    var mid := p[|before|..|p| - |after|];
    assert p == p[..|before|] + mid + p[|p| - |after|..];
  }
}
