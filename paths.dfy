/**
 * The parts of Node's `path` module the downloader relies on, for POSIX paths and
 * without normalisation of `.`, `..` or repeated separators.
 */
module Paths {
  import opened Strings

  /** `path.join(dir, p)`: the two parts joined by one separator. */
  function Join(dir: string, p: string): string
  {
    dir + "/" + p
  }

  /** A path that starts at the root. */
  predicate IsAbsolute(p: string)
  {
    p != [] && p[0] == '/'
  }

  /**
   * `path.resolve(dir, name)`: an absolute `name` wins, a relative one is placed under `dir`.
   * Either way the result ends with `name`, and it is absolute when `dir` is. Node would also put
   * the working directory in front of a relative `dir`; that step is not modelled.
   */
  function Resolve(dir: string, name: string): (r: string)
    ensures IsAbsolute(name) ==> r == name
    ensures IsAbsolute(dir) ==> IsAbsolute(r)
    ensures |name| <= |r| && r[|r| - |name|..] == name
  {
    if IsAbsolute(name) then name else Join(dir, name)
  }

  /** Resolving an already resolved path under an absolute directory changes nothing. */
  lemma ResolveIdempotent(dir: string, name: string)
    requires IsAbsolute(dir)
    ensures Resolve(dir, Resolve(dir, name)) == Resolve(dir, name)
  {
  }

  /** `s` without its trailing separators. */
  function TrimTrailingSlashes(s: string): (r: string)
    ensures r <= s
    ensures r == [] || r[|r| - 1] != '/'
    ensures forall i :: |r| <= i < |s| ==> s[i] == '/'
  {
    if s != [] && s[|s| - 1] == '/' then TrimTrailingSlashes(s[..|s| - 1]) else s
  }

  /** `path.basename(s)`: the last non-empty segment, or the empty string when there is none. */
  function Basename(s: string): (r: string)
    ensures '/' !in r
  {
    var parts := Split(TrimTrailingSlashes(s), '/');
    parts[|parts| - 1]
  }

  /** Trailing separators do not change the basename. */
  lemma BasenameIgnoresTrailingSlash(s: string)
    ensures Basename(s + "/") == Basename(s)
  {
    assert (s + "/")[..|s|] == s;
  }

  /** The basename of `prefix/name` is `name`, with or without a trailing separator. */
  lemma BasenameOfLastSegment(prefix: string, name: string)
    requires name != [] && '/' !in name
    ensures Basename(prefix + "/" + name) == name
    ensures Basename(prefix + "/" + name + "/") == name
    ensures Basename(name) == name && Basename(name + "/") == name
  {
    var full := prefix + "/" + name;
    assert name[|name| - 1] in name;
    assert TrimTrailingSlashes(full) == full;
    SplitAround(prefix, name, '/');
    SplitNoSeparator(name, '/');
    BasenameIgnoresTrailingSlash(full);
    assert TrimTrailingSlashes(name) == name;
    BasenameIgnoresTrailingSlash(name);
  }
}
