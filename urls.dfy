/** The URLs and the archive name the job builds by concatenation (src/main.js:22-24, 133-136). */
module Urls {
  import opened Strings
  import Paths

  /** `this.ref ? '?ref=' + this.ref : ''`. */
  function RefQuery(ref: string): string
  {
    if ref != "" then "?ref=" + ref else ""
  }

  /** `initialUrl + path + initialUrlRef`: the contents listing of `path` (the root is `""`). */
  function ListingUrl(user: string, repo: string, ref: string, path: string): string
  {
    "https://api.github.com/repos/" + user + "/" + repo + "/contents/" + path + RefQuery(ref)
  }

  /** `rawUrl + path`: the raw content of the file at `path`. */
  function RawUrl(user: string, repo: string, ref: string, path: string): string
  {
    "https://raw.github.com/" + user + "/" + repo + "/" + ref + "/" + path
  }

  /** The archive of the whole repository at `ref`. */
  function ZipUrl(user: string, repo: string, ref: string): string
  {
    "https://nodeload.github.com/" + user + "/" + repo + "/zip/" + ref
  }

  /** `repo + '-' + ref`: the folder the archive unpacks into. */
  function ZipBaseDir(repo: string, ref: string): string
  {
    repo + "-" + ref
  }

  /** The archive's file name: `<repo>-<ref>.zip`, a single path segment when repo and ref are. */
  function ZipName(repo: string, ref: string): (name: string)
    ensures '/' !in repo && '/' !in ref ==> '/' !in name
  {
    ZipBaseDir(repo, ref) + ".zip"
  }

  /** The archive is one file directly inside the temporary directory. */
  lemma ZipFileInTmpdir(tmpdir: string, repo: string, ref: string)
    requires '/' !in repo && '/' !in ref
    ensures Paths.Basename(Paths.Join(tmpdir, ZipName(repo, ref))) == ZipName(repo, ref)
  {
    var name := ZipName(repo, ref);
    assert name[|name| - 1] == 'p';
    Paths.BasenameOfLastSegment(tmpdir, name);
  }

  /** A ref with a `/`, such as `a/b`, puts the archive one directory deeper, in `<tmpdir>/<repo>-a`. */
  lemma SlashInRefNestsArchive(tmpdir: string)
    ensures ZipName("r", "a/b") == "r-a/b.zip"
    ensures Paths.Join(tmpdir, ZipName("r", "a/b")) == Paths.Join(Paths.Join(tmpdir, "r-a"), "b.zip")
    ensures Paths.Basename(Paths.Join(tmpdir, ZipName("r", "a/b"))) == "b.zip"
  {
    assert ZipName("r", "a/b") == "r-a/b.zip";
    assert Paths.Join(tmpdir, "r-a/b.zip") == tmpdir + "/" + "r-a" + "/" + "b.zip";
    Paths.BasenameOfLastSegment(tmpdir + "/" + "r-a", "b.zip");
  }

  /** Read back by `/` segments, the archive URL names user, repo and ref in place. */
  lemma ZipUrlSegments(user: string, repo: string, ref: string)
    requires '/' !in user && '/' !in repo && '/' !in ref
    ensures Split(ZipUrl(user, repo, ref), '/') == ["https:", "", "nodeload.github.com", user, repo, "zip", ref]
  {
    var pieces := [user, repo, "zip", ref];
    ZipUrlIsJoin(user, repo, ref);
    UrlSegments("https:", "nodeload.github.com", pieces, ZipUrl(user, repo, ref));
  }

  /** Four pieces after a prefix, separated by `s`, regrouped to the right. */
  lemma Nest4(p: string, a: string, b: string, c: string, d: string, s: string)
    ensures p + a + s + b + s + c + s + d == p + (a + s + (b + s + (c + s + d)))
  {
  }

  lemma ZipUrlIsJoin(user: string, repo: string, ref: string)
    ensures ZipUrl(user, repo, ref) == "https:" + "//" + "nodeload.github.com" + "/" + Join([user, repo, "zip", ref], '/')
  {
    var host := "https:" + "//" + "nodeload.github.com" + "/";
    assert host == "https://nodeload.github.com/";
    var x := host + user + "/" + repo;
    assert x + "/zip/" + ref == x + "/" + "zip" + "/" + ref by {
      assert "/zip/" == "/" + "zip" + "/";
    }
    Nest4(host, user, repo, "zip", ref, "/");
    JoinCons("zip", [ref], '/');
    JoinCons(repo, ["zip", ref], '/');
    JoinCons(user, [repo, "zip", ref], '/');
  }

  /** Read back by `/` segments, a raw URL is the host, user, repo, ref, then the path's segments. */
  lemma RawUrlSegments(user: string, repo: string, ref: string, path: string)
    requires '/' !in user && '/' !in repo && '/' !in ref
    ensures Split(RawUrl(user, repo, ref, path), '/')
         == ["https:", "", "raw.github.com", user, repo, ref] + Split(path, '/')
  {
    var pieces := [user, repo, ref] + Split(path, '/');
    RawUrlIsJoin(user, repo, ref, path);
    UrlSegments("https:", "raw.github.com", pieces, RawUrl(user, repo, ref, path));
  }

  lemma RawUrlIsJoin(user: string, repo: string, ref: string, path: string)
    ensures RawUrl(user, repo, ref, path)
         == "https:" + "//" + "raw.github.com" + "/" + Join([user, repo, ref] + Split(path, '/'), '/')
  {
    var parts := Split(path, '/');
    var host := "https:" + "//" + "raw.github.com" + "/";
    assert host == "https://raw.github.com/";
    Nest4(host, user, repo, ref, path, "/");
    JoinSplit(path, '/');
    JoinCons(ref, parts, '/');
    JoinCons(repo, [ref] + parts, '/');
    JoinCons(user, [repo] + ([ref] + parts), '/');
    assert [user, repo, ref] + parts == [user] + ([repo] + ([ref] + parts));
  }

  /** `scheme//host/p0/p1/...` splits into the scheme, an empty segment, the host and the pieces. */
  lemma UrlSegments(scheme: string, host: string, pieces: seq<string>, url: string)
    requires '/' !in scheme && '/' !in host && |pieces| >= 1
    requires forall i :: 0 <= i < |pieces| ==> '/' !in pieces[i]
    requires url == scheme + "//" + host + "/" + Join(pieces, '/')
    ensures Split(url, '/') == [scheme, [], host] + pieces
  {
    var parts := [scheme] + ([[]] + ([host] + pieces));
    JoinCons(host, pieces, '/');
    JoinCons([], [host] + pieces, '/');
    JoinCons(scheme, [[]] + ([host] + pieces), '/');
    assert Join(parts, '/') == scheme + "//" + host + "/" + Join(pieces, '/');
    forall i | 0 <= i < |parts| ensures '/' !in parts[i] {
      if i >= 3 {
        assert parts[i] == pieces[i - 3];
      }
    }
    SplitJoin(parts, '/');
    assert parts == [scheme, [], host] + pieces;
  }

  /** Read back by `?`, a listing URL with a ref is the contents path, then `ref=` and the ref. */
  lemma ListingUrlQuery(user: string, repo: string, ref: string, path: string)
    requires ref != ""
    requires '?' !in user && '?' !in repo && '?' !in ref && '?' !in path
    ensures Split(ListingUrl(user, repo, ref, path), '?')
         == ["https://api.github.com/repos/" + user + "/" + repo + "/contents/" + path, "ref=" + ref]
  {
    var base := "https://api.github.com/repos/" + user + "/" + repo + "/contents/" + path;
    assert '?' !in "https://api.github.com/repos/" && '?' !in "/contents/";
    assert '?' !in base;
    assert ListingUrl(user, repo, ref, path) == base + ['?'] + ("ref=" + ref);
    SplitAround(base, "ref=" + ref, '?');
    SplitNoSeparator(base, '?');
    SplitNoSeparator("ref=" + ref, '?');
  }
}
