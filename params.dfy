/**
 * The exported factory's reading of its first argument (src/main.js:83-93): either a
 * repository URL with an optional `#ref` suffix, or an object with `user`, `repo`, `ref`.
 * A JavaScript value that may be `undefined` is an `Option<string>`.
 */
module Params {
  import opened Wrappers
  import opened Strings

  /** The factory's first argument, by its `typeof`. */
  datatype Param =
    | Text(s: string)
    | Fields(user: Option<string>, repo: Option<string>, ref: Option<string>)
    | Other

  /** What the factory hands to the job constructor. */
  datatype Coordinates = Coordinates(user: Option<string>, repo: Option<string>, ref: Option<string>)

  const InvalidParameter := "Invalid parameter type. Should be repo URL string or object containing repo and user."

  /** JavaScript truthiness of a string that may be `undefined`. */
  predicate Truthy(v: Option<string>)
  {
    v.Some? && v.value != ""
  }

  /** `v || fallback`. */
  function OrElse(v: Option<string>, fallback: string): string
  {
    if Truthy(v) then v.value else fallback
  }

  /** String conversion by concatenation: `'' + undefined` is `"undefined"`. */
  function Display(v: Option<string>): string
  {
    if v.Some? then v.value else "undefined"
  }

  /**
   * The URL whose segments name the repository: `vcsurl(pieces[0]) || pieces[0]`, where
   * `vcsurl` is the value the `vcsurl` library returned for the text before the first `#`.
   */
  function UrlText(s: string, vcsurl: Option<string>): string
  {
    OrElse(vcsurl, Split(s, '#')[0])
  }

  /** The string form: `ref` is the second `#` piece, user and repo the last two `/` segments. */
  function ParseText(s: string, vcsurl: Option<string>): Coordinates
  {
    var pieces := Split(s, '#');
    var url := Split(UrlText(s, vcsurl), '/');
    Coordinates(
      if |url| >= 2 then Some(url[|url| - 2]) else None,
      Some(url[|url| - 1]),
      if |pieces| >= 2 then Some(pieces[1]) else None)
  }

  /** The factory's parameter handling: strings are parsed, objects pass through, the rest throws. */
  function Resolve(params: Param, vcsurl: Option<string>): (r: Result<Coordinates, string>)
    ensures r.Failure? <==> params.Other?
    ensures r.Failure? ==> r.error == InvalidParameter
    ensures params.Fields? ==> r.value == Coordinates(params.user, params.repo, params.ref)
  {
    match params
    case Text(s) => Success(ParseText(s, vcsurl))
    case Fields(user, repo, ref) => Success(Coordinates(user, repo, ref))
    case Other => Failure(InvalidParameter)
  }

  /** Without a `#`, there is no ref, and the whole string is the URL text. */
  lemma NoHashNoRef(s: string, vcsurl: Option<string>)
    requires '#' !in s
    ensures ParseText(s, vcsurl).ref == None
    ensures UrlText(s, vcsurl) == OrElse(vcsurl, s)
  {
    SplitNoSeparator(s, '#');
  }

  /** The ref is the text between the first `#` and the next one (or the end). */
  lemma RefAfterHash(a: string, b: string, tail: string, vcsurl: Option<string>)
    requires '#' !in a && '#' !in b
    requires tail == [] || tail[0] == '#'
    ensures ParseText(a + "#" + b + tail, vcsurl).ref == Some(b)
    ensures UrlText(a + "#" + b + tail, vcsurl) == OrElse(vcsurl, a)
  {
    var s := a + "#" + b + tail;
    assert s == a + ['#'] + (b + tail);
    SplitAround(a, b + tail, '#');
    SplitNoSeparator(a, '#');
    if tail == [] {
      assert b + tail == b;
      SplitNoSeparator(b, '#');
    } else {
      assert b + tail == b + ['#'] + tail[1..];
      SplitAround(b, tail[1..], '#');
      SplitNoSeparator(b, '#');
    }
  }

  /**
   * User and repo are the last two `/` segments of the URL text: after a prefix ending in `/`,
   * or with nothing before them (the `user/repo` shorthand).
   */
  lemma UserRepoAreLastSegments(s: string, vcsurl: Option<string>, prefix: string, user: string, repo: string)
    requires UrlText(s, vcsurl) == prefix + user + "/" + repo
    requires prefix == [] || prefix[|prefix| - 1] == '/'
    requires '/' !in user && '/' !in repo
    ensures ParseText(s, vcsurl).user == Some(user)
    ensures ParseText(s, vcsurl).repo == Some(repo)
  {
    SplitNoSeparator(user, '/');
    SplitNoSeparator(repo, '/');
    if prefix == [] {
      assert prefix + user + "/" + repo == user + ['/'] + repo;
      SplitAround(user, repo, '/');
    } else {
      var front := prefix[..|prefix| - 1];
      assert prefix == front + "/";
      assert prefix + user + "/" + repo == (front + ['/'] + user) + ['/'] + repo;
      SplitAround(front + ['/'] + user, repo, '/');
      SplitAround(front, user, '/');
    }
  }

  /** A URL text with no `/` names only a repo; the user is `undefined`. */
  lemma SingleSegmentHasNoUser(s: string, vcsurl: Option<string>)
    requires '/' !in UrlText(s, vcsurl)
    ensures ParseText(s, vcsurl).user == None
    ensures ParseText(s, vcsurl).repo == Some(UrlText(s, vcsurl))
  {
    SplitNoSeparator(UrlText(s, vcsurl), '/');
  }

  /** A GitHub URL with a `#ref` suffix, not rewritten by `vcsurl`, reads back as its parts. */
  lemma GithubUrlRoundTrip(user: string, repo: string, ref: string)
    requires '/' !in user && '/' !in repo && '#' !in user && '#' !in repo && '#' !in ref
    ensures ParseText("https://github.com/" + user + "/" + repo + "#" + ref, None)
         == Coordinates(Some(user), Some(repo), Some(ref))
  {
    var url := "https://github.com/" + user + "/" + repo;
    assert '#' !in "https://github.com/";
    assert '#' !in url;
    RefAfterHash(url, ref, [], None);
    assert url + "#" + ref + [] == url + "#" + ref;
    UserRepoAreLastSegments(url + "#" + ref, None, "https://github.com/", user, repo);
  }
}
