/** JavaScript's `String.prototype.split` with a one-character separator, and its inverse `join`. */
module Strings {

  /** `s.split(sep)`: the maximal runs of `s` free of `sep`, in order; never empty. */
  function Split(s: string, sep: char): (parts: seq<string>)
    ensures |parts| >= 1
    ensures forall i :: 0 <= i < |parts| ==> sep !in parts[i]
    decreases |s|
  {
    if s == [] then [[]]
    else
      var rest := Split(s[1..], sep);
      if s[0] == sep then [[]] + rest
      else [[s[0]] + rest[0]] + rest[1..]
  }

  /** `parts.join(sep)`. */
  function Join(parts: seq<string>, sep: char): string
  {
    if parts == [] then []
    else if |parts| == 1 then parts[0]
    else parts[0] + [sep] + Join(parts[1..], sep)
  }

  /** A string without the separator splits into itself alone. */
  lemma {:induction false} SplitNoSeparator(s: string, sep: char)
    requires sep !in s
    ensures Split(s, sep) == [s]
  {
    if s != [] {
      assert s[0] != sep && sep !in s[1..];
      SplitNoSeparator(s[1..], sep);
      assert [s[0]] + s[1..] == s;
    }
  }

  /** A leading separator starts a new, empty first part. */
  lemma SplitConsSeparator(t: string, sep: char)
    ensures Split([sep] + t, sep) == [[]] + Split(t, sep)
  {
    assert ([sep] + t)[0] == sep && ([sep] + t)[1..] == t;
  }

  /** Any other leading character extends the first part. */
  lemma SplitConsOther(c: char, t: string, sep: char)
    requires c != sep
    ensures Split([c] + t, sep) == [[c] + Split(t, sep)[0]] + Split(t, sep)[1..]
  {
    assert ([c] + t)[0] == c && ([c] + t)[1..] == t;
  }

  /** Extending the first part of `left` and appending `right` commute. */
  lemma ExtendFirstAppend(c: char, left: seq<string>, right: seq<string>)
    requires |left| >= 1
    ensures [[c] + (left + right)[0]] + (left + right)[1..] == [[c] + left[0]] + left[1..] + right
  {
    assert (left + right)[0] == left[0];
    assert (left + right)[1..] == left[1..] + right;
  }

  /** A leading separator in front of both sides of a split around one separator. */
  lemma SplitAroundSeparatorStep(t: string, b: string, m: string, sep: char)
    requires Split(m, sep) == Split(t, sep) + Split(b, sep)
    ensures Split([sep] + m, sep) == Split([sep] + t, sep) + Split(b, sep)
  {
    SplitConsSeparator(m, sep);
    SplitConsSeparator(t, sep);
    assert [[]] + (Split(t, sep) + Split(b, sep)) == [[]] + Split(t, sep) + Split(b, sep);
  }

  /** Another leading character in front of both sides of a split around one separator. */
  lemma SplitAroundOtherStep(c: char, t: string, b: string, m: string, sep: char)
    requires c != sep
    requires Split(m, sep) == Split(t, sep) + Split(b, sep)
    ensures Split([c] + m, sep) == Split([c] + t, sep) + Split(b, sep)
  {
    SplitConsOther(c, m, sep);
    SplitConsOther(c, t, sep);
    ExtendFirstAppend(c, Split(t, sep), Split(b, sep));
  }

  /** Splitting around one separator splits each side independently. */
  lemma {:induction false} SplitAround(a: string, b: string, sep: char)
    ensures Split(a + [sep] + b, sep) == Split(a, sep) + Split(b, sep)
    decreases |a|
  {
    if a == [] {
      var s := a + [sep] + b;
      assert s[0] == sep && s[1..] == b;
    } else {
      var c, t := a[0], a[1..];
      var m := t + [sep] + b;
      SplitAround(t, b, sep);
      assert a == [c] + t;
      assert a + [sep] + b == [c] + m;
      if c == sep {
        SplitAroundSeparatorStep(t, b, m, sep);
      } else {
        SplitAroundOtherStep(c, t, b, m, sep);
      }
    }
  }

  lemma JoinCons(x: string, rest: seq<string>, sep: char)
    requires |rest| >= 1
    ensures Join([x] + rest, sep) == x + [sep] + Join(rest, sep)
  {
    assert ([x] + rest)[1..] == rest;
  }

  lemma JoinPrepend(x: string, parts: seq<string>, sep: char)
    requires |parts| >= 1
    ensures Join([x + parts[0]] + parts[1..], sep) == x + Join(parts, sep)
  {
    var joined := [x + parts[0]] + parts[1..];
    assert joined[1..] == parts[1..];
  }

  /** Joining the pieces of a split gives back the string. */
  lemma {:induction false} JoinSplit(s: string, sep: char)
    ensures Join(Split(s, sep), sep) == s
    decreases |s|
  {
    if s != [] {
      var rest := Split(s[1..], sep);
      JoinSplit(s[1..], sep);
      if s[0] == sep {
        assert ([[]] + rest)[1..] == rest;
      } else {
        JoinPrepend([s[0]], rest, sep);
      }
    }
  }

  /** Splitting a join of separator-free pieces gives back the pieces. */
  lemma {:induction false} SplitJoin(parts: seq<string>, sep: char)
    requires |parts| >= 1
    requires forall i :: 0 <= i < |parts| ==> sep !in parts[i]
    ensures Split(Join(parts, sep), sep) == parts
  {
    SplitNoSeparator(parts[0], sep);
    if |parts| > 1 {
      SplitJoin(parts[1..], sep);
      SplitAround(parts[0], Join(parts[1..], sep), sep);
    }
  }
}
