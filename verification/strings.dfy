/** The few string operations of Go's `strings` package that the proxy uses. */
module Strings {

  /** `strings.HasPrefix`: the first `|prefix|` characters of `s` are `prefix`. */
  predicate HasPrefix(s: string, prefix: string)
    ensures HasPrefix(s, prefix) <==> |prefix| <= |s| && forall i :: 0 <= i < |prefix| ==> s[i] == prefix[i]
  {
    |prefix| <= |s| && s[..|prefix|] == prefix
  }

  /** Position of the first occurrence of `c` in `s`, or -1 when `c` does not
      occur (`strings.Index` with a one-character separator). */
  function IndexOf(s: string, c: char): (i: int)
    ensures -1 <= i < |s|
    ensures i == -1 <==> c !in s
    ensures 0 <= i ==> s[i] == c && c !in s[..i]
  {
    if |s| == 0 then -1
    else if s[0] == c then 0
    else
      var j := IndexOf(s[1..], c);
      if j == -1 then -1
      else
        assert s[..j + 1] == [s[0]] + s[1..][..j];
        j + 1
  }

  /** `strings.SplitN(s, sep, 2)` for a one-character separator: the whole
      string when `sep` does not occur, otherwise the parts before and after
      the FIRST occurrence. */
  function SplitFirst(s: string, sep: char): (parts: seq<string>)
    ensures |parts| == 1 || |parts| == 2
    ensures |parts| == 1 <==> sep !in s
    ensures |parts| == 1 ==> parts[0] == s
    ensures |parts| == 2 ==> s == parts[0] + [sep] + parts[1] && sep !in parts[0]
  {
    var i := IndexOf(s, sep);
    if i < 0 then [s]
    else
      assert s == s[..i] + [sep] + s[i + 1..];
      [s[..i], s[i + 1..]]
  }

  /** The first separator of `x + [sep] + y` is the one after `x` when `x` is
      free of it. */
  lemma {:induction false} IndexOfJoin(x: string, sep: char, y: string)
    requires sep !in x
    ensures IndexOf(x + [sep] + y, sep) == |x|
  {
    if |x| > 0 {
      assert (x + [sep] + y)[1..] == x[1..] + [sep] + y;
      IndexOfJoin(x[1..], sep, y);
    }
  }

  /** Joining the two parts back with the separator is undone by `SplitFirst`,
      whatever the second part contains, as long as the first part is free of
      the separator. */
  lemma SplitFirstOfJoin(before: string, sep: char, after: string)
    requires sep !in before
    ensures SplitFirst(before + [sep] + after, sep) == [before, after]
  {
    var s := before + [sep] + after;
    IndexOfJoin(before, sep, after);
    assert s[..|before|] == before;
    assert s[|before| + 1..] == after;
  }
}
