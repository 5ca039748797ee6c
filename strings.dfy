/** The few Kotlin standard-library string operations the argument builder relies on:
    `joinToString(sep)`, `removeSuffix(suffix)` and `replace(old, new)` with one-character
    arguments, plus the splitting that undoes a join. */
module Strings {

  /** Number of occurrences of `c` in `s`. */
  function Occurrences<T(==)>(s: seq<T>, c: T): nat
  {
    if s == [] then 0 else (if s[0] == c then 1 else 0) + Occurrences(s[1..], c)
  }

  /** Occurrences add up over a concatenation. */
  lemma {:induction false} OccurrencesConcat<T>(a: seq<T>, b: seq<T>, c: T)
    ensures Occurrences(a + b, c) == Occurrences(a, c) + Occurrences(b, c)
  {
    if a == [] {
      assert a + b == b;
    } else {
      assert (a + b)[0] == a[0] && (a + b)[1..] == a[1..] + b;
      OccurrencesConcat(a[1..], b, c);
    }
  }

  /** `xs.joinToString(sep)`: the elements in order, `sep` between consecutive ones. */
  function JoinWith(xs: seq<string>, sep: char): string
  {
    if |xs| == 0 then ""
    else if |xs| == 1 then xs[0]
    else xs[0] + [sep] + JoinWith(xs[1..], sep)
  }

  /** The pieces of `s` between occurrences of `sep`; the inverse of JoinWith. */
  function Split(s: string, sep: char): (parts: seq<string>)
    ensures |parts| == Occurrences(s, sep) + 1
    ensures forall i :: 0 <= i < |parts| ==> sep !in parts[i]
  {
    if s == [] then [""]
    else
      var rest := Split(s[1..], sep);
      if s[0] == sep then [""] + rest
      else [[s[0]] + rest[0]] + rest[1..]
  }

  /** Every element followed by `sep`, as a StringBuilder fed `append(x).append(sep)` ends up. */
  function Terminated(xs: seq<string>, sep: char): string
  {
    if xs == [] then "" else xs[0] + [sep] + Terminated(xs[1..], sep)
  }

  /** `s.removeSuffix(suffix)`: drops `suffix` once if `s` ends with it, otherwise `s` itself. */
  function RemoveSuffix(s: string, suffix: string): (r: string)
    ensures r == s || r + suffix == s
    ensures |suffix| > 0 && r != s ==> |r| < |s|
  {
    if |suffix| <= |s| && s[|s| - |suffix|..] == suffix then s[..|s| - |suffix|] else s
  }

  /** `s.replace(from, to)` for one-character `from` and `to`. */
  function ReplaceChar(s: string, from: char, to: char): string
  {
    if s == [] then "" else [if s[0] == from then to else s[0]] + ReplaceChar(s[1..], from, to)
  }

  /** ReplaceChar turns each `from` into `to`, leaves every other character where it was, and
      leaves no `from` behind. */
  lemma {:induction false} ReplaceCharPointwise(s: string, from: char, to: char)
    ensures |ReplaceChar(s, from, to)| == |s|
    ensures forall i :: 0 <= i < |s| ==> ReplaceChar(s, from, to)[i] == if s[i] == from then to else s[i]
    ensures from != to ==> from !in ReplaceChar(s, from, to)
  {
    if s != [] {
      ReplaceCharPointwise(s[1..], from, to);
    }
  }

  /** RemoveSuffix undoes appending the suffix. */
  lemma RemoveAppendedSuffix(x: string, suffix: string)
    ensures RemoveSuffix(x + suffix, suffix) == x
  {
    assert (x + suffix)[|x|..] == suffix;
    assert (x + suffix)[..|x|] == x;
  }

  /** A string without `sep` is a single piece. */
  lemma {:induction false} SplitWithoutSeparator(x: string, sep: char)
    requires sep !in x
    ensures Split(x, sep) == [x]
  {
    if x != [] {
      SplitWithoutSeparator(x[1..], sep);
      assert [x[0]] + x[1..] == x;
    }
  }

  /** Splitting at the first separator: the piece before it comes first. */
  lemma {:induction false} SplitAtSeparator(x: string, sep: char, y: string)
    requires sep !in x
    ensures Split(x + [sep] + y, sep) == [x] + Split(y, sep)
  {
    if x == [] {
      assert x + [sep] + y == [sep] + y;
      assert ([sep] + y)[1..] == y;
    } else {
      var s := x + [sep] + y;
      assert s[0] == x[0] && s[1..] == x[1..] + [sep] + y;
      SplitAtSeparator(x[1..], sep, y);
      assert [x[0]] + x[1..] == x;
    }
  }

  /** Splitting a join gives back the elements, provided none of them contains the separator.
      (An empty list is excluded: it joins to "" just like [""].) */
  lemma {:induction false} SplitJoin(xs: seq<string>, sep: char)
    requires |xs| >= 1
    requires forall i :: 0 <= i < |xs| ==> sep !in xs[i]
    ensures Split(JoinWith(xs, sep), sep) == xs
  {
    if |xs| == 1 {
      SplitWithoutSeparator(xs[0], sep);
    } else {
      SplitJoin(xs[1..], sep);
      SplitAtSeparator(xs[0], sep, JoinWith(xs[1..], sep));
      assert [xs[0]] + xs[1..] == xs;
    }
  }

  /** Joining the pieces of a split gives back the string, whatever it contains. */
  lemma {:induction false} JoinSplit(s: string, sep: char)
    ensures JoinWith(Split(s, sep), sep) == s
  {
    if s != [] {
      var rest := Split(s[1..], sep);
      JoinSplit(s[1..], sep);
      if s[0] == sep {
        assert ([""] + rest)[1..] == rest;
        assert [sep] + s[1..] == s;
      } else {
        var parts := [[s[0]] + rest[0]] + rest[1..];
        if |rest| == 1 {
          assert parts == [[s[0]] + rest[0]];
        } else {
          assert parts[1..] == rest[1..];
          assert JoinWith(rest, sep) == rest[0] + [sep] + JoinWith(rest[1..], sep);
        }
        assert [s[0]] + s[1..] == s;
      }
    }
  }

  /** Terminating every element is the same as joining and appending one separator. */
  lemma {:induction false} TerminatedIsJoinThenSeparator(xs: seq<string>, sep: char)
    requires xs != []
    ensures Terminated(xs, sep) == JoinWith(xs, sep) + [sep]
  {
    if |xs| > 1 {
      TerminatedIsJoinThenSeparator(xs[1..], sep);
    }
  }

  /** Removing one trailing separator from the terminated form yields the join;
      both are "" when there are no elements. */
  lemma StripTerminator(xs: seq<string>, sep: char)
    ensures RemoveSuffix(Terminated(xs, sep), [sep]) == JoinWith(xs, sep)
  {
    if xs != [] {
      TerminatedIsJoinThenSeparator(xs, sep);
      RemoveAppendedSuffix(JoinWith(xs, sep), [sep]);
    }
  }

  /** Terminating a concatenation terminates each part. */
  lemma {:induction false} TerminatedConcat(a: seq<string>, b: seq<string>, sep: char)
    ensures Terminated(a + b, sep) == Terminated(a, sep) + Terminated(b, sep)
  {
    if a == [] {
      assert a + b == b;
    } else {
      assert (a + b)[0] == a[0] && (a + b)[1..] == a[1..] + b;
      TerminatedConcat(a[1..], b, sep);
    }
  }

  /** The two-element example: ["a", "b"] joined with ';' is "a;b". */
  lemma JoinTwoFilters()
    ensures JoinWith(["a", "b"], ';') == "a;b"
  {
    assert ["a", "b"][1..] == ["b"];
  }
}
