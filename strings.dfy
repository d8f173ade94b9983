/** The string operations the core relies on: `join`, `split` and `startsWith`. */
module Strings {
  import opened Wrappers

  /** `parts.join(sep)`. */
  function Join(parts: seq<string>, sep: string): string
  {
    if |parts| == 0 then ""
    else if |parts| == 1 then parts[0]
    else parts[0] + sep + Join(parts[1..], sep)
  }

  /** `s.split(c)` for a one-character separator: the maximal pieces between separators.
      As in JavaScript, the empty string splits into one empty piece. */
  function Split(s: string, c: char): (r: seq<string>)
    ensures |r| >= 1
    ensures forall i :: 0 <= i < |r| ==> c !in r[i]
  {
    if |s| == 0 then [""]
    else if s[0] == c then [""] + Split(s[1..], c)
    else
      var t := Split(s[1..], c);
      [[s[0]] + t[0]] + t[1..]
  }

  /** `s.startsWith(prefix)`. */
  predicate StartsWith(s: string, prefix: string)
  {
    |prefix| <= |s| && s[..|prefix|] == prefix
  }

  /** A string without the separator splits into itself. */
  lemma {:induction false} SplitNoSeparator(x: string, c: char)
    requires c !in x
    ensures Split(x, c) == [x]
  {
    if |x| > 0 {
      SplitNoSeparator(x[1..], c);
      assert x == [x[0]] + x[1..];
    }
  }

  /** Splitting stops at the first separator. */
  lemma {:induction false} SplitAtSeparator(x: string, c: char, y: string)
    requires c !in x
    ensures Split(x + [c] + y, c) == [x] + Split(y, c)
  {
    var s := x + [c] + y;
    if |x| == 0 {
      assert s[1..] == y;
    } else {
      assert s[0] == x[0];
      assert s[1..] == x[1..] + [c] + y;
      SplitAtSeparator(x[1..], c, y);
      assert x == [x[0]] + x[1..];
    }
  }

  /** Splitting undoes joining, when no part holds the separator. */
  lemma {:induction false} SplitJoin(parts: seq<string>, c: char)
    requires |parts| >= 1
    requires forall i :: 0 <= i < |parts| ==> c !in parts[i]
    ensures Split(Join(parts, [c]), c) == parts
  {
    if |parts| == 1 {
      SplitNoSeparator(parts[0], c);
    } else {
      SplitJoin(parts[1..], c);
      SplitAtSeparator(parts[0], c, Join(parts[1..], [c]));
      assert parts == [parts[0]] + parts[1..];
    }
  }

  /** Joining undoes splitting, for every string. */
  lemma {:induction false} JoinSplit(s: string, c: char)
    ensures Join(Split(s, c), [c]) == s
  {
    if |s| == 0 {
    } else if s[0] == c {
      JoinSplit(s[1..], c);
      var t := Split(s[1..], c);
      assert ([""] + t)[1..] == t;
      assert s == [c] + s[1..];
    } else {
      JoinSplit(s[1..], c);
      var t := Split(s[1..], c);
      var r := [[s[0]] + t[0]] + t[1..];
      assert r[1..] == t[1..];
      if |t| == 1 {
        assert s == [s[0]] + s[1..];
      } else {
        assert Join(t, [c]) == t[0] + [c] + Join(t[1..], [c]);
        assert s == [s[0]] + s[1..];
      }
    }
  }

  /** The text before the first `c`, and the text after it when there is one. */
  function SplitAtFirst(s: string, c: char): (r: (string, Option<string>))
    ensures c !in r.0
  {
    if |s| == 0 then ("", None)
    else if s[0] == c then ("", Some(s[1..]))
    else
      var (a, b) := SplitAtFirst(s[1..], c);
      ([s[0]] + a, b)
  }

  lemma {:induction false} SplitAtFirstOf(x: string, c: char, y: string)
    requires c !in x
    ensures SplitAtFirst(x + [c] + y, c) == (x, Some(y))
  {
    var s := x + [c] + y;
    if |x| == 0 {
      assert s[1..] == y;
    } else {
      assert s[1..] == x[1..] + [c] + y;
      SplitAtFirstOf(x[1..], c, y);
      assert x == [x[0]] + x[1..];
    }
  }

  /** A character in no part and not in the separator is not in the joined string. */
  lemma {:induction false} JoinAvoids(parts: seq<string>, sep: string, c: char)
    requires c !in sep
    requires forall i :: 0 <= i < |parts| ==> c !in parts[i]
    ensures c !in Join(parts, sep)
  {
    if |parts| > 1 {
      JoinAvoids(parts[1..], sep, c);
    }
  }

  /** JavaScript truthiness of an optional string: defined and not empty. */
  predicate Truthy(o: Option<string>)
  {
    o.Some? && o.value != ""
  }

  /** `a || b` on optional strings. */
  function OrElse(a: Option<string>, b: Option<string>): Option<string>
  {
    if Truthy(a) then a else b
  }

  /** `a || d` with a non-empty string fallback: never empty. */
  function OrDefault(a: Option<string>, d: string): (r: string)
    ensures d != "" ==> r != ""
    ensures r == d || Some(r) == a
  {
    if Truthy(a) then a.value else d
  }
}
