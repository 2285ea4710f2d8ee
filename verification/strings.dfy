/** Searching a string for a character, as `str.split(sep, 1)` does, and
    splitting a string at every occurrence of a separator. */
module Strings {

  /** Index of the first occurrence of `c` in `s`, or `|s|` when there is none. */
  function IndexOf(s: string, c: char): (k: nat)
    ensures k <= |s|
    ensures c !in s[..k]
    ensures k < |s| ==> s[k] == c
  {
    if s == [] || s[0] == c then 0
    else
      var k := 1 + IndexOf(s[1..], c);
      assert s[..k] == [s[0]] + s[1..][..k - 1];
      k
  }

  /** In `a + [c] + b` with no `c` in `a`, the first `c` is the one after `a`. */
  lemma {:induction false} IndexOfJoin(a: string, c: char, b: string)
    requires c !in a
    ensures IndexOf(a + [c] + b, c) == |a|
    ensures (a + [c] + b)[..|a|] == a && (a + [c] + b)[|a| + 1..] == b
    decreases |a|
  {
    var s := a + [c] + b;
    assert s[..|a|] == a;
    if a != [] {
      assert s[0] == a[0] && s[1..] == a[1..] + [c] + b;
      IndexOfJoin(a[1..], c, b);
    }
  }

  /** `s.split(sep)`: the pieces between the occurrences of `sep`, in
      order; none of them holds `sep`, and a string without `sep` is one
      piece. */
  function Split(s: string, sep: char): (pieces: seq<string>)
    ensures |pieces| >= 1
    ensures forall i :: 0 <= i < |pieces| ==> sep !in pieces[i]
    ensures sep !in s ==> pieces == [s]
    decreases |s|
  {
    var k := IndexOf(s, sep);
    if k == |s| then
      assert s[..k] == s;
      [s]
    else [s[..k]] + Split(s[k + 1..], sep)
  }

  /** Splitting `a + [sep] + b`, with no `sep` in `a`, yields `a` and then
      the pieces of `b`. */
  lemma SplitJoin(a: string, sep: char, b: string)
    requires sep !in a
    ensures Split(a + [sep] + b, sep) == [a] + Split(b, sep)
  {
    IndexOfJoin(a, sep, b);
  }
}
