/** Python's `readlines()` on a text file: the text is cut after every
    newline and each line keeps its terminator. */
module Lines {
  import opened Strings

  const Newline: char := '\n'

  /** The lines joined back together. */
  function Concat(lines: seq<string>): string {
    if lines == [] then [] else lines[0] + Concat(lines[1..])
  }

  /** A line is non-empty, holds a newline at most as its last character,
      and ends in one unless it is the last line of the file. */
  predicate WellFormedLine(line: string, last: bool) {
    && |line| > 0
    && Newline !in line[..|line| - 1]
    && (!last ==> line[|line| - 1] == Newline)
  }

  /** `readlines()`: the lines partition the text, and each is well formed. */
  function ReadLines(s: string): (lines: seq<string>)
    ensures Concat(lines) == s
    ensures forall i :: 0 <= i < |lines| ==> WellFormedLine(lines[i], i == |lines| - 1)
    decreases |s|
  {
    if s == [] then []
    else
      var k := IndexOf(s, Newline);
      var n := if k < |s| then k + 1 else |s|;
      var rest := ReadLines(s[n..]);
      assert s[..n][..n - 1] <= s[..k];
      assert s[..n] + s[n..] == s;
      [s[..n]] + rest
  }
}
