/** Path strings as the build script uses them: joining a directory with a
    name, making a path absolute, and deriving the `.pyi` stub path of an
    installed library. Normalisation of `..` and `.` components is not modelled. */
module Paths {
  import opened Strings

  /** The path separator. */
  const Sep: char := '/'

  /** `os.path.join` of a directory and a relative name. */
  function Join(dir: string, name: string): string {
    dir + [Sep] + name
  }

  predicate IsAbsolute(p: string) {
    |p| > 0 && p[0] == Sep
  }

  /** `os.path.abspath` relative to the working directory `cwd`:
      an absolute path is kept, a relative one is placed under `cwd`. */
  function AbsPath(cwd: string, p: string): (r: string)
    ensures IsAbsolute(cwd) ==> IsAbsolute(r)
    ensures IsAbsolute(p) ==> r == p
    ensures !IsAbsolute(p) ==> r == Join(cwd, p)
  {
    if IsAbsolute(p) then p else Join(cwd, p)
  }

  /** `s.split(".", 1)[0]`: the longest prefix of `s` that holds no dot. */
  function BeforeFirstDot(s: string): (p: string)
    ensures p <= s
    ensures '.' !in p
    ensures |p| < |s| ==> s[|p|] == '.'
  {
    s[..IndexOf(s, '.')]
  }

  /** The three properties of `BeforeFirstDot` pin its result down: any
      dot-free prefix of `s` that is either all of `s` or is followed by a
      dot is that result. */
  lemma BeforeFirstDotUnique(s: string, q: string)
    requires q <= s && '.' !in q
    requires |q| < |s| ==> s[|q|] == '.'
    ensures q == BeforeFirstDot(s)
  {
  }

  /** The stub file installed beside a library: everything from the first
      dot onwards is replaced by ".pyi". */
  function PyiPath(lib: string): string {
    BeforeFirstDot(lib) + ".pyi"
  }

  /** A stub path always ends in ".pyi" and shares with the library the
      part before the library's first dot. */
  lemma PyiPathShape(lib: string)
    ensures var p := PyiPath(lib);
      |p| >= 4 && p[|p| - 4..] == ".pyi" && p[..|p| - 4] <= lib && '.' !in p[..|p| - 4]
  {
    var b := BeforeFirstDot(lib);
    assert PyiPath(lib)[..|b|] == b;
  }

  /** The worked example of the suffix rule: a CPython-tagged extension
      module maps to the stub named after the module alone. */
  lemma PyiPathExample()
    ensures PyiPath("/out/mylib.cpython-310.so") == "/out/mylib.pyi"
  {
    var stem := "/out/mylib";
    var s := stem + ".cpython-310.so";
    assert '.' !in stem by {
      assert forall i :: 0 <= i < |stem| ==> stem[i] != '.';
    }
    BeforeFirstDotUnique(s, stem);
    assert s == "/out/mylib.cpython-310.so";
    assert stem + ".pyi" == "/out/mylib.pyi";
  }
}
