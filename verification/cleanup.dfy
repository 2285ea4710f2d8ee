/** `_get_clean_cmd`: the clean plan. It always starts with cmake's `clean`
    target; when an install manifest exists in the build directory, each of
    its lines (taken verbatim, terminator included) adds a removal of that
    path and of its `.pyi` stub, each only if the path exists. */
module Cleanup {
  import opened Wrappers
  import opened Seqs
  import opened Paths
  import opened Lines
  import opened Extension
  import opened Commands

  /** The part of the filesystem the clean plan reads. */
  datatype FileSystem = FileSystem(present: string -> bool, read: string -> string)

  const ManifestName: string := "install_manifest.txt"

  function ManifestPath(e: CmakeExtension): string {
    Join(e.binDir, ManifestName)
  }

  /** `[rm_cmd, path]`. */
  function RemoveCmd(rm: string, path: string): Command {
    [rm, path]
  }

  /** The removals one manifest line contributes: the line itself, then its
      stub, each only if it exists. */
  function LineRemovals(rm: string, line: string, present: string -> bool): seq<Command> {
    (if present(line) then [RemoveCmd(rm, line)] else [])
    + (if present(PyiPath(line)) then [RemoveCmd(rm, PyiPath(line))] else [])
  }

  /** A removal targets an existing path that is a manifest line or the stub
      of one. */
  ghost predicate Justified(c: Command, rm: string, lines: seq<string>, present: string -> bool) {
    && |c| == 2 && c[0] == rm && present(c[1])
    && exists i :: 0 <= i < |lines| && (c[1] == lines[i] || c[1] == PyiPath(lines[i]))
  }

  /** The removals of all manifest lines, in manifest order; each line adds
      at most two commands. */
  function Removals(rm: string, lines: seq<string>, present: string -> bool): (cs: seq<Command>)
    ensures |cs| <= 2 * |lines|
    decreases |lines|
  {
    if lines == [] then [] else LineRemovals(rm, lines[0], present) + Removals(rm, lines[1..], present)
  }

  /** No removal is invented: each targets an existing path that is a
      manifest line or the stub of one. */
  lemma {:induction false} RemovalsSound(rm: string, lines: seq<string>, present: string -> bool)
    ensures forall j :: 0 <= j < |Removals(rm, lines, present)| ==>
      Justified(Removals(rm, lines, present)[j], rm, lines, present)
    decreases |lines|
  {
    if lines != [] {
      var head := LineRemovals(rm, lines[0], present);
      var tail := Removals(rm, lines[1..], present);
      var cs := head + tail;
      RemovalsSound(rm, lines[1..], present);
      assert Removals(rm, lines, present) == cs;
      forall j | 0 <= j < |cs| ensures Justified(cs[j], rm, lines, present) {
        if j < |head| {
          assert cs[j][1] == lines[0] || cs[j][1] == PyiPath(lines[0]);
        } else {
          assert cs[j] == tail[j - |head|];
          assert Justified(tail[j - |head|], rm, lines[1..], present);
          var i :| 0 <= i < |lines[1..]| && (tail[j - |head|][1] == lines[1..][i] || tail[j - |head|][1] == PyiPath(lines[1..][i]));
          assert lines[1..][i] == lines[i + 1];
        }
      }
    }
  }

  /** No removal is missed: every existing line, and every existing stub of
      a line, is removed. */
  lemma {:induction false} RemovalsComplete(rm: string, lines: seq<string>, present: string -> bool)
    ensures var cs := Removals(rm, lines, present);
      && (forall i :: 0 <= i < |lines| && present(lines[i]) ==> RemoveCmd(rm, lines[i]) in cs)
      && (forall i :: 0 <= i < |lines| && present(PyiPath(lines[i])) ==> RemoveCmd(rm, PyiPath(lines[i])) in cs)
    decreases |lines|
  {
    if lines != [] {
      var cs := Removals(rm, lines, present);
      RemovalsComplete(rm, lines[1..], present);
      forall i | 0 <= i < |lines| && present(lines[i]) ensures RemoveCmd(rm, lines[i]) in cs {
        if i > 0 { assert lines[1..][i - 1] == lines[i]; }
      }
      forall i | 0 <= i < |lines| && present(PyiPath(lines[i])) ensures RemoveCmd(rm, PyiPath(lines[i])) in cs {
        if i > 0 { assert lines[1..][i - 1] == lines[i]; }
      }
    }
  }

  lemma RemovalsSnoc(rm: string, lines: seq<string>, line: string, present: string -> bool)
    ensures Removals(rm, lines + [line], present) == Removals(rm, lines, present) + LineRemovals(rm, line, present)
    decreases |lines|
  {
    if lines == [] {
      assert lines + [line] == [line];
      assert LineRemovals(rm, line, present) + [] == LineRemovals(rm, line, present);
    } else {
      assert (lines + [line])[1..] == lines[1..] + [line];
      RemovalsSnoc(rm, lines[1..], line, present);
      SeqAssoc(LineRemovals(rm, lines[0], present), Removals(rm, lines[1..], present), LineRemovals(rm, line, present));
    }
  }

  /** The clean plan for a manifest that is absent (`None`) or holds the
      given lines. It is never empty and starts with cmake's `clean` target,
      so the "Nothing to clean" branch of `clean` cannot be taken; without a
      manifest it is that single command; every later command removes an
      existing path. */
  function CleanPlan(e: CmakeExtension, manifest: Option<seq<string>>, present: string -> bool): (plan: seq<Command>)
    ensures |plan| >= 1 && plan[0] == CleanTargetCmd(e)
    ensures manifest.None? ==> |plan| == 1
    ensures manifest.Some? ==> |plan| <= 1 + 2 * |manifest.value|
    ensures forall j :: 1 <= j < |plan| ==> |plan[j]| == 2 && plan[j][0] == e.rmCmd && present(plan[j][1])
  {
    match manifest
    case None => [CleanTargetCmd(e)]
    case Some(lines) =>
      var cs := Removals(e.rmCmd, lines, present);
      RemovalsSound(e.rmCmd, lines, present);
      assert forall j :: 0 <= j < |cs| ==> Justified(cs[j], e.rmCmd, lines, present);
      [CleanTargetCmd(e)] + cs
  }

  /** The manifest as the filesystem shows it: absent, or the file's lines. */
  function ReadManifest(e: CmakeExtension, fs: FileSystem): (m: Option<seq<string>>)
    ensures m.Some? <==> fs.present(ManifestPath(e))
    ensures m.Some? ==> Concat(m.value) == fs.read(ManifestPath(e))
  {
    if fs.present(ManifestPath(e)) then Some(ReadLines(fs.read(ManifestPath(e)))) else None
  }

  /** The commands `clean` hands to the runner. */
  function GetCleanCmd(e: CmakeExtension, fs: FileSystem): (plan: seq<Command>)
    ensures |plan| >= 1 && plan[0] == CleanTargetCmd(e)
    ensures !fs.present(ManifestPath(e)) ==> plan == [CleanTargetCmd(e)]
    ensures forall j :: 1 <= j < |plan| ==> |plan[j]| == 2 && plan[j][0] == e.rmCmd && fs.present(plan[j][1])
  {
    CleanPlan(e, ReadManifest(e, fs), fs.present)
  }

  /** The loop of `_get_clean_cmd` over the manifest lines, appending to
      `cmd` as it goes; it appends exactly the removals of `Removals`. */
  method AppendRemovals(cmd0: seq<Command>, rm: string, lines: seq<string>, present: string -> bool)
    returns (cmd: seq<Command>)
    ensures cmd == cmd0 + Removals(rm, lines, present)
  {
    cmd := cmd0;
    var i := 0;
    while i < |lines|
      invariant 0 <= i <= |lines|
      invariant cmd == cmd0 + Removals(rm, lines[..i], present)
    {
      var libPath := lines[i];
      var pyiPath := PyiPath(libPath);
      ghost var before := cmd;
      if present(libPath) {
        cmd := cmd + [RemoveCmd(rm, libPath)];
      }
      if present(pyiPath) {
        cmd := cmd + [RemoveCmd(rm, pyiPath)];
      }
      assert cmd == before + LineRemovals(rm, libPath, present);
      RemovalsSnoc(rm, lines[..i], libPath, present);
      SeqAssoc(cmd0, Removals(rm, lines[..i], present), LineRemovals(rm, libPath, present));
      assert lines[..i + 1] == lines[..i] + [libPath];
      i := i + 1;
    }
    assert lines[..i] == lines;
  }

  /** `_get_clean_cmd`: the clean target, then, when the manifest exists,
      the removals for its lines; it builds exactly the plan of `CleanPlan`. */
  method CollectCleanCommands(e: CmakeExtension, fs: FileSystem) returns (cmd: seq<Command>)
    ensures cmd == GetCleanCmd(e, fs)
  {
    cmd := [CleanTargetCmd(e)];
    var manifestPath := ManifestPath(e);
    if !fs.present(manifestPath) {
      return;
    }
    var lines := ReadLines(fs.read(manifestPath));
    cmd := AppendRemovals(cmd, e.rmCmd, lines, fs.present);
  }

  /** Manifest lines are used verbatim: a line kept with its newline is
      removed if that exact string names an existing path (the converse, that
      nothing else is removed, is `RemovalsSound`). When the line contains a
      dot, its stub path is cut before the newline; a line without a dot
      keeps the newline in front of `.pyi`. */
  lemma ManifestLineVerbatim(e: CmakeExtension, fs: FileSystem, i: nat)
    requires fs.present(ManifestPath(e))
    requires i < |ReadLines(fs.read(ManifestPath(e)))|
    ensures var line := ReadLines(fs.read(ManifestPath(e)))[i];
      && (fs.present(line) ==> RemoveCmd(e.rmCmd, line) in GetCleanCmd(e, fs))
      && (fs.present(PyiPath(line)) ==> RemoveCmd(e.rmCmd, PyiPath(line)) in GetCleanCmd(e, fs))
  {
    RemovalsComplete(e.rmCmd, ReadLines(fs.read(ManifestPath(e))), fs.present);
  }

  /** The plan lists, after the clean target, exactly the removals of each
      manifest line in turn: the removal of a line comes before those of
      every later line. */
  lemma CleanPlanOrder(e: CmakeExtension, lines: seq<string>, present: string -> bool, i: nat)
    requires i < |lines|
    ensures CleanPlan(e, Some(lines), present)
      == [CleanTargetCmd(e)] + Removals(e.rmCmd, lines[..i], present)
         + LineRemovals(e.rmCmd, lines[i], present) + Removals(e.rmCmd, lines[i + 1..], present)
  {
    RemovalsSplit(e.rmCmd, lines, i, present);
  }

  lemma {:induction false} RemovalsAppend(rm: string, a: seq<string>, b: seq<string>, present: string -> bool)
    ensures Removals(rm, a + b, present) == Removals(rm, a, present) + Removals(rm, b, present)
    decreases |a|
  {
    if a == [] {
      assert a + b == b;
    } else {
      assert (a + b)[0] == a[0] && (a + b)[1..] == a[1..] + b;
      RemovalsAppend(rm, a[1..], b, present);
    }
  }

  lemma RemovalsSplit(rm: string, lines: seq<string>, i: nat, present: string -> bool)
    requires i < |lines|
    ensures Removals(rm, lines, present)
      == Removals(rm, lines[..i], present) + LineRemovals(rm, lines[i], present) + Removals(rm, lines[i + 1..], present)
  {
    var front, back := lines[..i], lines[i..];
    assert lines == front + back;
    RemovalsAppend(rm, front, back, present);
    assert back[0] == lines[i] && back[1..] == lines[i + 1..];
    assert Removals(rm, back, present) == LineRemovals(rm, back[0], present) + Removals(rm, back[1..], present);
  }
}
