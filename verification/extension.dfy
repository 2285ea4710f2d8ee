/** The `CmakeExtension` record built by the constructor: the host facts
    the script reads (at import time, or for the working directory, at
    construction), the phase headers, and the merged configuration of one
    extension target. */
module Extension {
  import opened Wrappers
  import opened Paths
  import opened Defs

  /** What the script learns from its host: at import time, whether
      `os.name` is "nt", the directory of the bundled cmake executable, the
      pybind11 CMake package directory and the project root; when the
      extension is constructed, the working directory that relative paths
      are resolved against. */
  datatype Host = Host(
    isWindows: bool,
    cmakeBinDir: string,
    pybind11CmakeDir: string,
    projectRoot: string,
    cwd: string)

  /** `CMAKE_BIN`: the bundled cmake executable, with the ".exe" suffix on Windows. */
  function CmakeBin(h: Host): (r: string)
    ensures |r| > |h.cmakeBinDir| && r[..|h.cmakeBinDir|] == h.cmakeBinDir
    ensures h.isWindows <==> |r| >= 4 && r[|r| - 4..] == ".exe"
  {
    var name := if h.isWindows then "cmake.exe" else "cmake";
    var r := Join(h.cmakeBinDir, name);
    assert r[|r| - 4..] == name[|name| - 4..];
    r
  }

  /** `_CMAKE_DEFAULT_DEF`, in its declaration order. */
  function DefaultDefs(h: Host): seq<Entry> {
    [("CMAKE_EXPORT_COMPILE_COMMANDS", "ON"), ("pybind11_DIR", h.pybind11CmakeDir)]
  }

  lemma DefaultKeys(h: Host)
    ensures Keys(DefaultDefs(h)) == {"CMAKE_EXPORT_COMPILE_COMMANDS", "pybind11_DIR"}
  {
    var d := DefaultDefs(h);
    assert d[1..] == [("pybind11_DIR", h.pybind11CmakeDir)];
    assert d[1..][1..] == [];
    assert Keys(d[1..]) == {"pybind11_DIR"};
  }

  /** The build directory used when the caller names none, under the source directory. */
  const DefaultBinDirName: string := "cmake-build-release"

  datatype Phase = ConfigurePhase | BuildPhase | CleanPhase | StubgenPhase

  /** The label printed in front of every command line of a phase. */
  function Header(p: Phase): string {
    match p
    case ConfigurePhase => "[CMAKE]"
    case BuildPhase => "[BUILD]"
    case CleanPhase => "[CLEAN]"
    case StubgenPhase => "[STUB]"
  }

  /** Distinct phases print distinct labels, so every echoed line can be
      attributed to its phase. */
  lemma HeadersDistinct(p: Phase, q: Phase)
    requires p != q
    ensures Header(p) != Header(q)
  {
  }

  datatype CmakeExtension = CmakeExtension(
    host: Host,
    moduleName: string,
    srcDir: string,
    binDir: string,
    extraDefs: seq<Entry>,
    dryRun: bool,
    cmdInShell: bool,
    rmCmd: string)

  /** The constructor. The source and build directories are made absolute,
      the build directory defaulting to `cmake-build-release` under the
      source directory; the defaults are merged into the caller's
      definitions without overriding any of them; commands go through the
      shell, and files are removed with `del`, exactly on Windows. */
  function NewExtension(
    host: Host, moduleName: string, srcDir: string, binDir: Option<string>,
    extraDefs: seq<Entry>, dryRun: bool): (e: CmakeExtension)
    ensures e.host == host && e.moduleName == moduleName && e.dryRun == dryRun
    ensures e.srcDir == AbsPath(host.cwd, srcDir)
    ensures binDir.None? ==> e.binDir == Join(e.srcDir, DefaultBinDirName)
    ensures binDir.Some? ==> e.binDir == AbsPath(host.cwd, binDir.value)
    ensures IsAbsolute(host.cwd) ==> IsAbsolute(e.srcDir) && IsAbsolute(e.binDir)
    ensures e.cmdInShell <==> host.isWindows
    ensures e.rmCmd == (if host.isWindows then "del" else "rm")
    ensures forall k :: k in Keys(extraDefs) ==> Lookup(e.extraDefs, k) == Lookup(extraDefs, k)
    ensures forall k :: k !in Keys(extraDefs) ==> Lookup(e.extraDefs, k) == Lookup(DefaultDefs(host), k)
    ensures Keys(e.extraDefs) == Keys(extraDefs) + {"CMAKE_EXPORT_COMPILE_COMMANDS", "pybind11_DIR"}
    ensures |extraDefs| <= |e.extraDefs| && e.extraDefs[..|extraDefs|] == extraDefs
    ensures UniqueKeys(extraDefs) ==> UniqueKeys(e.extraDefs)
    ensures e.extraDefs == extraDefs + Absent(extraDefs, DefaultDefs(host))
  {
    var src := AbsPath(host.cwd, srcDir);
    var bin := if binDir.None? then Join(src, DefaultBinDirName) else AbsPath(host.cwd, binDir.value);
    DefaultKeys(host);
    MergeAppendsAbsent(extraDefs, DefaultDefs(host));
    CmakeExtension(
      host, moduleName, src, bin,
      MergeDefaults(extraDefs, DefaultDefs(host)),
      dryRun,
      host.isWindows,
      if host.isWindows then "del" else "rm")
  }

  /** The caller's value for a key, when given, is the one the extension
      keeps; only keys the caller left out take the default. */
  lemma CallerValuesWin(host: Host, moduleName: string, srcDir: string, binDir: Option<string>,
                        extraDefs: seq<Entry>, dryRun: bool, k: string)
    requires UniqueKeys(extraDefs)
    ensures var e := NewExtension(host, moduleName, srcDir, binDir, extraDefs, dryRun);
      && (k == "CMAKE_EXPORT_COMPILE_COMMANDS" && k !in Keys(extraDefs) ==> Lookup(e.extraDefs, k) == Some("ON"))
      && (k == "pybind11_DIR" && k !in Keys(extraDefs) ==> Lookup(e.extraDefs, k) == Some(host.pybind11CmakeDir))
      && (forall i :: 0 <= i < |extraDefs| ==> Lookup(e.extraDefs, extraDefs[i].0) == Some(extraDefs[i].1))
  {
    var e := NewExtension(host, moduleName, srcDir, binDir, extraDefs, dryRun);
    forall i | 0 <= i < |extraDefs|
      ensures Lookup(e.extraDefs, extraDefs[i].0) == Some(extraDefs[i].1)
    {
      LookupEntry(extraDefs, i);
    }
  }
}
