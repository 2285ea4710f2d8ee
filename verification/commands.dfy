/** The command builders: pure functions from an extension to the argument
    vector of each phase. */
module Commands {
  import opened Wrappers
  import opened Strings
  import opened Paths
  import opened Defs
  import opened Extension

  /** A program followed by its arguments. */
  type Command = seq<string>

  /** `f"-D{k}={v}"`. */
  function DefineFlag(en: Entry): string {
    "-D" + en.0 + "=" + en.1
  }

  /** One definition flag per entry, in the dictionary's order. */
  function DefineFlags(d: seq<Entry>): (flags: seq<string>)
    ensures |flags| == |d|
    ensures forall i :: 0 <= i < |d| ==> flags[i] == DefineFlag(d[i])
  {
    if d == [] then [] else [DefineFlag(d[0])] + DefineFlags(d[1..])
  }

  /** How a `-D<key>=<value>` argument is read back: the key runs up to the
      first '='. */
  function ParseDefine(flag: string): Option<Entry> {
    if |flag| < 2 || flag[..2] != "-D" then None
    else
      var body := flag[2..];
      var k := IndexOf(body, '=');
      if k == |body| then None else Some((body[..k], body[k + 1..]))
  }

  /** A definition whose key holds no '=' is read back exactly, so each flag
      conveys its entry unambiguously whatever the value contains. */
  lemma ParseDefineFlag(en: Entry)
    requires '=' !in en.0
    ensures ParseDefine(DefineFlag(en)) == Some(en)
  {
    var flag := DefineFlag(en);
    var body := flag[2..];
    assert body == en.0 + "=" + en.1;
    assert body[..|en.0|] == en.0;
    assert body[|en.0|] == '=';
    assert IndexOf(body, '=') == |en.0|;
    assert body[|en.0| + 1..] == en.1;
  }

  /** `_get_configure_cmd`. */
  function ConfigureCmd(e: CmakeExtension): Command {
    [CmakeBin(e.host), "-S", e.srcDir, "-B", e.binDir, "-DCMAKE_BUILD_TYPE=Release"]
    + (if e.host.isWindows then [] else ["-G", "Ninja"])
    + DefineFlags(e.extraDefs)
  }

  /** Number of arguments in front of the definition flags. */
  function ConfigurePrefixLength(e: CmakeExtension): nat {
    if e.host.isWindows then 6 else 8
  }

  /** `_get_build_cmd`. */
  function BuildCmd(e: CmakeExtension): Command {
    [CmakeBin(e.host), "--build", e.binDir, "--config", "release"]
  }

  /** `_get_post_build_cmd`: the install step. */
  function PostBuildCmd(e: CmakeExtension): Command {
    [CmakeBin(e.host), "--install", e.binDir]
  }

  /** First command of every clean plan. */
  function CleanTargetCmd(e: CmakeExtension): Command {
    [CmakeBin(e.host), "--build", e.binDir, "--target", "clean"]
  }

  /** `_get_stub_gen_cmd`. */
  function StubgenCmd(e: CmakeExtension): Command {
    ["stubgen", "--module", e.moduleName, "--output", e.host.projectRoot, "--include-docstrings"]
  }

  /** The configure command is cmake on the source and build directories
      with a Release build type, then the Ninja generator off Windows, then
      one flag per definition in dictionary order; each of those flags reads
      back as its entry. */
  lemma ConfigureShape(e: CmakeExtension)
    ensures var c := ConfigureCmd(e);
      && |c| == 6 + (if e.host.isWindows then 0 else 2) + |e.extraDefs|
      && c[0] == CmakeBin(e.host) && c[1] == "-S" && c[2] == e.srcDir
      && c[3] == "-B" && c[4] == e.binDir && c[5] == "-DCMAKE_BUILD_TYPE=Release"
      && (!e.host.isWindows ==> c[6] == "-G" && c[7] == "Ninja")
      && (forall i :: 0 <= i < |e.extraDefs| ==> c[ConfigurePrefixLength(e) + i] == DefineFlag(e.extraDefs[i]))
      && (forall i :: 0 <= i < |e.extraDefs| && '=' !in e.extraDefs[i].0 ==>
            ParseDefine(c[ConfigurePrefixLength(e) + i]) == Some(e.extraDefs[i]))
  {
    forall i | 0 <= i < |e.extraDefs| && '=' !in e.extraDefs[i].0
      ensures ParseDefine(DefineFlags(e.extraDefs)[i]) == Some(e.extraDefs[i])
    {
      ParseDefineFlag(e.extraDefs[i]);
    }
  }

  /** Every definition the extension holds reaches cmake with its value:
      the configure command carries `-D<k>=<v>` for the value `v` the
      dictionary gives `k`. */
  lemma ConfigureDefinesEveryKey(e: CmakeExtension, k: string)
    requires k in Keys(e.extraDefs)
    ensures Lookup(e.extraDefs, k).Some?
    ensures DefineFlag((k, Lookup(e.extraDefs, k).value)) in ConfigureCmd(e)
  {
    var v := Lookup(e.extraDefs, k).value;
    LookupIndex(e.extraDefs, k);
    var i :| 0 <= i < |e.extraDefs| && e.extraDefs[i] == (k, v);
    ConfigureShape(e);
    assert ConfigureCmd(e)[ConfigurePrefixLength(e) + i] == DefineFlag((k, v));
  }

  /** The generator selection `-G` is present exactly off Windows. */
  lemma GeneratorIffNotWindows(e: CmakeExtension)
    requires IsAbsolute(e.srcDir) && IsAbsolute(e.binDir)
    ensures "-G" in ConfigureCmd(e) <==> !e.host.isWindows
  {
    ConfigureShape(e);
    var c := ConfigureCmd(e);
    if e.host.isWindows {
      forall i | 0 <= i < |c| ensures c[i] != "-G" {
        if 6 <= i {
          assert c[i] == DefineFlag(e.extraDefs[i - 6]);
          assert c[i][1] == 'D';
        }
      }
    } else {
      assert c[6] == "-G";
    }
  }

  /** Configure, build, install and the clean target all run the same cmake
      executable against the same build directory, and no command is empty. */
  lemma SameBuildTree(e: CmakeExtension)
    ensures var c, b, p, k := ConfigureCmd(e), BuildCmd(e), PostBuildCmd(e), CleanTargetCmd(e);
      && c[0] == b[0] == p[0] == k[0] == CmakeBin(e.host)
      && c[4] == b[2] == p[2] == k[2] == e.binDir
      && |StubgenCmd(e)| > 0 && StubgenCmd(e)[2] == e.moduleName
  {
  }

  /** Every entry of a prefix of the extension's definitions is handed to
      cmake as its `-D` flag. */
  lemma ConfigurePassesPrefix(e: CmakeExtension, d: seq<Entry>)
    requires |d| <= |e.extraDefs| && e.extraDefs[..|d|] == d
    ensures forall i :: 0 <= i < |d| ==> DefineFlag(d[i]) in ConfigureCmd(e)
  {
    ConfigureShape(e);
    forall i | 0 <= i < |d| ensures DefineFlag(d[i]) in ConfigureCmd(e) {
      assert e.extraDefs[..|d|][i] == e.extraDefs[i];
      assert ConfigureCmd(e)[ConfigurePrefixLength(e) + i] == DefineFlag(d[i]);
    }
  }

  /** End to end: every definition the caller passes to the constructor is
      handed to cmake with the caller's value, and every default the caller
      did not override is handed to cmake with its default value. */
  lemma CallerDefinitionsReachCmake(host: Host, moduleName: string, srcDir: string, binDir: Option<string>,
                                    extraDefs: seq<Entry>, dryRun: bool)
    ensures var c := ConfigureCmd(NewExtension(host, moduleName, srcDir, binDir, extraDefs, dryRun));
      && (forall i :: 0 <= i < |extraDefs| ==> DefineFlag(extraDefs[i]) in c)
      && ("pybind11_DIR" !in Keys(extraDefs) ==> DefineFlag(("pybind11_DIR", host.pybind11CmakeDir)) in c)
      && ("CMAKE_EXPORT_COMPILE_COMMANDS" !in Keys(extraDefs) ==> DefineFlag(("CMAKE_EXPORT_COMPILE_COMMANDS", "ON")) in c)
  {
    var e := NewExtension(host, moduleName, srcDir, binDir, extraDefs, dryRun);
    ConfigurePassesPrefix(e, extraDefs);
    DefaultKeys(host);
    var d := DefaultDefs(host);
    if "pybind11_DIR" !in Keys(extraDefs) {
      assert d[1..][0] == ("pybind11_DIR", host.pybind11CmakeDir);
      assert Lookup(d, "pybind11_DIR") == Some(host.pybind11CmakeDir);
      ConfigureDefinesEveryKey(e, "pybind11_DIR");
    }
    if "CMAKE_EXPORT_COMPILE_COMMANDS" !in Keys(extraDefs) {
      assert Lookup(d, "CMAKE_EXPORT_COMPILE_COMMANDS") == Some("ON");
      ConfigureDefinesEveryKey(e, "CMAKE_EXPORT_COMPILE_COMMANDS");
    }
  }
}
