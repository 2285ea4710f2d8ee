/** The lifecycle controller: the four public phases of `CmakeExtension`
    and the phase loop of `main`. */
module Lifecycle {
  import opened Wrappers
  import opened Paths
  import opened Defs
  import opened Extension
  import opened Commands
  import opened Runner
  import opened Cleanup

  /** What each phase hands to the runner, under the phase's label. */
  function ConfigurePlan(e: CmakeExtension): seq<Launch> {
    Tag(Header(ConfigurePhase), [ConfigureCmd(e)])
  }

  function BuildPlan(e: CmakeExtension): seq<Launch> {
    Tag(Header(BuildPhase), [BuildCmd(e), PostBuildCmd(e)])
  }

  function StubgenPlan(e: CmakeExtension): seq<Launch> {
    Tag(Header(StubgenPhase), [StubgenCmd(e)])
  }

  function CleanLaunches(e: CmakeExtension, fs: FileSystem): seq<Launch> {
    Tag(Header(CleanPhase), GetCleanCmd(e, fs))
  }

  /** The default run of one extension: configure, build with install, stub generation. */
  function ExtensionPlan(e: CmakeExtension): seq<Launch> {
    ConfigurePlan(e) + BuildPlan(e) + StubgenPlan(e)
  }

  function DefaultPlan(exts: seq<CmakeExtension>): seq<Launch> {
    if exts == [] then [] else ExtensionPlan(exts[0]) + DefaultPlan(exts[1..])
  }

  const NothingToClean: string := "Nothing to clean.\t"

  /** `configure()`: the configure command, run under "[CMAKE]". */
  function Configure(e: CmakeExtension, oracle: Oracle, st: RunState): (r: Step)
    ensures Ran(ConfigurePlan(e), e.dryRun, oracle, st, r)
  {
    RunCmd(Single(ConfigureCmd(e)), Header(ConfigurePhase), e.dryRun, oracle, st)
  }

  /** `build()`: the build command, then, when it succeeded and the
      post-build command is non-empty, the post-build command, both under
      "[BUILD]". */
  function Build(e: CmakeExtension, oracle: Oracle, st: RunState): (r: Step)
    ensures r.status != Raised(AssertionError)
  {
    var header := Header(BuildPhase);
    var r := RunCmd(Single(BuildCmd(e)), header, e.dryRun, oracle, st);
    if !r.status.Ok? then r
    else
      var post := PostBuildCmd(e);
      if |post| > 0 then RunCmd(Single(post), header, e.dryRun, oracle, r.state) else r
  }

  /** Since the post-build command is never empty, a successful build is
      always followed by the install run under the same "[BUILD]" label:
      `build()` runs exactly the two-command plan fail-fast. */
  lemma BuildRunsInstall(e: CmakeExtension, oracle: Oracle, st: RunState)
    ensures Ran(BuildPlan(e), e.dryRun, oracle, st, Build(e, oracle, st))
  {
    var header := Header(BuildPhase);
    var a, b := Tag(header, [BuildCmd(e)]), Tag(header, [PostBuildCmd(e)]);
    assert BuildPlan(e) == a + b;
    var r1 := RunCmd(Single(BuildCmd(e)), header, e.dryRun, oracle, st);
    if r1.status.Ok? {
      var r2 := RunCmd(Single(PostBuildCmd(e)), header, e.dryRun, oracle, r1.state);
      RanThen(a, b, e.dryRun, oracle, st, r1, r2);
    } else {
      RanStop(a, b, e.dryRun, oracle, st, r1);
    }
  }

  /** `clean()`: report "Nothing to clean." for an empty plan, otherwise run
      the plan as one batch under "[CLEAN]". */
  function Clean(e: CmakeExtension, fs: FileSystem, oracle: Oracle, st: RunState): (r: Step)
    ensures r.status != Raised(AssertionError)
  {
    var cmd := GetCleanCmd(e, fs);
    if |cmd| == 0 then Step(RunState(st.printed + [NothingToClean], st.launched), Ok)
    else RunCmd(Batch(cmd), Header(CleanPhase), e.dryRun, oracle, st)
  }

  /** The clean plan is never empty, so `clean()` never reports "Nothing to
      clean." and always runs the whole plan fail-fast under "[CLEAN]". */
  lemma CleanRunsPlan(e: CmakeExtension, fs: FileSystem, oracle: Oracle, st: RunState)
    ensures Ran(CleanLaunches(e, fs), e.dryRun, oracle, st, Clean(e, fs, oracle, st))
  {
  }

  /** `stubgen()`: the stub generator, run under "[STUB]". */
  function Stubgen(e: CmakeExtension, oracle: Oracle, st: RunState): (r: Step)
    ensures Ran(StubgenPlan(e), e.dryRun, oracle, st, r)
  {
    RunCmd(Single(StubgenCmd(e)), Header(StubgenPhase), e.dryRun, oracle, st)
  }

  /** One pass of the loop body of `main` without `--clean`: configure,
      build, then generate stubs, each phase only if the previous one
      succeeded. */
  function RunExtension(e: CmakeExtension, oracle: Oracle, st: RunState): (r: Step)
    ensures r.status != Raised(AssertionError)
  {
    var c := Configure(e, oracle, st);
    if !c.status.Ok? then c
    else
      var b := Build(e, oracle, c.state);
      if !b.status.Ok? then b
      else Stubgen(e, oracle, b.state)
  }

  /** Build then stub generation, once configure has succeeded. */
  lemma BuildThenStubgen(e: CmakeExtension, oracle: Oracle, st: RunState)
    ensures var b := Build(e, oracle, st);
      Ran(BuildPlan(e) + StubgenPlan(e), e.dryRun, oracle, st,
          if !b.status.Ok? then b else Stubgen(e, oracle, b.state))
  {
    var b := Build(e, oracle, st);
    BuildRunsInstall(e, oracle, st);
    if b.status.Ok? {
      RanThen(BuildPlan(e), StubgenPlan(e), e.dryRun, oracle, st, b, Stubgen(e, oracle, b.state));
    } else {
      RanStop(BuildPlan(e), StubgenPlan(e), e.dryRun, oracle, st, b);
    }
  }

  /** The phases of one extension run in the order configure, build,
      install, stub generation, fail-fast: a failing phase skips every later one. */
  lemma RunExtensionOrder(e: CmakeExtension, oracle: Oracle, st: RunState)
    ensures Ran(ExtensionPlan(e), e.dryRun, oracle, st, RunExtension(e, oracle, st))
  {
    var c := Configure(e, oracle, st);
    assert ExtensionPlan(e) == ConfigurePlan(e) + (BuildPlan(e) + StubgenPlan(e));
    if c.status.Ok? {
      BuildThenStubgen(e, oracle, c.state);
      RanThen(ConfigurePlan(e), BuildPlan(e) + StubgenPlan(e), e.dryRun, oracle, st, c, RunExtension(e, oracle, st));
    } else {
      RanStop(ConfigurePlan(e), BuildPlan(e) + StubgenPlan(e), e.dryRun, oracle, st, c);
    }
  }

  /** The body of the `try` in `main`: with `--clean`, clean the first
      extension and return; otherwise configure, build and generate stubs
      for each extension in turn. An exception ends the loop. */
  function RunPhases(exts: seq<CmakeExtension>, clean: bool, fs: FileSystem, oracle: Oracle, st: RunState): (r: Step)
    ensures r.status != Raised(AssertionError)
    decreases |exts|
  {
    if exts == [] then Step(st, Ok)
    else if clean then Clean(exts[0], fs, oracle, st)
    else
      var r := RunExtension(exts[0], oracle, st);
      if !r.status.Ok? then r
      else RunPhases(exts[1..], clean, fs, oracle, r.state)
  }

  /** With `--clean`, the loop cleans the first extension and returns:
      the run is the first extension's clean plan, and the later extensions
      take no part in it, whatever they are. */
  lemma RunPhasesCleanFirstOnly(exts: seq<CmakeExtension>, fs: FileSystem, oracle: Oracle, st: RunState)
    requires exts != []
    ensures var r := RunPhases(exts, true, fs, oracle, st);
      && Ran(CleanLaunches(exts[0], fs), exts[0].dryRun, oracle, st, r)
      && r == RunPhases([exts[0]], true, fs, oracle, st)
  {
    CleanRunsPlan(exts[0], fs, oracle, st);
  }

  /** Without `--clean`, the phase loop runs configure, build with install
      and stub generation of every extension in order, fail-fast: a failure
      in any phase skips every later phase and every later extension. */
  lemma {:induction false} RunPhasesDefault(exts: seq<CmakeExtension>, dry: bool, fs: FileSystem, oracle: Oracle, st: RunState)
    requires forall i :: 0 <= i < |exts| ==> exts[i].dryRun == dry
    ensures Ran(DefaultPlan(exts), dry, oracle, st, RunPhases(exts, false, fs, oracle, st))
    decreases |exts|
  {
    if exts != [] {
      var e := exts[0];
      var r1 := RunExtension(e, oracle, st);
      RunExtensionOrder(e, oracle, st);
      if r1.status.Ok? {
        RunPhasesDefault(exts[1..], dry, fs, oracle, r1.state);
        RanThen(ExtensionPlan(e), DefaultPlan(exts[1..]), dry, oracle, st, r1, RunPhases(exts, false, fs, oracle, st));
      } else {
        RanStop(ExtensionPlan(e), DefaultPlan(exts[1..]), dry, oracle, st, r1);
      }
    }
  }

  /** The one extension `main` builds: module `python_template._ext` from
      the `csrcs` directory of the project, in the default build directory,
      with no extra definitions. */
  function MainExtension(host: Host, dryRun: bool): (e: CmakeExtension)
    ensures e.moduleName == "python_template._ext" && e.dryRun == dryRun
    ensures e.srcDir == AbsPath(host.cwd, Join(host.projectRoot, "csrcs"))
    ensures e.binDir == Join(e.srcDir, DefaultBinDirName)
  {
    NewExtension(host, "python_template._ext", Join(host.projectRoot, "csrcs"), None, [], dryRun)
  }

  /** `main` passes no definitions, so its extension hands cmake exactly
      the default definitions, in their declaration order. */
  lemma MainDefinitions(host: Host, dryRun: bool)
    ensures MainExtension(host, dryRun).extraDefs == DefaultDefs(host)
  {
    var defs := DefaultDefs(host);
    assert Keys([]) == {};
    assert Absent([], defs[1..][1..]) == [];
    assert Absent([], defs[1..]) == [defs[1]];
    assert Absent([], defs) == [defs[0], defs[1]];
    assert [] + Absent([], defs) == defs;
  }

  /** `main` after argument parsing: `SubCommandError` is caught and
      swallowed, so `main` returns normally whatever the phases did. */
  function RunMain(host: Host, clean: bool, dryRun: bool, fs: FileSystem, oracle: Oracle): (r: Step)
    ensures r.status == Ok
  {
    var r := RunPhases([MainExtension(host, dryRun)], clean, fs, oracle, Initial);
    match r.status
    case Raised(SubCommandError) => Step(r.state, Ok)
    case _ => r
  }

  /** With `--clean`, `main` only cleans: everything launched is a prefix of
      the clean plan, under "[CLEAN]"; in a dry run nothing is launched. */
  lemma MainCleanIsExclusive(host: Host, dryRun: bool, fs: FileSystem, oracle: Oracle)
    ensures var e := MainExtension(host, dryRun);
      var r := RunMain(host, true, dryRun, fs, oracle);
      && (!dryRun ==> exists ok :: FailFast(CleanLaunches(e, fs), oracle, [], r.state.launched, ok))
      && (dryRun ==> r.state.launched == [] && r.state.printed == EchoAll(CleanLaunches(e, fs)))
      && forall l :: l in r.state.launched ==> l.header == Header(CleanPhase) && l.argv in GetCleanCmd(e, fs)
  {
    var e := MainExtension(host, dryRun);
    var t := Clean(e, fs, oracle, Initial);
    CleanRunsPlan(e, fs, oracle, Initial);
    assert RunMain(host, true, dryRun, fs, oracle).state == t.state;
    if !dryRun {
      LaunchesFromPlan(CleanLaunches(e, fs), oracle, t.state.launched, t.status.Ok?);
      TagMembers(Header(CleanPhase), GetCleanCmd(e, fs));
    }
  }

  /** Without `--clean`, `main` runs configure, build, install and stub
      generation of its extension in that order, fail-fast; the `try`
      swallows the failure but no phase after it runs. */
  lemma MainPhaseOrder(host: Host, dryRun: bool, fs: FileSystem, oracle: Oracle)
    ensures var e := MainExtension(host, dryRun);
      var r := RunMain(host, false, dryRun, fs, oracle);
      && (!dryRun ==> exists ok :: FailFast(ExtensionPlan(e), oracle, [], r.state.launched, ok))
      && (dryRun ==> r.state.launched == [] && r.state.printed == EchoAll(ExtensionPlan(e)))
  {
    var e := MainExtension(host, dryRun);
    var x := RunExtension(e, oracle, Initial);
    RunExtensionOrder(e, oracle, Initial);
    assert RunPhases([e], false, fs, oracle, Initial).state == x.state;
    assert RunMain(host, false, dryRun, fs, oracle).state == x.state;
    if !dryRun {
      assert FailFast(ExtensionPlan(e), oracle, [], x.state.launched, x.status.Ok?);
    }
  }

  /** A failing configure step stops the whole run: only the configure
      command is launched, build and stub generation never start, and
      `main` still returns normally. */
  lemma MainConfigureFailureStopsRun(host: Host, fs: FileSystem, oracle: Oracle)
    requires oracle(0) != 0
    ensures var r := RunMain(host, false, false, fs, oracle);
      && r.status == Ok
      && r.state.launched == [Launch(Header(ConfigurePhase), ConfigureCmd(MainExtension(host, false)))]
  {
    var e := MainExtension(host, false);
    var x := RunExtension(e, oracle, Initial);
    RunExtensionOrder(e, oracle, Initial);
    assert RunPhases([e], false, fs, oracle, Initial).state == x.state;
    assert RunMain(host, false, false, fs, oracle).state == x.state;
    assert FailFast(ExtensionPlan(e), oracle, [], x.state.launched, x.status.Ok?);
    assert |x.state.launched| == 1;
    assert ExtensionPlan(e)[0] == Launch(Header(ConfigurePhase), ConfigureCmd(e));
  }
}
