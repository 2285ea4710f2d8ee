# CmakeExtension build orchestration, modelled in Dafny

This project models the `CmakeExtension` controller of `ext_build.py`. The
controller builds a pybind11 extension module with CMake. It does four
things:

- configure the source directory into a build directory;
- build it, then run `cmake --install`;
- generate `.pyi` stubs with `stubgen`;
- or, with `--clean`, run CMake's `clean` target, then remove each existing
  path spelled exactly as a line of the install manifest, terminator
  included, and each existing `.pyi` stub of such a line (see "Behaviour
  worth noting").

The model covers:

- how the constructor merges the definitions;
- the argument vector of every phase, on Windows and elsewhere;
- the clean plan derived from the manifest;
- the fail-fast runner, including dry-run mode;
- the phase loop of `main`.

Modules, leaf first:

- `Wrappers`, `Seqs`, `Strings`, `Paths`, `Lines`: option values; general
  sequence facts; first-index search and `str.split`; path joining, `abspath`
  and the `.pyi` rule (`split(".", 1)[0] + ".pyi"`); `readlines()`, which
  keeps each line's terminator.
- `Defs`: the `-D` definitions as an insertion-ordered dictionary (a
  sequence of key/value entries, as Python dicts keep insertion order), with
  the constructor's "set if absent" merge.
- `Extension`: the host facts (`os.name == "nt"`, the cmake and pybind11
  directories and the project root, read at import time; the working
  directory when the extension is constructed),
  the phase labels and the `CmakeExtension` record built by the constructor.
- `Commands`: the configure, build, install, clean-target and stubgen
  argument vectors.
- `Runner`: `_run_single_cmd` / `_run_cmd`. A process is reduced to its exit
  code, given by an oracle indexed by launch number. The state records the
  echoed lines and the launched (label, argv) pairs. `FailFast` and `Ran`
  state what running a plan means, and `RanThen` / `RanStop` compose runs.
- `Cleanup`: `_get_clean_cmd` as a pure function of the extension, the
  manifest (absent or its lines) and an existence predicate. A method that
  mirrors the source loop is proved equal to it.
- `Lifecycle`: `configure`, `build`, `clean`, `stubgen` and the phase loop of
  `main`.

## Behaviour worth noting

- `clean` always starts with `cmake --build <bin> --target clean`, so the
  clean plan is never empty and the "Nothing to clean." branch cannot be
  reached. Without an install manifest, that command is the whole plan.
- The post-build step is always `cmake --install <bin>`, so the guard on its
  length always passes.
- `main` catches `SubCommandError` and returns normally. A failed phase
  therefore does not give a non-zero exit status; only the skipping of later
  phases shows the failure.
- Manifest lines are used verbatim. `readlines()` keeps the newline, so a
  library path is removed only if a path with that exact spelling, terminator
  included, exists. When the line contains a dot, its stub path is cut at the
  first dot and so loses the newline; a line without a dot keeps it, and its
  stub path is the whole line followed by `.pyi`.
- The default definitions are appended after the caller's, in the
  declaration order of `_CMAKE_DEFAULT_DEF`, so the `-D` flags of `main`'s
  configure command are `CMAKE_EXPORT_COMPILE_COMMANDS` then `pybind11_DIR`.

## Model

| member | source | states |
|---|---|---|
| `Defs.SetDefault` | ext_build.py:55-56 | setting a key only when absent adds exactly that key, at the end, and keeps the dictionary's earlier entries and key uniqueness |
| `Defs.LookupSetDefault` | ext_build.py:55-56 | after the step a present key keeps its value, an absent one maps to the default, other keys are untouched |
| `Defs.MergeDefaults` | ext_build.py:52-56 | merging the defaults: every caller key keeps the caller's value, every other default key takes its default value, the key set is the union and nothing else, the caller's entries stay first in their order, keys stay unique; the order of the appended defaults is stated by `Defs.MergeAppendsAbsent` |
| `Defs.AbsentMembers` | ext_build.py:54-55 | an entry is among the defaults to add exactly when it is a default whose key the caller did not define |
| `Defs.MergeAppendsAbsent` | ext_build.py:54-56 | for a defaults dictionary, the merge result is the caller's entries followed by the defaults the caller left out, in the defaults' declaration order |
| `Defs.MergeStep` | ext_build.py:54-56 | one iteration of the merge loop preserves the caller-wins and default-fills-in properties |
| `Extension.NewExtension` | ext_build.py:38-62 | source dir made absolute; build dir defaults to `cmake-build-release` under it, else the given dir made absolute; both absolute when the working directory is; shell and `del` exactly on Windows; the merged definitions satisfy caller-wins, defaults-fill-in, no extra keys, and are exactly the caller's entries followed by the missing defaults in `_CMAKE_DEFAULT_DEF` order |
| `Extension.CmakeBin` | ext_build.py:12-20 | the cmake executable lies in the cmake directory, and its name ends in `.exe` exactly on Windows |
| `Extension.CallerValuesWin` | ext_build.py:28-31 | for a caller dictionary, each caller entry's value survives construction and the two absent defaults take "ON" and the pybind11 directory |
| `Extension.DefaultKeys` | ext_build.py:28-31 | the default definitions are exactly `CMAKE_EXPORT_COMPILE_COMMANDS` and `pybind11_DIR` |
| `Extension.HeadersDistinct` | ext_build.py:64-69 | the four phase labels are pairwise distinct, so each echoed line is attributable |
| `Extension.DefaultDefs` | ext_build.py:28-31 | `_CMAKE_DEFAULT_DEF` in declaration order; no contract of its own: its keys are stated by `Extension.DefaultKeys`, and that it is exactly what `main`'s extension holds by `Lifecycle.MainDefinitions` |
| `Extension.Header` | ext_build.py:64-69 | `_cmd_term_headers`, the label of each phase; no contract of its own: that the labels are pairwise distinct is stated by `Extension.HeadersDistinct` |
| `Commands.DefineFlags` | ext_build.py:112-113 | one `-Dk=v` flag per definition, same count, same order |
| `Commands.ConfigureCmd` | ext_build.py:101-114 | `_get_configure_cmd`; it has no contract of its own, and what it holds (every position, the length, the flags in dictionary order) is stated by `Commands.ConfigureShape` |
| `Commands.BuildCmd` | ext_build.py:121-123 | `_get_build_cmd`, a fixed argument vector with no contract of its own; that it runs the same cmake on the same build directory as the other phases is stated by `Commands.SameBuildTree` |
| `Commands.PostBuildCmd` | ext_build.py:125-127 | `_get_post_build_cmd`, the fixed `--install` vector with no contract of its own; its shared cmake and build directory are stated by `Commands.SameBuildTree` |
| `Commands.CleanTargetCmd` | ext_build.py:138-140 | the first command of `_get_clean_cmd`, with no contract of its own; its shared cmake and build directory are stated by `Commands.SameBuildTree`, its place in the plan by `Cleanup.CleanPlan` |
| `Commands.StubgenCmd` | ext_build.py:161-170 | `_get_stub_gen_cmd`, a fixed vector with no contract of its own; that it is non-empty and names the module is stated by `Commands.SameBuildTree` |
| `Commands.ParseDefineFlag` | ext_build.py:113 | a `-Dk=v` flag whose key has no `=` reads back as exactly its entry (round trip) |
| `Commands.DefineFlag` | ext_build.py:113 | `f"-D{k}={v}"`; no contract of its own: that a flag whose key holds no `=` reads back as its entry is stated by `Commands.ParseDefineFlag` |
| `Commands.ConfigureShape` | ext_build.py:101-114 | configure is cmake, `-S src`, `-B bin`, Release build type, then `-G Ninja` off Windows, then the definition flags in order; length 6 + (2 off Windows) + number of definitions; every flag whose key holds no `=` reads back as its entry |
| `Commands.ConfigureDefinesEveryKey` | ext_build.py:112-113 | every key of the dictionary reaches cmake with the value the dictionary gives it |
| `Commands.ConfigurePassesPrefix` | ext_build.py:112-113 | every entry in a prefix of the definitions dictionary reaches cmake as its own `-Dk=v` flag |
| `Commands.CallerDefinitionsReachCmake` | ext_build.py:52-56 | every definition the caller passes to the constructor reaches cmake with the caller's value; each default the caller left out reaches cmake with its default value |
| `Commands.GeneratorIffNotWindows` | ext_build.py:110-111 | for absolute source and build dirs, `-G` appears in the configure command exactly when the host is not Windows |
| `Commands.SameBuildTree` | ext_build.py:121-127 | configure, build, install and the clean target use the same cmake and the same build directory; stubgen names the module |
| `Paths.AbsPath` | ext_build.py:47-51 | an absolute path is kept, a relative one goes under the working directory, and the result is absolute when the working directory is |
| `Paths.Join` | ext_build.py:20 | `osp.join` of a directory and a relative name, with `/` as separator (also used at lines 49, 141 and 196); no contract of its own: how it serves `abspath` is stated by `Paths.AbsPath` |
| `Paths.BeforeFirstDot` | ext_build.py:147 | `split(".", 1)[0]` is a dot-free prefix that is the whole string or is followed by a dot |
| `Paths.BeforeFirstDotUnique` | ext_build.py:147 | those properties determine the prefix uniquely |
| `Paths.PyiPathShape` | ext_build.py:147 | the stub path ends in `.pyi` and its stem is a dot-free prefix of the library path |
| `Paths.PyiPath` | ext_build.py:147 | `f"{lib_path.split(".", 1)[0]}.pyi"`; no contract of its own: its shape is stated by `Paths.PyiPathShape`, and that its stem is the unique dot-free prefix ending at the first dot by `Paths.BeforeFirstDotUnique` |
| `Paths.PyiPathExample` | ext_build.py:147 | `/out/mylib.cpython-310.so` has the stub `/out/mylib.pyi` |
| `Lines.ReadLines` | ext_build.py:144-145 | `readlines()`: the lines concatenate back to the text, are non-empty, hold no inner newline, and all but the last end in a newline |
| `Strings.IndexOf` | ext_build.py:147 | the first occurrence of a character, or the length when absent |
| `Runner.RunSingle` | ext_build.py:71-91 | one command is echoed with its label; a dry run launches nothing and succeeds; otherwise it is launched and a non-zero exit raises `SubCommandError` |
| `Runner.Echo` | ext_build.py:72 | the line echoed before a command is the command's label, a tab, then exactly the space-joined command line `Runner.JoinArgs` of its arguments; colour codes left out |
| `Runner.JoinArgs` | ext_build.py:72 | `' '.join(cmd)`; no contract of its own: that it shows exactly the argument vector is stated by `Runner.JoinArgsSplit` |
| `Runner.JoinArgsSplit` | ext_build.py:72 | for a non-empty argument vector whose arguments hold no space, splitting the joined command line at spaces gives the vector back, so the echoed line determines the command |
| `Runner.RunBatch` | ext_build.py:97-99 | a list of commands runs in order, fail-fast: the launches are a prefix of the list, all but the last exited with 0, success iff all ran and succeeded, echoes match the launches |
| `Runner.RunCmd` | ext_build.py:93-99 | an empty command or empty list raises the assertion error before anything is echoed; any other invocation runs fail-fast |
| `Runner.RanThen` | ext_build.py:97-99 | running one plan successfully and then a second is running their concatenation |
| `Runner.RanStop` | ext_build.py:89-91 | a failure inside a plan is a failure of any longer plan at the same point, and cannot happen in a dry run |
| `Runner.DryRunLaunchesNothing` | ext_build.py:72-74 | in a dry run a batch launches nothing, succeeds, and echoes each command in order under its label |
| `Runner.BatchStopsAtFirstFailure` | ext_build.py:89-99 | when command i fails after all earlier ones succeeded, exactly the first i + 1 commands are launched and `SubCommandError` is raised |
| `Cleanup.Removals` | ext_build.py:145-151 | the removals of the manifest lines add at most two commands per line |
| `Cleanup.RemovalsSound` | ext_build.py:146-151 | every removal targets an existing path that is a manifest line or the stub of one, with the platform's removal command |
| `Cleanup.RemovalsComplete` | ext_build.py:146-151 | every existing manifest line and every existing stub of a line is removed |
| `Cleanup.AppendRemovals` | ext_build.py:145-151 | the source's loop, appending as it reads each line, appends exactly the removals of all lines in order |
| `Cleanup.CleanPlan` | ext_build.py:137-143 | the plan is never empty and starts with the clean target; without a manifest it is that single command; each later command is `[rm_cmd, p]` for an existing `p`; at most 1 + 2 per line |
| `Cleanup.CollectCleanCommands` | ext_build.py:137-152 | the clean target, then the loop over the manifest when the manifest file exists, builds exactly the clean plan read from the filesystem |
| `Cleanup.ReadManifest` | ext_build.py:141-145 | the manifest is read exactly when its file exists, and its lines concatenate back to the file's text |
| `Cleanup.GetCleanCmd` | ext_build.py:137-152 | the clean commands read from the filesystem start with the clean target, are only that when the manifest is missing, and otherwise add only removals of existing paths |
| `Cleanup.ManifestLineVerbatim` | ext_build.py:144-151 | a manifest line, terminator included, is removed if that exact path exists, and so is its stub if it exists |
| `Cleanup.CleanPlanOrder` | ext_build.py:145-151 | the plan lists the removals line by line in manifest order, the library before its stub |
| `Cleanup.LineRemovals` | ext_build.py:146-151 | one pass of the manifest loop, the library removal before the stub removal, each only when its path exists; no contract of its own: its place in the plan is stated by `Cleanup.CleanPlanOrder`, what it removes by `Cleanup.RemovalsSound` and `Cleanup.RemovalsComplete` |
| `Cleanup.ManifestPath` | ext_build.py:141 | the manifest `install_manifest.txt` in the build directory; no contract of its own: that the manifest is read exactly when this path exists is stated by `Cleanup.ReadManifest` |
| `Cleanup.RemoveCmd` | ext_build.py:149 | `[self.rm_cmd, path]`; no contract of its own: that every removal has this shape for an existing path is stated by `Cleanup.RemovalsSound` |
| `Cleanup.RemovalsAppend` | ext_build.py:145-151 | the removals of two blocks of lines are the removals of each, concatenated |
| `Lifecycle.Configure` | ext_build.py:116-119 | `configure()` runs the configure command under `[CMAKE]`, fail-fast or as a dry run |
| `Lifecycle.Build` | ext_build.py:129-135 | `build()` raises no assertion error |
| `Lifecycle.BuildRunsInstall` | ext_build.py:129-135 | `build()` runs build then install under `[BUILD]`, fail-fast: install runs exactly when the build succeeded |
| `Lifecycle.Clean` | ext_build.py:154-159 | `clean()` raises no assertion error |
| `Lifecycle.CleanRunsPlan` | ext_build.py:154-159 | `clean()` never takes the "Nothing to clean." branch and runs the whole clean plan fail-fast under `[CLEAN]` |
| `Lifecycle.Stubgen` | ext_build.py:172-175 | `stubgen()` runs the stub generator under `[STUB]`, fail-fast or as a dry run |
| `Lifecycle.RunExtension` | ext_build.py:206-208 | one loop iteration raises no assertion error |
| `Lifecycle.BuildThenStubgen` | ext_build.py:207-208 | build, install and stubgen run in order, fail-fast |
| `Lifecycle.RunExtensionOrder` | ext_build.py:206-208 | configure, build, install, stubgen run in that order; a failing phase skips every later one |
| `Lifecycle.RunPhases` | ext_build.py:201-208 | the loop raises no assertion error |
| `Lifecycle.RunPhasesDefault` | ext_build.py:201-208 | without `--clean`, all phases of all extensions run in order, fail-fast across phases and extensions |
| `Lifecycle.RunPhasesCleanFirstOnly` | ext_build.py:202-205 | with `--clean`, for any non-empty list of extensions, the run is the first extension's clean plan, and it is the same whatever the later extensions are |
| `Lifecycle.RunMain` | ext_build.py:200-210 | `main` returns normally on every outcome the model represents: `SubCommandError` is swallowed and the assertion cannot fail; exceptions the model leaves out (see "Left out") are not covered |
| `Lifecycle.MainExtension` | ext_build.py:194-198 | `main`'s extension is `python_template._ext` from the project's `csrcs`, built in the default build directory under it, with the dry-run flag as given |
| `Lifecycle.MainDefinitions` | ext_build.py:194-198 | `main` passes no definitions, so its definitions are exactly the defaults in declaration order |
| `Lifecycle.MainCleanIsExclusive` | ext_build.py:203-205 | with `--clean` only the clean plan runs: every launch is a `[CLEAN]` command of the plan, a fail-fast prefix of it, and nothing is launched in a dry run |
| `Lifecycle.MainPhaseOrder` | ext_build.py:206-210 | without `--clean` the launches are a fail-fast prefix of configure, build, install, stubgen; a dry run launches nothing and echoes all four |
| `Lifecycle.MainConfigureFailureStopsRun` | ext_build.py:206-210 | when configure exits non-zero, it is the only launch, build and stubgen never start, and `main` returns normally |

## Left out

- Process I/O: `subprocess.Popen`, the streaming of stdout and stderr, `.decode().strip()` and the ANSI colours are left out. A process is its exit code from an oracle. The echoed line is modelled as label, tab, then the space-joined command, without colour codes.
- `cmd_in_shell` is computed and stated, but it only affects how `Popen` launches a process, so the model does not observe it.
- Module-level setup is left out. This covers the imports of `cmake`, `pybind11` and `ninja` and the `PATH` mutation. `CMAKE_BIN` is the cmake directory joined with `cmake` or `cmake.exe`. The cmake directory, `PYBIND11_CMAKE_DIR` and `PROJECT_ROOT` are opaque fields of the host record.
- Path semantics are simplified. Joining always uses `/`, on Windows too. `abspath` keeps a path that starts with `/` and otherwise prefixes the working directory, with no normalisation of `.` or `..`. Only relative names are ever joined.
- `readlines()` universal-newline translation (`\r\n` and `\r` read as `\n`) is not modelled.
- Exceptions other than `SubCommandError` and the `assert` are not modelled. This includes a missing executable, an unreadable manifest and `Popen` given an empty inner command of a batch. The code never builds an empty command.
- `argparse` handling and the `help` check in `main` are CLI glue. `--clean` and `--dry-run` are booleans.
- The aliasing of the mutable default `cmake_extr_def={}` is Python reference semantics. The merge works on an immutable value.
- Python dictionaries cannot repeat a key. The model does not require this of its entry sequences. Instead the contracts state that unique keys stay unique.
- `csrcs/pybind.cc` is a pybind11 binding of C++ code outside this model. It has no logic of its own.
- Lifecycle.Build: its own contract only excludes the assertion error. The full fail-fast behaviour is stated by `Lifecycle.BuildRunsInstall`, because the function keeps the unreachable empty-post-build branch of the source.
- Lifecycle.Clean: its own contract only excludes the assertion error. The run of the plan is stated by `Lifecycle.CleanRunsPlan`, because the function keeps the unreachable "Nothing to clean." branch.
- Lifecycle.RunExtension: its own contract only excludes the assertion error. The phase order is stated by `Lifecycle.RunExtensionOrder`.
- Lifecycle.RunPhases: its own contract only excludes the assertion error. The phase order is stated by `Lifecycle.RunPhasesDefault`; the `--clean` branch, for any number of extensions, by `Lifecycle.RunPhasesCleanFirstOnly`.
