/** `_run_single_cmd` and `_run_cmd`. A launched process is reduced to its
    exit code, which an oracle gives for each launch by its position among
    all launches of the run; the only other effect kept is the line echoed
    for each command. */
module Runner {
  import opened Seqs
  import opened Strings
  import opened Commands

  /** A command as launched (or, in a dry run, announced) under a phase label. */
  datatype Launch = Launch(header: string, argv: Command)

  /** `SubCommandError`, and the `AssertionError` of `assert len(cmd) > 0`. */
  datatype Error = SubCommandError | AssertionError

  datatype Status = Ok | Raised(error: Error)

  /** Echoed lines so far, and every process launched so far, in order. */
  datatype RunState = RunState(printed: seq<string>, launched: seq<Launch>)

  datatype Step = Step(state: RunState, status: Status)

  /** The two shapes `_run_cmd` accepts: one command, or a list of commands. */
  datatype Invocation = Single(cmd: Command) | Batch(cmds: seq<Command>)

  /** Exit code of the n-th process launched in the run (0 = success). */
  type Oracle = nat -> int

  const Initial: RunState := RunState([], [])

  /** `' '.join(cmd)`. */
  function JoinArgs(args: seq<string>): string {
    if args == [] then []
    else if |args| == 1 then args[0]
    else args[0] + " " + JoinArgs(args[1..])
  }

  /** Splitting the joined command line at spaces gives the arguments back,
      when there is at least one argument and none holds a space: the
      command line shows exactly the argument vector. */
  lemma {:induction false} JoinArgsSplit(args: seq<string>)
    requires args != []
    requires forall i :: 0 <= i < |args| ==> ' ' !in args[i]
    ensures Split(JoinArgs(args), ' ') == args
    decreases |args|
  {
    if |args| > 1 {
      var head, rest := args[0], JoinArgs(args[1..]);
      SplitJoin(head, ' ', rest);
      forall i | 0 <= i < |args[1..]| ensures ' ' !in args[1..][i] {
        assert args[1..][i] == args[i + 1];
      }
      JoinArgsSplit(args[1..]);
      assert JoinArgs(args) == head + [' '] + rest;
      assert args == [head] + args[1..];
    }
  }

  /** The line printed before a command runs: its label, a tab, the command
      line. */
  function Echo(l: Launch): (r: string)
    ensures |r| > |l.header| && r[..|l.header|] == l.header && r[|l.header|] == '\t'
    ensures r[|l.header| + 1..] == JoinArgs(l.argv)
  {
    l.header + "\t" + JoinArgs(l.argv)
  }

  function EchoAll(ls: seq<Launch>): seq<string> {
    if ls == [] then [] else [Echo(ls[0])] + EchoAll(ls[1..])
  }

  lemma EchoAllAppend(a: seq<Launch>, b: seq<Launch>)
    ensures EchoAll(a + b) == EchoAll(a) + EchoAll(b)
    decreases |a|
  {
    if a == [] {
      assert a + b == b;
    } else {
      assert (a + b)[0] == a[0] && (a + b)[1..] == a[1..] + b;
      EchoAllAppend(a[1..], b);
    }
  }

  /** Each command of a batch, under the batch's label. */
  function Tag(header: string, cmds: seq<Command>): (ls: seq<Launch>)
    ensures |ls| == |cmds|
    ensures forall i :: 0 <= i < |cmds| ==> ls[i] == Launch(header, cmds[i])
  {
    if cmds == [] then [] else [Launch(header, cmds[0])] + Tag(header, cmds[1..])
  }

  /** Fail-fast execution of `plan`: the launches that happen are a prefix of
      the plan, every launch but the last one exited with 0, and the run
      succeeds exactly when the whole plan was launched and the last launch
      also exited with 0; otherwise the last launch is the one that failed. */
  ghost predicate FailFast(plan: seq<Launch>, oracle: Oracle, before: seq<Launch>, after: seq<Launch>, ok: bool) {
    && |before| <= |after| <= |before| + |plan|
    && after == before + plan[..|after| - |before|]
    && (forall j :: |before| <= j < |after| - 1 ==> oracle(j) == 0)
    && (ok <==> |after| == |before| + |plan| && (|after| == |before| || oracle(|after| - 1) == 0))
    && (!ok ==> |after| > |before| && oracle(|after| - 1) != 0)
  }

  /** `r` is the outcome of running `plan` from `st`. In a dry run every
      command is echoed, nothing is launched and the run succeeds; otherwise
      the run is fail-fast and echoes exactly the commands it launched.
      Either way the only exception that can escape is `SubCommandError`. */
  ghost predicate Ran(plan: seq<Launch>, dry: bool, oracle: Oracle, st: RunState, r: Step) {
    && (r.status.Ok? || r.status == Raised(SubCommandError))
    && (if dry then
          && r.status.Ok?
          && r.state.launched == st.launched
          && r.state.printed == st.printed + EchoAll(plan)
        else
          && FailFast(plan, oracle, st.launched, r.state.launched, r.status.Ok?)
          && r.state.printed == st.printed + EchoAll(r.state.launched[|st.launched|..]))
  }

  /** A fail-fast run from nothing launches only commands of its plan. */
  lemma LaunchesFromPlan(plan: seq<Launch>, oracle: Oracle, after: seq<Launch>, ok: bool)
    requires FailFast(plan, oracle, [], after, ok)
    ensures forall l :: l in after ==> l in plan
  {
    assert after == plan[..|after|];
  }

  /** The launches of a batch are its commands under the batch's label. */
  lemma TagMembers(header: string, cmds: seq<Command>)
    ensures forall l :: l in Tag(header, cmds) ==> l.header == header && l.argv in cmds
  {
  }

  lemma FailFastThen(a: seq<Launch>, b: seq<Launch>, oracle: Oracle,
                     l0: seq<Launch>, l1: seq<Launch>, l2: seq<Launch>, ok: bool)
    requires FailFast(a, oracle, l0, l1, true)
    requires FailFast(b, oracle, l1, l2, ok)
    ensures FailFast(a + b, oracle, l0, l2, ok)
  {
    var m := |l2| - |l1|;
    assert (a + b)[..|a| + m] == a + b[..m];
    forall j | |l0| <= j < |l2| - 1 ensures oracle(j) == 0 {
      if j == |l1| - 1 {
        assert |l1| != |l0|;
      }
    }
  }

  lemma FailFastStop(a: seq<Launch>, b: seq<Launch>, oracle: Oracle, l0: seq<Launch>, l1: seq<Launch>)
    requires FailFast(a, oracle, l0, l1, false)
    ensures FailFast(a + b, oracle, l0, l1, false)
  {
    assert (a + b)[..|l1| - |l0|] == a[..|l1| - |l0|];
  }

  /** Running `a` successfully and then `b` is running `a + b`. */
  lemma RanThen(a: seq<Launch>, b: seq<Launch>, dry: bool, oracle: Oracle, st: RunState, r1: Step, r2: Step)
    requires Ran(a, dry, oracle, st, r1) && r1.status.Ok?
    requires Ran(b, dry, oracle, r1.state, r2)
    ensures Ran(a + b, dry, oracle, st, r2)
  {
    if dry {
      EchoAllAppend(a, b);
      SeqAssoc(st.printed, EchoAll(a), EchoAll(b));
    } else {
      var l0, l1, l2 := st.launched, r1.state.launched, r2.state.launched;
      FailFastThen(a, b, oracle, l0, l1, l2, r2.status.Ok?);
      SuffixThen(l0, l1, l2);
      EchoedThen(st.printed, r1.state.printed, r2.state.printed, l1[|l0|..], l2[|l1|..]);
    }
  }

  /** Echoing `x` and then `y` is echoing `x + y`. */
  lemma EchoedThen(p0: seq<string>, p1: seq<string>, p2: seq<string>, x: seq<Launch>, y: seq<Launch>)
    requires p1 == p0 + EchoAll(x) && p2 == p1 + EchoAll(y)
    ensures p2 == p0 + EchoAll(x + y)
  {
    EchoAllAppend(x, y);
    var ex, ey := EchoAll(x), EchoAll(y);
    SeqAssoc(p0, ex, ey);
  }

  /** What was added across two extensions of a sequence is what each added. */
  lemma SuffixThen<T>(l0: seq<T>, l1: seq<T>, l2: seq<T>)
    requires |l0| <= |l1| <= |l2| && l1[..|l0|] == l0 && l2[..|l1|] == l1
    ensures l2[|l0|..] == l1[|l0|..] + l2[|l1|..]
  {
    var x, y := l1[|l0|..], l2[|l1|..];
    assert l1 == l0 + x;
    assert l2 == l1 + y;
    assert l2 == l0 + (x + y);
  }

  /** A failure while running `a` is a failure of `a + b` at the same point. */
  lemma RanStop(a: seq<Launch>, b: seq<Launch>, dry: bool, oracle: Oracle, st: RunState, r: Step)
    requires Ran(a, dry, oracle, st, r) && !r.status.Ok?
    ensures !dry
    ensures Ran(a + b, dry, oracle, st, r)
  {
    FailFastStop(a, b, oracle, st.launched, r.state.launched);
  }

  /** `_run_single_cmd`: echo the command; in a dry run stop there,
      otherwise launch it and raise `SubCommandError` on a non-zero exit. */
  function RunSingle(cmd: Command, header: string, dry: bool, oracle: Oracle, st: RunState): (r: Step)
    ensures Ran(Tag(header, [cmd]), dry, oracle, st, r)
  {
    var l := Launch(header, cmd);
    var printed := st.printed + [Echo(l)];
    if dry then Step(RunState(printed, st.launched), Ok)
    else
      var code := oracle(|st.launched|);
      var st' := RunState(printed, st.launched + [l]);
      assert st'.launched[|st.launched|..] == [l];
      if code != 0 then Step(st', Raised(SubCommandError)) else Step(st', Ok)
  }

  /** The loop of `_run_cmd` over a list of commands: strictly in order,
      stopping at the first failure. */
  function RunBatch(cmds: seq<Command>, header: string, dry: bool, oracle: Oracle, st: RunState): (r: Step)
    ensures Ran(Tag(header, cmds), dry, oracle, st, r)
    decreases |cmds|
  {
    if cmds == [] then
      Step(st, Ok)
    else
      var r1 := RunSingle(cmds[0], header, dry, oracle, st);
      assert Tag(header, cmds) == Tag(header, [cmds[0]]) + Tag(header, cmds[1..]);
      if !r1.status.Ok? then
        RanStop(Tag(header, [cmds[0]]), Tag(header, cmds[1..]), dry, oracle, st, r1);
        r1
      else
        var r2 := RunBatch(cmds[1..], header, dry, oracle, r1.state);
        RanThen(Tag(header, [cmds[0]]), Tag(header, cmds[1..]), dry, oracle, st, r1, r2);
        r2
  }

  /** The commands an invocation stands for. */
  function CommandsOf(inv: Invocation): seq<Command> {
    match inv
    case Single(cmd) => [cmd]
    case Batch(cmds) => cmds
  }

  /** What `assert len(cmd) > 0` accepts: a non-empty command, or a non-empty list of commands. */
  predicate Admissible(inv: Invocation) {
    match inv
    case Single(cmd) => |cmd| > 0
    case Batch(cmds) => |cmds| > 0
  }

  /** `_run_cmd`: an empty command or empty batch fails the assertion before
      anything is echoed; anything else is run fail-fast. */
  function RunCmd(inv: Invocation, header: string, dry: bool, oracle: Oracle, st: RunState): (r: Step)
    ensures !Admissible(inv) ==> r == Step(st, Raised(AssertionError))
    ensures Admissible(inv) ==> Ran(Tag(header, CommandsOf(inv)), dry, oracle, st, r)
  {
    if !Admissible(inv) then Step(st, Raised(AssertionError))
    else
      match inv
      case Single(cmd) => RunSingle(cmd, header, dry, oracle, st)
      case Batch(cmds) => RunBatch(cmds, header, dry, oracle, st)
  }

  /** In a dry run nothing is launched, the batch succeeds, and every
      command is echoed in order under the batch's label. */
  lemma DryRunLaunchesNothing(cmds: seq<Command>, header: string, oracle: Oracle, st: RunState)
    ensures var r := RunBatch(cmds, header, true, oracle, st);
      && r.status == Ok
      && r.state.launched == st.launched
      && |r.state.printed| == |st.printed| + |cmds|
      && forall i :: 0 <= i < |cmds| ==> r.state.printed[|st.printed| + i] == Echo(Launch(header, cmds[i]))
  {
    var r := RunBatch(cmds, header, true, oracle, st);
    EchoAllIndex(Tag(header, cmds));
  }

  lemma EchoAllIndex(ls: seq<Launch>)
    ensures |EchoAll(ls)| == |ls|
    ensures forall i :: 0 <= i < |ls| ==> EchoAll(ls)[i] == Echo(ls[i])
  {
    if ls != [] {
      EchoAllIndex(ls[1..]);
    }
  }

  /** Outside a dry run, the batch launches its commands in order until the
      first non-zero exit and none after it: when command `i` fails and all
      before it succeed, exactly the first `i + 1` commands are launched and
      `SubCommandError` is raised. */
  lemma BatchStopsAtFirstFailure(cmds: seq<Command>, header: string, oracle: Oracle, st: RunState, i: nat)
    requires i < |cmds|
    requires forall j :: |st.launched| <= j < |st.launched| + i ==> oracle(j) == 0
    requires oracle(|st.launched| + i) != 0
    ensures var r := RunBatch(cmds, header, false, oracle, st);
      && r.status == Raised(SubCommandError)
      && r.state.launched == st.launched + Tag(header, cmds[..i + 1])
  {
    var r := RunBatch(cmds, header, false, oracle, st);
    var n := |st.launched|;
    assert Tag(header, cmds)[..i + 1] == Tag(header, cmds[..i + 1]);
  }
}
