/** The Python generation's test runner helpers (binnacle/testutils.py): a TEST
    line's arguments are cut into pipeline stages at each `--pipe`, the stages run
    one after another with each stage's standard output fed to the next, and the
    verdict is printed as a Test Anything Protocol status line. */
module PyTestUtils {
  import opened Values
  import opened Text
  import opened Tap

  /** The argument that separates two pipeline stages. */
  const PipeArg: string := "--pipe"
  /** The return code of a command that succeeded. */
  const RcSuccess: int := 0
  /** Keywords whose lines are numbered and run as tests. */
  const TestKeywords: seq<string> := ["TEST"]

  // ---------------------------------------------------------------------
  // command_groups

  /** The stages `command_groups` builds from the first arguments, one argument at a
      time: the first argument opens a stage, `--pipe` opens the next one, and any
      other argument joins the last stage. */
  function Groups(args: seq<string>): (r: seq<seq<string>>)
    ensures r == [] <==> args == []
    ensures forall i :: 0 <= i < |r| ==> PipeArg !in r[i]
    ensures args != [] ==> |r| == 1 + multiset(args)[PipeArg]
    decreases |args|
  {
    if args == [] then []
    else
      var front := args[..|args| - 1];
      var a := args[|args| - 1];
      assert args == front + [a];
      var g0 := Groups(front);
      var g := if g0 == [] then [[]] else g0;
      if a == PipeArg then g + [[]]
      else g[..|g| - 1] + [g[|g| - 1] + [a]]
  }

  /** `command_groups`: the stages of the argument list, split on `--pipe`. */
  method CommandGroups(args: seq<string>) returns (groups: seq<seq<string>>)
    ensures groups == Groups(args)
  {
    groups := [];
    var i := 0;
    while i < |args|
      invariant 0 <= i <= |args|
      invariant groups == Groups(args[..i])
    {
      var arg := args[i];
      if |groups| == 0 {
        groups := groups + [[]];
      }
      if arg == PipeArg {
        groups := groups + [[]];
      } else {
        groups := groups[..|groups| - 1] + [groups[|groups| - 1] + [arg]];
      }
      assert args[..i + 1][..i] == args[..i];
      i := i + 1;
    }
    assert args[..i] == args;
  }

  /** The stages put back together with `--pipe` between neighbours. */
  function JoinStages(gs: seq<seq<string>>): seq<string> {
    if gs == [] then []
    else if |gs| == 1 then gs[0]
    else JoinStages(gs[..|gs| - 1]) + [PipeArg] + gs[|gs| - 1]
  }

  /** A new last stage is joined on after a `--pipe`. */
  lemma JoinNewStage(gs: seq<seq<string>>, g: seq<string>)
    requires gs != []
    ensures JoinStages(gs + [g]) == JoinStages(gs) + [PipeArg] + g
  {
    assert (gs + [g])[..|gs|] == gs;
  }

  /** An argument added to the last stage comes last in the join. */
  lemma JoinExtendLast(front: seq<seq<string>>, last: seq<string>, a: string)
    ensures JoinStages(front + [last + [a]]) == JoinStages(front + [last]) + [a]
  {
    if front == [] {
      assert JoinStages([last + [a]]) == last + [a];
      assert JoinStages([last]) == last;
    } else {
      JoinNewStage(front, last + [a]);
      JoinNewStage(front, last);
    }
  }

  /** Joining the stages on `--pipe` gives back the arguments they were cut from. */
  lemma {:induction false} GroupsJoin(args: seq<string>)
    requires args != []
    ensures JoinStages(Groups(args)) == args
    decreases |args|
  {
    var front := args[..|args| - 1];
    var a := args[|args| - 1];
    assert args == front + [a];
    var g0 := Groups(front);
    var g := if g0 == [] then [[]] else g0;
    assert JoinStages(g) == front by {
      if front != [] {
        GroupsJoin(front);
      }
    }
    if a == PipeArg {
      JoinNewStage(g, []);
    } else {
      JoinExtendLast(g[..|g| - 1], g[|g| - 1], a);
      assert g[..|g| - 1] + [g[|g| - 1]] == g;
    }
  }

  /** The stages one after the other, with nothing between them. */
  function Flatten(gs: seq<seq<string>>): seq<string> {
    if gs == [] then [] else Flatten(gs[..|gs| - 1]) + gs[|gs| - 1]
  }

  /** The arguments other than `--pipe`, in order. */
  function WithoutPipes(args: seq<string>): seq<string> {
    if args == [] then []
    else WithoutPipes(args[..|args| - 1]) + (if args[|args| - 1] == PipeArg then [] else [args[|args| - 1]])
  }

  /** The stages hold every argument except the `--pipe` tokens, in their order. */
  lemma {:induction false} GroupsFlatten(args: seq<string>)
    ensures Flatten(Groups(args)) == WithoutPipes(args)
    decreases |args|
  {
    if args != [] {
      var front := args[..|args| - 1];
      var a := args[|args| - 1];
      assert args == front + [a];
      GroupsFlatten(front);
      var g0 := Groups(front);
      var g := if g0 == [] then [[]] else g0;
      assert Flatten(g) == Flatten(g0) by {
        if g0 == [] {
          assert Flatten([[]]) == Flatten([]) + [];
        }
      }
      var n := |g|;
      if a == PipeArg {
        var r := g + [[]];
        assert r[..|r| - 1] == g;
      } else {
        var r := g[..n - 1] + [g[n - 1] + [a]];
        assert r[..|r| - 1] == g[..n - 1];
        assert Flatten(g) == Flatten(g[..n - 1]) + g[n - 1];
      }
    }
  }

  // ---------------------------------------------------------------------
  // ok / notok

  /** The fields after the status word: `%4d - [{node=%s}, {cmd=%s}]`. */
  function Fields(number: int, node: string, cmd: string): string {
    PadLeft(IntToString(number), 4) + " - [{node=" + node + "}, {cmd=" + cmd + "}]"
  }

  /** The TAP status line `%-6s %4d - [{node=%s}, {cmd=%s}]`. */
  function StatusLine(status: string, number: int, node: string, cmd: string): string {
    PadRight(status, 6) + " " + Fields(number, node, cmd)
  }

  /** The line printed for an error line under a failed test. */
  function Comment(line: string): string {
    "#    " + line
  }

  /** The comment lines printed for the error lines, in order. */
  function Comments(errlines: seq<string>): (r: seq<string>)
    ensures |r| == |errlines|
    ensures forall k :: 0 <= k < |errlines| ==> r[k] == Comment(errlines[k])
  {
    if errlines == [] then [] else Comments(errlines[..|errlines| - 1]) + [Comment(errlines[|errlines| - 1])]
  }

  /** `ok`: one status line that reports success. */
  function Ok(number: int, node: string, cmd: string): (r: seq<string>)
    ensures |r| == 1 && ReportsOk(r[0]) && !ReportsNotOk(r[0])
  {
    VerdictWordLine(true, Fields(number, node, cmd));
    [StatusLine("ok", number, node, cmd)]
  }

  /** `notok`: a status line that reports failure, then each error line as a comment. */
  function NotOk(number: int, node: string, cmd: string, errlines: seq<string>): (r: seq<string>)
    ensures |r| == 1 + |errlines| && ReportsNotOk(r[0]) && !ReportsOk(r[0])
    ensures forall k :: 0 <= k < |errlines| ==> r[k + 1] == "#    " + errlines[k]
  {
    VerdictWordLine(false, Fields(number, node, cmd));
    var comments := Comments(errlines);
    var r := [StatusLine("not ok", number, node, cmd)] + comments;
    assert forall k :: 0 <= k < |errlines| ==> r[k + 1] == comments[k];
    r
  }

  // ---------------------------------------------------------------------
  // handle_TEST

  /** What `execute` returns: the return code, then the standard output and standard
      error lines. */
  datatype CommandOutput = CommandOutput(rc: int, out: seq<string>, err: seq<string>)

  /** Running one command on a node with the given standard input lines. */
  type Executor = (string, string, seq<string>, seq<string>) -> CommandOutput

  /** The options `parse_tester_args` recognises, and the arguments it leaves. */
  datatype TesterArgs = TesterArgs(ret: int, sequence: int, remaining: seq<string>)

  /** The outputs of the stages that run, from the first: each stage is given the
      previous stage's standard output, and a failing stage that is not the last one
      ends the pipeline. None when a stage without a command is reached (the
      IndexError of `cmd[0]`). */
  function Trace(exec: Executor, node: string, gs: seq<seq<string>>, stdin: seq<string>): Option<seq<CommandOutput>>
    decreases |gs|
  {
    if gs == [] then Some([])
    else if gs[0] == [] then None
    else
      var o := exec(node, gs[0][0], gs[0][1..], stdin);
      if |gs| > 1 && o.rc != RcSuccess then Some([o])
      else Then([o], Trace(exec, node, gs[1..], o.out))
  }

  /** `t` are the outputs of the stages as a pipeline runs them from `gs`: every stage
      that runs has a command and reads the previous stage's output (the first one
      reads `stdin`); all but the last one that ran succeeded; and the pipeline ends
      early only on a failure. */
  predicate RunsAsPipeline(exec: Executor, node: string, gs: seq<seq<string>>, stdin: seq<string>, t: seq<CommandOutput>) {
    && |t| <= |gs|
    && (gs != [] ==> 1 <= |t|)
    && (forall k :: 0 <= k < |t| - 1 ==> t[k].rc == RcSuccess)
    && (0 < |t| < |gs| ==> t[|t| - 1].rc != RcSuccess)
    && (t != [] ==> gs[0] != [] && t[0] == exec(node, gs[0][0], gs[0][1..], stdin))
    && (forall k :: 0 < k < |t| ==> gs[k] != [] && t[k] == exec(node, gs[k][0], gs[k][1..], t[k - 1].out))
  }

  /** `Trace` runs the stages as a pipeline, and raises only at a stage without a command. */
  lemma {:induction false} TraceShape(exec: Executor, node: string, gs: seq<seq<string>>, stdin: seq<string>)
    ensures Trace(exec, node, gs, stdin).Some? ==> RunsAsPipeline(exec, node, gs, stdin, Trace(exec, node, gs, stdin).value)
    ensures Trace(exec, node, gs, stdin).None? ==> exists j :: 0 <= j < |gs| && gs[j] == []
    decreases |gs|
  {
    if gs != [] && gs[0] != [] {
      var o := exec(node, gs[0][0], gs[0][1..], stdin);
      if !(|gs| > 1 && o.rc != RcSuccess) {
        var rest := Trace(exec, node, gs[1..], o.out);
        assert Trace(exec, node, gs, stdin) == Then([o], rest);
        TraceShape(exec, node, gs[1..], o.out);
        match rest
        case None =>
          var j :| 0 <= j < |gs[1..]| && gs[1..][j] == [];
          assert gs[j + 1] == [];
        case Some(t) =>
          PipelineCons(exec, node, gs, stdin, t);
      }
    }
  }

  /** A first stage that ran and did not stop the pipeline, ahead of a run of the other
      stages on its output, is a run of the whole pipeline. */
  lemma PipelineCons(exec: Executor, node: string, gs: seq<seq<string>>, stdin: seq<string>, t: seq<CommandOutput>)
    requires gs != [] && gs[0] != []
    requires var o := exec(node, gs[0][0], gs[0][1..], stdin);
      !(|gs| > 1 && o.rc != RcSuccess) && RunsAsPipeline(exec, node, gs[1..], o.out, t)
    ensures RunsAsPipeline(exec, node, gs, stdin, [exec(node, gs[0][0], gs[0][1..], stdin)] + t)
  {
    var o := exec(node, gs[0][0], gs[0][1..], stdin);
    var r := [o] + t;
    forall k | 0 < k < |r|
      ensures r[k] == t[k - 1] && gs[k] == gs[1..][k - 1]
    {
    }
  }

  /** Two runs of one pipeline agree at every stage both reached. */
  lemma {:induction false} PipelineAgree(exec: Executor, node: string, gs: seq<seq<string>>, stdin: seq<string>,
                                         t1: seq<CommandOutput>, t2: seq<CommandOutput>, k: nat)
    requires RunsAsPipeline(exec, node, gs, stdin, t1) && RunsAsPipeline(exec, node, gs, stdin, t2)
    requires k < |t1| && k < |t2|
    ensures t1[k] == t2[k]
    decreases k
  {
    if k > 0 {
      PipelineAgree(exec, node, gs, stdin, t1, t2, k - 1);
    }
  }

  /** A pipeline runs in one way only: `RunsAsPipeline` pins the outputs down, so
      `Trace` is the one run it describes. */
  lemma PipelineUnique(exec: Executor, node: string, gs: seq<seq<string>>, stdin: seq<string>,
                       t1: seq<CommandOutput>, t2: seq<CommandOutput>)
    requires RunsAsPipeline(exec, node, gs, stdin, t1) && RunsAsPipeline(exec, node, gs, stdin, t2)
    ensures t1 == t2
  {
    if |t1| < |t2| {
      PipelineAgree(exec, node, gs, stdin, t1, t2, |t1| - 1);
    } else if |t2| < |t1| {
      PipelineAgree(exec, node, gs, stdin, t1, t2, |t2| - 1);
    } else {
      forall k | 0 <= k < |t1| ensures t1[k] == t2[k] {
        PipelineAgree(exec, node, gs, stdin, t1, t2, k);
      }
    }
  }

  /** The printed command of a TEST line. */
  function PrintedCommand(args: seq<string>): string {
    "TEST " + JoinWith(args, " ")
  }

  /** What `handle_TEST` prints once the last stage that ran returned `last`. */
  function Verdict(node: string, args: seq<string>, parsed: TesterArgs, last: CommandOutput): seq<string> {
    if parsed.ret == last.rc then Ok(parsed.sequence, node, PrintedCommand(args))
    else NotOk(parsed.sequence, node, PrintedCommand(args), last.err)
  }

  /** What `handle_TEST` prints; None when it raises: a stage without a command, or no
      stage at all (then `rc` is never bound). */
  function Report(exec: Executor, node: string, args: seq<string>, parsed: TesterArgs): Option<seq<string>> {
    match Trace(exec, node, Groups(parsed.remaining), [])
    case None => None
    case Some(t) => if t == [] then None else Some(Verdict(node, args, parsed, t[|t| - 1]))
  }

  /** `handle_TEST`: runs the stages of a TEST line and prints its verdict. The option
      parsing is given as `parsed` and the command runner as `exec`. */
  method HandleTest(exec: Executor, node: string, args: seq<string>, parsed: TesterArgs) returns (printed: Option<seq<string>>)
    ensures printed == Report(exec, node, args, parsed)
  {
    var cmdgrps := CommandGroups(parsed.remaining);
    var raised, last := RunStages(exec, node, cmdgrps);
    if raised || last.None? {
      return None;
    }
    printed := Some(Verdict(node, args, parsed, last.value));
  }

  /** The loop of `handle_TEST` over the stages: each one's output is the next one's
      input, and the loop stops after a failed stage that is not the last. `raised` is
      the IndexError of a stage without a command; `last` is the output of the last
      stage that ran. */
  method RunStages(exec: Executor, node: string, cmdgrps: seq<seq<string>>) returns (raised: bool, last: Option<CommandOutput>)
    ensures raised <==> Trace(exec, node, cmdgrps, []).None?
    ensures !raised ==> var t := Trace(exec, node, cmdgrps, []).value;
      last == if t == [] then None else Some(t[|t| - 1])
  {
    var out: seq<string> := [];
    last := None;
    var numGroups := |cmdgrps|;
    ghost var ran: seq<CommandOutput> := [];
    var idx := 0;
    assert cmdgrps[idx..] == cmdgrps;
    NothingRanYet(Trace(exec, node, cmdgrps[idx..], out));
    while idx < numGroups
      invariant 0 <= idx <= numGroups && |ran| == idx
      invariant Trace(exec, node, cmdgrps, []) == Then(ran, Trace(exec, node, cmdgrps[idx..], out))
      invariant last == (if ran == [] then None else Some(ran[|ran| - 1]))
    {
      var cmd := cmdgrps[idx];
      TraceAdvance(exec, node, cmdgrps, idx, out, ran);
      if cmd == [] {
        return true, last;
      }
      var o := exec(node, cmd[0], cmd[1..], out);
      out := o.out;
      last := Some(o);
      ran := ran + [o];
      if idx + 1 < numGroups && o.rc != RcSuccess {
        break;
      }
      idx := idx + 1;
    }
    TraceEnd(exec, node, cmdgrps, out, ran);
    raised := false;
  }

  /** One stage of `Trace`, after the outputs `ran` of the stages before it: a stage
      without a command raises; otherwise the command runs, and the pipeline goes on
      unless it failed before the last stage. */
  lemma TraceAdvance(exec: Executor, node: string, gs: seq<seq<string>>, i: nat, stdin: seq<string>, ran: seq<CommandOutput>)
    requires i < |gs|
    ensures gs[i] == [] ==> Then(ran, Trace(exec, node, gs[i..], stdin)) == None
    ensures gs[i] != [] ==>
      var o := exec(node, gs[i][0], gs[i][1..], stdin);
      Then(ran, Trace(exec, node, gs[i..], stdin))
        == if i + 1 < |gs| && o.rc != RcSuccess then Some(ran + [o]) else Then(ran + [o], Trace(exec, node, gs[i + 1..], o.out))
  {
    var g := gs[i..];
    assert g[0] == gs[i] && g[1..] == gs[i + 1..];
    if gs[i] != [] {
      var o := exec(node, gs[i][0], gs[i][1..], stdin);
      var rest := Trace(exec, node, gs[i + 1..], o.out);
      if rest.Some? {
        assert ran + ([o] + rest.value) == ran + [o] + rest.value;
      }
    }
  }

  /** Past the last stage nothing more runs. */
  lemma TraceEnd(exec: Executor, node: string, gs: seq<seq<string>>, stdin: seq<string>, ran: seq<CommandOutput>)
    ensures Then(ran, Trace(exec, node, gs[|gs|..], stdin)) == Some(ran)
  {
    assert gs[|gs|..] == [];
    assert ran + [] == ran;
  }

  /** Outputs already collected, ahead of the outputs of the stages still to run. */
  function Then(ran: seq<CommandOutput>, rest: Option<seq<CommandOutput>>): (r: Option<seq<CommandOutput>>)
    ensures r.Some? <==> rest.Some?
    ensures r.Some? ==> |r.value| == |ran| + |rest.value|
  {
    match rest
    case None => None
    case Some(t) => Some(ran + t)
  }

  lemma NothingRanYet(rest: Option<seq<CommandOutput>>)
    ensures Then([], rest) == rest
  {
    if rest.Some? {
      assert [] + rest.value == rest.value;
    }
  }

  /** `handle_TEST` prints a verdict exactly when some stage ran and none of the stages
      reached lacked a command; the verdict is ok exactly when the last stage that ran
      returned the expected code (`--ret`), and not ok otherwise. */
  lemma ReportVerdict(exec: Executor, node: string, args: seq<string>, parsed: TesterArgs)
    ensures var t := Trace(exec, node, Groups(parsed.remaining), []);
      Report(exec, node, args, parsed).Some? <==> parsed.remaining != [] && t.Some?
    ensures var t := Trace(exec, node, Groups(parsed.remaining), []);
      Report(exec, node, args, parsed).Some? ==>
        var lines := Report(exec, node, args, parsed).value;
        var last := t.value[|t.value| - 1];
        lines != []
        && (ReportsOk(lines[0]) <==> parsed.ret == last.rc)
        && (ReportsNotOk(lines[0]) <==> parsed.ret != last.rc)
  {
  }

  /** A failed verdict lists the last stage's error lines as comments, in order. */
  lemma ReportErrors(exec: Executor, node: string, args: seq<string>, parsed: TesterArgs)
    requires Report(exec, node, args, parsed).Some?
    ensures var t := Trace(exec, node, Groups(parsed.remaining), []).value;
      var last := t[|t| - 1];
      var lines := Report(exec, node, args, parsed).value;
      parsed.ret != last.rc ==>
        |lines| == 1 + |last.err| && forall k :: 0 <= k < |last.err| ==> lines[k + 1] == Comment(last.err[k])
  {
  }
}
