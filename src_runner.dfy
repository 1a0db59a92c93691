/** The oldest generation's runner state (src/runner.rb): the dry-run flag, the test
    counter, the target node and the remote plugin, the command wrapping for remote
    nodes, the fallback result of a command that cannot be spawned, and the TAP-style
    status lines it prints. Printed lines are collected in `printed`, one entry per
    `printf`/`puts` call. */
module SrcRunner {
  import opened Values
  import opened Text
  import opened Tap

  /** What `Open3.capture3` reports for a command that ran. */
  datatype Spawned = Spawned(ret: int, out: string, err: string)

  /** The processes of the host: the result of running a command line, or None when
      spawning it raises. */
  type Spawn = string -> Option<Spawned>

  datatype RunnerState = RunnerState(dryRun: bool, testsCount: int, node: Scalar, remotePlugin: Scalar,
                                     printed: seq<string>)

  /** The class variables as the module is loaded. */
  const Initial := RunnerState(false, 0, Str("local"), Str("ssh"), [])

  /** `full_cmd(cmd)`: the command itself on the local node or under an unknown plugin,
      otherwise wrapped into an ssh or docker invocation on the node. */
  function FullCmd(s: RunnerState, cmd: Scalar): (r: Scalar)
    ensures s.node == Str("local") ==> r == cmd
    ensures s.node != Str("local") && s.remotePlugin != Str("ssh") && s.remotePlugin != Str("docker") ==> r == cmd
  {
    if s.node == Str("local") then cmd
    else if s.remotePlugin == Str("ssh") then Str("ssh " + ToS(s.node) + " /bin/bash -c '" + ToS(cmd) + "'")
    else if s.remotePlugin == Str("docker") then Str("docker exec -i " + ToS(s.node) + " /bin/bash -c '" + ToS(cmd) + "'")
    else cmd
  }

  /** On a remote node the wrapped line names the node and carries the command, unquoted,
      between `-c '` and the closing quote. */
  lemma FullCmdWraps(s: RunnerState, cmd: Scalar)
    requires s.node != Str("local") && (s.remotePlugin == Str("ssh") || s.remotePlugin == Str("docker"))
    ensures var r := FullCmd(s, cmd);
      var prefix := (if s.remotePlugin == Str("ssh") then "ssh " else "docker exec -i ") + ToS(s.node) + " /bin/bash -c '";
      r.Str? && StartsWith(r.s, prefix) && EndsWith(r.s, "'")
      && r.s[|prefix|..|r.s| - 1] == ToS(cmd)
  {
  }

  /** `execute` when spawning raises. */
  const Fallback := Spawned(-1, "", "Unknown command")

  /** `execute(cmd)`: the child's exit status and output; the fallback when the wrapped
      command is not a string or cannot be spawned. */
  function Executed(s: RunnerState, cmd: Scalar, spawn: Spawn): (r: Spawned)
    ensures FullCmd(s, cmd).Str? && spawn(FullCmd(s, cmd).s).Some? ==> r == spawn(FullCmd(s, cmd).s).value
    ensures !(FullCmd(s, cmd).Str? && spawn(FullCmd(s, cmd).s).Some?) ==> r == Fallback
  {
    var full := FullCmd(s, cmd);
    if full.Str? then
      match spawn(full.s)
      case Some(r) => r
      case None => Fallback
    else Fallback
  }

  /** A command that is not a string cannot be spawned on the local node. */
  lemma LocalNonStringFallsBack(s: RunnerState, cmd: Scalar, spawn: Spawn)
    requires s.node == Str("local") && !cmd.Str?
    ensures Executed(s, cmd, spawn) == Fallback
  {
  }

  /** `printf("%-6s %3d - %s\n", ok_msg, test_id, msg)`, without the line break. */
  function StatusLine(okMsg: string, testId: int, msg: string): string {
    PadRight(okMsg, 6) + " " + StatusFields(testId, msg)
  }

  /** The fields after the status word: `%3d - %s`. */
  function StatusFields(testId: int, msg: string): string {
    PadLeft(IntToString(testId), 3) + " - " + msg
  }

  /** A status line reports exactly the verdict it was given. */
  lemma StatusLineVerdict(ok: bool, testId: int, msg: string)
    ensures var line := StatusLine(if ok then "ok" else "not ok", testId, msg);
      (ReportsOk(line) <==> ok) && (ReportsNotOk(line) <==> !ok)
  {
    VerdictWordLine(ok, StatusFields(testId, msg));
  }

  /** `"# #{text.split("\n").join("\n# ")}"` */
  function DiagnosticText(text: string): string {
    "# " + JoinWith(RubySplit(text, "\n"), "\n# ")
  }

  function Commented(parts: seq<string>): (r: seq<string>)
    ensures |r| == |parts| && forall k :: 0 <= k < |parts| ==> r[k] == "# " + parts[k]
  {
    if parts == [] then [] else Commented(parts[..|parts| - 1]) + ["# " + parts[|parts| - 1]]
  }

  lemma {:induction false} JoinCommented(parts: seq<string>)
    requires parts != []
    requires forall k :: 0 <= k < |parts| ==> '\n' !in parts[k]
    ensures Split("# " + JoinWith(parts, "\n# "), "\n") == Commented(parts)
  {
    if |parts| == 1 {
      SplitWithoutSeparator("# " + parts[0], '\n');
    } else {
      var front := parts[..|parts| - 1];
      var last := parts[|parts| - 1];
      var joined := JoinWith(front, "\n# ");
      JoinCommented(front);
      assert parts[..|parts| - 1] == front;
      assert JoinWith(parts, "\n# ") == joined + "\n# " + last;
      assert "# " + JoinWith(parts, "\n# ") == ("# " + joined) + ['\n'] + ("# " + last);
      assert '\n' !in "# " + last;
      SplitSnoc("# " + joined, '\n', "# " + last);
      assert Commented(parts) == Commented(front) + ["# " + last];
    }
  }

  /** Every line of a printed diagnostic is one line of the text, prefixed with `# `
      (the text's trailing empty lines dropped, as Ruby's `split` drops them). */
  lemma DiagnosticLines(text: string)
    requires RubySplit(text, "\n") != []
    ensures Split(DiagnosticText(text), "\n") == Commented(RubySplit(text, "\n"))
  {
    var parts := RubySplit(text, "\n");
    SplitFieldsLackSeparator(text, '\n');
    assert forall k :: 0 <= k < |parts| ==> parts[k] == Split(text, "\n")[k];
    JoinCommented(parts);
  }

  /** `OK_NOT_OK(test_name, cmd, ok, diagnostic)`: the status line numbered with the
      current counter, then the diagnostic when there is a non-empty one. */
  function OkNotOk(s: RunnerState, testName: string, cmd: Scalar, ok: bool, diagnostic: Option<string>): (lines: seq<string>)
    ensures |lines| == 1 || |lines| == 2
    ensures |lines| == 2 <==> diagnostic.Some? && diagnostic.value != ""
    ensures |lines| == 2 ==> lines[1] == DiagnosticText(diagnostic.value)
    ensures ReportsOk(lines[0]) <==> ok
    ensures ReportsNotOk(lines[0]) <==> !ok
  {
    StatusLineVerdict(ok, s.testsCount, "node=" + ToS(s.node) + " cmd=\"" + testName + " " + ToS(cmd) + "\"");
    var desc := "node=" + ToS(s.node) + " cmd=\"" + testName + " " + ToS(cmd) + "\"";
    [StatusLine(if ok then "ok" else "not ok", s.testsCount, desc)]
    + (if diagnostic.Some? && diagnostic.value != "" then [DiagnosticText(diagnostic.value)] else [])
  }

  /** The description of `CMD_OK_NOT_OK`. */
  function CmdDescription(s: RunnerState, caller: string, cmd: Scalar, expectRet: Scalar): (desc: string)
    ensures expectRet != Int(0) ==> EndsWith(desc, " expect_ret=" + ToS(expectRet))
    ensures expectRet == Int(0) ==> EndsWith(desc, ToS(cmd) + "\"")
    ensures StartsWith(desc, "node=" + ToS(s.node) + " cmd=\"" + caller + " ")
  {
    var head := "node=" + ToS(s.node) + " cmd=\"" + caller + " ";
    var base := head + (ToS(cmd) + "\"");
    var tail := " expect_ret=" + ToS(expectRet);
    PrefixOfConcat(head, ToS(cmd) + "\"");
    SuffixOfConcat(head, ToS(cmd) + "\"");
    SuffixOfConcat(base, tail);
    PrefixOfConcat(base, tail);
    assert StartsWith(base + tail, head) by {
      assert (base + tail)[..|head|] == base[..|head|];
    }
    if expectRet != Int(0) then base + tail else base
  }

  /** `CMD_OK_NOT_OK(cmd, ret, out, err, expect_ret)`: ok exactly when the exit status is
      the expected one; otherwise the status line is followed by the stderr text as a
      diagnostic, even when it is empty. */
  function CmdOkNotOk(s: RunnerState, caller: string, cmd: Scalar, ret: int, err: string, expectRet: Scalar): (lines: seq<string>)
    ensures |lines| == 1 <==> Int(ret) == expectRet
    ensures |lines| == 2 <==> Int(ret) != expectRet
    ensures ReportsOk(lines[0]) <==> Int(ret) == expectRet
    ensures ReportsNotOk(lines[0]) <==> Int(ret) != expectRet
    ensures |lines| == 2 ==> lines[1] == DiagnosticText(err)
  {
    var desc := CmdDescription(s, caller, cmd, expectRet);
    StatusLineVerdict(Int(ret) == expectRet, s.testsCount, desc);
    if Int(ret) == expectRet then [StatusLine("ok", s.testsCount, desc)]
    else [StatusLine("not ok", s.testsCount, desc), DiagnosticText(err)]
  }

  /** `BinnacleTestsRunner`'s class variables, with the lines it has printed. */
  class Runner {
    var dryRun: bool
    var testsCount: int
    var node: Scalar
    var remotePlugin: Scalar
    var printed: seq<string>

    function Current(): RunnerState
      reads this
    {
      RunnerState(dryRun, testsCount, node, remotePlugin, printed)
    }

    constructor ()
      ensures Current() == Initial
    {
      dryRun := false;
      testsCount := 0;
      node := Str("local");
      remotePlugin := Str("ssh");
      printed := [];
    }

    /** `dry_run=` */
    method SetDryRun(val: bool)
      modifies this
      ensures Current() == old(Current()).(dryRun := val)
    {
      dryRun := val;
    }

    /** `node=` */
    method SetNode(n: Scalar)
      modifies this
      ensures Current() == old(Current()).(node := n)
    {
      node := n;
    }

    /** `remote_plugin=` */
    method SetRemotePlugin(plugin: Scalar)
      modifies this
      ensures Current() == old(Current()).(remotePlugin := plugin)
    {
      remotePlugin := plugin;
    }

    /** `inc_counter`: one more test, nothing else changes. */
    method IncCounter() returns (count: int)
      modifies this
      ensures Current() == old(Current()).(testsCount := old(testsCount) + 1)
      ensures count == testsCount
    {
      testsCount := testsCount + 1;
      count := testsCount;
    }

    /** `execute(cmd)` */
    method Execute(cmd: Scalar, spawn: Spawn) returns (r: Spawned)
      ensures r == Executed(Current(), cmd, spawn)
    {
      var full := FullCmd(Current(), cmd);
      if full.Str? {
        var spawned := spawn(full.s);
        if spawned.Some? {
          return spawned.value;
        }
      }
      r := Fallback;
    }

    /** `OK_NOT_OK` and its `OK`/`NOT_OK` forms: prints the status and the diagnostic. */
    method PrintOkNotOk(testName: string, cmd: Scalar, ok: bool, diagnostic: Option<string>)
      modifies this
      ensures Current() == old(Current()).(printed := old(printed) + OkNotOk(old(Current()), testName, cmd, ok, diagnostic))
    {
      printed := printed + OkNotOk(Current(), testName, cmd, ok, diagnostic);
    }

    /** `CMD_OK_NOT_OK` */
    method PrintCmdOkNotOk(caller: string, cmd: Scalar, ret: int, err: string, expectRet: Scalar)
      modifies this
      ensures Current() == old(Current()).(printed := old(printed) + CmdOkNotOk(old(Current()), caller, cmd, ret, err, expectRet))
    {
      printed := printed + CmdOkNotOk(Current(), caller, cmd, ret, err, expectRet);
    }
  }
}
