/** The test-file keywords of the oldest generation (src/plugins.rb): `TEST` and
    `EXPECT`, which count every call before the dry-run check, and `NODE` and
    `REMOTE_PLUGIN`, which set the target permanently or, with a block, for the block
    only. A block is a sequence of keyword calls; `Raise` stands for any exception
    escaping from a statement of the test file. */
module SrcPlugins {
  import opened Values
  import opened Text
  import opened SrcRunner
  import opened Tap

  datatype Block = NoBlock | Block(ops: seq<Op>)

  datatype Op =
    | Test(args: seq<Scalar>)
    | Expect(expectValue: Scalar, cmd: Scalar)
    | Node(node: Scalar, block: Block)
    | RemotePlugin(plugin: Scalar, block: Block)
    | Raise

  /** `TEST cmd` expects 0; `TEST code, cmd` expects `code`. */
  function TestExpectRet(args: seq<Scalar>): (r: Scalar)
    ensures |args| <= 1 ==> r == Int(0)
    ensures |args| > 1 ==> r == args[0]
  {
    if |args| > 1 then args[0] else Int(0)
  }

  /** The command of a `TEST` call: nil when there are no arguments. */
  function TestCmd(args: seq<Scalar>): (r: Scalar)
    ensures |args| == 0 ==> r == Nil
    ensures |args| == 1 ==> r == args[0]
    ensures |args| > 1 ==> r == args[1]
  {
    if |args| > 1 then args[1] else if |args| == 1 then args[0] else Nil
  }

  /** `TEST(*args)` */
  function TestStep(s: RunnerState, args: seq<Scalar>, spawn: Spawn): RunnerState {
    var s1 := s.(testsCount := s.testsCount + 1);
    if s1.dryRun then s1
    else
      var r := Executed(s1, TestCmd(args), spawn);
      s1.(printed := s1.printed + CmdOkNotOk(s1, "TEST", TestCmd(args), r.ret, r.err, TestExpectRet(args)))
  }

  /** The diagnostic of a failed `EXPECT` comparison. */
  function Mismatch(expected: string, actual: string): string {
    "\"" + expected + "\"(Expected) != \"" + actual + "\"(Actual)"
  }

  /** `EXPECT(expect_value, cmd)` with the failing exit status reported against an
      expected status of 0. */
  function ExpectStep(s: RunnerState, expectValue: Scalar, cmd: Scalar, spawn: Spawn): RunnerState {
    var s1 := s.(testsCount := s.testsCount + 1);
    if s1.dryRun then s1
    else s1.(printed := s1.printed + ExpectLines(s1, expectValue, cmd, Executed(s1, cmd, spawn)))
  }

  /** What `EXPECT` prints for the command's result `r`: the exit status checked against
      0 first, then the stripped stdout against the expected value. The verdict is ok
      exactly when both hold. */
  function ExpectLines(s: RunnerState, expectValue: Scalar, cmd: Scalar, r: Spawned): (lines: seq<string>)
    ensures 1 <= |lines| <= 2
    ensures ReportsOk(lines[0]) <==> r.ret == 0 && ToS(expectValue) == RubyStrip(r.out)
    ensures ReportsNotOk(lines[0]) <==> !(r.ret == 0 && ToS(expectValue) == RubyStrip(r.out))
  {
    if r.ret != 0 then CmdOkNotOk(s, "EXPECT", cmd, r.ret, r.err, Int(0))
    else if ToS(expectValue) == RubyStrip(r.out) then OkNotOk(s, "EXPECT", cmd, true, None)
    else OkNotOk(s, "EXPECT", cmd, false, Some(Mismatch(ToS(expectValue), RubyStrip(r.out))))
  }

  /** `EXPECT` as src/plugins.rb writes it: the failing branch reads a local `expect_ret`
      that the method never defines, so it raises `NameError`. */
  function ExpectAsWritten(s: RunnerState, expectValue: Scalar, cmd: Scalar, spawn: Spawn): (RunnerState, Outcome) {
    var s1 := s.(testsCount := s.testsCount + 1);
    if s1.dryRun then (s1, Returned(Nil))
    else if Executed(s1, cmd, spawn).ret != 0 then (s1, Raised)
    else (ExpectStep(s, expectValue, cmd, spawn), Returned(Nil))
  }

  /** Statements in order, stopping at the first exception. */
  function Run(s: RunnerState, ops: seq<Op>, spawn: Spawn): (RunnerState, Outcome)
    decreases ops
  {
    if ops == [] then (s, Returned(Nil))
    else
      var (s1, o1) := Run(s, ops[..|ops| - 1], spawn);
      if o1.Raised? then (s1, Raised) else Step(s1, ops[|ops| - 1], spawn)
  }

  /** One keyword call. `NODE` and `REMOTE_PLUGIN` with a block restore the previous value
      in their `ensure`, whether the block returned or raised, but only when that value
      is not nil; without a block `prev` is never assigned, so nothing is restored. */
  function Step(s: RunnerState, op: Op, spawn: Spawn): (RunnerState, Outcome)
    decreases op
  {
    match op
    case Test(args) => (TestStep(s, args, spawn), Returned(Nil))
    case Expect(value, cmd) => (ExpectStep(s, value, cmd, spawn), Returned(Nil))
    case Node(n, block) =>
      if block.NoBlock? then (s.(node := n), Returned(Nil))
      else
        var prev := s.node;
        var (s1, o) := Run(s.(node := n), block.ops, spawn);
        (if prev != Nil then s1.(node := prev) else s1, o)
    case RemotePlugin(plugin, block) =>
      if block.NoBlock? then (s.(remotePlugin := plugin), Returned(Nil))
      else
        var prev := s.remotePlugin;
        var (s1, o) := Run(s.(remotePlugin := plugin), block.ops, spawn);
        (if prev != Nil then s1.(remotePlugin := prev) else s1, o)
    case Raise => (s, Raised)
  }

  lemma RunSnoc(s: RunnerState, ops: seq<Op>, op: Op, spawn: Spawn)
    ensures Run(s, ops + [op], spawn) ==
      (if Run(s, ops, spawn).1.Raised? then (Run(s, ops, spawn).0, Raised) else Step(Run(s, ops, spawn).0, op, spawn))
  {
    assert (ops + [op])[..|ops|] == ops;
  }

  /** Once a statement raises, the rest of the block does not run. */
  lemma {:induction false} RaisedStops(s: RunnerState, ops: seq<Op>, i: nat, spawn: Spawn)
    requires i <= |ops|
    requires Run(s, ops[..i], spawn).1.Raised?
    ensures Run(s, ops, spawn) == Run(s, ops[..i], spawn)
    decreases |ops| - i
  {
    if i < |ops| {
      var front := ops[..|ops| - 1];
      assert front[..i] == ops[..i];
      RaisedStops(s, front, i, spawn);
    } else {
      assert ops[..i] == ops;
    }
  }

  // ---------------------------------------------------------------------
  // Counting

  /** The `TEST` and `EXPECT` calls a block makes, nested blocks included. */
  function Calls(ops: seq<Op>): nat
    decreases ops
  {
    if ops == [] then 0 else Calls(ops[..|ops| - 1]) + OpCalls(ops[|ops| - 1])
  }

  function OpCalls(op: Op): nat
    decreases op
  {
    match op
    case Test(_) => 1
    case Expect(_, _) => 1
    case Node(_, block) => if block.Block? then Calls(block.ops) else 0
    case RemotePlugin(_, block) => if block.Block? then Calls(block.ops) else 0
    case Raise => 0
  }

  /** No statement raises, at any depth. */
  predicate Quiet(ops: seq<Op>)
    decreases ops
  {
    forall k :: 0 <= k < |ops| ==> QuietOp(ops[k])
  }

  predicate QuietOp(op: Op)
    decreases op
  {
    match op
    case Raise => false
    case Node(_, block) => block.Block? ==> Quiet(block.ops)
    case RemotePlugin(_, block) => block.Block? ==> Quiet(block.ops)
    case _ => true
  }

  /** A dry run counts every `TEST` and `EXPECT` call, nested ones included, and prints nothing. */
  lemma {:induction false} DryRunCounts(s: RunnerState, ops: seq<Op>, spawn: Spawn)
    requires s.dryRun && Quiet(ops)
    ensures var (s1, o) := Run(s, ops, spawn);
      o.Returned? && s1.dryRun && s1.testsCount == s.testsCount + Calls(ops) && s1.printed == s.printed
    decreases ops, 1
  {
    if ops != [] {
      var front := ops[..|ops| - 1];
      assert Quiet(front) by {
        forall k | 0 <= k < |front| ensures QuietOp(front[k]) {
          assert front[k] == ops[k];
        }
      }
      assert QuietOp(ops[|ops| - 1]);
      DryRunCounts(s, front, spawn);
      assert ops == front + [ops[|ops| - 1]];
      RunSnoc(s, front, ops[|ops| - 1], spawn);
      DryRunCountsOp(Run(s, front, spawn).0, ops[|ops| - 1], spawn);
    }
  }

  lemma {:induction false} DryRunCountsOp(s: RunnerState, op: Op, spawn: Spawn)
    requires s.dryRun && QuietOp(op)
    ensures var (s1, o) := Step(s, op, spawn);
      o.Returned? && s1.dryRun && s1.testsCount == s.testsCount + OpCalls(op) && s1.printed == s.printed
    decreases op, 0
  {
    match op
    case Test(_) =>
    case Expect(_, _) =>
    case Node(n, block) =>
      if block.Block? {
        DryRunCounts(s.(node := n), block.ops, spawn);
      }
    case RemotePlugin(p, block) =>
      if block.Block? {
        DryRunCounts(s.(remotePlugin := p), block.ops, spawn);
      }
  }

  /** In a dry run `TEST` neither runs the command nor prints: only the counter moves. */
  lemma DryRunTestSilent(s: RunnerState, args: seq<Scalar>, spawn: Spawn, other: Spawn)
    requires s.dryRun
    ensures TestStep(s, args, spawn) == s.(testsCount := s.testsCount + 1)
    ensures TestStep(s, args, spawn) == TestStep(s, args, other)
  {
  }

  /** In a dry run `EXPECT` neither runs the command nor prints. */
  lemma DryRunExpectSilent(s: RunnerState, value: Scalar, cmd: Scalar, spawn: Spawn, other: Spawn)
    requires s.dryRun
    ensures ExpectStep(s, value, cmd, spawn) == s.(testsCount := s.testsCount + 1)
    ensures ExpectStep(s, value, cmd, spawn) == ExpectStep(s, value, cmd, other)
  {
  }

  // ---------------------------------------------------------------------
  // Verdicts

  /** Outside a dry run `TEST` prints one result numbered with the incremented counter:
      ok exactly when the command's exit status equals the expected code, with the
      stderr text as a diagnostic otherwise. */
  lemma TestVerdict(s: RunnerState, args: seq<Scalar>, spawn: Spawn)
    requires !s.dryRun
    ensures var s1 := TestStep(s, args, spawn);
      var r := Executed(s.(testsCount := s.testsCount + 1), TestCmd(args), spawn);
      var lines := s1.printed[|s.printed|..];
      s1.testsCount == s.testsCount + 1 && s.printed <= s1.printed
      && 1 <= |lines| <= 2
      && (ReportsOk(lines[0]) <==> Int(r.ret) == TestExpectRet(args))
      && (|lines| == 2 <==> Int(r.ret) != TestExpectRet(args))
  {
    var s1 := TestStep(s, args, spawn);
    var r := Executed(s.(testsCount := s.testsCount + 1), TestCmd(args), spawn);
    assert s1.printed == s.printed + CmdOkNotOk(s.(testsCount := s.testsCount + 1), "TEST", TestCmd(args), r.ret, r.err, TestExpectRet(args));
    assert s1.printed[|s.printed|..] == CmdOkNotOk(s.(testsCount := s.testsCount + 1), "TEST", TestCmd(args), r.ret, r.err, TestExpectRet(args));
  }

  /** Outside a dry run `EXPECT` is ok exactly when the command exits with 0 and its
      stripped stdout equals the expected value's string form. */
  lemma ExpectVerdict(s: RunnerState, value: Scalar, cmd: Scalar, spawn: Spawn)
    requires !s.dryRun
    ensures var s1 := ExpectStep(s, value, cmd, spawn);
      var r := Executed(s.(testsCount := s.testsCount + 1), cmd, spawn);
      var lines := s1.printed[|s.printed|..];
      s1.testsCount == s.testsCount + 1 && s.printed <= s1.printed && 1 <= |lines| <= 2
      && (ReportsOk(lines[0]) <==> r.ret == 0 && ToS(value) == RubyStrip(r.out))
      && (ReportsNotOk(lines[0]) <==> !(r.ret == 0 && ToS(value) == RubyStrip(r.out)))
  {
    var s0 := s.(testsCount := s.testsCount + 1);
    var lines := ExpectLines(s0, value, cmd, Executed(s0, cmd, spawn));
    assert (s.printed + lines)[|s.printed|..] == lines;
  }

  /** The code as written raises on every non-zero exit status outside a dry run, and
      otherwise behaves like the corrected `EXPECT`. */
  lemma ExpectAsWrittenRaises(s: RunnerState, value: Scalar, cmd: Scalar, spawn: Spawn)
    ensures var r := Executed(s.(testsCount := s.testsCount + 1), cmd, spawn);
      (!s.dryRun && r.ret != 0 ==> ExpectAsWritten(s, value, cmd, spawn).1.Raised?)
      && (s.dryRun || r.ret == 0 ==> ExpectAsWritten(s, value, cmd, spawn) == (ExpectStep(s, value, cmd, spawn), Returned(Nil)))
  {
    var s1 := s.(testsCount := s.testsCount + 1);
    if s.dryRun {
      assert ExpectStep(s, value, cmd, spawn) == s1;
    }
  }

  /** A concrete case: `EXPECT 42, "false"` on the local node, where `false` exits with 1. */
  lemma ExpectAsWrittenExample()
    ensures var spawn: Spawn := c => Some(Spawned(1, "", ""));
      ExpectAsWritten(Initial, Int(42), Str("false"), spawn).1.Raised?
      && ExpectStep(Initial, Int(42), Str("false"), spawn).printed != []
  {
    var spawn: Spawn := c => Some(Spawned(1, "", ""));
    assert Executed(Initial.(testsCount := 1), Str("false"), spawn).ret == 1;
  }

  // ---------------------------------------------------------------------
  // Scoped targets

  /** `NODE n` without a block sets the node for the rest of the file. */
  lemma NodeWithoutBlockPersists(s: RunnerState, n: Scalar, spawn: Spawn)
    ensures Step(s, Node(n, NoBlock), spawn) == (s.(node := n), Returned(Nil))
  {
  }

  /** `NODE n do … end`: the block runs against `n`; afterwards the previous node is back,
      whether the block returned or raised, provided it was not nil. Nothing else is
      touched by the restore. */
  lemma NodeBlockRestores(s: RunnerState, n: Scalar, ops: seq<Op>, spawn: Spawn)
    requires s.node != Nil
    ensures var (s1, o) := Step(s, Node(n, Block(ops)), spawn);
      var (inner, io) := Run(s.(node := n), ops, spawn);
      s1 == inner.(node := s.node) && o == io
  {
  }

  /** With a nil previous node the `ensure` restores nothing: the block's node stays. */
  lemma NodeBlockNilPrevious(s: RunnerState, n: Scalar, spawn: Spawn)
    requires s.node == Nil
    ensures Step(s, Node(n, Block([])), spawn).0.node == n
  {
  }

  /** `REMOTE_PLUGIN p` without a block sets the plugin for the rest of the file. */
  lemma RemotePluginWithoutBlockPersists(s: RunnerState, p: Scalar, spawn: Spawn)
    ensures Step(s, RemotePlugin(p, NoBlock), spawn) == (s.(remotePlugin := p), Returned(Nil))
  {
  }

  /** `REMOTE_PLUGIN p do … end` restores a non-nil previous plugin, even after a raise. */
  lemma RemotePluginBlockRestores(s: RunnerState, p: Scalar, ops: seq<Op>, spawn: Spawn)
    requires s.remotePlugin != Nil
    ensures var (s1, o) := Step(s, RemotePlugin(p, Block(ops)), spawn);
      var (inner, io) := Run(s.(remotePlugin := p), ops, spawn);
      s1 == inner.(remotePlugin := s.remotePlugin) && o == io
  {
  }

  /** Nested `NODE` blocks unwind in LIFO order, even when the inner block raises. */
  lemma NestedNodeBlocks(s: RunnerState, outer: Scalar, inner: Scalar, ops: seq<Op>, spawn: Spawn)
    requires s.node != Nil && outer != Nil
    ensures Step(s, Node(outer, Block([Node(inner, Block(ops))])), spawn).0.node == s.node
    ensures Step(s.(node := outer), Node(inner, Block(ops)), spawn).0.node == outer
  {
    var innerOp := Node(inner, Block(ops));
    RunSnoc(s.(node := outer), [], innerOp, spawn);
    assert [] + [innerOp] == [innerOp];
  }

  // ---------------------------------------------------------------------
  // The keyword methods on the runner

  /** `TEST(*args)` */
  method TestCall(runner: Runner, args: seq<Scalar>, spawn: Spawn)
    modifies runner
    ensures runner.Current() == TestStep(old(runner.Current()), args, spawn)
  {
    var _ := runner.IncCounter();
    if !runner.dryRun {
      TestRun(runner, args, spawn);
    }
  }

  /** The part of `TEST` after the counter: run the command and report its status. */
  method TestRun(runner: Runner, args: seq<Scalar>, spawn: Spawn)
    modifies runner
    ensures var s := old(runner.Current());
            var r := Executed(s, TestCmd(args), spawn);
            runner.Current() == s.(printed := s.printed + CmdOkNotOk(s, "TEST", TestCmd(args), r.ret, r.err, TestExpectRet(args)))
  {
    var expectRet := Int(0);
    var cmd := if |args| > 0 then args[0] else Nil;
    if |args| > 1 {
      expectRet := args[0];
      cmd := args[1];
    }
    assert cmd == TestCmd(args) && expectRet == TestExpectRet(args);
    var r := runner.Execute(cmd, spawn);
    runner.PrintCmdOkNotOk("TEST", cmd, r.ret, r.err, expectRet);
  }

  /** `EXPECT(expect_value, cmd)` */
  method ExpectCall(runner: Runner, expectValue: Scalar, cmd: Scalar, spawn: Spawn)
    modifies runner
    ensures runner.Current() == ExpectStep(old(runner.Current()), expectValue, cmd, spawn)
  {
    var _ := runner.IncCounter();
    if !runner.dryRun {
      ExpectRun(runner, expectValue, cmd, spawn);
    }
  }

  /** The part of `EXPECT` after the counter: run the command and report on it. */
  method ExpectRun(runner: Runner, expectValue: Scalar, cmd: Scalar, spawn: Spawn)
    modifies runner
    ensures var s := old(runner.Current());
            runner.Current() == s.(printed := s.printed + ExpectLines(s, expectValue, cmd, Executed(s, cmd, spawn)))
  {
    var r := runner.Execute(cmd, spawn);
    if r.ret != 0 {
      runner.PrintCmdOkNotOk("EXPECT", cmd, r.ret, r.err, Int(0));
    } else if ToS(expectValue) == RubyStrip(r.out) {
      runner.PrintOkNotOk("EXPECT", cmd, true, None);
    } else {
      runner.PrintOkNotOk("EXPECT", cmd, false, Some(Mismatch(ToS(expectValue), RubyStrip(r.out))));
    }
  }

  /** `NODE(node, &block)` */
  method NodeCall(runner: Runner, n: Scalar, block: Block, spawn: Spawn) returns (o: Outcome)
    modifies runner
    ensures (runner.Current(), o) == Step(old(runner.Current()), Node(n, block), spawn)
    decreases block, 1
  {
    if block.NoBlock? {
      runner.SetNode(n);
      return Returned(Nil);
    }
    var prev := runner.node;
    runner.SetNode(n);
    o := RunBlock(runner, block.ops, spawn);
    if prev != Nil {
      runner.SetNode(prev);
    }
  }

  /** `REMOTE_PLUGIN(plugin, &block)` */
  method RemotePluginCall(runner: Runner, plugin: Scalar, block: Block, spawn: Spawn) returns (o: Outcome)
    modifies runner
    ensures (runner.Current(), o) == Step(old(runner.Current()), RemotePlugin(plugin, block), spawn)
    decreases block, 1
  {
    if block.NoBlock? {
      runner.SetRemotePlugin(plugin);
      return Returned(Nil);
    }
    var prev := runner.remotePlugin;
    runner.SetRemotePlugin(plugin);
    o := RunBlock(runner, block.ops, spawn);
    if prev != Nil {
      runner.SetRemotePlugin(prev);
    }
  }

  /** One statement of a test file. */
  method Perform(runner: Runner, op: Op, spawn: Spawn) returns (o: Outcome)
    modifies runner
    ensures (runner.Current(), o) == Step(old(runner.Current()), op, spawn)
    decreases op, 2
  {
    match op
    case Test(args) => TestCall(runner, args, spawn); o := Returned(Nil);
    case Expect(value, cmd) => ExpectCall(runner, value, cmd, spawn); o := Returned(Nil);
    case Node(n, block) => o := NodeCall(runner, n, block, spawn);
    case RemotePlugin(p, block) => o := RemotePluginCall(runner, p, block, spawn);
    case Raise => o := Raised;
  }

  /** The statements of a block or file, stopping at the first exception. */
  method RunBlock(runner: Runner, ops: seq<Op>, spawn: Spawn) returns (o: Outcome)
    modifies runner
    ensures (runner.Current(), o) == Run(old(runner.Current()), ops, spawn)
    decreases ops, 0
  {
    o := Returned(Nil);
    var i := 0;
    while i < |ops| && o.Returned?
      invariant 0 <= i <= |ops|
      invariant (runner.Current(), o) == Run(old(runner.Current()), ops[..i], spawn)
    {
      assert ops[..i + 1][..i] == ops[..i];
      o := Perform(runner, ops[i], spawn);
      i := i + 1;
    }
    if i < |ops| {
      RaisedStops(old(runner.Current()), ops, i, spawn);
    } else {
      assert ops[..i] == ops;
    }
  }
}
