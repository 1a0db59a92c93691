/** The part of the command handlers both Ruby generations share, line for line
    (`command_run` in lib/kadalu/binnacle/plugins/commands.rb, `run` in
    lib/binnacle/plugins/commands.rb, and the output check of `command_expect` and
    `expect`): folding the events of a child process into the result hash. */
module CommandEvents {
  import opened Values
  import opened Text

  /** One callback of `Utils.execute`: a stdout line, a stderr line, an exit status, each optional. */
  datatype Event = Event(stdout: Option<string>, stderr: Option<string>, ret: Option<int>)

  /** The expected exit code: 0 with one argument, the first argument with two or more. */
  function ExpectedCode(args: seq<Value>): Value {
    if |args| > 1 then args[0] else Int(0)
  }

  /** The command: the only argument, or the second one. */
  function CommandOf(args: seq<Value>): Value {
    if |args| > 1 then args[1] else if |args| == 1 then args[0] else Nil
  }

  /** The stdout lines, in order of arrival. */
  function Stdouts(events: seq<Event>): seq<string> {
    if events == [] then []
    else
      var last := events[|events| - 1];
      Stdouts(events[..|events| - 1]) + (if last.stdout.Some? then [last.stdout.value] else [])
  }

  /** The exit status of the last event that carries one. */
  function LastRet(events: seq<Event>): Option<int> {
    if events == [] then None
    else if events[|events| - 1].ret.Some? then events[|events| - 1].ret
    else LastRet(events[..|events| - 1])
  }

  /** The result hash before `:output` is added, after the given events. */
  function Progress(expected: Value, events: seq<Event>): (p: map<Key, Value>)
    ensures "expect_ret" in p && "ok" in p
  {
    if events == [] then map["expect_ret" := expected, "ok" := Bool(true)]
    else
      var p := Progress(expected, events[..|events| - 1]);
      var e := events[|events| - 1];
      if e.ret.None? then p
      else if expected.Nil? then p["ret" := Int(e.ret.value)]
      else p["ret" := Int(e.ret.value)]["ok" := Bool(Int(e.ret.value) == expected)]
  }

  /** The hash `command_run`'s handler returns. */
  function RunData(expected: Value, events: seq<Event>): (r: map<Key, Value>)
    ensures "expect_ret" in r && "ok" in r && "output" in r
  {
    Progress(expected, events)["output" := Str(Concat(Stdouts(events)))]
  }

  /** `ok` holds unless an exit status arrived and differs from a non-nil expected code. */
  predicate RunOk(expected: Value, events: seq<Event>) {
    expected.Nil? || LastRet(events).None? || Int(LastRet(events).value) == expected
  }

  lemma {:induction false} ProgressFacts(expected: Value, events: seq<Event>)
    ensures Progress(expected, events).Keys == {"expect_ret", "ok"} + (if LastRet(events).Some? then {"ret"} else {})
    ensures Progress(expected, events)["expect_ret"] == expected
    ensures Progress(expected, events)["ok"] == Bool(RunOk(expected, events))
    ensures LastRet(events).Some? ==> Progress(expected, events)["ret"] == Int(LastRet(events).value)
  {
    if events != [] {
      ProgressFacts(expected, events[..|events| - 1]);
    }
  }

  /** What `command_run` reports: the expected code, `ok` as `RunOk`, the last exit status
      when one arrived, and the stdout lines joined in order (stderr never included). */
  lemma RunDataFacts(expected: Value, events: seq<Event>)
    ensures RunData(expected, events).Keys ==
      {"expect_ret", "ok", "output"} + (if LastRet(events).Some? then {"ret"} else {})
    ensures RunData(expected, events)["expect_ret"] == expected
    ensures RunData(expected, events)["ok"] == Bool(RunOk(expected, events))
    ensures LastRet(events).Some? ==> RunData(expected, events)["ret"] == Int(LastRet(events).value)
    ensures RunData(expected, events)["output"] == Str(Concat(Stdouts(events)))
  {
    ProgressFacts(expected, events);
  }

  /** A nil expected code (`RUN`) is always ok. */
  lemma NilExpectAlwaysOk(events: seq<Event>)
    ensures RunData(Nil, events)["ok"] == Bool(true)
  {
    RunDataFacts(Nil, events);
  }

  /** The output depends on the stdout lines alone. */
  lemma {:induction false} OutputIgnoresStderr(a: seq<Event>, b: seq<Event>)
    requires |a| == |b|
    requires forall k :: 0 <= k < |a| ==> a[k].stdout == b[k].stdout
    ensures Stdouts(a) == Stdouts(b)
  {
    if a != [] {
      OutputIgnoresStderr(a[..|a| - 1], b[..|b| - 1]);
    }
  }

  /** The `Utils.execute` callback loop of `command_run`. */
  method FoldEvents(expected: Value, events: seq<Event>) returns (data: map<Key, Value>)
    ensures data == RunData(expected, events)
  {
    data := map["expect_ret" := expected, "ok" := Bool(true)];
    var out: seq<string> := [];
    var i := 0;
    while i < |events|
      invariant 0 <= i <= |events|
      invariant data == Progress(expected, events[..i])
      invariant out == Stdouts(events[..i])
    {
      var e := events[i];
      assert events[..i + 1][..i] == events[..i];
      if e.stdout.Some? {
        out := out + [e.stdout.value];
      }
      if e.ret.Some? {
        data := data["ret" := Int(e.ret.value)];
        if !expected.Nil? {
          data := data["ok" := Bool(Int(e.ret.value) == expected)];
        }
      }
      i := i + 1;
    }
    assert events[..i] == events;
    data := data["output" := Str(Concat(out))];
  }

  /** `data[:ok] = false` when the command was ok but its output is not `expect_value.to_s`. */
  function CheckOutput(data: map<Key, Value>, expectValue: Scalar): map<Key, Value> {
    if Truthy(At(data, "ok")) && At(data, "output") != Str(ToS(expectValue)) then data["ok" := Bool(false)]
    else data
  }

  /** The output check flips `ok` exactly when the command was ok but printed something else. */
  lemma CheckOutputOk(h: map<Key, Value>, expected: Value, events: seq<Event>, expectValue: Scalar)
    requires "ok" in h && "output" in h
    requires h["ok"] == Bool(RunOk(expected, events)) && h["output"] == Str(Concat(Stdouts(events)))
    ensures "ok" in CheckOutput(h, expectValue)
    ensures CheckOutput(h, expectValue)["ok"] == Bool(RunOk(expected, events) && Concat(Stdouts(events)) == ToS(expectValue))
  {
  }

}
