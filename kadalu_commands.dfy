/** The command plugins of the current generation
    (lib/kadalu/binnacle/plugins/commands.rb): configuration plugins that only write a
    store key, `command_run` folding the events of a child process into a result hash,
    and the delegating `command_test`/`TEST`/`RUN`, `command_expect`/`EXPECT`.

    The child is given as its sequence of events; building the effective command line
    and spawning it (`Utils.full_cmd`, `Utils.execute`) are not part of this model. */
module KadaluCommands {
  import opened Values
  import opened Text
  import KS = KadaluStore
  import KP = KadaluPlugins
  import opened CommandEvents

  // ---------------------------------------------------------------------
  // Configuration plugins

  /** The store key each configuration plugin writes. */
  function ConfigKey(plugin: string): Option<Key> {
    if plugin in {"command_mode", "USE_REMOTE_PLUGIN"} then Some("command_mode")
    else if plugin in {"command_node", "USE_NODE", "command_container"} then Some("node_name")
    else if plugin in {"enable_debug", "EMIT_STDOUT"} then Some("debug")
    else if plugin in {"exit_on_not_ok", "EXIT_ON_NOT_OK"} then Some("exit_on_not_ok")
    else if plugin in {"command_sudo", "USE_SSH_SUDO"} then Some("sudo")
    else if plugin in {"command_ssh_user", "USE_SSH_USER"} then Some("ssh_user")
    else if plugin in {"command_ssh_pem_file", "USE_SSH_PEM_FILE"} then Some("ssh_pem_file")
    else if plugin in {"command_ssh_port", "USE_SSH_PORT"} then Some("ssh_port")
    else None
  }

  /** The plugins declared with a keyword argument `value: true`. */
  predicate FlagPlugin(plugin: string) {
    plugin in {"enable_debug", "EMIT_STDOUT", "exit_on_not_ok", "EXIT_ON_NOT_OK", "command_sudo", "USE_SSH_SUDO"}
  }

  /** The value a configuration plugin stores, or None when the call raises `ArgumentError`.
      A flag plugin (`|value: true, &block|`) binds its `value:` keyword, `true` without
      one, and drops positional arguments; the others (`|value, &block|`) bind their first
      argument, nil when there is none. */
  function ConfigValue(plugin: string, args: Args): (v: Option<Value>)
    ensures v.None? <==> FlagPlugin(plugin) && !(args.keywords.Keys <= {"value"})
    ensures FlagPlugin(plugin) && v.Some? ==>
      v.value == if "value" in args.keywords then args.keywords["value"] else Bool(true)
    ensures !FlagPlugin(plugin) && |args.positional| > 0 ==> v == Some(args.positional[0])
    ensures !FlagPlugin(plugin) && args == Args([], map[]) ==> v == Some(Nil)
  {
    if FlagPlugin(plugin) then BindFlag(args) else Some(BindPositional(args))
  }

  /** A configuration plugin called through the wrapper: the bound value, `Store.set` and its nil. */
  function ConfigCall(s: KS.State, plugin: string, args: Args, block: KS.Block, duration: nat,
                      respond: KP.Respond): (KS.State, Outcome)
    requires ConfigKey(plugin).Some?
  {
    match ConfigValue(plugin, args)
    case None => (s, Raised)
    case Some(value) =>
      var (s1, o) := KS.Step(s, KS.Op.Set(ConfigKey(plugin).value, value, block));
      if o.Raised? then (s1, Raised) else KP.Wrapped(s1, plugin, o.value, duration, respond)
  }

  /** Configuration plugins are never reported: the call is exactly the store write of the
      bound value, it returns nil, and the counter is not touched. */
  lemma ConfigPluginsNotReported(s: KS.State, plugin: string, args: Args, block: KS.Block, duration: nat,
                                 respond: KP.Respond)
    requires ConfigKey(plugin).Some?
    ensures ConfigValue(plugin, args).None? ==> ConfigCall(s, plugin, args, block, duration, respond) == (s, Raised)
    ensures ConfigValue(plugin, args).Some? ==>
      ConfigCall(s, plugin, args, block, duration, respond)
        == KS.Step(s, KS.Op.Set(ConfigKey(plugin).value, ConfigValue(plugin, args).value, block))
    ensures ConfigCall(s, plugin, args, block, duration, respond).1 in {Returned(Nil), Raised}
  {
  }

  /** A flag plugin ignores a positional argument: `enable_debug false` stores `true`;
      only `enable_debug value: false` stores `false`. */
  lemma FlagDropsPositional(s: KS.State, plugin: string, positional: seq<Value>, v: Value, block: KS.Block,
                            duration: nat, respond: KP.Respond)
    requires FlagPlugin(plugin)
    ensures ConfigKey(plugin).Some?
    ensures ConfigCall(s, plugin, Args(positional, map[]), block, duration, respond)
      == KS.Step(s, KS.Op.Set(ConfigKey(plugin).value, Bool(true), block))
    ensures ConfigCall(s, plugin, Args(positional, map["value" := v]), block, duration, respond)
      == KS.Step(s, KS.Op.Set(ConfigKey(plugin).value, v, block))
  {
    ConfigPluginsNotReported(s, plugin, Args(positional, map[]), block, duration, respond);
    ConfigPluginsNotReported(s, plugin, Args(positional, map["value" := v]), block, duration, respond);
  }

  /** Any other configuration plugin called without an argument stores nil. */
  lemma MissingArgumentStoresNil(s: KS.State, plugin: string, block: KS.Block, duration: nat, respond: KP.Respond)
    requires ConfigKey(plugin).Some? && !FlagPlugin(plugin)
    ensures ConfigCall(s, plugin, Args([], map[]), block, duration, respond)
      == KS.Step(s, KS.Op.Set(ConfigKey(plugin).value, Nil, block))
  {
    ConfigPluginsNotReported(s, plugin, Args([], map[]), block, duration, respond);
  }

  /** The defaults commands.rb registers when it is loaded. */
  function CommandDefault(key: Key): Option<Value> {
    if key == "command_mode" then Some(Str("local"))
    else if key == "node_name" then Some(Str("local"))
    else if key == "exit_on_not_ok" then Some(Bool(false))
    else if key == "sudo" then Some(Bool(false))
    else if key == "ssh_user" then Some(Str("root"))
    else if key == "ssh_pem_file" then Some(Str("~/.ssh/id_rsa"))
    else if key == "ssh_port" then Some(Int(22))
    else None
  }

  /** The defaults table after the `default_config` calls of commands.rb, in source order. */
  function WithCommandDefaults(d: map<Key, Value>): map<Key, Value> {
    d["command_mode" := Str("local")]["node_name" := Str("local")]["exit_on_not_ok" := Bool(false)]
     ["sudo" := Bool(false)]["ssh_user" := Str("root")]["ssh_pem_file" := Str("~/.ssh/id_rsa")]
     ["ssh_port" := Int(22)]
  }

  /** Loading commands.rb registers exactly the seven defaults and keeps every other entry. */
  lemma CommandDefaultsRegistered(d: map<Key, Value>, key: Key)
    ensures CommandDefault(key).Some? ==> key in WithCommandDefaults(d) && WithCommandDefaults(d)[key] == CommandDefault(key).value
    ensures CommandDefault(key).None? ==>
      ((key in WithCommandDefaults(d) <==> key in d) && (key in d ==> WithCommandDefaults(d)[key] == d[key]))
  {
  }

  method LoadDefaults(store: KS.Store)
    modifies store
    ensures store.data == old(store.data)
    ensures store.defaults == WithCommandDefaults(old(store.defaults))
  {
    KP.DefaultConfig(store, "command_mode", Str("local"));
    KP.DefaultConfig(store, "node_name", Str("local"));
    KP.DefaultConfig(store, "exit_on_not_ok", Bool(false));
    KP.DefaultConfig(store, "sudo", Bool(false));
    KP.DefaultConfig(store, "ssh_user", Str("root"));
    KP.DefaultConfig(store, "ssh_pem_file", Str("~/.ssh/id_rsa"));
    KP.DefaultConfig(store, "ssh_port", Int(22));
  }

  /** Until a key is set, `get` reads its registered default: `'local'` mode and node,
      `exit_on_not_ok` and `sudo` false, `root`, `~/.ssh/id_rsa`, port 22. */
  lemma DefaultsVisible(s: KS.State, key: Key)
    requires CommandDefault(key).Some? && key !in s.data
    ensures KS.Lookup(s.(defaults := WithCommandDefaults(s.defaults)), key) == CommandDefault(key).value
  {
    CommandDefaultsRegistered(s.defaults, key);
  }

  // ---------------------------------------------------------------------
  // command_run

  /** `command_run` through its wrapper. */
  function CommandRunCall(s: KS.State, args: seq<Value>, events: seq<Event>, duration: nat,
                          respond: KP.Respond): (KS.State, Outcome)
  {
    KP.Wrapped(s, "command_run", Hash(RunData(ExpectedCode(args), events)), duration, respond)
  }

  method CommandRun(store: KS.Store, args: seq<Value>, events: seq<Event>, duration: nat,
                    respond: KP.Respond) returns (o: Outcome)
    modifies store
    ensures (store.Current(), o) == CommandRunCall(old(store.Current()), args, events, duration, respond)
  {
    var data := FoldEvents(ExpectedCode(args), events);
    o := KP.Wrap(store, "command_run", Hash(data), duration, respond);
  }

  /** `command_test`, `TEST` (with `args`) and `RUN` (with `[nil, cmd]`): `command_run` under
      `'return'`, reported under their own name. */
  function TestCall(s: KS.State, name: string, args: seq<Value>, events: seq<Event>, runDuration: nat,
                    duration: nat, respond: KP.Respond): (KS.State, Outcome)
  {
    KP.Delegate(s, "command_run", name, Hash(RunData(ExpectedCode(args), events)), runDuration, duration, respond)
  }

  /** `Store.set(:response, 'return') { data = Plugins.command_run(*args) }`, then the wrapper. */
  method Test(store: KS.Store, name: string, args: seq<Value>, events: seq<Event>, runDuration: nat,
              duration: nat, respond: KP.Respond) returns (o: Outcome)
    modifies store
    ensures (store.Current(), o) == TestCall(old(store.Current()), name, args, events, runDuration, duration, respond)
  {
    var inner := RunUnderReturn(store, args, events, runDuration, respond);
    if inner.Raised? {
      return Raised;
    }
    o := KP.Wrap(store, name, inner.value, duration, respond);
  }

  /** `Store.set(:response, 'return') { data = Plugins.command_run(*args) }`, the first half
      of `command_test` and `command_expect`. */
  method RunUnderReturn(store: KS.Store, args: seq<Value>, events: seq<Event>, runDuration: nat,
                        respond: KP.Respond) returns (o: Outcome)
    modifies store
    ensures (store.Current(), o)
         == KP.UnderReturn(old(store.Current()), CommandRunCall(KP.Flagged(old(store.Current())), args, events, runDuration, respond))
  {
    var prev := store.Get("response");
    var _ := store.Set("response", Str("return"), KS.NoBlock);
    o := CommandRun(store, args, events, runDuration, respond);
    if o.Raised? {
      return;
    }
    var _ := store.Set("response", prev, KS.NoBlock);
  }

  /** `TEST` reports the `command_run` hash once, under its own name, numbered with the
      second of the two counter steps; `ok` follows the expected code and `response` is restored. */
  lemma TestReportsRunResult(s: KS.State, name: string, args: seq<Value>, events: seq<Event>,
                             runDuration: nat, duration: nat, respond: KP.Respond)
    requires forall d :: respond(Str("return"), d) == d
    requires KP.CountIsInt(s)
    ensures var (s1, o) := TestCall(s, name, args, events, runDuration, duration, respond);
      var reported := KP.Stamp(KP.Stamp(RunData(ExpectedCode(args), events), "command_run", runDuration,
                                        KP.Count(s) + 1), name, duration, KP.Count(s) + 2);
      o == Returned(respond(KS.Lookup(s, "response"), Hash(reported)))
      && reported["ok"] == Bool(RunOk(ExpectedCode(args), events))
      && reported["name"] == Str(name)
      && KS.Lookup(s1, "response") == KS.Lookup(s, "response")
  {
    RunDataFacts(ExpectedCode(args), events);
    KP.DelegateReportsOnce(s, "command_run", name, Hash(RunData(ExpectedCode(args), events)),
                           runDuration, duration, respond);
  }

  /** `RUN` is always ok. */
  lemma RunAlwaysOk(s: KS.State, cmd: Value, events: seq<Event>, runDuration: nat, duration: nat,
                    respond: KP.Respond)
    requires forall d :: respond(Str("return"), d) == d
    requires KP.CountIsInt(s)
    ensures var (_, o) := TestCall(s, "RUN", [Nil, cmd], events, runDuration, duration, respond);
      o.Returned? && o.value == respond(KS.Lookup(s, "response"),
        Hash(KP.Stamp(KP.Stamp(RunData(Nil, events), "command_run", runDuration, KP.Count(s) + 1),
                      "RUN", duration, KP.Count(s) + 2)))
    ensures RunData(ExpectedCode([Nil, cmd]), events)["ok"] == Bool(true)
  {
    TestReportsRunResult(s, "RUN", [Nil, cmd], events, runDuration, duration, respond);
    NilExpectAlwaysOk(events);
  }

  // ---------------------------------------------------------------------
  // command_expect

  /** `command_expect`'s handler, then its wrapper. A nil inner result makes `data[:ok]` raise. */
  function ExpectCall(s: KS.State, expectValue: Scalar, events: seq<Event>, runDuration: nat,
                      duration: nat, respond: KP.Respond): (KS.State, Outcome)
  {
    var (s1, o) := KP.UnderReturn(s, CommandRunCall(KP.Flagged(s), [Int(0), Nil], events, runDuration, respond));
    if o.Raised? || !o.value.Hash? then (s1, Raised)
    else KP.Wrapped(s1, "command_expect", Hash(CheckOutput(o.value.h, expectValue)), duration, respond)
  }

  /** `EXPECT`: `command_expect` under `'return'`, reported as `EXPECT`. */
  function ExpectAliasCall(s: KS.State, expectValue: Scalar, events: seq<Event>, runDuration: nat,
                           expectDuration: nat, duration: nat, respond: KP.Respond): (KS.State, Outcome)
  {
    var (s1, o) := KP.UnderReturn(s, ExpectCall(KP.Flagged(s), expectValue, events, runDuration, expectDuration, respond));
    if o.Raised? then (s1, Raised) else KP.Wrapped(s1, "EXPECT", o.value, duration, respond)
  }

  method CommandExpect(store: KS.Store, expectValue: Scalar, events: seq<Event>, runDuration: nat,
                       duration: nat, respond: KP.Respond) returns (o: Outcome)
    modifies store
    ensures (store.Current(), o) == ExpectCall(old(store.Current()), expectValue, events, runDuration, duration, respond)
  {
    var inner := RunUnderReturn(store, [Int(0), Nil], events, runDuration, respond);
    if inner.Raised? {
      return Raised;
    }
    if !inner.value.Hash? {
      return Raised;
    }
    var data := inner.value.h;
    if Truthy(At(data, "ok")) && At(data, "output") != Str(ToS(expectValue)) {
      data := data["ok" := Bool(false)];
    }
    o := KP.Wrap(store, "command_expect", Hash(data), duration, respond);
  }

  method Expect(store: KS.Store, expectValue: Scalar, events: seq<Event>, runDuration: nat,
                expectDuration: nat, duration: nat, respond: KP.Respond) returns (o: Outcome)
    modifies store
    ensures (store.Current(), o)
      == ExpectAliasCall(old(store.Current()), expectValue, events, runDuration, expectDuration, duration, respond)
  {
    var prev := store.Get("response");
    var _ := store.Set("response", Str("return"), KS.NoBlock);
    var inner := CommandExpect(store, expectValue, events, runDuration, expectDuration, respond);
    if inner.Raised? {
      return Raised;
    }
    var _ := store.Set("response", prev, KS.NoBlock);
    o := KP.Wrap(store, "EXPECT", inner.value, duration, respond);
  }

  /** The state after one reported call made under `'return'`: the counter one step on and
      the `response` flag as it was before. */
  function AfterReturnCall(s: KS.State): (r: KS.State)
    requires KP.CountIsInt(s)
    ensures KP.CountIsInt(r) && KP.Count(r) == KP.Count(s) + 1
    ensures KS.Lookup(r, "response") == KS.Lookup(s, "response")
  {
    var s0 := KP.Flagged(s);
    s0.(data := s0.data["count" := Int(KP.Count(s) + 1)]["response" := KS.Lookup(s, "response")])
  }

  /** The `command_run` call inside `command_expect`, with an encoder that hands the data
      back under `'return'`. */
  lemma ExpectInnerRun(s: KS.State, events: seq<Event>, runDuration: nat, respond: KP.Respond)
    requires forall d :: respond(Str("return"), d) == d
    requires KP.CountIsInt(s)
    ensures var s2 := AfterReturnCall(s);
      KP.UnderReturn(s, CommandRunCall(KP.Flagged(s), [Int(0), Nil], events, runDuration, respond))
        == (s2, Returned(Hash(KP.Stamp(RunData(Int(0), events), "command_run", runDuration, KP.Count(s) + 1))))
  {
    var n := KP.Count(s);
    var s0 := KP.Flagged(s);
    assert KP.CountIsInt(s0) && KP.Count(s0) == n;
    assert KS.Lookup(s0, "response") == Str("return");
    var s1 := s0.(data := s0.data["count" := Int(n + 1)]);
    assert s1.(data := s1.data["response" := KS.Lookup(s, "response")]) == AfterReturnCall(s);
    var v := Hash(KP.Stamp(RunData(Int(0), events), "command_run", runDuration, n + 1));
    assert KP.UnderReturn(s, (s1, Returned(v))) == (AfterReturnCall(s), Returned(v));
    RunAnswersUnderReturn(s0, events, runDuration, respond);
  }

  /** Under the `'return'` flag `command_run` answers with its stamped hash itself. */
  lemma RunAnswersUnderReturn(s: KS.State, events: seq<Event>, runDuration: nat, respond: KP.Respond)
    requires forall d :: respond(Str("return"), d) == d
    requires KP.CountIsInt(s) && KS.Lookup(s, "response") == Str("return")
    ensures CommandRunCall(s, [Int(0), Nil], events, runDuration, respond)
      == (s.(data := s.data["count" := Int(KP.Count(s) + 1)]),
          Returned(Hash(KP.Stamp(RunData(Int(0), events), "command_run", runDuration, KP.Count(s) + 1))))
  {
    WrappedReported(s, "command_run", RunData(Int(0), events), runDuration, respond);
  }

  /** `command_expect` hands the checked inner hash to its own wrapper, with the counter
      one step on and the `response` flag back. */
  lemma ExpectCallUnfolds(s: KS.State, expectValue: Scalar, events: seq<Event>, runDuration: nat, duration: nat,
                          respond: KP.Respond)
    requires forall d :: respond(Str("return"), d) == d
    requires KP.CountIsInt(s)
    ensures var s2 := AfterReturnCall(s);
      ExpectCall(s, expectValue, events, runDuration, duration, respond)
      == KP.Wrapped(s2, "command_expect",
                    Hash(CheckOutput(KP.Stamp(RunData(Int(0), events), "command_run", runDuration, KP.Count(s) + 1),
                                     expectValue)), duration, respond)
  {
    ExpectInnerRun(s, events, runDuration, respond);
  }

  /** The hash `command_expect` reports is ok exactly when the command exits 0 (or reports
      no status) and its output is the expected value's string form. */
  lemma ExpectVerdict(expectValue: Scalar, events: seq<Event>, runDuration: nat, taskNumber: int)
    ensures var checked := CheckOutput(KP.Stamp(RunData(Int(0), events), "command_run", runDuration, taskNumber),
                                       expectValue);
      "ok" in checked
      && checked["ok"] == Bool(RunOk(Int(0), events) && Concat(Stdouts(events)) == ToS(expectValue))
  {
    RunDataFacts(Int(0), events);
    CheckOutputOk(KP.Stamp(RunData(Int(0), events), "command_run", runDuration, taskNumber), Int(0), events,
                  expectValue);
  }

  /** A reportable hash handed to the wrapper: the whole new state and the value. */
  lemma WrappedReported(s: KS.State, name: string, h: map<Key, Value>, duration: nat, respond: KP.Respond)
    requires KP.CountIsInt(s) && "ok" in h
    ensures KP.Wrapped(s, name, Hash(h), duration, respond)
      == (s.(data := s.data["count" := Int(KP.Count(s) + 1)]),
          Returned(respond(KS.Lookup(s, "response"), Hash(KP.Stamp(h, name, duration, KP.Count(s) + 1)))))
  {
    KP.TaskNumbering(s, name, Hash(h), duration, respond);
  }

  /** `command_expect` reports that hash once, numbered with the second of the two counter
      steps it takes, and restores the `response` flag. */
  lemma ExpectReportsOnce(s: KS.State, expectValue: Scalar, events: seq<Event>, runDuration: nat, duration: nat,
                          respond: KP.Respond)
    requires forall d :: respond(Str("return"), d) == d
    requires KP.CountIsInt(s)
    ensures var checked := CheckOutput(KP.Stamp(RunData(Int(0), events), "command_run", runDuration, KP.Count(s) + 1),
                                       expectValue);
      ExpectCall(s, expectValue, events, runDuration, duration, respond).1
      == Returned(respond(KS.Lookup(s, "response"), Hash(KP.Stamp(checked, "command_expect", duration, KP.Count(s) + 2))))
    ensures var s1 := ExpectCall(s, expectValue, events, runDuration, duration, respond).0;
      KP.CountIsInt(s1) && KP.Count(s1) == KP.Count(s) + 2 && KS.Lookup(s1, "response") == KS.Lookup(s, "response")
  {
    var checked := CheckOutput(KP.Stamp(RunData(Int(0), events), "command_run", runDuration, KP.Count(s) + 1),
                               expectValue);
    var s2 := AfterReturnCall(s);
    ExpectCallUnfolds(s, expectValue, events, runDuration, duration, respond);
    WrappedReported(s2, "command_expect", checked, duration, respond);
    var n2 := KP.Count(s2) + 1;
    assert n2 == KP.Count(s) + 2;
    assert ExpectCall(s, expectValue, events, runDuration, duration, respond)
      == (s2.(data := s2.data["count" := Int(n2)]),
          Returned(respond(KS.Lookup(s2, "response"), Hash(KP.Stamp(checked, "command_expect", duration, n2)))));
  }
}
