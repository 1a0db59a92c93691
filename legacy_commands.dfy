/** The command plugins of the older generation (lib/binnacle/plugins/commands.rb):
    configuration plugins that only write a store key, `run`, the delegating
    `test`/`TEST`/`RUN`, and `expect`/`EXPECT`. The child is given as its sequence of
    events; spawning it (`Utils.execute`) is not part of this model. */
module LegacyCommands {
  import opened Values
  import opened Text
  import opened CommandEvents
  import LS = LegacyStore
  import LU = LegacyUtils
  import LP = LegacyPlugins
  import PluginTable

  // ---------------------------------------------------------------------
  // Configuration plugins

  /** The store key each configuration plugin writes. */
  function ConfigKey(plugin: string): Option<Key> {
    if plugin in {"use_remote_plugin", "USE_REMOTE_PLUGIN"} then Some("remote_plugin")
    else if plugin in {"use_node", "USE_NODE", "use_container"} then Some("node_name")
    else if plugin == "enable_debug" then Some("debug")
    else None
  }

  /** `enable_debug` is declared `|value: true, &block|`; the others `|plugin, &block|`
      or `|value, &block|`. */
  predicate FlagPlugin(plugin: string) {
    plugin == "enable_debug"
  }

  /** The value a configuration plugin stores, or None when the call raises `ArgumentError`.
      `enable_debug` binds its `value:` keyword, `true` without one, and drops positional
      arguments; the others bind their first argument, nil when there is none. */
  function ConfigValue(plugin: string, args: Args): (v: Option<Value>)
    ensures v.None? <==> FlagPlugin(plugin) && !(args.keywords.Keys <= {"value"})
    ensures FlagPlugin(plugin) && v.Some? ==>
      v.value == if "value" in args.keywords then args.keywords["value"] else Bool(true)
    ensures !FlagPlugin(plugin) && |args.positional| > 0 ==> v == Some(args.positional[0])
    ensures !FlagPlugin(plugin) && args == Args([], map[]) ==> v == Some(Nil)
  {
    if FlagPlugin(plugin) then BindFlag(args) else Some(BindPositional(args))
  }

  /** A configuration plugin through the wrapper: the bound value, `Store.set` and its nil. */
  function ConfigCall(d: LS.Data, plugin: string, args: Args, block: LS.Block, duration: nat, path: string,
                      lineno: nat): (LS.Data, LP.Called)
    requires ConfigKey(plugin).Some?
  {
    match ConfigValue(plugin, args)
    case None => (d, LP.Threw)
    case Some(value) =>
      var (d1, o) := LS.Step(d, LS.Op.Set(ConfigKey(plugin).value, value, block));
      if o.Raised? then (d1, LP.Threw) else LP.Wrapped(d1, o.value, duration, path, lineno)
  }

  /** Configuration plugins are never reported: the call is the store write of the bound
      value and returns nil, or raises. */
  lemma ConfigPluginsNotReported(d: LS.Data, plugin: string, args: Args, block: LS.Block, duration: nat,
                                 path: string, lineno: nat)
    requires ConfigKey(plugin).Some?
    ensures ConfigValue(plugin, args).None? ==> ConfigCall(d, plugin, args, block, duration, path, lineno) == (d, LP.Threw)
    ensures ConfigValue(plugin, args).Some? ==>
      var value := ConfigValue(plugin, args).value;
      var (d1, c) := ConfigCall(d, plugin, args, block, duration, path, lineno);
      d1 == LS.Step(d, LS.Op.Set(ConfigKey(plugin).value, value, block)).0
      && (c == LP.Silent <==> LS.Step(d, LS.Op.Set(ConfigKey(plugin).value, value, block)).1.Returned?)
      && (c == LP.Threw <==> LS.Step(d, LS.Op.Set(ConfigKey(plugin).value, value, block)).1.Raised?)
  {
  }

  /** `enable_debug false` stores `true`: the flag plugin drops a positional argument, and
      only `enable_debug value: false` stores `false`. */
  lemma FlagDropsPositional(d: LS.Data, positional: seq<Value>, v: Value, duration: nat, path: string, lineno: nat)
    ensures ConfigCall(d, "enable_debug", Args(positional, map[]), LS.NoBlock, duration, path, lineno)
      == (d["debug" := Bool(true)], LP.Silent)
    ensures ConfigCall(d, "enable_debug", Args(positional, map["value" := v]), LS.NoBlock, duration, path, lineno)
      == (d["debug" := v], LP.Silent)
  {
  }

  /** Any other configuration plugin called without an argument stores nil. */
  lemma MissingArgumentStoresNil(d: LS.Data, plugin: string, duration: nat, path: string, lineno: nat)
    requires ConfigKey(plugin).Some? && !FlagPlugin(plugin)
    ensures ConfigCall(d, plugin, Args([], map[]), LS.NoBlock, duration, path, lineno)
      == (d[ConfigKey(plugin).value := Nil], LP.Silent)
  {
  }

  // ---------------------------------------------------------------------
  // Loading commands.rb

  /** What each name commands.rb registers is installed to do. */
  datatype Handler =
    | Config(key: Key, flag: bool)
    | RunHandler
    | RunNilHandler
    | TestHandler
    | ExpectHandler
    | ExpectAliasHandler

  /** A top-level statement of commands.rb. */
  datatype Decl = Plugin(name: string, handler: Handler) | DefaultConfig(key: Key, value: Value)

  /** The statements of commands.rb, in order. */
  const CommandsFile: seq<Decl> := [
    Plugin("use_remote_plugin", Config("remote_plugin", false)),
    Plugin("USE_REMOTE_PLUGIN", Config("remote_plugin", false)),
    DefaultConfig("remote_plugin", Str("local")),
    Plugin("use_node", Config("node_name", false)),
    Plugin("USE_NODE", Config("node_name", false)),
    Plugin("use_container", Config("node_name", false)),
    DefaultConfig("node_name", Str("local")),
    Plugin("enable_debug", Config("debug", true)),
    Plugin("run", RunHandler),
    Plugin("RUN", RunNilHandler),
    Plugin("test", TestHandler),
    Plugin("TEST", TestHandler),
    Plugin("expect", ExpectHandler),
    Plugin("EXPECT", ExpectAliasHandler)
  ]

  /** Loading the statements as written: the older `Binnacle` module has no
      `default_config`, so the first such statement raises `NoMethodError` and nothing
      after it is registered. The flag says whether loading raised. */
  function LoadedAsWritten(table: map<string, Handler>, decls: seq<Decl>): (r: (map<string, Handler>, bool))
    ensures r.1 <==> exists i :: 0 <= i < |decls| && decls[i].DefaultConfig?
    ensures table.Keys <= r.0.Keys
    decreases |decls|
  {
    if decls == [] then (table, false)
    else match decls[0]
      case DefaultConfig(_, _) => (table, true)
      case Plugin(name, handler) =>
        var r := LoadedAsWritten(table[name := handler], decls[1..]);
        assert r.1 ==> exists i :: 0 <= i < |decls| && decls[i].DefaultConfig? by {
          if r.1 {
            var i :| 0 <= i < |decls[1..]| && decls[1..][i].DefaultConfig?;
            assert decls[i + 1].DefaultConfig?;
          }
        }
        r
  }

  /** The store after a `default_config(key, value)` that gives an unset key its value. */
  function Defaulted(data: LS.Data, key: Key, value: Value): (r: LS.Data)
    ensures key in r && r[key] == if key in data then data[key] else value
    ensures forall k :: k != key ==> (k in r <==> k in data) && (k in data ==> r[k] == data[k])
  {
    if key in data then data else data[key := value]
  }

  /** Loading the statements with `default_config` giving a key its value unless a plugin
      already set it. */
  function Loaded(table: map<string, Handler>, data: LS.Data, decls: seq<Decl>): (map<string, Handler>, LS.Data)
    decreases |decls|
  {
    if decls == [] then (table, data)
    else match decls[0]
      case DefaultConfig(key, value) => Loaded(table, Defaulted(data, key, value), decls[1..])
      case Plugin(name, handler) => Loaded(table[name := handler], data, decls[1..])
  }

  /** Requiring commands.rb as written installs the two remote-plugin names and then raises,
      so `run`, `test`, `expect` and the node plugins are never installed. */
  lemma LoadAsWrittenStops()
    ensures LoadedAsWritten(map[], CommandsFile)
      == (map["use_remote_plugin" := Config("remote_plugin", false), "USE_REMOTE_PLUGIN" := Config("remote_plugin", false)], true)
    ensures "run" !in LoadedAsWritten(map[], CommandsFile).0
  {
    var t := map["use_remote_plugin" := Config("remote_plugin", false)];
    assert LoadedAsWritten(map[], CommandsFile) == LoadedAsWritten(t, CommandsFile[1..]);
    assert LoadedAsWritten(t, CommandsFile[1..]) == LoadedAsWritten(t["USE_REMOTE_PLUGIN" := Config("remote_plugin", false)], CommandsFile[2..]);
  }

  /** The plugins commands.rb installs. */
  const Installed: map<string, Handler> := map[
    "use_remote_plugin" := Config("remote_plugin", false),
    "USE_REMOTE_PLUGIN" := Config("remote_plugin", false),
    "use_node" := Config("node_name", false),
    "USE_NODE" := Config("node_name", false),
    "use_container" := Config("node_name", false),
    "enable_debug" := Config("debug", true),
    "run" := RunHandler,
    "RUN" := RunNilHandler,
    "test" := TestHandler,
    "TEST" := TestHandler,
    "expect" := ExpectHandler,
    "EXPECT" := ExpectAliasHandler
  ]

  /** Each configuration plugin is installed with the key `ConfigKey` names and the
      signature `FlagPlugin` names; every other installed name is a command plugin. */
  lemma InstalledAgrees()
    ensures Installed.Keys == {"use_remote_plugin", "USE_REMOTE_PLUGIN", "use_node", "USE_NODE", "use_container",
                               "enable_debug", "run", "RUN", "test", "TEST", "expect", "EXPECT"}
    ensures forall name :: name in Installed ==> (Installed[name].Config? <==> ConfigKey(name).Some?)
    ensures forall name :: name in Installed && Installed[name].Config? ==>
      ConfigKey(name) == Some(Installed[name].key) && Installed[name].flag == FlagPlugin(name)
  {
  }

  /** The plugin statements from index 7 on only install plugins. */
  lemma LoadTail(table: map<string, Handler>, data: LS.Data)
    ensures Loaded(table, data, CommandsFile[7..]) == (table
      ["enable_debug" := Config("debug", true)]["run" := RunHandler]["RUN" := RunNilHandler]
      ["test" := TestHandler]["TEST" := TestHandler]["expect" := ExpectHandler]["EXPECT" := ExpectAliasHandler], data)
  {
    var t8 := table["enable_debug" := Config("debug", true)];
    var t9 := t8["run" := RunHandler];
    var t10 := t9["RUN" := RunNilHandler];
    var t11 := t10["test" := TestHandler];
    var t12 := t11["TEST" := TestHandler];
    var t13 := t12["expect" := ExpectHandler];
    assert Loaded(table, data, CommandsFile[7..]) == Loaded(t8, data, CommandsFile[8..]);
    assert Loaded(t8, data, CommandsFile[8..]) == Loaded(t9, data, CommandsFile[9..]);
    assert Loaded(t9, data, CommandsFile[9..]) == Loaded(t10, data, CommandsFile[10..]);
    assert Loaded(t10, data, CommandsFile[10..]) == Loaded(t11, data, CommandsFile[11..]);
    assert Loaded(t11, data, CommandsFile[11..]) == Loaded(t12, data, CommandsFile[12..]);
    assert Loaded(t12, data, CommandsFile[12..]) == Loaded(t13, data, CommandsFile[13..]);
    assert Loaded(t13, data, CommandsFile[13..]) == Loaded(t13["EXPECT" := ExpectAliasHandler], data, CommandsFile[14..]);
  }

  /** The table after the first seven statements. */
  const FirstFive: map<string, Handler> := map[
    "use_remote_plugin" := Config("remote_plugin", false),
    "USE_REMOTE_PLUGIN" := Config("remote_plugin", false),
    "use_node" := Config("node_name", false),
    "USE_NODE" := Config("node_name", false),
    "use_container" := Config("node_name", false)
  ]

  /** The first seven statements install the five configuration plugins and the two defaults. */
  lemma LoadHead(data: LS.Data)
    ensures Loaded(map[], data, CommandsFile)
      == Loaded(FirstFive, Defaulted(Defaulted(data, "remote_plugin", Str("local")), "node_name", Str("local")), CommandsFile[7..])
  {
    var d0 := Defaulted(data, "remote_plugin", Str("local"));
    var d1 := Defaulted(d0, "node_name", Str("local"));
    var t1 := map["use_remote_plugin" := Config("remote_plugin", false)];
    var t2 := t1["USE_REMOTE_PLUGIN" := Config("remote_plugin", false)];
    var t3 := t2["use_node" := Config("node_name", false)];
    var t4 := t3["USE_NODE" := Config("node_name", false)];
    assert Loaded(map[], data, CommandsFile) == Loaded(t1, data, CommandsFile[1..]);
    assert Loaded(t1, data, CommandsFile[1..]) == Loaded(t2, data, CommandsFile[2..]);
    assert Loaded(t2, data, CommandsFile[2..]) == Loaded(t2, d0, CommandsFile[3..]);
    assert Loaded(t2, d0, CommandsFile[3..]) == Loaded(t3, d0, CommandsFile[4..]);
    assert Loaded(t3, d0, CommandsFile[4..]) == Loaded(t4, d0, CommandsFile[5..]);
    assert Loaded(t4, d0, CommandsFile[5..]) == Loaded(FirstFive, d0, CommandsFile[6..]);
    assert Loaded(FirstFive, d0, CommandsFile[6..]) == Loaded(FirstFive, d1, CommandsFile[7..]);
  }

  /** With `default_config` defined, loading installs all twelve plugins, and the remote
      plugin and node read `'local'` unless already set; nothing else in the store changes. */
  lemma LoadInstallsAll(data: LS.Data)
    ensures var (table, d1) := Loaded(map[], data, CommandsFile);
      table == Installed
      && "remote_plugin" in d1 && "node_name" in d1
      && d1["remote_plugin"] == (if "remote_plugin" in data then data["remote_plugin"] else Str("local"))
      && d1["node_name"] == (if "node_name" in data then data["node_name"] else Str("local"))
      && (forall k :: k != "remote_plugin" && k != "node_name" ==> (k in d1 <==> k in data) && (k in data ==> d1[k] == data[k]))
  {
    var d1 := Defaulted(Defaulted(data, "remote_plugin", Str("local")), "node_name", Str("local"));
    LoadHead(data);
    LoadTail(FirstFive, d1);
  }

  method LoadAsWritten(registry: PluginTable.Registry<Handler>, decls: seq<Decl>) returns (raised: bool)
    modifies registry
    ensures (registry.handlers, raised) == LoadedAsWritten(old(registry.handlers), decls)
  {
    var i := 0;
    while i < |decls|
      invariant 0 <= i <= |decls|
      invariant LoadedAsWritten(registry.handlers, decls[i..]) == LoadedAsWritten(old(registry.handlers), decls)
    {
      if decls[i].DefaultConfig? {
        return true;
      }
      assert decls[i..][1..] == decls[i + 1..];
      registry.RegisterPlugin(decls[i].name, decls[i].handler);
      i := i + 1;
    }
    return false;
  }

  method Load(registry: PluginTable.Registry<Handler>, store: LS.Store, decls: seq<Decl>)
    modifies registry, store
    ensures (registry.handlers, store.data) == Loaded(old(registry.handlers), old(store.data), decls)
  {
    var i := 0;
    while i < |decls|
      invariant 0 <= i <= |decls|
      invariant Loaded(registry.handlers, store.data, decls[i..]) == Loaded(old(registry.handlers), old(store.data), decls)
    {
      assert decls[i..][1..] == decls[i + 1..];
      if decls[i].DefaultConfig? {
        if decls[i].key !in store.data {
          var _ := store.Set(decls[i].key, decls[i].value, LS.NoBlock);
        }
      } else {
        registry.RegisterPlugin(decls[i].name, decls[i].handler);
      }
      i := i + 1;
    }
  }

  // ---------------------------------------------------------------------
  // run, test, TEST, RUN

  /** `Store.set(:response, 'return') { data = ... }` on the older store: the flag's value
      before (nil, and now present, when it was missing) is put back after a normal return. */
  function UnderReturn(d: LS.Data, call: LS.Data -> (LS.Data, LP.Called)): (LS.Data, LP.Called) {
    var (d0, prev) := LS.GetStep(d, "response");
    var (d1, c) := call(d0["response" := Str("return")]);
    if c.Threw? then (d1, LP.Threw) else (d1["response" := prev], c)
  }

  /** The store after `run`'s callback reads `Store.get(:debug)` for each stdout line:
      only the first read can change it, inserting nil for a missing `debug`. */
  function DebugReads(d: LS.Data, events: seq<Event>): (r: LS.Data)
    ensures r == if Stdouts(events) != [] then LS.GetStep(d, "debug").0 else d
  {
    if events == [] then d
    else
      var r := DebugReads(d, events[..|events| - 1]);
      if events[|events| - 1].stdout.Some? then LS.GetStep(r, "debug").0 else r
  }

  /** `run(*args)` through its wrapper: the callback's reads of `debug`, then the result
      hash reported. */
  function RunCall(d: LS.Data, args: seq<Value>, events: seq<Event>, duration: nat, path: string, lineno: nat)
    : (LS.Data, LP.Called)
  {
    LP.Wrapped(DebugReads(d, events), Hash(RunData(ExpectedCode(args), events)), duration, path, lineno)
  }

  /** The caller's location and the duration of one wrapped call. */
  datatype Site = Site(duration: nat, path: string, lineno: nat)

  /** `test`, `TEST` (with `args`) and `RUN` (with `[nil, cmd]`). */
  function TestCall(d: LS.Data, args: seq<Value>, events: seq<Event>, inner: Site, outer: Site)
    : (LS.Data, LP.Called)
  {
    var (d1, c) := UnderReturn(d, d0 => RunCall(d0, args, events, inner.duration, inner.path, inner.lineno));
    if c.Threw? then (d1, LP.Threw) else LP.Wrapped(d1, LP.ValueOf(c), outer.duration, outer.path, outer.lineno)
  }

  /** The inner `run` of `test` hands its stamped hash back, reading the node name at call
      time; afterwards every key reads as before, and `debug` is present once a stdout line
      was seen. */
  lemma TestInnerRun(d: LS.Data, args: seq<Value>, events: seq<Event>, inner: Site)
    ensures var (d1, c) := UnderReturn(d, d0 => RunCall(d0, args, events, inner.duration, inner.path, inner.lineno));
      c == LP.Answered(LU.Handed(LP.Stamp(RunData(ExpectedCode(args), events), inner.duration,
                                          LU.CallerLineNumber(inner.path, inner.lineno), At(d, "node_name"))))
      && (forall k :: k in d && k != "response" ==> k in d1 && d1[k] == d[k])
      && "response" in d1 && d1["response"] == At(d, "response")
      && At(d1, "node_name") == At(d, "node_name") && At(d1, "exit_on_not_ok") == At(d, "exit_on_not_ok")
      && At(d1, "debug") == At(d, "debug") && ("debug" in d1 <==> "debug" in d || Stdouts(events) != [])
  {
    var (d0, prev) := LS.GetStep(d, "response");
    var dIn := d0["response" := Str("return")];
    var (dN, node) := LS.GetStep(DebugReads(dIn, events), "node_name");
    RunUnderReturnAnswers(d, args, events, inner);
    assert node == At(d, "node_name");
    ResponseRestored(d, events, dN, prev);
  }

  /** Under the `'return'` flag the inner `run` answers with its stamped hash, leaving the store
      as the debug and node-name reads left it, with the flag put back. */
  lemma RunUnderReturnAnswers(d: LS.Data, args: seq<Value>, events: seq<Event>, inner: Site)
    ensures var (d0, prev) := LS.GetStep(d, "response");
      var dIn := d0["response" := Str("return")];
      var (dN, node) := LS.GetStep(DebugReads(dIn, events), "node_name");
      UnderReturn(d, d0 => RunCall(d0, args, events, inner.duration, inner.path, inner.lineno))
        == (dN["response" := prev],
            LP.Answered(LU.Handed(LP.Stamp(RunData(ExpectedCode(args), events), inner.duration,
                                           LU.CallerLineNumber(inner.path, inner.lineno), node))))
  {
    var (d0, prev) := LS.GetStep(d, "response");
    var dIn := d0["response" := Str("return")];
    var (dN, node) := LS.GetStep(DebugReads(dIn, events), "node_name");
    var stamped := LP.Stamp(RunData(ExpectedCode(args), events), inner.duration, LU.CallerLineNumber(inner.path, inner.lineno), node);
    LU.ReturnHandsBack(dN, stamped);
    RunDataFacts(ExpectedCode(args), events);
    assert RunCall(dIn, args, events, inner.duration, inner.path, inner.lineno) == (dN, LP.Answered(LU.Handed(stamped)));
  }

  /** Reading `response`, setting it, reading `debug` and `node_name` and putting `response`
      back keeps every other key and leaves `response` as it read. */
  lemma ResponseRestored(d: LS.Data, events: seq<Event>, dN: LS.Data, prev: Value)
    requires prev == LS.GetStep(d, "response").1
    requires dN == LS.GetStep(DebugReads(LS.GetStep(d, "response").0["response" := Str("return")], events), "node_name").0
    ensures var d1 := dN["response" := prev];
      (forall k :: k in d && k != "response" ==> k in d1 && d1[k] == d[k])
      && "response" in d1 && d1["response"] == At(d, "response")
      && At(d1, "node_name") == At(d, "node_name") && At(d1, "exit_on_not_ok") == At(d, "exit_on_not_ok")
      && At(d1, "debug") == At(d, "debug") && ("debug" in d1 <==> "debug" in d || Stdouts(events) != [])
  {
  }

  /** `test` reports the `run` hash once: stamped by both wrappers with the node read at
      call time, routed on the flag and exit switch the store held before the call, which
      reads as before afterwards. `ok` follows the expected code. */
  lemma TestReportsRunResult(d: LS.Data, args: seq<Value>, events: seq<Event>, inner: Site, outer: Site)
    ensures var (d1, c) := TestCall(d, args, events, inner, outer);
      var node := At(d, "node_name");
      var first := LP.Stamp(RunData(ExpectedCode(args), events), inner.duration,
                            LU.CallerLineNumber(inner.path, inner.lineno), node);
      c == LP.Answered(LU.Route(LP.Stamp(first, outer.duration, LU.CallerLineNumber(outer.path, outer.lineno), node),
                                At(d, "response"), At(d, "exit_on_not_ok")))
      && first["ok"] == Bool(RunOk(ExpectedCode(args), events))
      && At(d1, "response") == At(d, "response")
  {
    RunDataFacts(ExpectedCode(args), events);
    TestInnerRun(d, args, events, inner);
    var (d1, c) := UnderReturn(d, d0 => RunCall(d0, args, events, inner.duration, inner.path, inner.lineno));
    LP.ReportableStamped(d1, LP.ValueOf(c), outer.duration, outer.path, outer.lineno);
    var (dN, _) := LS.GetStep(d1, "node_name");
    LU.ResponseRoutesOnStore(dN, LP.Stamp(LP.ValueOf(c).h, outer.duration, LU.CallerLineNumber(outer.path, outer.lineno), At(d1, "node_name")));
  }

  /** `RUN` passes a nil expected code, so the hash it reports is always ok. */
  lemma RunAlwaysOk(cmd: Value, events: seq<Event>)
    ensures ExpectedCode([Nil, cmd]) == Nil
    ensures RunData(ExpectedCode([Nil, cmd]), events)["ok"] == Bool(true)
  {
    NilExpectAlwaysOk(events);
  }

  method Run(store: LS.Store, args: seq<Value>, events: seq<Event>, site: Site) returns (c: LP.Called)
    modifies store
    ensures (store.data, c) == RunCall(old(store.data), args, events, site.duration, site.path, site.lineno)
  {
    var expected := ExpectedCode(args);
    var data := map["expect_ret" := expected, "ok" := Bool(true)];
    var out: seq<string> := [];
    var i := 0;
    while i < |events|
      invariant 0 <= i <= |events|
      invariant data == Progress(expected, events[..i])
      invariant out == Stdouts(events[..i])
      invariant store.data == DebugReads(old(store.data), events[..i])
    {
      var e := events[i];
      assert events[..i + 1][..i] == events[..i];
      if e.stdout.Some? {
        out := out + [e.stdout.value];
        var _ := store.Get("debug");
      }
      if e.ret.Some? {
        data := data["ret" := Int(e.ret.value)];
        if !expected.Nil? {
          data := data["ok" := Bool(Int(e.ret.value) == expected)];
        }
      }
      i := i + 1;
    }
    assert events[..i] == events;
    data := data["output" := Str(Concat(out))];
    c := LP.Wrap(store, Hash(data), site.duration, site.path, site.lineno);
  }

  method Test(store: LS.Store, args: seq<Value>, events: seq<Event>, inner: Site, outer: Site) returns (c: LP.Called)
    modifies store
    ensures (store.data, c) == TestCall(old(store.data), args, events, inner, outer)
  {
    var result := RunUnderReturn(store, args, events, inner);
    if result.Threw? {
      return LP.Threw;
    }
    c := LP.Wrap(store, LP.ValueOf(result), outer.duration, outer.path, outer.lineno);
  }

  /** `Store.set(:response, 'return') { run(*args) }`, the first half of `test` and `expect`. */
  method RunUnderReturn(store: LS.Store, args: seq<Value>, events: seq<Event>, inner: Site) returns (c: LP.Called)
    modifies store
    ensures (store.data, c) == UnderReturn(old(store.data), d0 => RunCall(d0, args, events, inner.duration, inner.path, inner.lineno))
  {
    var prev := store.Get("response");
    var _ := store.Set("response", Str("return"), LS.NoBlock);
    c := Run(store, args, events, inner);
    if c.Threw? {
      return;
    }
    var _ := store.Set("response", prev, LS.NoBlock);
  }

  // ---------------------------------------------------------------------
  // expect, EXPECT

  /** `expect(expect_value, cmd)`: `run(0, cmd)` under `'return'`, then the output check.
      A result that is not a hash makes `data[:ok]` raise. */
  function ExpectCall(d: LS.Data, expectValue: Scalar, events: seq<Event>, inner: Site, outer: Site)
    : (LS.Data, LP.Called)
  {
    var (d1, c) := UnderReturn(d, d0 => RunCall(d0, [Int(0), Nil], events, inner.duration, inner.path, inner.lineno));
    if c.Threw? || !LP.ValueOf(c).Hash? then (d1, LP.Threw)
    else LP.Wrapped(d1, Hash(CheckOutput(LP.ValueOf(c).h, expectValue)), outer.duration, outer.path, outer.lineno)
  }

  /** `EXPECT`: `expect` under `'return'`, reported once more. */
  function ExpectAliasCall(d: LS.Data, expectValue: Scalar, events: seq<Event>, run: Site, check: Site, outer: Site)
    : (LS.Data, LP.Called)
  {
    var (d1, c) := UnderReturn(d, d0 => ExpectCall(d0, expectValue, events, run, check));
    if c.Threw? then (d1, LP.Threw) else LP.Wrapped(d1, LP.ValueOf(c), outer.duration, outer.path, outer.lineno)
  }

  /** `expect` reports a hash whose `ok` holds exactly when the command exited 0 (or reported
      no status) and printed the expected value's string form. */
  lemma ExpectVerdict(d: LS.Data, expectValue: Scalar, events: seq<Event>, inner: Site, outer: Site)
    ensures var (_, c) := ExpectCall(d, expectValue, events, inner, outer);
      var node := At(d, "node_name");
      var checked := CheckOutput(LP.Stamp(RunData(Int(0), events), inner.duration,
                                          LU.CallerLineNumber(inner.path, inner.lineno), node), expectValue);
      c == LP.Answered(LU.Route(LP.Stamp(checked, outer.duration, LU.CallerLineNumber(outer.path, outer.lineno), node),
                                At(d, "response"), At(d, "exit_on_not_ok")))
      && "ok" in checked
      && checked["ok"] == Bool(RunOk(Int(0), events) && Concat(Stdouts(events)) == ToS(expectValue))
  {
    RunDataFacts(Int(0), events);
    TestInnerRun(d, [Int(0), Nil], events, inner);
    var (d1, c) := UnderReturn(d, d0 => RunCall(d0, [Int(0), Nil], events, inner.duration, inner.path, inner.lineno));
    var checked := CheckOutput(LP.ValueOf(c).h, expectValue);
    CheckOutputOk(LP.ValueOf(c).h, Int(0), events, expectValue);
    LP.ReportableStamped(d1, Hash(checked), outer.duration, outer.path, outer.lineno);
  }

  method Expect(store: LS.Store, expectValue: Scalar, events: seq<Event>, inner: Site, outer: Site)
    returns (c: LP.Called)
    modifies store
    ensures (store.data, c) == ExpectCall(old(store.data), expectValue, events, inner, outer)
  {
    var result := RunUnderReturn(store, [Int(0), Nil], events, inner);
    if result.Threw? {
      return LP.Threw;
    }
    var data := LP.ValueOf(result);
    if !data.Hash? {
      return LP.Threw;
    }
    var h := data.h;
    if Truthy(At(h, "ok")) && At(h, "output") != Str(ToS(expectValue)) {
      h := h["ok" := Bool(false)];
    }
    c := LP.Wrap(store, Hash(h), outer.duration, outer.path, outer.lineno);
  }

  method ExpectAlias(store: LS.Store, expectValue: Scalar, events: seq<Event>, run: Site, check: Site, outer: Site)
    returns (c: LP.Called)
    modifies store
    ensures (store.data, c) == ExpectAliasCall(old(store.data), expectValue, events, run, check, outer)
  {
    var prev := store.Get("response");
    var _ := store.Set("response", Str("return"), LS.NoBlock);
    var result := Expect(store, expectValue, events, run, check);
    if result.Threw? {
      return LP.Threw;
    }
    var _ := store.Set("response", prev, LS.NoBlock);
    c := LP.Wrap(store, LP.ValueOf(result), outer.duration, outer.path, outer.lineno);
  }
}
