# binnacle in Dafny

binnacle is a test engine. A test author writes a test file as a list of keyword calls:

- run a command and check its exit status (`TEST`, `command_test`, `run`);
- check a command's output (`EXPECT`, `command_expect`);
- compare values (`EQUAL`, `compare_true?`, …);
- configure where and how commands run (`NODE`, `command_node`, `exit_on_not_ok`, …).

The engine runs each file in a child process. A dry run of the file counts its tests. The parent reads the child's output line by line, classifies the result lines, and totals the results into per-file and run-level metrics.

The repository holds several generations of this engine. The model keeps them apart, one Dafny module per source file:

| generation | source | modules |
|---|---|---|
| oldest Ruby | `src/runner.rb`, `src/plugins.rb`, `src/binnacle.rb`, `src/metrics.rb` | `SrcRunner`, `SrcPlugins`, `SrcBinnacle`, `SrcMetrics` |
| older Ruby library | `lib/binnacle/{store,utils,helpers,plugins}.rb`, `lib/binnacle/plugins/commands.rb` | `LegacyStore`, `LegacyUtils`, `LegacyPlugins`, `LegacyCommands` |
| current Ruby library | `lib/kadalu/binnacle/store.rb`, `lib/kadalu/binnacle/plugins.rb`, `lib/kadalu/binnacle/plugins/{commands,compare}.rb`, `lib/kadalu/binnacle.rb` | `KadaluStore`, `KadaluPlugins`, `KadaluCommands`, `KadaluCompare`, `KadaluRunner` |
| Python prototype | `ref_python/testparser.py`, `binnacle/testutils.py` | `PyTestParser`, `PyTestUtils` |

Shared modules:

- `Values`: Ruby's dynamic values (nil, booleans, integers, strings, hashes) and the outcome of a call, which returns a value or raises.
- `Text`: string operations with Ruby and Python meaning (`split`, `strip`, `replace`, `to_i`, padding).
- `Tap`: the verdict words of a Test Anything Protocol status line.
- `CommandEvents`: folding a child's stdout, stderr and exit events into a result hash. Both Ruby libraries share this code line for line.
- `PluginTable`: the name-to-handler table that `define_method` builds; `LegacyCommands` loads commands.rb into it.
- `Sorting`: Ruby's `Array#sort` on strings.

Where the code changes state in place, the model does so too:

- The two configuration stores, the oldest runner's class variables and the metrics aggregator are classes with `modifies` clauses.
- The loops become methods with invariants: the `tests_count`/`run` loops, `test_files`, the `run_all` indexing and execution loops, `command_groups`, the `handle_TEST` stage loop and the `parse` loop.
- Each such class or method is proved equal to a pure specification function. The lemmas state the properties of that function.

A test-file block is a list of operations that can end with `Raise`, which stands for an exception escaping from the block. This is how the model states what happens to a scoped override when a block raises.

Two points where the source's comments read differently from its code; the model follows the code:

- The comments on `Store.set` (lib/kadalu/binnacle/store.rb:10-26 and lib/binnacle/store.rb:8-24) say a value given with a block is set "only for the given block". Neither store uses `ensure`. Each writes back the value that `get` returned, so an exception leaves the override in place, and an absent key comes back as nil or as its default. `ScopedSetLeaksOnRaise` and `ScopedSetRestores` state this.
- The remote command is built by interpolating the command between single quotes without escaping (src/runner.rb:51-55). `SrcRunner.FullCmdWraps` states exactly that, so a command containing a single quote is not protected.

## Model

| member | source | states |
|---|---|---|
| CommandEvents.Progress | lib/binnacle/plugins/commands.rb:89-106 | the hash built by the event callback always holds `expect_ret` and `ok` |
| CommandEvents.ProgressFacts | lib/binnacle/plugins/commands.rb:89-106 | the hash's keys are `expect_ret`, `ok`, and `ret` once an exit status arrived; `ok` is true unless an exit status differs from a non-nil expected code; `ret` is the last exit status |
| CommandEvents.RunData | lib/kadalu/binnacle/plugins/commands.rb:151-171 | the handler's result always holds `expect_ret`, `ok` and `output` |
| CommandEvents.RunDataFacts | lib/kadalu/binnacle/plugins/commands.rb:151-171 | the result's keys and values: the expected code, the verdict, the last exit status, and `output` as the stdout lines joined in arrival order |
| CommandEvents.NilExpectAlwaysOk | lib/kadalu/binnacle/plugins/commands.rb:164-167 | with a nil expected code the result is ok whatever the child does |
| CommandEvents.OutputIgnoresStderr | lib/binnacle/plugins/commands.rb:94-108 | two event streams with the same stdout lines give the same output, so stderr never enters it |
| CommandEvents.FoldEvents | lib/kadalu/binnacle/plugins/commands.rb:151-171 | the callback loop over the events builds exactly the specified result hash |
| CommandEvents.CheckOutputOk | lib/kadalu/binnacle/plugins/commands.rb:226-238 | after the output check, `ok` holds iff the command was ok and its output equals `expect_value.to_s` |
| KadaluStore.Lookup | lib/kadalu/binnacle/store.rb:81-86 | `get` returns the stored value if the key is set, else the registered default, else nil |
| KadaluStore.Snapshot | lib/kadalu/binnacle/store.rb:98-101 | `remember` takes one value per listed key |
| KadaluStore.RaisedStops | lib/kadalu/binnacle/store.rb:31 | once a statement of a block raises, the rest of the block does not run |
| KadaluStore.SetThenGet | lib/kadalu/binnacle/store.rb:27-38 | `set` without a block returns nil, `get` then returns the new value, and other keys read as before |
| KadaluStore.ScopedSetRestores | lib/kadalu/binnacle/store.rb:28-32 | after a block returns normally, `get` returns what it returned before the call, a default included |
| KadaluStore.NestedScopedSets | lib/kadalu/binnacle/store.rb:28-32 | nested block `set`s on one key unwind in reverse order: the inner restores the outer value, the outer the original |
| KadaluStore.ScopedSetLeaksOnRaise | lib/kadalu/binnacle/store.rb:28-33 | a block that raises leaves the override in place |
| KadaluStore.ScopedHashSetRestores | lib/kadalu/binnacle/store.rb:43-51 | after the block, a previously truthy entry holds its old value again, and an absent or falsy one is deleted |
| KadaluStore.HashSetStores | lib/kadalu/binnacle/store.rb:40-56 | `hash_set` without a block writes the entry, creating the hash when it is missing |
| KadaluStore.HashOperationsNeedAHash | lib/kadalu/binnacle/store.rb:41-45 | `hash_set` and `hash_remove` raise when the key holds something other than a hash |
| KadaluStore.ScopedHashRemoveRestores | lib/kadalu/binnacle/store.rb:62-66 | a truthy entry is hidden while the block runs and put back afterwards; a falsy one is left as the block leaves it |
| KadaluStore.HashRemoveRemoves | lib/kadalu/binnacle/store.rb:67-69 | without a block exactly that entry is deleted and the others stay |
| KadaluStore.IncCounts | lib/kadalu/binnacle/store.rb:74-78 | `inc` on an absent key counts 1, 2, …, n over n calls |
| KadaluStore.IncNeedsAnInteger | lib/kadalu/binnacle/store.rb:74-78 | `inc` on a key that holds no integer raises |
| KadaluStore.ResetKeepsDefaults | lib/kadalu/binnacle/store.rb:115-117 | `reset` empties the data and keeps the defaults, so `get` yields the default or nil |
| KadaluStore.DefaultVisibleUntilSet | lib/kadalu/binnacle/store.rb:110-112 | a registered default is what `get` returns until the key is set |
| KadaluStore.WriteBackSnapshot | lib/kadalu/binnacle/store.rb:103-105 | writing the snapshot back restores exactly the listed keys and leaves every other key as it was |
| KadaluStore.RememberRestores | lib/kadalu/binnacle/store.rb:97-108 | `remember` returns the block's value, restores the listed keys to their snapshot and keeps the others as the block left them |
| KadaluStore.RememberNeedsABlock | lib/kadalu/binnacle/store.rb:102 | `remember` without a block raises |
| KadaluStore.Store.constructor | lib/kadalu/binnacle/store.rb:7-8 | the store starts with no data and no defaults |
| KadaluStore.Store.Set | lib/kadalu/binnacle/store.rb:27-38 | the class method performs the specified `set` |
| KadaluStore.Store.HashSet | lib/kadalu/binnacle/store.rb:40-57 | the class method performs the specified `hash_set` |
| KadaluStore.Store.HashRemove | lib/kadalu/binnacle/store.rb:59-72 | the class method performs the specified `hash_remove` |
| KadaluStore.Store.Inc | lib/kadalu/binnacle/store.rb:74-78 | the class method performs the specified `inc` |
| KadaluStore.Store.Remember | lib/kadalu/binnacle/store.rb:97-108 | the class method performs the specified `remember` |
| KadaluStore.Store.TakeSnapshot | lib/kadalu/binnacle/store.rb:98-101 | the snapshot loop collects the listed keys' values |
| KadaluStore.Store.PutBack | lib/kadalu/binnacle/store.rb:103-105 | the write-back loop stores each snapshot value under its key |
| KadaluStore.Store.DefaultValue | lib/kadalu/binnacle/store.rb:110-112 | the class method registers the default |
| KadaluStore.Store.Reset | lib/kadalu/binnacle/store.rb:115-117 | the class method empties the data |
| KadaluStore.Store.Perform | lib/kadalu/binnacle/store.rb:27-117 | any store call from a block performs the specified step |
| KadaluStore.Store.RunBlock | lib/kadalu/binnacle/store.rb:31 | a block's statements run in order and stop at the first raise |
| LegacyStore.GetStep | lib/binnacle/store.rb:39-42 | `get` returns the stored value, and on a missing key inserts nil and returns nil |
| LegacyStore.Snapshot | lib/binnacle/store.rb:54-57 | `remember` takes one value per listed key |
| LegacyStore.RaisedStops | lib/binnacle/store.rb:29 | once a statement of a block raises, the rest of the block does not run |
| LegacyStore.GetInsertsNil | lib/binnacle/store.rb:39-42 | `get` on a missing key inserts a nil entry and returns nil; on a present key it changes nothing |
| LegacyStore.SetThenGet | lib/binnacle/store.rb:25-36 | `set` without a block overwrites the key and returns nil, and a later `get` returns the value |
| LegacyStore.ScopedSetRestores | lib/binnacle/store.rb:26-30 | after a block returns normally, the key holds its pre-call value, nil when it was absent |
| LegacyStore.NestedScopedSets | lib/binnacle/store.rb:26-30 | nested block `set`s on one key unwind in reverse order |
| LegacyStore.ScopedSetLeaksOnRaise | lib/binnacle/store.rb:26-30 | a block that raises leaves the override in place |
| LegacyStore.WriteBackSnapshot | lib/binnacle/store.rb:59-61 | writing the snapshot back restores exactly the listed keys |
| LegacyStore.RememberRestores | lib/binnacle/store.rb:53-64 | `remember` returns the block's result, restores the listed keys and leaves the others as the block left them |
| LegacyStore.Store.constructor | lib/binnacle/store.rb:6 | the store starts empty |
| LegacyStore.Store.Get | lib/binnacle/store.rb:39-42 | the class method performs the specified `get`, nil insertion included |
| LegacyStore.Store.Set | lib/binnacle/store.rb:25-36 | the class method performs the specified `set` |
| LegacyStore.Store.Remember | lib/binnacle/store.rb:53-64 | the class method performs the specified `remember` |
| LegacyStore.Store.Perform | lib/binnacle/store.rb:25-64 | any store call from a block performs the specified step |
| LegacyStore.Store.RunBlock | lib/binnacle/store.rb:29 | a block's statements run in order and stop at the first raise |
| LegacyUtils.Route | lib/binnacle/utils.rb:14-31 | `'return'` hands the data back unchanged and emits nothing; `'stdout'` emits on stdout and any other flag, nil included, on stderr; after emitting, the process exits iff `exit_on_not_ok` is truthy and `ok` is not; otherwise the result is `data[:output]` or nil |
| LegacyUtils.ResponseRoutesOnStore | lib/binnacle/utils.rb:14-25 | `response` routes on the store's `response` and `exit_on_not_ok` values, and its reads only add nil entries to the store |
| LegacyUtils.ReturnHandsBack | lib/binnacle/utils.rb:17-18 | under `'return'` the data comes back unchanged and the store is untouched |
| LegacyUtils.CallerLineNumber | lib/binnacle/utils.rb:9-12 | the location starts with the caller's path and a colon |
| LegacyUtils.CallerLineNumberReadsBack | lib/binnacle/helpers.rb:8-11 | the text after `path:` is the line number and reads back as it |
| LegacyPlugins.Stamp | lib/binnacle/plugins.rb:20-22 | a reportable result gains `duration_seconds`, `line` and `node`, and keeps its other keys |
| LegacyPlugins.NotReportableSilent | lib/binnacle/plugins.rb:15-18 | a nil result or a hash without `ok` yields nil, and `response` is not called |
| LegacyPlugins.ReportableStamped | lib/binnacle/plugins.rb:20-24 | a reportable result is stamped with the node read at call time and routed through `response`, whose value the wrapper returns |
| LegacyPlugins.HelperWrapperStamps | lib/binnacle/helpers.rb:36-50 | the helpers wrapper returns nil for an unreportable result, and otherwise routes the result with `duration_seconds` and `line` added |
| LegacyPlugins.Wrap | lib/binnacle/plugins.rb:11-26 | the method wrapper performs the specified wrapping on the store |
| PluginTable.Registry.constructor | lib/kadalu/binnacle/plugins.rb:17-18 | no plugin is installed at first |
| PluginTable.Registry.Register | lib/kadalu/binnacle/plugins.rb:17-34 | `define_method(name)` installs the handler under its name and replaces an earlier one |
| PluginTable.Registry.RegisterPlugin | lib/kadalu/binnacle/plugins.rb:43-45 | `register_plugin` installs exactly what `Plugins.register` installs |
| PluginTable.Registry.Find | lib/binnacle/plugins.rb:12 | a call finds the handler installed under its name, and nothing for a name never registered |
| KadaluPlugins.Stamp | lib/kadalu/binnacle/plugins.rb:26-31 | a reportable result gains `name`, `duration_seconds` and `task_number`, and keeps its other keys |
| KadaluPlugins.NotReportableUntouched | lib/kadalu/binnacle/plugins.rb:21-24 | a nil result or a hash without `ok` yields nil and leaves the store, the `count` counter included, untouched |
| KadaluPlugins.FirstTaskNumber | lib/kadalu/binnacle/plugins.rb:31-32 | the first reportable result is numbered 1 and handed to the encoder |
| KadaluPlugins.NextTaskNumber | lib/kadalu/binnacle/plugins.rb:31-32 | each later reportable result is numbered one more than the counter |
| KadaluPlugins.TaskNumbering | lib/kadalu/binnacle/plugins.rb:26-32 | a reportable result raises the counter by exactly one, is stamped with the new number, and the wrapper returns the encoder's value |
| KadaluPlugins.Wrap | lib/kadalu/binnacle/plugins.rb:17-34 | the method wrapper performs the specified wrapping on the store |
| KadaluPlugins.DelegateReportsOnce | lib/kadalu/binnacle/plugins/compare.rb:39-46 | a plugin delegating under `'return'` numbers two tasks, emits only the outer stamped result, and restores the flag |
| KadaluPlugins.DefaultConfig | lib/kadalu/binnacle/plugins.rb:39-41 | `default_config` registers the default and touches no data |
| KadaluPlugins.LoadPlugins | lib/kadalu/binnacle/plugins.rb:47 | the default `response` flag is `'stdout'` |
| KadaluCommands.ConfigValue | lib/kadalu/binnacle/plugins/commands.rb:61-91 | a flag plugin (declared with the keyword `value: true`) stores its `value:` keyword, true without one, ignores positional arguments and raises on any other keyword; any other configuration plugin stores its first argument, nil when called without one |
| KadaluCommands.FlagDropsPositional | lib/kadalu/binnacle/plugins/commands.rb:61-91 | `enable_debug false` stores true; only `enable_debug value: false` stores false |
| KadaluCommands.MissingArgumentStoresNil | lib/kadalu/binnacle/plugins/commands.rb:21-58 | a non-flag configuration plugin called without an argument stores nil |
| KadaluCommands.ConfigPluginsNotReported | lib/kadalu/binnacle/plugins/commands.rb:21-122 | a configuration plugin is exactly a store `set` of its key with the bound value and returns nil or raises (also when the arguments do not bind), so it is never reported |
| KadaluCommands.CommandDefaultsRegistered | lib/kadalu/binnacle/plugins/commands.rb:30-124 | the defaults are `command_mode` and `node_name` `'local'`, `exit_on_not_ok` and `sudo` false, `ssh_user` `'root'`, `ssh_pem_file` `'~/.ssh/id_rsa'` and `ssh_port` 22; other defaults stay |
| KadaluCommands.LoadDefaults | lib/kadalu/binnacle/plugins/commands.rb:30-124 | loading the file registers those defaults and touches no data |
| KadaluCommands.DefaultsVisible | lib/kadalu/binnacle/plugins/commands.rb:30-124 | an unset configuration key reads as its default |
| KadaluCommands.CommandRun | lib/kadalu/binnacle/plugins/commands.rb:143-172 | `command_run` performs the specified call: the expected code from the arguments, the folded events, then the wrapper |
| KadaluCommands.Test | lib/kadalu/binnacle/plugins/commands.rb:201-217 | `command_test` and `TEST` perform the specified delegation to `command_run` |
| KadaluCommands.RunUnderReturn | lib/kadalu/binnacle/plugins/commands.rb:203-205 | the inner `command_run` runs with `response` set to `'return'`, which is then restored |
| KadaluCommands.TestReportsRunResult | lib/kadalu/binnacle/plugins/commands.rb:201-217 | `command_test`/`TEST` emit one result, the `command_run` hash with `ok` decided by the exit status, and restore the flag |
| KadaluCommands.RunAlwaysOk | lib/kadalu/binnacle/plugins/commands.rb:175-182 | `RUN` passes a nil expected code, so its result is always ok |
| KadaluCommands.CommandExpect | lib/kadalu/binnacle/plugins/commands.rb:219-241 | `command_expect` performs the specified call |
| KadaluCommands.Expect | lib/kadalu/binnacle/plugins/commands.rb:243-250 | `EXPECT` performs the specified delegation to `command_expect` |
| KadaluCommands.ExpectInnerRun | lib/kadalu/binnacle/plugins/commands.rb:221-224 | the inner `command_run(0, cmd)` returns its stamped hash and counts one task |
| KadaluCommands.ExpectCallUnfolds | lib/kadalu/binnacle/plugins/commands.rb:219-241 | `command_expect` wraps the output-checked `command_run` hash |
| KadaluCommands.ExpectVerdict | lib/kadalu/binnacle/plugins/commands.rb:226-238 | `command_expect` is ok iff the command exits 0 and its output equals `expect_value.to_s` |
| KadaluCommands.ExpectReportsOnce | lib/kadalu/binnacle/plugins/commands.rb:219-241 | `command_expect` emits one result numbered after the inner run, and the counter grows by two |
| KadaluCompare.CompareEqual | lib/kadalu/binnacle/plugins/compare.rb:14-36 | the result holds `value1`, `value2`, `ok` and `title` |
| KadaluCompare.CompareNotEqual | lib/kadalu/binnacle/plugins/compare.rb:57-74 | the result holds `value1`, `value2`, `ok` and `title` |
| KadaluCompare.CompareTrue | lib/kadalu/binnacle/plugins/compare.rb:91-96 | the result holds `ok` and `title`, and nothing is printed |
| KadaluCompare.CompareFalse | lib/kadalu/binnacle/plugins/compare.rb:113-118 | the result holds `ok` and `title`, and nothing is printed |
| KadaluCompare.EqualOkIff | lib/kadalu/binnacle/plugins/compare.rb:15-28 | `compare_equal?` is ok iff the values are equal, and the diagnostic is printed iff it is not ok |
| KadaluCompare.NotEqualNegatesEqual | lib/kadalu/binnacle/plugins/compare.rb:57-73 | `compare_not_equal?` has the negated `ok` and the same other fields as `compare_equal?`, and prints iff not ok |
| KadaluCompare.TrueOnlyForTrue | lib/kadalu/binnacle/plugins/compare.rb:91-96 | `compare_true?` is ok only for `true`; truthy values such as 1 are not ok |
| KadaluCompare.FalseOnlyForFalse | lib/kadalu/binnacle/plugins/compare.rb:113-118 | `compare_false?` is ok only for `false`; nil is not ok |
| KadaluCompare.AliasReportsSameHash | lib/kadalu/binnacle/plugins/compare.rb:39-128 | `EQUAL`, `NOT_EQUAL`, `TRUE` and `FALSE` emit the new-name plugin's hash, computed under `'return'`, and restore the flag |
| KadaluRunner.ChildCommand | lib/kadalu/binnacle.rb:30-32 | the child runs its task file with `--runner`, and the line ends with `-w` when wide |
| KadaluRunner.VerboseFlagsSplit | lib/kadalu/binnacle.rb:30 | the verbosity part of the command line is one `-v` per level |
| KadaluRunner.CountOk | lib/kadalu/binnacle.rb:54-58 | the passed tasks are at most all tasks |
| KadaluRunner.FoldCounts | lib/kadalu/binnacle.rb:49-60 | every stdout line that parses as a hash becomes a task, `passed` counts those with `ok`, and `passed + failed` is the number of tasks |
| KadaluRunner.AbsorbCounts | lib/kadalu/binnacle.rb:46-72 | one event adds at most one task and at most one count |
| KadaluRunner.FoldErrors | lib/kadalu/binnacle.rb:69-72 | every stderr line is kept in `error_msgs`, in order |
| KadaluRunner.FoldCompleted | lib/kadalu/binnacle.rb:74-82 | the file is completed iff no non-zero exit status arrived, and until the end `ok` equals completed |
| KadaluRunner.NonTaskLinesNotCounted | lib/kadalu/binnacle.rb:61-66 | a line that is not a parsed task changes no count |
| KadaluRunner.Start | lib/kadalu/binnacle.rb:24-90 | `start` returns the file metrics of the folded events, with `ok` false when a test failed |
| KadaluRunner.FinalOk | lib/kadalu/binnacle.rb:74-85 | the final `ok` holds iff the child completed and every task passed, and `passed + failed` is the number of tasks |
| KadaluRunner.RunnerSetup | lib/kadalu/binnacle.rb:96-98 | `runner` sets `debug` to `verbose == 2` and `wide` from the options |
| LegacyCommands.ConfigValue | lib/binnacle/plugins/commands.rb:19-62 | `enable_debug` (declared with the keyword `value: true`) stores its `value:` keyword, true without one, ignores positional arguments and raises on any other keyword; the other configuration plugins store their first argument, nil when called without one |
| LegacyCommands.FlagDropsPositional | lib/binnacle/plugins/commands.rb:60-62 | `enable_debug false` stores true; only `enable_debug value: false` stores false |
| LegacyCommands.MissingArgumentStoresNil | lib/binnacle/plugins/commands.rb:19-56 | `use_node` and the other non-flag configuration plugins called without an argument store nil |
| LegacyCommands.LoadedAsWritten | lib/binnacle/plugins/commands.rb:19-188 | loading raises exactly when the file holds a `default_config`, and keeps the plugins already installed |
| LegacyCommands.LoadAsWrittenStops | lib/binnacle/plugins/commands.rb:19-28 | as written, requiring the file installs only `use_remote_plugin` and `USE_REMOTE_PLUGIN` and then raises at `default_config`, so `run` is never installed |
| LegacyCommands.LoadAsWritten | lib/binnacle/plugins/commands.rb:19-28 | registering the statements one by one installs what `LoadedAsWritten` states and raises where it does |
| LegacyCommands.Defaulted | lib/binnacle/plugins/commands.rb:28 | a default gives an unset key its value and leaves every other key, and a key already set, as they were |
| LegacyCommands.InstalledAgrees | lib/binnacle/plugins/commands.rb:19-188 | the twelve installed names are the configuration plugins, each with the key it writes and its flag signature, and the six command plugins |
| LegacyCommands.LoadInstallsAll | lib/binnacle/plugins/commands.rb:19-188 | with `default_config` defined, loading installs all twelve plugins, and `remote_plugin`/`node_name` read `'local'` unless already set; no other key changes |
| LegacyCommands.Load | lib/binnacle/plugins/commands.rb:19-188 | registering the statements one by one with `default_config` defined installs what `Loaded` states |
| LegacyCommands.DebugReads | lib/binnacle/plugins/commands.rb:95-99 | reading `debug` once per stdout line leaves the store as one read does when a line was printed (a missing `debug` becomes nil), and untouched otherwise |
| LegacyCommands.ConfigPluginsNotReported | lib/binnacle/plugins/commands.rb:19-62 | a configuration plugin is exactly a store `set` of its key with the bound value, so it is silent unless it raises (also when the arguments do not bind) |
| LegacyCommands.TestInnerRun | lib/binnacle/plugins/commands.rb:141-143 | the inner `run` under `'return'` hands back its stamped hash, and the flag and the other keys read as before afterwards; `debug` is present once a stdout line was printed |
| LegacyCommands.TestReportsRunResult | lib/binnacle/plugins/commands.rb:139-155 | `test`/`TEST` route the `run` hash, stamped twice, with `ok` decided by the exit status, and restore the flag |
| LegacyCommands.RunAlwaysOk | lib/binnacle/plugins/commands.rb:113-120 | `RUN` uses a nil expected code and is always ok |
| LegacyCommands.Run | lib/binnacle/plugins/commands.rb:81-110 | the callback loop reads `debug` for each stdout line and folds the events into the result hash, which the wrapper reports: the store and result are those `RunCall` states |
| LegacyCommands.Test | lib/binnacle/plugins/commands.rb:139-155 | `test`/`TEST` perform the specified delegation |
| LegacyCommands.RunUnderReturn | lib/binnacle/plugins/commands.rb:141-143 | the inner `run` runs with `response` set to `'return'`, which is then restored |
| LegacyCommands.ExpectVerdict | lib/binnacle/plugins/commands.rb:157-179 | `expect` routes the checked hash, which is ok iff the command exits 0 and its output equals `expect_value.to_s` |
| LegacyCommands.Expect | lib/binnacle/plugins/commands.rb:157-179 | `expect` performs the specified call |
| LegacyCommands.ExpectAlias | lib/binnacle/plugins/commands.rb:181-188 | `EXPECT` performs the specified delegation to `expect` |
| SrcRunner.FullCmd | src/runner.rb:48-58 | the command is unchanged on the local node or under an unknown plugin |
| SrcRunner.FullCmdWraps | src/runner.rb:51-56 | for ssh or docker the line starts with the invocation for the node and carries the command unquoted between `-c '` and the closing quote |
| SrcRunner.Executed | src/runner.rb:62-71 | `execute` returns the child's status and output, or -1, `""` and `"Unknown command"` when spawning raises |
| SrcRunner.LocalNonStringFallsBack | src/runner.rb:62-71 | a local command that is not a string yields the fallback result |
| SrcRunner.StatusLineVerdict | src/runner.rb:73-75 | the printed status line reports ok iff the verdict is ok |
| SrcRunner.Commented | src/runner.rb:84-85 | each diagnostic line is prefixed `# ` |
| SrcRunner.JoinCommented | src/runner.rb:84-85 | the joined diagnostic splits back into its lines, each prefixed `# ` |
| SrcRunner.DiagnosticLines | src/runner.rb:83-85 | the printed diagnostic is the diagnostic's lines, each prefixed `# ` |
| SrcRunner.OkNotOk | src/runner.rb:77-86 | one status line reporting the verdict, and a second line exactly when the diagnostic is neither nil nor empty |
| SrcRunner.CmdDescription | src/runner.rb:97-98 | the description names the node and the command, and ends with `expect_ret=N` only when N is not 0 |
| SrcRunner.CmdOkNotOk | src/runner.rb:96-106 | the line reports ok iff the status equals the expected one; otherwise the stderr lines follow as a diagnostic |
| SrcRunner.Runner.constructor | src/runner.rb:4-7 | dry run off, counter 0, node `"local"`, remote plugin `"ssh"` |
| SrcRunner.Runner.SetDryRun | src/runner.rb:15-17 | only the dry-run flag changes |
| SrcRunner.Runner.SetNode | src/runner.rb:20-22 | only the node changes |
| SrcRunner.Runner.SetRemotePlugin | src/runner.rb:25-27 | only the remote plugin changes |
| SrcRunner.Runner.IncCounter | src/runner.rb:37-39 | the counter grows by exactly one, nothing else changes, and the new count is returned |
| SrcRunner.Runner.Execute | src/runner.rb:62-71 | the method returns the specified execution result |
| SrcRunner.Runner.PrintOkNotOk | src/runner.rb:77-86 | exactly the `OK_NOT_OK` lines are printed and nothing else changes |
| SrcRunner.Runner.PrintCmdOkNotOk | src/runner.rb:96-106 | exactly the `CMD_OK_NOT_OK` lines are printed and nothing else changes |
| SrcPlugins.TestExpectRet | src/plugins.rb:74-79 | `TEST cmd` expects 0; with two arguments the first is the expected code |
| SrcPlugins.TestCmd | src/plugins.rb:74-79 | the command is the only argument, or the second of two |
| SrcPlugins.ExpectLines | src/plugins.rb:95-108 | `EXPECT` reports ok iff the command exits 0 and the stripped stdout equals the expected value's string form |
| SrcPlugins.RaisedStops | src/plugins.rb:25 | once a statement of a block raises, the rest of the block does not run |
| SrcPlugins.DryRunCounts | src/plugins.rb:69-93 | in a dry run a block counts every `TEST`/`EXPECT` it reaches, nested blocks included, and prints nothing |
| SrcPlugins.DryRunCountsOp | src/plugins.rb:69-93 | in a dry run one statement counts its calls and prints nothing |
| SrcPlugins.DryRunTestSilent | src/plugins.rb:69-72 | a dry-run `TEST` only counts; it neither runs the command nor prints |
| SrcPlugins.DryRunExpectSilent | src/plugins.rb:90-93 | a dry-run `EXPECT` only counts; it neither runs the command nor prints |
| SrcPlugins.TestVerdict | src/plugins.rb:69-83 | a real `TEST` counts one and prints a line that is ok iff the status equals the expected code, with a diagnostic exactly when it is not |
| SrcPlugins.ExpectVerdict | src/plugins.rb:90-108 | a real `EXPECT` counts one and prints a line that is ok iff the command exits 0 with the expected stripped output |
| SrcPlugins.ExpectAsWrittenRaises | src/plugins.rb:97-98 | as written, a real `EXPECT` whose command fails raises; otherwise it acts as specified |
| SrcPlugins.ExpectAsWrittenExample | src/plugins.rb:97-98 | `EXPECT 42, "false"` raises as written, and prints a verdict as intended |
| SrcPlugins.NodeWithoutBlockPersists | src/plugins.rb:17-21 | `NODE n` sets the node for good |
| SrcPlugins.NodeBlockRestores | src/plugins.rb:23-27 | `NODE n do … end` runs the block on `n` and restores the previous node, whether the block returned or raised |
| SrcPlugins.NodeBlockNilPrevious | src/plugins.rb:27 | a nil previous node is not restored |
| SrcPlugins.RemotePluginWithoutBlockPersists | src/plugins.rb:45-49 | `REMOTE_PLUGIN p` sets the plugin for good |
| SrcPlugins.RemotePluginBlockRestores | src/plugins.rb:51-55 | `REMOTE_PLUGIN p do … end` restores the previous plugin, whether the block returned or raised |
| SrcPlugins.NestedNodeBlocks | src/plugins.rb:17-28 | nested `NODE` blocks unwind in reverse order |
| SrcPlugins.TestCall | src/plugins.rb:69-83 | the method performs the specified `TEST` on the runner |
| SrcPlugins.TestRun | src/plugins.rb:74-82 | past the dry-run check, `TEST` prints exactly the `CMD_OK_NOT_OK` lines for the command's status |
| SrcPlugins.ExpectCall | src/plugins.rb:90-109 | the method performs the specified `EXPECT` on the runner |
| SrcPlugins.ExpectRun | src/plugins.rb:95-108 | past the dry-run check, `EXPECT` prints exactly the verdict lines |
| SrcPlugins.NodeCall | src/plugins.rb:17-28 | the method performs the specified `NODE` |
| SrcPlugins.RemotePluginCall | src/plugins.rb:45-56 | the method performs the specified `REMOTE_PLUGIN` |
| SrcPlugins.Perform | src/plugins.rb:17-109 | any keyword call performs the specified step |
| SrcPlugins.RunBlock | src/plugins.rb:25 | a block's statements run in order and stop at the first raise |
| SrcBinnacle.ExitCode | src/binnacle.rb:13-20 | the exit codes are 0 to 7, and 0 only for a pass |
| SrcBinnacle.ExitCodesDistinct | src/binnacle.rb:13-20 | distinct reasons have distinct codes |
| SrcBinnacle.LastCount | src/binnacle.rb:36-41 | with no `:::` line the count is 0 |
| SrcBinnacle.LastCountStep | src/binnacle.rb:38-40 | each `:::` line overwrites the count, and other lines leave it |
| SrcBinnacle.TestsCountOf | src/binnacle.rb:27-48 | -2 with the child's stderr when the dry run fails, -1 with "Failed to find" for the `:::-1` sentinel, otherwise the count and no error |
| SrcBinnacle.TestsCount | src/binnacle.rb:27-48 | the loop computes the specified count |
| Text.ToIReadsSeparator | src/binnacle.rb:39 | `to_i` reads through a single `_` between digits |
| Text.ToIStopsAtDoubleSeparator | src/binnacle.rb:39 | `to_i` stops at a doubled `_` |
| Text.ToIStopsAtNul | src/binnacle.rb:39 | a leading NUL is not skipped as whitespace, so the text reads as 0 |
| SrcBinnacle.CountLineReadsBack | src/binnacle.rb:39 | the line `:::` followed by a signed number reads as that number |
| SrcBinnacle.OutLinesOfLine | src/binnacle.rb:37 | a single printed line reads back as that line |
| SrcBinnacle.DryRunCountRoundTrip | src/binnacle.rb:36-47 | the count a child prints as `:::N` is the count the parent reads |
| SrcBinnacle.MissingFileSentinel | src/binnacle.rb:43-45 | the `:::-1` a child prints for a missing file gives -1 and "Failed to find Test file" |
| SrcBinnacle.CountStarting | src/binnacle.rb:82-90 | the lines with a prefix are at most all lines |
| SrcBinnacle.FailedLines | src/binnacle.rb:86-88 | one failed test is recorded per `not ok` line |
| SrcBinnacle.RunResultOf | src/binnacle.rb:50-110 | no tests means `[0,0,0,[]]`; passes count `ok` lines, failures `not ok` lines with their stripped text; on success passed + failed + skipped is the total, otherwise skipped is 0 |
| SrcBinnacle.NotOkIsNotOk | src/binnacle.rb:82-86 | a `not ok` line is never counted as a pass |
| SrcBinnacle.CountedOnce | src/binnacle.rb:82-91 | no line is counted twice |
| SrcBinnacle.StatusLineClassified | src/binnacle.rb:82-91 | the parent classifies a status line printed by the runner by its verdict |
| SrcBinnacle.Run | src/binnacle.rb:50-110 | the loop computes the specified counters, and prints nothing when there are no tests |
| SrcBinnacle.ReadLinesConcat | src/binnacle.rb:127 | the lines `File.readlines` returns, line breaks kept, make up the text |
| SrcBinnacle.Chomp | src/binnacle.rb:127 | chomping removes at most a trailing line break |
| SrcBinnacle.DiscoveredAreTestFiles | src/binnacle.rb:112-138 | every discovered path is a `.t` file |
| SrcBinnacle.DiscoveredAllAreTestFiles | src/binnacle.rb:119-129 | the concatenated discoveries of a directory or playlist are `.t` files |
| SrcBinnacle.IgnoredEntry | src/binnacle.rb:133-134 | as written, the unchomped entry `a.t` plus its line break is neither a directory, a playlist nor a `.t` file, and yields nothing |
| SrcBinnacle.FoundEntry | src/binnacle.rb:130-132 | a `.t` path that is not a directory yields itself |
| SrcBinnacle.PlaylistLineBreak | src/binnacle.rb:127 | a playlist listing `a.t` yields nothing as written, and `a.t` with the line chomped |
| SrcBinnacle.PlaylistAsWrittenIgnores | src/binnacle.rb:127-134 | as written, the playlist line `a.t` plus its line break is ignored |
| SrcBinnacle.PlaylistChompedFound | src/binnacle.rb:127-132 | with the line break chomped, `a.t` is discovered |
| SrcBinnacle.CollectTestFiles | src/binnacle.rb:112-138 | the recursion collects exactly the specified discovery: sorted directory entries, playlist lines, `.t` files |
| SrcBinnacle.CollectFile | src/binnacle.rb:123-135 | a non-directory path is read as a playlist, a test file or neither |
| SrcBinnacle.CollectPlaylist | src/binnacle.rb:123-129 | a playlist yields the concatenated discoveries of its lines |
| SrcBinnacle.CollectEach | src/binnacle.rb:119-122 | the loop concatenates the discoveries of the entries, in order |
| SrcBinnacle.RaisedStopsDiscovery | src/binnacle.rb:120-129 | once one entry raises, the whole discovery raises |
| SrcBinnacle.Kept | src/binnacle.rb:217-227 | the files kept for running have non-negative counts |
| SrcBinnacle.IndexAsWrittenRaises | src/binnacle.rb:217-226 | the indexing loop as written raises exactly when some discovered file's count is negative, the branch that calls the missing `Metrics#file_ignore` |
| SrcBinnacle.CompleteAsWrittenRaisesFirst | src/binnacle.rb:236-245 | the execution loop as written raises at its first record, on the six-argument call of the three-parameter `file_completed` (line 241, src/metrics.rb:70), so no record completes |
| SrcBinnacle.RunAllAsWrittenCrashes | src/binnacle.rb:204-245 | as written, `run_all` raises once any file is discovered: while indexing iff some count is negative, otherwise at the first completion |
| SrcBinnacle.IndexFiles | src/binnacle.rb:216-227 | the indexing loop records exactly the files with non-negative counts, in order |
| SrcBinnacle.IndexOne | src/binnacle.rb:218-226 | a negative count yields its error and no record; otherwise the file is recorded with its count |
| SrcBinnacle.CompleteOne | src/binnacle.rb:237-241 | running one file adds its passes to the run's passes |
| SrcBinnacle.CompleteFiles | src/binnacle.rb:236-245 | the execution loop adds every recorded file's passes |
| SrcBinnacle.RunAll | src/binnacle.rb:204-277 | a discovery that raises crashes; nothing discovered exits 6; otherwise the exit is 0 iff the passes of the files with non-negative counts add up to their counts, else 1 |
| SrcMetrics.Indexed | src/metrics.rb:26-36 | a new record has the file, its count and index duration, 0 passed, 0 failed, not ok |
| SrcMetrics.Speed | src/metrics.rb:55 | tests per minute, rounded to the nearest integer |
| SrcMetrics.Completed | src/metrics.rb:71-78 | a completed record has `failed = total - passed`, `ok` iff `passed == total`, and a speed only when the duration is positive |
| SrcMetrics.Metrics.constructor | src/metrics.rb:8-18 | every counter is 0 and there are no records |
| SrcMetrics.Metrics.FileAdd | src/metrics.rb:20-40 | returns the old file count as the index, adds one file, the count and the index duration, and appends the new record, which `file` then finds |
| SrcMetrics.Metrics.File | src/metrics.rb:42-45 | `file(f)` is the record indexed for `f`, present iff `f` was added |
| SrcMetrics.Metrics.FileError | src/metrics.rb:47-50 | only the file's `error` changes |
| SrcMetrics.Metrics.SpeedTpm | src/metrics.rb:52-56 | 0 when the duration is 0, otherwise the rounded tests per minute |
| SrcMetrics.Metrics.Failed | src/metrics.rb:58-64 | `failed` is 0 iff `ok` |
| SrcMetrics.Metrics.FailedFiles | src/metrics.rb:66-68 | failed files plus passed files are all files |
| SrcMetrics.Metrics.FileCompleted | src/metrics.rb:70-85 | for an indexed file, its record is completed, its passes and duration are added to the run, and `passed_files` grows by one iff all its tests passed; for any other file nothing changes |
| Tap.VerdictWordLine | src/runner.rb:73-75 | a status line padded to six columns reports ok iff its verdict is ok |
| Tap.VerdictWords | src/binnacle.rb:82-86 | a line reporting ok starts with `ok` and not with `not ok`, and the other way round |
| Sorting.Sort | src/binnacle.rb:119 | the sorted directory entries are a permutation of the entries |
| Sorting.SortSorted | src/binnacle.rb:119 | the sorted directory entries are in ascending string order |
| PyTestParser.ReplacePipe | ref_python/testparser.py:7-12 | the result contains no `\|`, and a line without one is unchanged |
| PyTestParser.SequenceIncludeAsWritten | ref_python/testparser.py:15-28 | as written: raises only on a whitespace-only line; the number advances iff the first word is `TEST`; other lines come back unchanged |
| PyTestParser.SequenceInclude | ref_python/testparser.py:15-28 | the same contract for the corrected rewrite |
| PyTestParser.SequenceIncludeRewritesKeyword | ref_python/testparser.py:23-26 | the leading `TEST` becomes `TEST --seq=N`, and the number advances by one |
| PyTestParser.SequenceIncludeAsWrittenRewritesArgument | ref_python/testparser.py:25 | as written, a later `TEST` on the line is rewritten too |
| PyTestParser.SequenceIncludeKeepsArgument | ref_python/testparser.py:25 | corrected, only the keyword is numbered and the arguments are kept |
| PyTestParser.IncludeTestLine | ref_python/testparser.py:23-26 | a cleaned TEST line gets its number inserted after the keyword |
| PyTestParser.IncludeOtherLine | ref_python/testparser.py:20-28 | any other cleaned line comes back unchanged with the same number |
| PyTestParser.IsTestLine | ref_python/testparser.py:23-24 | a numbered line is at least as long as the keyword |
| PyTestParser.CleansToTestIff | ref_python/testparser.py:54-60 | a raw line is numbered iff, once stripped and pipe-replaced, its first word is `TEST` |
| PyTestParser.Emitted | ref_python/testparser.py:52-62 | one output line per input line, for the corrected numbering of the ref_python/testparser.py:25 finding |
| PyTestParser.IncludeClean | ref_python/testparser.py:54-60 | each stripped, pipe-replaced line is numbered exactly when it is a TEST line, for the corrected numbering of the ref_python/testparser.py:25 finding |
| PyTestParser.Parse | ref_python/testparser.py:31-64 | the script is the six header lines and one emitted line per input line, joined with line breaks; the loop threads the number as specified, for the corrected numbering of the ref_python/testparser.py:25 finding |
| PyTestParser.PipesReplaced | ref_python/testparser.py:57 | no emitted line contains `\|` |
| PyTestParser.NumbersIncrease | ref_python/testparser.py:50-60 | TEST lines are numbered 1, 2, 3, … in order: an earlier one has a smaller number, for the corrected numbering of the ref_python/testparser.py:25 finding |
| PyTestParser.ScriptLines | ref_python/testparser.py:37-64 | the script splits back into the header and the emitted lines, for the corrected numbering of the ref_python/testparser.py:25 finding |
| PyTestUtils.Groups | binnacle/testutils.py:59-74 | no arguments give no stage; otherwise one stage more than there are `--pipe` arguments, and no stage holds `--pipe` |
| PyTestUtils.CommandGroups | binnacle/testutils.py:59-74 | the loop builds the specified stages |
| PyTestUtils.GroupsJoin | binnacle/testutils.py:59-74 | joining the stages with `--pipe` gives back the arguments |
| PyTestUtils.GroupsFlatten | binnacle/testutils.py:63-72 | the stages concatenated are the arguments without the `--pipe` tokens, in order |
| PyTestUtils.Ok | binnacle/testutils.py:77-81 | `ok` prints one line that reports ok |
| PyTestUtils.NotOk | binnacle/testutils.py:84-90 | `notok` prints a line that reports not ok, then each error line prefixed `#    ` |
| PyTestUtils.TraceShape | binnacle/testutils.py:101-108 | stages run as a pipeline: each reads the previous one's output, and only a failure before the last stage ends it early; it raises only at a stage without a command |
| PyTestUtils.PipelineUnique | binnacle/testutils.py:101-108 | there is only one way to run a pipeline, so the trace is determined |
| PyTestUtils.HandleTest | binnacle/testutils.py:93-114 | `handle_TEST` prints the specified report |
| PyTestUtils.RunStages | binnacle/testutils.py:101-108 | the loop raises iff a stage has no command, and otherwise ends with the output of the last stage that ran |
| PyTestUtils.ReportVerdict | binnacle/testutils.py:110-114 | a verdict is printed iff there is a stage and none lacks a command, and it reports ok iff `--ret` equals the last return code |
| PyTestUtils.ReportErrors | binnacle/testutils.py:113-114 | a failing verdict is followed by the last stage's error lines as comments |

## Left out

- Spawning processes, pipes, `Open3`, `subprocess`, `Utils.execute` and `Utils.full_cmd`: a child is given as its events, its output lines and exit status, or a `spawn`/`exec` function parameter.
- lib/kadalu/binnacle/utils.rb is not part of this model, so these are left out:
  - `Utils.response` is a `respond` parameter of the current generation's wrapper;
  - the fields added by `task_and_line` and `node_or_container_label` are not stamped.
- Clocks: durations are given whole seconds, and `Time.now` is not modelled.
- Floats: the speed is integer tests-per-minute rounded half up. This is `Float#round` for the non-negative values it sees.
- `SrcBinnacle.RunAll`: its exit code assumes `summary` and `failed_tests_summary` are repaired as well. As written, both raise before `run_all` exits (src/binnacle.rb:177 and :195). When verbose is above 0 it also assumes `testfile_summary` (src/binnacle.rb:144-151, called at :244) and `verbose_summary` (src/binnacle.rb:157-166, called at :253) are repaired: both format a file's `:skipped` with `%d`, and the record `file_add` builds (src/metrics.rb:26-36) has no such key, so as written both raise `TypeError` on nil.
- `KadaluStore.RememberRestores`, `KadaluStore.Store.Remember`, `KadaluStore.ScopedSetRestores`: the model holds values, not Ruby object references. `remember` (lib/kadalu/binnacle/store.rb:98-105) and a block `set` (:29-32) save the stored object itself, and `hash_set`/`hash_remove` change a stored Hash in place (:45, :53, :64, :68). So with data `{h: {}}`, `remember [:h] { hash_set :h, :x, 1 }` leaves `h` as `{x: 1}` in Ruby, while the model restores `{}`. These contracts hold as stated only when the block changes no listed hash-valued key in place.
- `SrcMetrics.Speed`: its contract covers non-negative totals only, the only totals `run_all` records.
- Printing:
  - Each generation's human-readable formatting is not modelled: `testfile_summary`, `verbose_summary`, `summary`, `failed_tests_summary` and lib/binnacle/messages.rb. As written, `summary` raises at src/binnacle.rb:177 (it reads a `skipped` that `Metrics` lacks) and `failed_tests_summary` raises at src/binnacle.rb:195 (it calls `size` on a file's missing `:failed_tests`); with verbose above 0, `testfile_summary` (src/binnacle.rb:149) and `verbose_summary` (src/binnacle.rb:162) raise on formatting a file's missing `:skipped` with `%d`; see the src/binnacle.rb:223 finding.
  - The debug echo of command output is not modelled; the `Store.get(:debug)` read it makes is (`LegacyCommands.DebugReads`).
  - The `Executing` line is not modelled.
  - The comparison diagnostics are a flag, not text.
- JSON: `to_json` is the hash itself, `JSON.parse` is a parameter that returns a hash or nothing, and `Metrics#to_json` with the results file is not modelled.
- Hash `to_s`/`inspect`: the string form of a value is modelled for nil, booleans, integers and strings only.
- Command-line parsing: `Binnacle.args`, `parse_tester_args` (given as its parsed result, whose `--not` option no code reads) and argparse. The child-side entry point of src/binnacle.rb that loads the test file and prints `:::N` is not modelled; the `:::N` round trip is stated on the parent side.
- `parse_write` file I/O is left out, and the module directory of `parse` is a parameter.
- Python `str.split()`/`strip()` treat the ASCII whitespace characters as space; other Unicode whitespace is not modelled.
- Exceptions are one `Raised` outcome; their class is not distinguished.
- `SrcBinnacle.Discover`: nesting deeper than a `fuel` bound counts as raising. It stands for the interpreter's stack and for cycles through playlists.
- `SrcPlugins.Step`: `NODE` and `REMOTE_PLUGIN` call `set_node` and `set_remote_plugin`, but src/runner.rb defines `node=` and `remote_plugin=`. The model takes the calls as those setters.
- `LegacyCommands.ConfigCall`, `LegacyCommands.RunCall`, `LegacyCommands.TestCall`, `LegacyCommands.ExpectCall` and the other plugins of lib/binnacle/plugins/commands.rb are modelled as if registered. As written, loading the file raises at its first `default_config` (line 28), so only the two remote-plugin names are installed; `LegacyCommands.LoadAsWrittenStops` states this.
- `LegacyPlugins.HelperWrapped`: lib/binnacle/helpers.rb:6 reads `extent self`, which raises as the file loads. The model takes its functions as defined.
- The HTTP plugin (lib/kadalu/binnacle/plugins/http.rb), which is network I/O.
- `KadaluRunner.Start`: loading a task file in the child (`load`, `LoadError`) is not modelled.

## Findings

| source | as written | input that shows it | evidently intended | confidence | as-written member | corrected member |
|---|---|---|---|---|---|---|
| src/plugins.rb:98 | `EXPECT` reports a failing command through `expect_ret`, a name the method never defines, so it raises `NameError` | `EXPECT 42, "false"` outside a dry run; the command exits 1 | report not ok against the expected status 0 | high (not executed) | SrcPlugins.ExpectAsWrittenRaises | SrcPlugins.ExpectVerdict |
| src/binnacle.rb:127 | `File.readlines` keeps each line's line break, so the playlist line `a.t` plus its line break ends with neither `.t` nor `.tl` and is ignored | a playlist `list.tl` holding the line `a.t` | each listed path is looked up without its line break | high (not executed) | SrcBinnacle.PlaylistAsWrittenIgnores | SrcBinnacle.PlaylistChompedFound |
| src/binnacle.rb:223 | `run_all` calls `Metrics#file_ignore`, which does not exist, and at line 241 passes six arguments to the three-argument `file_completed`; after them, `summary` reads `metrics.skipped` (line 177), which `Metrics` lacks, and `failed_tests_summary` calls `size` on each file's nil `:failed_tests` (line 195); with verbose above 0, `testfile_summary` (line 244) and `verbose_summary` (line 253) format each file's nil `:skipped` with `%d` | any run that discovers at least one test file | skip files whose count is negative, complete each file with its passes and duration, and print every summary, the verbose ones included, from fields `Metrics` keeps, so that the run reaches its exit | high (not executed) | SrcBinnacle.RunAllAsWrittenCrashes | SrcBinnacle.RunAll |
| lib/binnacle/plugins/commands.rb:28 | `default_config` is called on the older `Binnacle` module, which does not define it, so requiring the file raises `NoMethodError` after installing only the two remote-plugin names | `require 'binnacle/plugins/commands'` (lib/binnacle.rb:5) | `remote_plugin` and `node_name` read `'local'` until set, and all twelve plugins are installed | high (not executed) | LegacyCommands.LoadAsWrittenStops | LegacyCommands.LoadInstallsAll |
| ref_python/testparser.py:25 | `str.replace` rewrites every occurrence of the keyword on the line, arguments included | the line `TEST echo TEST` | only the leading keyword is numbered | medium (not executed) | PyTestParser.SequenceIncludeAsWrittenRewritesArgument | PyTestParser.SequenceIncludeKeepsArgument |
