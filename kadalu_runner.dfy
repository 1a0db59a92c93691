/** Running one task file in the current generation (lib/kadalu/binnacle.rb): the child's
    command line, the per-event decoding of its output into the file's metrics, and the
    store setup of the child runner. The child is given as its sequence of events and
    JSON decoding as a parameter that yields a hash or nothing. */
module KadaluRunner {
  import opened Values
  import opened Text
  import opened CommandEvents
  import KS = KadaluStore

  /** `JSON.parse(line, symbolize_names: true)`: a hash, or None for `JSON::ParserError`. */
  type Parse = string -> Option<map<Key, Value>>

  // ---------------------------------------------------------------------
  // The child's command line

  /** `((0...verbose).map { '-v' }).join(' ')` */
  function VerboseFlags(verbose: nat): string {
    JoinWith(Repeat("-v", verbose), " ")
  }

  /** `"#{$PROGRAM_NAME} #{task_file} --runner #{cmd_verbose_opts} #{wide_opts}"` */
  function ChildCommand(program: string, taskFile: string, verbose: nat, wide: bool): (r: string)
    ensures StartsWith(r, program + " " + taskFile + " --runner ")
    ensures EndsWith(r, if wide then " -w" else " ")
  {
    program + " " + taskFile + " --runner " + VerboseFlags(verbose) + " " + (if wide then "-w" else "")
  }

  /** The verbosity flags split back into exactly one `-v` per level. */
  lemma {:induction false} VerboseFlagsSplit(verbose: nat)
    requires verbose > 0
    ensures Split(VerboseFlags(verbose), " ") == Repeat("-v", verbose)
  {
    if verbose == 1 {
      assert VerboseFlags(1) == "-v";
      SplitWithoutSeparator("-v", ' ');
    } else {
      VerboseFlagsSplit(verbose - 1);
      assert Repeat("-v", verbose)[..verbose - 1] == Repeat("-v", verbose - 1);
      assert VerboseFlags(verbose) == VerboseFlags(verbose - 1) + " " + "-v";
      SplitSnoc(VerboseFlags(verbose - 1), ' ', "-v");
    }
  }

  // ---------------------------------------------------------------------
  // Decoding the child's events

  /** What `start` accumulates: the `metrics` hash (less file and duration), `error_msgs`,
      and the lines handed to `Messages.diagnostic`. */
  datatype Tally = Tally(ok: bool, passed: nat, failed: nat, tasks: seq<map<Key, Value>>, completed: bool,
                         errorMsgs: seq<string>, shown: seq<string>)

  const Fresh := Tally(true, 0, 0, [], true, [], [])

  /** A stdout line that starts with `{` and parses: recorded as a task, and `next` skips
      the rest of that event. */
  predicate IsTask(e: Event, parse: Parse) {
    e.stdout.Some? && StartsWith(e.stdout.value, "{") && parse(e.stdout.value).Some?
  }

  /** One callback of `Utils.execute`. */
  function Absorb(t: Tally, e: Event, verbose: nat, parse: Parse): Tally {
    if IsTask(e, parse) then
      var data := parse(e.stdout.value).value;
      if Truthy(At(data, "ok")) then t.(tasks := t.tasks + [data], passed := t.passed + 1)
      else t.(tasks := t.tasks + [data], failed := t.failed + 1)
    else
      var t1 := if e.stdout.Some? && verbose > 0 then t.(shown := t.shown + [e.stdout.value]) else t;
      var t2 := if e.stderr.Some? then
                  t1.(errorMsgs := t1.errorMsgs + [e.stderr.value],
                      shown := if verbose > 0 then t1.shown + [e.stderr.value] else t1.shown)
                else t1;
      if e.ret.Some? && e.ret.value != 0 then
        t2.(completed := false, ok := false, shown := if verbose == 0 then t2.shown + t2.errorMsgs else t2.shown)
      else t2
  }

  function Fold(events: seq<Event>, verbose: nat, parse: Parse): Tally {
    if events == [] then Fresh
    else Absorb(Fold(events[..|events| - 1], verbose, parse), events[|events| - 1], verbose, parse)
  }

  /** The decoded task records, in order. */
  function Tasks(events: seq<Event>, parse: Parse): seq<map<Key, Value>> {
    if events == [] then []
    else
      var e := events[|events| - 1];
      Tasks(events[..|events| - 1], parse) + (if IsTask(e, parse) then [parse(e.stdout.value).value] else [])
  }

  /** The number of task records whose `ok` is truthy. */
  function CountOk(tasks: seq<map<Key, Value>>): (n: nat)
    ensures n <= |tasks|
  {
    if tasks == [] then 0
    else CountOk(tasks[..|tasks| - 1]) + (if Truthy(At(tasks[|tasks| - 1], "ok")) then 1 else 0)
  }

  /** The stderr lines of the events that were not task records. */
  function ErrorLines(events: seq<Event>, parse: Parse): seq<string> {
    if events == [] then []
    else
      var e := events[|events| - 1];
      ErrorLines(events[..|events| - 1], parse) + (if !IsTask(e, parse) && e.stderr.Some? then [e.stderr.value] else [])
  }

  /** Some event that was not a task record carried a non-zero exit status. */
  predicate Crashed(events: seq<Event>, parse: Parse) {
    exists k :: 0 <= k < |events| && !IsTask(events[k], parse) && events[k].ret.Some? && events[k].ret.value != 0
  }

  /** Tasks are the parsed `{` lines in order; `passed` counts those with a truthy
      `ok` and `failed` the rest, so `passed + failed` is the number of tasks. */
  lemma {:induction false} FoldCounts(events: seq<Event>, verbose: nat, parse: Parse)
    ensures var t := Fold(events, verbose, parse);
      t.tasks == Tasks(events, parse) && t.passed == CountOk(t.tasks) && t.passed + t.failed == |t.tasks|
  {
    if events != [] {
      var front := events[..|events| - 1];
      var e := events[|events| - 1];
      FoldCounts(front, verbose, parse);
      var t0 := Fold(front, verbose, parse);
      AbsorbCounts(t0, e, verbose, parse);
      if IsTask(e, parse) {
        var data := parse(e.stdout.value).value;
        assert (t0.tasks + [data])[..|t0.tasks|] == t0.tasks;
      }
    }
  }

  /** One callback adds a task record exactly for a task line, counted as passed when
      its `ok` is truthy and as failed otherwise. */
  lemma AbsorbCounts(t: Tally, e: Event, verbose: nat, parse: Parse)
    ensures var t1 := Absorb(t, e, verbose, parse);
      && t1.tasks == t.tasks + (if IsTask(e, parse) then [parse(e.stdout.value).value] else [])
      && t1.passed == t.passed + (if IsTask(e, parse) && Truthy(At(parse(e.stdout.value).value, "ok")) then 1 else 0)
      && t1.passed + t1.failed == t.passed + t.failed + (if IsTask(e, parse) then 1 else 0)
  {
  }

  /** Every stderr line of an event that was not a task record is kept, in order. */
  lemma {:induction false} FoldErrors(events: seq<Event>, verbose: nat, parse: Parse)
    ensures Fold(events, verbose, parse).errorMsgs == ErrorLines(events, parse)
  {
    if events != [] {
      FoldErrors(events[..|events| - 1], verbose, parse);
    }
  }

  /** `completed` and `ok` hold exactly when no event other than a task record carried a
      non-zero exit status. */
  lemma {:induction false} FoldCompleted(events: seq<Event>, verbose: nat, parse: Parse)
    ensures var t := Fold(events, verbose, parse);
      (t.completed <==> !Crashed(events, parse)) && t.ok == t.completed
  {
    if events != [] {
      var front := events[..|events| - 1];
      FoldCompleted(front, verbose, parse);
      assert forall k :: 0 <= k < |front| ==> front[k] == events[k];
    }
  }

  /** A stdout line that is not a task record never changes the counters or the tasks. */
  lemma NonTaskLinesNotCounted(t: Tally, e: Event, verbose: nat, parse: Parse)
    requires !IsTask(e, parse)
    ensures var t1 := Absorb(t, e, verbose, parse);
      t1.passed == t.passed && t1.failed == t.failed && t1.tasks == t.tasks
  {
  }

  /** The metrics hash `start` returns. */
  datatype FileMetrics = FileMetrics(ok: bool, file: string, passed: nat, failed: nat,
                                     tasks: seq<map<Key, Value>>, durationSeconds: nat, completed: bool)

  /** `start(task_file, opts)`; `duration` stands for the wall-clock time it took. The
      second result holds the lines given to `Messages.diagnostic`. */
  method Start(taskFile: string, verbose: nat, events: seq<Event>, parse: Parse, duration: nat)
    returns (metrics: FileMetrics, shown: seq<string>)
    ensures var t := Fold(events, verbose, parse);
      metrics == FileMetrics(t.ok && t.failed == 0, taskFile, t.passed, t.failed, t.tasks, duration, t.completed)
      && shown == t.shown
  {
    var t := Fresh;
    var i := 0;
    while i < |events|
      invariant 0 <= i <= |events|
      invariant t == Fold(events[..i], verbose, parse)
    {
      assert events[..i + 1][..i] == events[..i];
      var e := events[i];
      if IsTask(e, parse) {
        var data := parse(e.stdout.value).value;
        if Truthy(At(data, "ok")) {
          t := t.(tasks := t.tasks + [data], passed := t.passed + 1);
        } else {
          t := t.(tasks := t.tasks + [data], failed := t.failed + 1);
        }
      } else {
        if e.stdout.Some? && verbose > 0 {
          t := t.(shown := t.shown + [e.stdout.value]);
        }
        if e.stderr.Some? {
          t := t.(errorMsgs := t.errorMsgs + [e.stderr.value]);
          if verbose > 0 {
            t := t.(shown := t.shown + [e.stderr.value]);
          }
        }
        if e.ret.Some? && e.ret.value != 0 {
          if verbose == 0 {
            t := t.(shown := t.shown + t.errorMsgs);
          }
          t := t.(completed := false, ok := false);
        }
      }
      i := i + 1;
    }
    assert events[..i] == events;
    var ok := t.ok;
    if t.failed > 0 {
      ok := false;
    }
    metrics := FileMetrics(ok, taskFile, t.passed, t.failed, t.tasks, duration, t.completed);
    shown := t.shown;
  }

  /** A file is ok exactly when the child finished without a non-zero status and no task failed. */
  lemma FinalOk(taskFile: string, events: seq<Event>, verbose: nat, parse: Parse, duration: nat)
    ensures var t := Fold(events, verbose, parse);
      var m := FileMetrics(t.ok && t.failed == 0, taskFile, t.passed, t.failed, t.tasks, duration, t.completed);
      (m.ok <==> !Crashed(events, parse) && CountOk(Tasks(events, parse)) == |Tasks(events, parse)|)
      && m.passed + m.failed == |m.tasks|
  {
    FoldCounts(events, verbose, parse);
    FoldCompleted(events, verbose, parse);
  }

  // ---------------------------------------------------------------------
  // The child side

  /** `runner(task_file, args)`: the debug flag is on exactly at verbosity 2, and `wide` is copied. */
  method RunnerSetup(store: KS.Store, verbose: nat, wide: bool)
    modifies store
    ensures store.data == old(store.data)["debug" := Bool(verbose == 2)]["wide" := Bool(wide)]
    ensures store.defaults == old(store.defaults)
  {
    var _ := store.Set("debug", Bool(verbose == 2), KS.NoBlock);
    var _ := store.Set("wide", Bool(wide), KS.NoBlock);
  }
}
