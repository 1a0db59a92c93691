/** The orchestrator of the oldest generation (src/binnacle.rb): exit codes, the
    dry-run count of a test file, the TAP-style classification of a child's output,
    test-file discovery over directories and playlists, and `run_all`. Children are
    given as their recorded results and the file system as a map from path to entry. */
module SrcBinnacle {
  import opened Values
  import opened Text
  import opened Sorting
  import SrcRunner
  import opened Tap
  import SrcMetrics

  // ---------------------------------------------------------------------
  // Exit codes

  datatype ExitReason = Pass | Fail | InvalidArgs | CountMismatch | DryRunFailed | FileNotFound | NoTests | FailedToExecute

  /** `EXIT_RESULT_PASS` … `EXIT_FAILED_TO_EXECUTE` */
  function ExitCode(reason: ExitReason): (code: nat)
    ensures code <= 7
    ensures code == 0 <==> reason == Pass
  {
    match reason
    case Pass => 0
    case Fail => 1
    case InvalidArgs => 2
    case CountMismatch => 3
    case DryRunFailed => 4
    case FileNotFound => 5
    case NoTests => 6
    case FailedToExecute => 7
  }

  /** Distinct reasons exit with distinct codes. */
  lemma ExitCodesDistinct(a: ExitReason, b: ExitReason)
    ensures ExitCode(a) == ExitCode(b) <==> a == b
  {
  }

  // ---------------------------------------------------------------------
  // `tests_count`

  /** What the dry-run child `ruby binnacle FILE --runner --dry-run` reported. */
  datatype DryRun = DryRun(success: bool, out: string, err: string)

  /** `line.split(":::")[-1].to_i`, where a missing last field reads as nil, whose `to_i` is 0. */
  function CountOfLine(line: string): int {
    var parts := RubySplit(line, ":::");
    if parts == [] then 0 else ToI(parts[|parts| - 1])
  }

  /** The count on the last line that starts with `:::`; 0 when there is none. */
  function LastCount(lines: seq<string>): (n: int)
    ensures (forall k :: 0 <= k < |lines| ==> !StartsWith(lines[k], ":::")) ==> n == 0
  {
    if lines == [] then 0
    else if StartsWith(lines[|lines| - 1], ":::") then CountOfLine(lines[|lines| - 1])
    else LastCount(lines[..|lines| - 1])
  }

  lemma LastCountStep(lines: seq<string>, i: nat)
    requires i < |lines|
    ensures LastCount(lines[..i + 1])
      == if StartsWith(lines[i], ":::") then CountOfLine(lines[i]) else LastCount(lines[..i])
  {
    assert lines[..i + 1][..i] == lines[..i];
  }

  /** `out.strip.split("\n")` */
  function OutLines(out: string): seq<string> {
    RubySplit(RubyStrip(out), "\n")
  }

  /** `tests_count(test_file)`: -2 with the child's stderr when the dry run failed, -1 when
      the child could not load the file, otherwise the reported count. */
  function TestsCountOf(testFile: string, child: DryRun): (r: (int, string))
    ensures !child.success ==> r == (-2, "Failed to parse Test file " + testFile + "\n" + child.err)
    ensures child.success && LastCount(OutLines(child.out)) == -1 ==> r == (-1, "Failed to find Test file " + testFile)
    ensures child.success && LastCount(OutLines(child.out)) != -1 ==> r == (LastCount(OutLines(child.out)), "")
  {
    if !child.success then (-2, "Failed to parse Test file " + testFile + "\n" + child.err)
    else
      var total := LastCount(OutLines(child.out));
      if total == -1 then (-1, "Failed to find Test file " + testFile) else (total, "")
  }

  /** The loop of `tests_count`: every `:::` line overwrites the count. */
  method TestsCount(testFile: string, child: DryRun) returns (count: int, err: string)
    ensures (count, err) == TestsCountOf(testFile, child)
  {
    if !child.success {
      return -2, "Failed to parse Test file " + testFile + "\n" + child.err;
    }
    var lines := OutLines(child.out);
    var total := 0;
    var i := 0;
    while i < |lines|
      invariant 0 <= i <= |lines|
      invariant total == LastCount(lines[..i])
    {
      LastCountStep(lines, i);
      if StartsWith(lines[i], ":::") {
        total := CountOfLine(lines[i]);
      }
      i := i + 1;
    }
    assert lines[..i] == lines;
    if total == -1 {
      return -1, "Failed to find Test file " + testFile;
    }
    count, err := total, "";
  }

  /** No `:::` inside a signed decimal number. */
  lemma NoSeparatorInNumber(d: string)
    requires d != [] && d[0] != ':'
    requires forall k :: 1 <= k < |d| ==> IsDigit(d[k])
    ensures IndexOf(d, ":::") == None
  {
    forall j | 0 <= j < |d| ensures !OccursAt(d, ":::", j) {
      if j + 3 <= |d| {
        assert d[j..j + 3][0] == d[j];
      }
    }
  }

  /** The line `:::` followed by a signed decimal number counts as that number. */
  lemma CountLineReadsBack(d: string)
    requires d != [] && d[0] != ':'
    requires forall k :: 1 <= k < |d| ==> IsDigit(d[k])
    ensures CountOfLine(":::" + d) == ToI(d)
  {
    var line := ":::" + d;
    assert line[..3] == ":::";
    IndexOfFirst(line, ":::", 0);
    assert line[3..] == d;
    NoSeparatorInNumber(d);
    assert Split(line, ":::") == ["", d];
  }

  /** A printed line and its line break read back as that one line. */
  lemma OutLinesOfLine(line: string)
    requires line != [] && !RubySpace(line[0]) && !RubySpace(line[|line| - 1]) && '\n' !in line
    ensures OutLines(line + "\n") == [line]
  {
    var out := line + "\n";
    assert out[0] == line[0];
    assert LStripBy(out, RubySpace) == out;
    assert out[..|out| - 1] == line;
    assert RStripBy(out, RubySpace) == line;
    SplitWithoutSeparator(line, '\n');
  }

  /** A dry-run child prints `:::N` for N counted tests; the parent reads N back. */
  lemma DryRunCountRoundTrip(testFile: string, n: nat)
    ensures TestsCountOf(testFile, DryRun(true, ":::" + NatToString(n) + "\n", "")) == (n, "")
  {
    var d := NatToString(n);
    var line := ":::" + d;
    assert line[|line| - 1] == d[|d| - 1];
    assert '\n' !in line by {
      forall k | 3 <= k < |line| ensures line[k] != '\n' {
        assert line[k] == d[k - 3];
      }
    }
    OutLinesOfLine(line);
    assert line[..3] == ":::";
    ToIOfNatToString(n);
    CountLineReadsBack(d);
    assert LastCount([line]) == n;
  }

  lemma SentinelLine()
    ensures OutLines(":::-1\n") == [":::-1"]
  {
    var line := ":::-1";
    assert line + "\n" == ":::-1\n";
    OutLinesOfLine(line);
  }

  lemma MinusOne()
    ensures ToI("-1") == -1
  {
    assert NatToString(1) == "1";
    ToIOfNegative(1);
    assert "-" + NatToString(1) == "-1";
  }

  lemma SentinelCount()
    ensures CountOfLine(":::-1") == -1
  {
    assert ":::" + "-1" == ":::-1";
    assert IsDigit("-1"[1]);
    CountLineReadsBack("-1");
    MinusOne();
  }

  /** The `:::-1` a child prints when it cannot load the file becomes -1 and a "Failed to find" message. */
  lemma MissingFileSentinel(testFile: string)
    ensures TestsCountOf(testFile, DryRun(true, ":::-1\n", "")) == (-1, "Failed to find Test file " + testFile)
  {
    SentinelLine();
    SentinelCount();
    SentinelLast();
  }

  lemma SentinelLast()
    ensures LastCount([":::-1"]) == CountOfLine(":::-1")
  {
    var line := ":::-1";
    assert line[..3] == ":::";
    assert StartsWith(line, ":::");
  }

  // ---------------------------------------------------------------------
  // `run`: classifying the child's output

  /** The merged stdout and stderr lines of `ruby binnacle FILE --runner -v…`, each with
      its line break, and whether the child exited successfully. */
  datatype ChildRun = ChildRun(lines: seq<string>, success: bool)

  datatype RunResult = RunResult(passed: nat, failed: nat, skipped: int, failedTests: seq<string>)

  function CountStarting(lines: seq<string>, prefix: string): (n: nat)
    ensures n <= |lines|
  {
    if lines == [] then 0
    else CountStarting(lines[..|lines| - 1], prefix) + (if StartsWith(lines[|lines| - 1], prefix) then 1 else 0)
  }

  /** The stripped `not ok` lines, in order. */
  function FailedLines(lines: seq<string>): (r: seq<string>)
    ensures |r| == CountStarting(lines, "not ok")
  {
    if lines == [] then []
    else FailedLines(lines[..|lines| - 1])
         + (if StartsWith(lines[|lines| - 1], "not ok") then [RubyStrip(lines[|lines| - 1])] else [])
  }

  /** The counters `run` returns for a file with `total` expected tests. */
  function RunResultOf(total: int, child: ChildRun): (r: RunResult)
    ensures total <= 0 ==> r == RunResult(0, 0, 0, [])
    ensures total > 0 ==> r.passed == CountStarting(child.lines, "ok") && r.failed == CountStarting(child.lines, "not ok")
    ensures total > 0 ==> r.failedTests == FailedLines(child.lines)
    ensures total > 0 && child.success ==> r.passed + r.failed + r.skipped == total
    ensures !child.success ==> r.skipped == 0
  {
    if total <= 0 then RunResult(0, 0, 0, [])
    else
      var passed := CountStarting(child.lines, "ok");
      var failed := CountStarting(child.lines, "not ok");
      RunResult(passed, failed, if child.success then total - (passed + failed) else 0, FailedLines(child.lines))
  }

  lemma NotOkIsNotOk(line: string)
    ensures StartsWith(line, "not ok") ==> !StartsWith(line, "ok")
  {
    if StartsWith(line, "not ok") {
      assert line[0] == 'n';
    }
  }

  /** Every line is counted at most once: as a pass, as a failure, or not at all. */
  lemma {:induction false} CountedOnce(lines: seq<string>)
    ensures CountStarting(lines, "ok") + CountStarting(lines, "not ok") <= |lines|
  {
    if lines != [] {
      CountedOnce(lines[..|lines| - 1]);
      NotOkIsNotOk(lines[|lines| - 1]);
    }
  }

  /** The status lines the runner prints are classified by their verdict: an ok result
      counts as a pass and a not-ok result as a failure. */
  lemma StatusLineClassified(ok: bool, testId: int, msg: string)
    ensures var line := SrcRunner.StatusLine(if ok then "ok" else "not ok", testId, msg) + "\n";
      (StartsWith(line, "ok") <==> ok) && (StartsWith(line, "not ok") <==> !ok)
  {
    var rest := SrcRunner.StatusFields(testId, msg) + "\n";
    var line := SrcRunner.StatusLine(if ok then "ok" else "not ok", testId, msg) + "\n";
    ConcatAssoc(PadRight(if ok then "ok" else "not ok", 6) + " ", SrcRunner.StatusFields(testId, msg), "\n");
    VerdictWordLine(ok, rest);
    VerdictWords(line);
  }

  /** `run(test_file, total_tests, opts)`: the counters, and the lines it prints on
      stdout (the summary lines, and in verbose mode the other output as diagnostics). */
  method Run(total: int, verbose: nat, child: ChildRun) returns (r: RunResult, shown: seq<string>)
    ensures r == RunResultOf(total, child)
    ensures total <= 0 ==> shown == []
  {
    if total <= 0 {
      return RunResult(0, 0, 0, []), [];
    }
    var passed: nat, failed: nat := 0, 0;
    var failedTests: seq<string> := [];
    var summary := "";
    shown := [];
    var i := 0;
    while i < |child.lines|
      invariant 0 <= i <= |child.lines|
      invariant passed == CountStarting(child.lines[..i], "ok")
      invariant failed == CountStarting(child.lines[..i], "not ok")
      invariant failedTests == FailedLines(child.lines[..i])
    {
      var line := child.lines[i];
      assert child.lines[..i + 1] == child.lines[..i] + [line];
      NotOkIsNotOk(line);
      if line == "===\n" {
        assert line[0] == '=';
        if summary != "" {
          shown := shown + [summary];
          summary := "";
        }
      } else if StartsWith(line, "ok") {
        summary := line;
        passed := passed + 1;
      } else if StartsWith(line, "not ok") {
        summary := line;
        failedTests := failedTests + [RubyStrip(line)];
        failed := failed + 1;
      } else if verbose > 0 {
        shown := shown + [if StartsWith(line, "#") then line else "# " + line];
      }
      i := i + 1;
    }
    assert child.lines[..i] == child.lines;
    if summary != "" {
      shown := shown + [summary];
    }
    var skipped := 0;
    if child.success {
      skipped := total - (passed + failed);
    }
    r := RunResult(passed, failed, skipped, failedTests);
  }

  // ---------------------------------------------------------------------
  // `test_files`

  /** A directory lists its entries (the paths the directory glob returns, unsorted); a
      regular file holds its text. */
  datatype Entry = Directory(children: seq<string>) | Regular(text: string)

  type FileSystem = map<string, Entry>

  /** `File.readlines`: the lines of a text, each keeping its line break. */
  function ReadLines(text: string): seq<string>
    decreases |text|
  {
    match IndexOf(text, "\n")
    case None => if text == [] then [] else [text]
    case Some(i) => [text[..i + 1]] + ReadLines(text[i + 1..])
  }

  /** The lines, line breaks included, put back together are the text. */
  lemma {:induction false} ReadLinesConcat(text: string)
    ensures Concat(ReadLines(text)) == text
    decreases |text|
  {
    match IndexOf(text, "\n")
    case None =>
    case Some(i) =>
      assert text == text[..i + 1] + text[i + 1..];
      ReadLinesConcat(text[i + 1..]);
      ConcatCons(text[..i + 1], ReadLines(text[i + 1..]));
  }

  lemma {:induction false} ConcatCons(x: string, rest: seq<string>)
    ensures Concat([x] + rest) == x + Concat(rest)
    decreases |rest|
  {
    if rest != [] {
      var front := rest[..|rest| - 1];
      assert ([x] + rest)[..|rest|] == [x] + front;
      ConcatCons(x, front);
    }
  }

  /** `String#chomp`: one trailing `\r\n`, `\n` or `\r` removed. */
  function Chomp(s: string): (r: string)
    ensures |r| <= |s| && r == s[..|r|]
    ensures '\n' !in s ==> '\n' !in r
  {
    if EndsWith(s, "\r\n") then s[..|s| - 2]
    else if EndsWith(s, "\n") || EndsWith(s, "\r") then s[..|s| - 1]
    else s
  }

  /** `test_files(test_file)` with the playlist lines taken as read (`chompLines` false,
      as src/binnacle.rb:127 does) or without their line breaks. None where Ruby raises:
      a playlist that cannot be read, or nesting deeper than `fuel`, which stands for the
      interpreter's stack. */
  function Discover(fs: FileSystem, path: string, fuel: nat, chompLines: bool): (r: Option<seq<string>>)
    decreases fuel, 0
  {
    if fuel == 0 then None
    else if path in fs && fs[path].Directory? then DiscoverAll(fs, Sort(fs[path].children), fuel - 1, chompLines)
    else if EndsWith(path, ".tl") then
      if path !in fs then None
      else
        var lines := ReadLines(fs[path].text);
        DiscoverAll(fs, if chompLines then ChompAll(lines) else lines, fuel - 1, chompLines)
    else if EndsWith(path, ".t") then Some([path])
    else Some([])
  }

  function ChompAll(lines: seq<string>): (r: seq<string>)
    ensures |r| == |lines| && forall k :: 0 <= k < |lines| ==> r[k] == Chomp(lines[k])
  {
    if lines == [] then [] else ChompAll(lines[..|lines| - 1]) + [Chomp(lines[|lines| - 1])]
  }

  /** The discoveries of several paths concatenated in order, stopping at the first raise. */
  function DiscoverAll(fs: FileSystem, paths: seq<string>, fuel: nat, chompLines: bool): (r: Option<seq<string>>)
    decreases fuel, 1, |paths|
  {
    if paths == [] then Some([])
    else
      match DiscoverAll(fs, paths[..|paths| - 1], fuel, chompLines)
      case None => None
      case Some(front) =>
        match Discover(fs, paths[|paths| - 1], fuel, chompLines)
        case None => None
        case Some(last) => Some(front + last)
  }

  /** Playlist lines as `File.readlines` returns them. */
  function TestFilesAsWritten(fs: FileSystem, path: string, fuel: nat): Option<seq<string>> {
    Discover(fs, path, fuel, false)
  }

  /** Playlist lines without their line breaks. */
  function TestFiles(fs: FileSystem, path: string, fuel: nat): Option<seq<string>> {
    Discover(fs, path, fuel, true)
  }

  predicate AllTestFiles(paths: seq<string>) {
    forall k :: 0 <= k < |paths| ==> EndsWith(paths[k], ".t")
  }

  /** Every discovered path names a `.t` file. */
  lemma {:induction false} DiscoveredAreTestFiles(fs: FileSystem, path: string, fuel: nat, chompLines: bool)
    ensures Discover(fs, path, fuel, chompLines).Some? ==> AllTestFiles(Discover(fs, path, fuel, chompLines).value)
    decreases fuel, 0
  {
    if fuel > 0 {
      if path in fs && fs[path].Directory? {
        DiscoveredAllAreTestFiles(fs, Sort(fs[path].children), fuel - 1, chompLines);
      } else if EndsWith(path, ".tl") && path in fs {
        var lines := ReadLines(fs[path].text);
        DiscoveredAllAreTestFiles(fs, if chompLines then ChompAll(lines) else lines, fuel - 1, chompLines);
      }
    }
  }

  lemma {:induction false} DiscoveredAllAreTestFiles(fs: FileSystem, paths: seq<string>, fuel: nat, chompLines: bool)
    ensures DiscoverAll(fs, paths, fuel, chompLines).Some? ==> AllTestFiles(DiscoverAll(fs, paths, fuel, chompLines).value)
    decreases fuel, 1, |paths|
  {
    if paths != [] {
      DiscoveredAllAreTestFiles(fs, paths[..|paths| - 1], fuel, chompLines);
      DiscoveredAreTestFiles(fs, paths[|paths| - 1], fuel, chompLines);
      var r := DiscoverAll(fs, paths, fuel, chompLines);
      if r.Some? {
        var front := DiscoverAll(fs, paths[..|paths| - 1], fuel, chompLines).value;
        var last := Discover(fs, paths[|paths| - 1], fuel, chompLines).value;
        assert r.value == front + last;
        forall k | 0 <= k < |r.value| ensures EndsWith(r.value[k], ".t") {
          if k < |front| {
            assert r.value[k] == front[k];
          } else {
            assert r.value[k] == last[k - |front|];
          }
        }
      }
    }
  }

  lemma ReadOneLine()
    ensures ReadLines("a.t\n") == ["a.t\n"]
  {
    var text := "a.t\n";
    assert OccursAt(text, "\n", 3);
    forall j | 0 <= j < 3 ensures !OccursAt(text, "\n", j) {
      assert text[j..j + 1][0] == text[j];
    }
    IndexOfFirst(text, "\n", 3);
    assert text[..4] == "a.t\n" && text[4..] == "";
  }

  lemma SingleDiscoverAll(fs: FileSystem, p: string, fuel: nat, chompLines: bool)
    ensures DiscoverAll(fs, [p], fuel, chompLines) == Discover(fs, p, fuel, chompLines)
  {
    assert [p][..0] == [];
    match Discover(fs, p, fuel, chompLines)
    case None =>
    case Some(found) => assert [] + found == found;
  }

  lemma IgnoredEntry(fs: FileSystem)
    requires "a.t\n" !in fs
    ensures Discover(fs, "a.t\n", 1, false) == Some([])
  {
    assert "a.t\n"[3] == '\n';
    assert !EndsWith("a.t\n", ".tl") && !EndsWith("a.t\n", ".t");
  }

  lemma FoundEntry(fs: FileSystem)
    requires "a.t" !in fs
    ensures Discover(fs, "a.t", 1, true) == Some(["a.t"])
  {
    assert "a.t"[1] == '.';
    assert EndsWith("a.t", ".t") && !EndsWith("a.t", ".tl");
  }

  /** A playlist names its test file on a line of its own: the code as written keeps the
      line break, so `a.t\n` ends with neither `.t` nor `.tl` and is ignored; without the
      line break the file is found. */
  lemma PlaylistLineBreak()
    ensures var fs := map["list.tl" := Regular("a.t\n")];
      TestFilesAsWritten(fs, "list.tl", 2) == Some([]) && TestFiles(fs, "list.tl", 2) == Some(["a.t"])
  {
    assert "list.tl"[4..] == ".tl";
    assert EndsWith("list.tl", ".tl");
    ReadOneLine();
    PlaylistAsWrittenIgnores();
    PlaylistChompedFound();
  }

  /** The code as written looks up `a.t\n`, which it ignores. */
  lemma PlaylistAsWrittenIgnores()
    requires EndsWith("list.tl", ".tl") && ReadLines("a.t\n") == ["a.t\n"]
    ensures TestFilesAsWritten(map["list.tl" := Regular("a.t\n")], "list.tl", 2) == Some([])
  {
    var fs := map["list.tl" := Regular("a.t\n")];
    IgnoredEntry(fs);
    SingleDiscoverAll(fs, "a.t\n", 1, false);
  }

  lemma ChompOneLine()
    ensures Chomp("a.t\n") == "a.t"
  {
    var line := "a.t\n";
    assert line[2] == 't';
    assert !EndsWith(line, "\r\n");
    assert EndsWith(line, "\n");
    assert line[..3] == "a.t";
  }

  /** With the line break chomped, `a.t` is found. */
  lemma PlaylistChompedFound()
    requires EndsWith("list.tl", ".tl") && ReadLines("a.t\n") == ["a.t\n"]
    ensures TestFiles(map["list.tl" := Regular("a.t\n")], "list.tl", 2) == Some(["a.t"])
  {
    var fs := map["list.tl" := Regular("a.t\n")];
    assert fs["list.tl"].text == "a.t\n";
    assert TestFiles(fs, "list.tl", 2) == DiscoverAll(fs, ChompAll(ReadLines("a.t\n")), 1, true);
    ChompOneLine();
    assert ChompAll(["a.t\n"]) == ["a.t"];
    FoundEntry(fs);
    SingleDiscoverAll(fs, "a.t", 1, true);
  }

  /** The recursion of `test_files`, collecting into `out_files`. */
  method CollectTestFiles(fs: FileSystem, path: string, fuel: nat) returns (outFiles: Option<seq<string>>)
    ensures outFiles == TestFiles(fs, path, fuel)
    decreases fuel, 2
  {
    if fuel == 0 {
      outFiles := None;
    } else if path in fs && fs[path].Directory? {
      var entries := Sort(fs[path].children);
      outFiles := CollectEach(fs, entries, fuel - 1);
    } else {
      outFiles := CollectFile(fs, path, fuel);
    }
  }

  /** `test_files` on a path that is not a directory: a playlist, a test file or neither. */
  method CollectFile(fs: FileSystem, path: string, fuel: nat) returns (outFiles: Option<seq<string>>)
    requires fuel > 0 && !(path in fs && fs[path].Directory?)
    ensures outFiles == TestFiles(fs, path, fuel)
    decreases fuel, 1
  {
    if EndsWith(path, ".tl") {
      if path !in fs {
        outFiles := None;
      } else {
        outFiles := CollectPlaylist(fs, path, fuel);
      }
    } else if EndsWith(path, ".t") {
      outFiles := Some([path]);
    } else {
      outFiles := Some([]);
    }
  }

  /** `File.readlines(test_file).each { |line| test_files(line.chomp) }` on a playlist. */
  method CollectPlaylist(fs: FileSystem, path: string, fuel: nat) returns (outFiles: Option<seq<string>>)
    requires fuel > 0 && path in fs && !fs[path].Directory? && EndsWith(path, ".tl")
    ensures outFiles == TestFiles(fs, path, fuel)
    decreases fuel, 0
  {
    var lines := ChompAll(ReadLines(fs[path].text));
    assert TestFiles(fs, path, fuel) == DiscoverAll(fs, lines, fuel - 1, true);
    outFiles := CollectEach(fs, lines, fuel - 1);
  }

  /** The loop of `test_files` over the entries of a directory or the lines of a playlist. */
  method CollectEach(fs: FileSystem, list: seq<string>, fuel: nat) returns (outFiles: Option<seq<string>>)
    ensures outFiles == DiscoverAll(fs, list, fuel, true)
    decreases fuel, 3
  {
    var out: seq<string> := [];
    var i := 0;
    while i < |list|
      invariant 0 <= i <= |list|
      invariant DiscoverAll(fs, list[..i], fuel, true) == Some(out)
    {
      assert list[..i + 1][..i] == list[..i];
      var found := CollectTestFiles(fs, list[i], fuel);
      if found.None? {
        RaisedStopsDiscovery(fs, list, i + 1, fuel);
        return None;
      }
      out := out + found.value;
      i := i + 1;
    }
    assert list[..i] == list;
    outFiles := Some(out);
  }

  /** Once one path raises, the whole discovery raises. */
  lemma {:induction false} RaisedStopsDiscovery(fs: FileSystem, paths: seq<string>, i: nat, fuel: nat)
    requires i <= |paths|
    requires DiscoverAll(fs, paths[..i], fuel, true).None?
    ensures DiscoverAll(fs, paths, fuel, true).None?
    decreases |paths| - i
  {
    if i < |paths| {
      var front := paths[..|paths| - 1];
      assert front[..i] == paths[..i];
      RaisedStopsDiscovery(fs, front, i, fuel);
    } else {
      assert paths[..i] == paths;
    }
  }

  // ---------------------------------------------------------------------
  // `run_all`

  /** How the orchestrator ends: with an exit code, or with an exception. */
  datatype Ending = Exited(code: nat) | Crashed

  /** The children of a run: the dry run and the real run of each file, and the whole
      seconds each took. */
  datatype Children = Children(dryRuns: string -> DryRun, runs: string -> ChildRun,
                               indexSeconds: string -> nat, runSeconds: string -> nat)

  /** The files `run_all` keeps, with their counts: those whose count is not negative. */
  function Kept(files: seq<string>, ch: Children): (r: seq<(string, int)>)
    ensures forall k :: 0 <= k < |r| ==> r[k].1 >= 0
  {
    if files == [] then []
    else
      var f := files[|files| - 1];
      var c := TestsCountOf(f, ch.dryRuns(f)).0;
      Kept(files[..|files| - 1], ch) + (if c < 0 then [] else [(f, c)])
  }

  function TotalOf(kept: seq<(string, int)>): int {
    if kept == [] then 0 else TotalOf(kept[..|kept| - 1]) + kept[|kept| - 1].1
  }

  /** The passes of each kept file's run. */
  function PassedOf(kept: seq<(string, int)>, ch: Children): int {
    if kept == [] then 0
    else
      var (f, c) := kept[|kept| - 1];
      PassedOf(kept[..|kept| - 1], ch) + RunResultOf(c, ch.runs(f)).passed
  }

  /** The indexing loop as written (src/binnacle.rb:217-226), given each file's count:
      `file_add` for each file with a non-negative count, and a raise at the first negative
      one, whose branch calls the missing `Metrics#file_ignore`. */
  function IndexAsWritten(files: seq<string>, count: string -> int): (r: Option<seq<(string, int)>>)
    ensures r.Some? ==> |r.value| == |files|
  {
    if files == [] then Some([])
    else
      var f := files[|files| - 1];
      match IndexAsWritten(files[..|files| - 1], count)
      case None => None
      case Some(indexed) => if count(f) < 0 then None else Some(indexed + [(f, count(f))])
  }

  /** Indexing as written raises exactly when some file's count is negative. */
  lemma {:induction false} IndexAsWrittenRaises(files: seq<string>, count: string -> int)
    ensures IndexAsWritten(files, count).None? <==> exists k :: 0 <= k < |files| && count(files[k]) < 0
  {
    if files != [] {
      var front := files[..|files| - 1];
      IndexAsWrittenRaises(front, count);
      if exists k :: 0 <= k < |front| && count(front[k]) < 0 {
        var k :| 0 <= k < |front| && count(front[k]) < 0;
        assert files[k] == front[k];
      }
      if exists k :: 0 <= k < |files| && count(files[k]) < 0 {
        var k :| 0 <= k < |files| && count(files[k]) < 0;
        if k < |front| {
          assert front[k] == files[k];
        }
      }
    }
  }

  /** The count each file's dry run reports. */
  function Counts(ch: Children): string -> int {
    f => TestsCountOf(f, ch.dryRuns(f)).0
  }

  /** A call of `Metrics#file_completed`, which declares three parameters: any other
      number of arguments raises `ArgumentError`. */
  function FileCompletedCall(arguments: nat): Outcome {
    if arguments == 3 then Returned(Nil) else Raised
  }

  /** The execution loop as written (src/binnacle.rb:236-245): each record's file is run
      and then `file_completed` is called with six arguments. The result is the number of
      records completed and whether the loop raised. */
  function CompleteAsWritten(indexed: seq<(string, int)>): (r: (nat, bool))
  {
    if indexed == [] then (0, false)
    else
      var (done, raised) := CompleteAsWritten(indexed[..|indexed| - 1]);
      if raised || FileCompletedCall(6).Raised? then (done, true) else (done + 1, false)
  }

  /** The execution loop as written raises at its first record, so no record is completed. */
  lemma {:induction false} CompleteAsWrittenRaisesFirst(indexed: seq<(string, int)>)
    ensures CompleteAsWritten(indexed) == (0, indexed != [])
  {
    if indexed != [] {
      CompleteAsWrittenRaisesFirst(indexed[..|indexed| - 1]);
    }
  }

  /** `run_all` as written: discovery, the indexing loop and the execution loop; past them
      the exit decision of src/binnacle.rb:276. */
  function RunAllAsWritten(fs: FileSystem, path: string, fuel: nat, ch: Children): (e: Ending) {
    match TestFilesAsWritten(fs, path, fuel)
    case None => Crashed
    case Some(tfiles) =>
      if tfiles == [] then Exited(ExitCode(NoTests))
      else match IndexAsWritten(tfiles, Counts(ch))
        case None => Crashed
        case Some(indexed) =>
          if CompleteAsWritten(indexed).1 then Crashed
          else Exited(if TotalOf(indexed) == PassedOf(indexed, ch) then ExitCode(Pass) else ExitCode(Fail))
  }

  /** As written, `run_all` never reaches its exit decision once any file is discovered:
      it raises while indexing exactly when some file's count is negative, and otherwise
      at the first record of the execution loop. */
  lemma RunAllAsWrittenCrashes(fs: FileSystem, path: string, fuel: nat, ch: Children)
    requires TestFilesAsWritten(fs, path, fuel).Some? && TestFilesAsWritten(fs, path, fuel).value != []
    ensures var tfiles := TestFilesAsWritten(fs, path, fuel).value;
      (IndexAsWritten(tfiles, Counts(ch)).None? <==>
         exists k :: 0 <= k < |tfiles| && TestsCountOf(tfiles[k], ch.dryRuns(tfiles[k])).0 < 0)
      && (IndexAsWritten(tfiles, Counts(ch)).Some? ==>
            CompleteAsWritten(IndexAsWritten(tfiles, Counts(ch)).value) == (0, true))
    ensures RunAllAsWritten(fs, path, fuel, ch) == Crashed
  {
    var tfiles := TestFilesAsWritten(fs, path, fuel).value;
    IndexAsWrittenRaises(tfiles, Counts(ch));
    if IndexAsWritten(tfiles, Counts(ch)).Some? {
      CompleteAsWrittenRaisesFirst(IndexAsWritten(tfiles, Counts(ch)).value);
    }
  }

  /** The file names and counts of the metrics records, in order. */
  function Pairs(files: seq<SrcMetrics.FileRecord>): (r: seq<(string, int)>)
    ensures |r| == |files| && forall k :: 0 <= k < |files| ==> r[k] == (files[k].file, files[k].total)
  {
    if files == [] then [] else Pairs(files[..|files| - 1]) + [(files[|files| - 1].file, files[|files| - 1].total)]
  }

  lemma {:induction false} SumTotalsOfPairs(files: seq<SrcMetrics.FileRecord>)
    ensures SrcMetrics.SumTotals(files) == TotalOf(Pairs(files))
  {
    if files != [] {
      SumTotalsOfPairs(files[..|files| - 1]);
      assert Pairs(files)[..|files| - 1] == Pairs(files[..|files| - 1]);
    }
  }

  lemma KeptStep(files: seq<string>, i: nat, ch: Children)
    requires i < |files|
    ensures var c := TestsCountOf(files[i], ch.dryRuns(files[i])).0;
      Kept(files[..i + 1], ch) == Kept(files[..i], ch) + (if c < 0 then [] else [(files[i], c)])
  {
    assert files[..i + 1][..i] == files[..i];
  }

  lemma PairsSnoc(files: seq<SrcMetrics.FileRecord>, r: SrcMetrics.FileRecord)
    ensures Pairs(files + [r]) == Pairs(files) + [(r.file, r.total)]
  {
    assert (files + [r])[..|files|] == files;
  }

  /** The indexing loop of `run_all`: a record for every file whose count is not
      negative, in discovery order. */
  method IndexFiles(metrics: SrcMetrics.Metrics, tfiles: seq<string>, ch: Children) returns (indexErrors: seq<string>)
    requires metrics.Valid() && metrics.files == []
    modifies metrics
    ensures metrics.Valid()
    ensures Pairs(metrics.files) == Kept(tfiles, ch)
    ensures metrics.passed == old(metrics.passed)
  {
    indexErrors := [];
    var i := 0;
    while i < |tfiles|
      invariant 0 <= i <= |tfiles|
      invariant metrics.Valid()
      invariant Pairs(metrics.files) == Kept(tfiles[..i], ch)
      invariant metrics.passed == old(metrics.passed)
    {
      KeptStep(tfiles, i, ch);
      var err := IndexOne(metrics, tfiles[i], ch);
      if err.Some? {
        indexErrors := indexErrors + [err.value];
      }
      i := i + 1;
    }
    assert tfiles[..i] == tfiles;
  }

  /** One step of the indexing loop: the file's count, recorded when it is not negative,
      or the error text to report. */
  method IndexOne(metrics: SrcMetrics.Metrics, f: string, ch: Children) returns (err: Option<string>)
    requires metrics.Valid()
    modifies metrics
    ensures metrics.Valid()
    ensures var c := TestsCountOf(f, ch.dryRuns(f));
      && (c.0 < 0 ==> err == Some(c.1) && metrics.files == old(metrics.files))
      && (c.0 >= 0 ==> err == None && Pairs(metrics.files) == Pairs(old(metrics.files)) + [(f, c.0)])
    ensures metrics.passed == old(metrics.passed)
  {
    var count, text := TestsCount(f, ch.dryRuns(f));
    if count < 0 {
      return Some(text);
    }
    ghost var before := metrics.files;
    var _ := metrics.FileAdd(f, count, ch.indexSeconds(f));
    PairsSnoc(before, metrics.files[|before|]);
    err := None;
  }

  /** One step of the execution loop: the record's file is run and completed. */
  method CompleteOne(metrics: SrcMetrics.Metrics, records: seq<SrcMetrics.FileRecord>, j: nat, verbose: nat, ch: Children)
    requires metrics.Valid() && j < |records| && |metrics.files| == |records|
    requires forall k :: 0 <= k < |records| ==> metrics.files[k].file == records[k].file
    modifies metrics
    ensures metrics.Valid() && |metrics.files| == |records|
    ensures forall k :: 0 <= k < |records| ==> metrics.files[k].file == records[k].file
    ensures metrics.total == old(metrics.total)
    ensures metrics.passed == old(metrics.passed) + RunResultOf(records[j].total, ch.runs(records[j].file)).passed
  {
    var f := records[j].file;
    assert metrics.files[j].file == f;
    var result, _ := Run(records[j].total, verbose, ch.runs(f));
    var done := metrics.FileCompleted(f, result.passed, ch.runSeconds(f));
    assert done;
  }

  lemma PassedOfSnoc(kept: seq<(string, int)>, j: nat, ch: Children)
    requires j < |kept|
    ensures PassedOf(kept[..j + 1], ch) == PassedOf(kept[..j], ch) + RunResultOf(kept[j].1, ch.runs(kept[j].0)).passed
  {
    assert kept[..j + 1][..j] == kept[..j];
  }

  /** The execution loop of `run_all`: every record's file is run and completed with its passes. */
  method CompleteFiles(metrics: SrcMetrics.Metrics, verbose: nat, ch: Children)
    requires metrics.Valid()
    modifies metrics
    ensures metrics.Valid()
    ensures metrics.total == old(metrics.total)
    ensures metrics.passed == old(metrics.passed) + PassedOf(Pairs(old(metrics.files)), ch)
  {
    var records := metrics.files;
    ghost var pairs := Pairs(records);
    var j := 0;
    while j < |records|
      invariant 0 <= j <= |records|
      invariant metrics.Valid()
      invariant metrics.total == old(metrics.total)
      invariant metrics.passed == old(metrics.passed) + PassedOf(pairs[..j], ch)
      invariant |metrics.files| == |records|
      invariant forall k :: 0 <= k < |records| ==> metrics.files[k].file == records[k].file
    {
      PassedOfSnoc(pairs, j, ch);
      assert pairs[j] == (records[j].file, records[j].total);
      CompleteOne(metrics, records, j, verbose, ch);
      j := j + 1;
    }
    assert pairs[..j] == pairs;
  }

  /** `run_all` with files whose count is negative skipped, and `file_completed` given
      the file, its passes and its duration: no tests exits 6; otherwise the run passes
      (exit 0) exactly when the passes of the kept files add up to their counts. */
  method RunAll(fs: FileSystem, path: string, fuel: nat, verbose: nat, ch: Children) returns (e: Ending)
    ensures TestFiles(fs, path, fuel).None? ==> e == Crashed
    ensures TestFiles(fs, path, fuel) == Some([]) ==> e == Exited(ExitCode(NoTests))
    ensures TestFiles(fs, path, fuel).Some? && TestFiles(fs, path, fuel) != Some([]) ==>
      var kept := Kept(TestFiles(fs, path, fuel).value, ch);
      e == Exited(if TotalOf(kept) == PassedOf(kept, ch) then ExitCode(Pass) else ExitCode(Fail))
  {
    var found := CollectTestFiles(fs, path, fuel);
    if found.None? {
      return Crashed;
    }
    var tfiles := found.value;
    if |tfiles| == 0 {
      return Exited(ExitCode(NoTests));
    }
    var metrics := new SrcMetrics.Metrics();
    var _ := IndexFiles(metrics, tfiles, ch);
    SumTotalsOfPairs(metrics.files);
    CompleteFiles(metrics, verbose, ch);
    e := Exited(if metrics.Ok() then ExitCode(Pass) else ExitCode(Fail));
  }
}
