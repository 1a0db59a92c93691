/** The Python generation's translator from a test file to a bash script
    (ref_python/testparser.py): below a fixed preamble, every line of the test
    file is stripped, its pipe characters become `--pipe` arguments and every
    TEST line is given its sequence number, counting from one. */
module PyTestParser {
  import opened Values
  import opened Text
  import opened PyTestUtils

  /** `replace_pipe`: each `|` becomes a ` --pipe ` argument. */
  function ReplacePipe(text: string): (r: string)
    ensures '|' !in r
    ensures '|' !in text ==> r == text
  {
    ReplaceAllRemoves(text, '|', " --pipe ");
    ReplaceAllAbsent(text, '|', " --pipe ");
    ReplaceAll(text, "|", " --pipe ")
  }

  lemma IntToStringChars(i: int)
    ensures forall k :: 0 <= k < |IntToString(i)| ==>
      IntToString(i)[k] == '-' || '0' <= IntToString(i)[k] <= '9'
  {
  }

  /** `sequence_include` as written: `line.replace(startword, ...)` rewrites every
      occurrence of the keyword in the line, arguments included. None stands for the
      IndexError of a non-empty line holding only whitespace. */
  function SequenceIncludeAsWritten(line: string, number: int): (r: Option<(string, int)>)
    ensures r.None? <==> line != "" && forall k :: 0 <= k < |line| ==> PySpace(line[k])
    ensures r.Some? ==> (r.value.1 == number + 1 <==> PyFirstWord(line) == Some("TEST"))
    ensures r.Some? && r.value.1 != number + 1 ==> r.value == (line, number)
  {
    LStripByDropsSpace(line, PySpace);
    if line == "" then Some((line, number))
    else
      match PyFirstWord(line)
      case None => None
      case Some(w) =>
        if w in TestKeywords then Some((ReplaceAll(line, w, w + " --seq=" + IntToString(number)), number + 1))
        else Some((line, number))
  }

  /** `sequence_include` with the sequence number placed after the line's first word
      only, the rest of the line kept as it is. */
  function SequenceInclude(line: string, number: int): (r: Option<(string, int)>)
    ensures r.None? <==> line != "" && forall k :: 0 <= k < |line| ==> PySpace(line[k])
    ensures r.Some? ==> (r.value.1 == number + 1 <==> PyFirstWord(line) == Some("TEST"))
    ensures r.Some? && r.value.1 != number + 1 ==> r.value == (line, number)
  {
    LStripByDropsSpace(line, PySpace);
    if line == "" then Some((line, number))
    else
      match PyFirstWord(line)
      case None => None
      case Some(w) =>
        if w in TestKeywords then
          var lead := |line| - |LStripBy(line, PySpace)|;
          Some((line[..lead] + w + " --seq=" + IntToString(number) + line[lead + |w|..], number + 1))
        else Some((line, number))
  }

  /** Where a TEST line's keyword sits: after the leading whitespace, and followed
      by whitespace or the end of the line. */
  lemma KeywordAt(line: string)
    requires PyFirstWord(line) == Some("TEST")
    ensures var i := |line| - |LStripBy(line, PySpace)|;
      && i + 4 <= |line|
      && (forall k :: 0 <= k < i ==> PySpace(line[k]))
      && line[i..i + 4] == "TEST"
      && (i + 4 == |line| || PySpace(line[i + 4]))
  {
    LStripByDropsSpace(line, PySpace);
    var t := LStripBy(line, PySpace);
    var i := |line| - |t|;
    assert |t| >= 4 && t[..4] == "TEST" && (|t| == 4 || PySpace(t[4])) by {
      assert t[..WordEnd(t, 0)] == "TEST";
    }
    assert t == line[i..];
    assert line[i..i + 4] == t[..4];
    if i + 4 < |line| {
      assert line[i + 4] == t[4];
    }
  }

  lemma IncludeUnfold(line: string, number: int)
    requires PyFirstWord(line) == Some("TEST")
    ensures var i := |line| - |LStripBy(line, PySpace)|;
      && i + 4 <= |line|
      && SequenceInclude(line, number)
         == Some((line[..i] + "TEST" + " --seq=" + IntToString(number) + line[i + 4..], number + 1))
  {
    KeywordAt(line);
  }

  lemma KeywordOption(p: string, n: string, q: string)
    ensures p + "TEST" + " --seq=" + n + q == p + "TEST --seq=" + n + q
  {
    assert "TEST" + " --seq=" == "TEST --seq=";
    assert p + "TEST" + " --seq=" + n + q == p + ("TEST" + " --seq=") + n + q;
  }

  /** On a TEST line only that keyword is rewritten: what precedes and follows it is
      kept verbatim (`KeywordAt` says where it sits). */
  lemma SequenceIncludeRewritesKeyword(line: string, number: int)
    requires PyFirstWord(line) == Some("TEST")
    ensures var i := |line| - |LStripBy(line, PySpace)|;
      && i + 4 <= |line|
      && SequenceInclude(line, number)
         == Some((line[..i] + "TEST --seq=" + IntToString(number) + line[i + 4..], number + 1))
  {
    var i := |line| - |LStripBy(line, PySpace)|;
    IncludeUnfold(line, number);
    KeywordOption(line[..i], IntToString(number), line[i + 4..]);
  }

  /** A line that starts with the keyword followed by whitespace is a TEST line. */
  lemma KeywordFirst(mid: string, tail: string)
    requires mid != [] && PySpace(mid[0])
    ensures PyFirstWord("TEST" + mid + tail) == Some("TEST")
    ensures LStripBy("TEST" + mid + tail, PySpace) == "TEST" + mid + tail
  {
    var line := "TEST" + mid + tail;
    assert line[0] == 'T';
    assert forall k :: 0 <= k < 4 ==> line[k] == "TEST"[k];
    assert line[4] == mid[0];
    assert WordEnd(line, 0) == 4;
    assert line[..4] == "TEST";
  }

  lemma ReplaceKeywordTwice(mid: string, r: string)
    requires forall k :: 0 <= k < |mid| ==> mid[k] != 'T'
    ensures ReplaceAll("TEST" + mid + "TEST", "TEST", r) == r + mid + r
  {
    ReplaceAllMatch("TEST", mid + "TEST", r);
    ReplaceAllSkip(mid, "TEST", "TEST", r);
    ReplaceAllMatch("TEST", "", r);
    assert "TEST" + "" == "TEST";
    assert "TEST" + mid + "TEST" == "TEST" + (mid + "TEST");
    assert r + (mid + r) == r + mid + r;
  }

  /** The code as written also rewrites a later argument that is the keyword itself
      (as in `TEST echo TEST`, with `mid` the text ` echo `). */
  lemma SequenceIncludeAsWrittenRewritesArgument(mid: string, number: int)
    requires mid != [] && PySpace(mid[0])
    requires forall k :: 0 <= k < |mid| ==> mid[k] != 'T'
    ensures var r := "TEST --seq=" + IntToString(number);
      SequenceIncludeAsWritten("TEST" + mid + "TEST", number) == Some((r + mid + r, number + 1))
  {
    var line := "TEST" + mid + "TEST";
    var r := "TEST --seq=" + IntToString(number);
    KeywordFirst(mid, "TEST");
    assert "TEST" + " --seq=" + IntToString(number) == r;
    assert SequenceIncludeAsWritten(line, number) == Some((ReplaceAll(line, "TEST", r), number + 1));
    ReplaceKeywordTwice(mid, r);
  }

  /** The corrected definition numbers the leading keyword only. */
  lemma SequenceIncludeKeepsArgument(mid: string, number: int)
    requires mid != [] && PySpace(mid[0])
    ensures var r := "TEST --seq=" + IntToString(number);
      SequenceInclude("TEST" + mid + "TEST", number) == Some((r + mid + "TEST", number + 1))
  {
    var line := "TEST" + mid + "TEST";
    KeywordFirst(mid, "TEST");
    assert line[..4] == "TEST" && line[4..] == mid + "TEST";
    IncludeTestLine(line, number);
    var r := "TEST --seq=" + IntToString(number);
    assert r + line[4..] == r + mid + "TEST";
  }

  /** `sequence_include` on a TEST line that starts with its keyword puts the number
      right after it. */
  lemma IncludeTestLine(c: string, number: int)
    requires IsTestLine(c) && c[..4] == "TEST" && LStripBy(c, PySpace) == c
    ensures SequenceInclude(c, number) == Some(("TEST --seq=" + IntToString(number) + c[4..], number + 1))
  {
    var t := "TEST --seq=" + IntToString(number) + c[4..];
    assert c[..0] + "TEST --seq=" + IntToString(number) + c[0 + 4..] == t by {
      assert c[..0] == [];
    }
    assert |c| - |LStripBy(c, PySpace)| == 0;
    SequenceIncludeRewritesKeyword(c, number);
  }

  /** `sequence_include` leaves any other line that has a word, or is empty, as it is. */
  lemma IncludeOtherLine(c: string, number: int)
    requires c != "" ==> PyFirstWord(c).Some?
    requires !IsTestLine(c)
    ensures SequenceInclude(c, number) == Some((c, number))
  {
    if c != "" {
      var w := PyFirstWord(c).value;
      assert w !in TestKeywords;
    }
  }

  // ---------------------------------------------------------------------
  // parse

  /** The bash preamble every generated script starts with. */
  function Header(moduleDir: string): seq<string> {
    ["#!/bin/bash", "", "source " + moduleDir + "/binnacle_utils.rc", "", "testplan", ""]
  }

  /** A test-file line stripped and with its pipes replaced. */
  function Clean(line: string): string {
    ReplacePipe(PyStrip(line))
  }

  /** A line whose first word is a test keyword. */
  predicate IsTestLine(c: string)
    ensures IsTestLine(c) ==> |c| >= 4
  {
    PyFirstWord(c) == Some("TEST")
  }

  /** Stripped text that is a TEST line once its pipes are replaced: the keyword,
      then the end, whitespace or a pipe. */
  predicate StartsWithKeyword(s: string) {
    |s| >= 4 && s[..4] == "TEST" && (|s| == 4 || PySpace(s[4]) || s[4] == '|')
  }

  /** A test-file line that is a TEST line once cleaned (`CleansToTestIff`). */
  predicate CleansToTest(line: string) {
    StartsWithKeyword(PyStrip(line))
  }

  /** How many of the first `k` lines satisfy `p`. */
  function CountWhere(p: string -> bool, lines: seq<string>, k: nat): (n: nat)
    requires k <= |lines|
    ensures n <= k
  {
    if k == 0 then 0
    else CountWhere(p, lines, k - 1) + (if p(lines[k - 1]) then 1 else 0)
  }

  lemma {:induction false} CountWhereGrows(p: string -> bool, lines: seq<string>, j: nat, k: nat)
    requires j <= k <= |lines|
    ensures CountWhere(p, lines, j) <= CountWhere(p, lines, k)
    decreases k - j
  {
    if j < k {
      CountWhereGrows(p, lines, j, k - 1);
    }
  }

  /** A line that satisfies `p` counts for every later position. */
  lemma CountWhereCounts(p: string -> bool, lines: seq<string>, j: nat, k: nat)
    requires j < k <= |lines| && p(lines[j])
    ensures CountWhere(p, lines, j) < CountWhere(p, lines, k)
  {
    CountWhereGrows(p, lines, j + 1, k);
  }

  /** How many of the first `k` lines are TEST lines once cleaned. */
  function TestLinesBefore(lines: seq<string>, k: nat): (n: nat)
    requires k <= |lines|
    ensures n <= k
  {
    CountWhere(CleansToTest, lines, k)
  }

  /** A stripped line that is not empty starts with a non-space character. */
  lemma StrippedStart(line: string)
    ensures PyStrip(line) != [] ==> !PySpace(PyStrip(line)[0])
  {
    var u := LStripBy(line, PySpace);
    var s := PyStrip(line);
    assert s == u[..|s|];
  }

  /** A stripped line that starts with a pipe has `--pipe` as its first word. */
  lemma PipeFirst(s: string)
    requires s != [] && s[0] == '|'
    ensures PyFirstWord(ReplacePipe(s)).Some? && !IsTestLine(ReplacePipe(s))
  {
    var c := ReplacePipe(s);
    assert s[..1] == "|";
    assert c == " --pipe " + ReplaceAll(s[1..], "|", " --pipe ");
    var t := c[1..];
    assert LStripBy(c, PySpace) == t;
    assert t[0] == '-' && !PySpace(t[0]);
    assert PyFirstWord(c) == Some(t[..WordEnd(t, 0)]);
    assert PyFirstWord(c).value[0] == '-';
  }

  /** Any other stripped line keeps its first character in front. */
  lemma OtherFirst(s: string)
    requires s != [] && s[0] != '|' && !PySpace(s[0])
    ensures var c := ReplacePipe(s);
      c != [] && LStripBy(c, PySpace) == c
  {
    var c := ReplacePipe(s);
    assert s[..1] != "|";
    assert c == [s[0]] + ReplaceAll(s[1..], "|", " --pipe ");
  }

  /** A cleaned line is never blank without being empty. */
  lemma CleanShape(line: string)
    ensures Clean(line) != "" ==> PyFirstWord(Clean(line)).Some?
  {
    var s := PyStrip(line);
    StrippedStart(line);
    if s == [] {
      assert Clean(line) == [];
    } else if s[0] == '|' {
      PipeFirst(s);
    } else {
      OtherFirst(s);
    }
  }

  /** Text that starts with no space is a TEST line exactly when it starts with the
      keyword followed by the end or whitespace. */
  lemma FirstWordTest(c: string)
    requires c == [] || !PySpace(c[0])
    ensures IsTestLine(c) <==> |c| >= 4 && c[..4] == "TEST" && (|c| == 4 || PySpace(c[4]))
  {
    assert LStripBy(c, PySpace) == c;
    if c != [] {
      var w := WordEnd(c, 0);
      if |c| >= 4 && c[..4] == "TEST" && (|c| == 4 || PySpace(c[4])) {
        assert forall k :: 0 <= k < 4 ==> c[k] == "TEST"[k];
        assert w == 4;
      }
    }
  }

  /** Replacing pipes copies the text up to the first pipe and turns that pipe into a space-led argument. */
  lemma PipeAt(s: string, j: nat)
    requires j < |s| && s[j] == '|'
    requires forall k :: 0 <= k < j ==> s[k] != '|'
    ensures |ReplacePipe(s)| > j && ReplacePipe(s)[j] == ' '
  {
    ReplaceAllSkip(s[..j], s[j..], "|", " --pipe ");
    assert s[..j] + s[j..] == s;
    ReplaceAllMatch("|", s[j + 1..], " --pipe ");
    assert s[j..] == "|" + s[j + 1..];
  }

  /** Replacing pipes keeps a leading keyword, and its follower is whitespace afterwards
      exactly when it was whitespace or a pipe before. */
  lemma KeywordThroughPipes(s: string)
    ensures var c := ReplacePipe(s);
      StartsWithKeyword(s) <==> |c| >= 4 && c[..4] == "TEST" && (|c| == 4 || PySpace(c[4]))
  {
    var c := ReplacePipe(s);
    var j: nat := if |s| > 0 && s[0] == '|' then 0
      else if |s| > 1 && s[1] == '|' then 1
      else if |s| > 2 && s[2] == '|' then 2
      else if |s| > 3 && s[3] == '|' then 3
      else 4;
    if j < 4 {
      PipeAt(s, j);
      if |c| >= 4 {
        assert c[..4][j] == ' ';
      }
    } else if |s| < 4 {
      ReplaceAllAbsent(s, '|', " --pipe ");
    } else {
      ReplaceAllSkip(s[..4], s[4..], "|", " --pipe ");
      assert s[..4] + s[4..] == s;
      var r := ReplacePipe(s[4..]);
      assert c == s[..4] + r;
      if |s| > 4 {
        if s[4] == '|' {
          ReplaceAllMatch("|", s[5..], " --pipe ");
          assert s[4..] == "|" + s[5..];
        } else {
          ReplaceAllSkip([s[4]], s[5..], "|", " --pipe ");
          assert s[4..] == [s[4]] + s[5..];
        }
        assert c[4] == r[0];
      }
    }
  }

  /** `CleansToTest` says what the keyword check sees on the cleaned line. */
  lemma CleansToTestIff(line: string)
    ensures CleansToTest(line) <==> IsTestLine(Clean(line))
  {
    var s := PyStrip(line);
    StrippedStart(line);
    if s != [] && s[0] == '|' {
      PipeFirst(s);
    } else {
      if s != [] {
        OtherFirst(s);
      }
      FirstWordTest(Clean(line));
      KeywordThroughPipes(s);
    }
  }

  /** The script line for a test-file line: the cleaned line, and on a TEST line the
      number right after the keyword. */
  function Numbered(line: string, n: int): string {
    if CleansToTest(line) then "TEST --seq=" + IntToString(n) + ReplacePipe(PyStrip(line)[4..])
    else Clean(line)
  }

  /** The lines `number` makes of the test-file lines: each line with the number one
      more than the TEST lines before it. */
  function NumberLines(number: (string, int) -> string, lines: seq<string>): (r: seq<string>)
    ensures |r| == |lines|
  {
    seq(|lines|, k => NumberAt(number, lines, k))
  }

  function NumberAt(number: (string, int) -> string, lines: seq<string>, k: int): string {
    if 0 <= k < |lines| then number(lines[k], 1 + TestLinesBefore(lines, k)) else ""
  }

  lemma NumberLinesAt(number: (string, int) -> string, lines: seq<string>, k: nat)
    requires k < |lines|
    ensures NumberLines(number, lines)[k] == number(lines[k], 1 + TestLinesBefore(lines, k))
  {
  }

  /** The script lines generated for the test-file lines: each line cleaned, and a
      TEST line numbered one more than the TEST lines before it. */
  function Emitted(lines: seq<string>): (r: seq<string>)
    ensures |r| == |lines|
  {
    NumberLines(Numbered, lines)
  }

  /** `sequence_include` on a cleaned line never raises, numbers it as `Numbered` and
      counts it when it is a TEST line. */
  lemma IncludeClean(line: string, number: int)
    ensures SequenceInclude(Clean(line), number)
      == Some((Numbered(line, number), if CleansToTest(line) then number + 1 else number))
  {
    CleansToTestIff(line);
    var c := Clean(line);
    if CleansToTest(line) {
      var s := PyStrip(line);
      assert forall k :: 0 <= k < 4 ==> s[..4][k] != '|';
      ReplaceAllSkip(s[..4], s[4..], "|", " --pipe ");
      assert s[..4] + s[4..] == s;
      assert c == "TEST" + ReplacePipe(s[4..]);
      StrippedStart(line);
      OtherFirst(s);
      IncludeTestLine(c, number);
      assert c[4..] == ReplacePipe(s[4..]);
    } else {
      CleanShape(line);
      IncludeOtherLine(c, number);
    }
  }

  /** The count of TEST lines moves by one exactly at a TEST line. */
  lemma CountStep(lines: seq<string>, k: nat)
    requires k < |lines|
    ensures TestLinesBefore(lines, k + 1) == TestLinesBefore(lines, k) + (if CleansToTest(lines[k]) then 1 else 0)
  {
  }

  /** One turn of `parse`'s loop: the `i`-th line is emitted and the count moves on. */
  lemma ParseStep(lines: seq<string>, i: nat, number: int)
    requires i < |lines| && number == 1 + TestLinesBefore(lines, i)
    ensures SequenceInclude(Clean(lines[i]), number) == Some((Emitted(lines)[i], 1 + TestLinesBefore(lines, i + 1)))
  {
    var next := if CleansToTest(lines[i]) then number + 1 else number;
    assert 1 + TestLinesBefore(lines, i + 1) == next by {
      CountStep(lines, i);
    }
    assert Emitted(lines)[i] == Numbered(lines[i], number) by {
      NumberLinesAt(Numbered, lines, i);
    }
    IncludeClean(lines[i], number);
  }

  lemma AppendNext(h: seq<string>, e: seq<string>, i: nat)
    requires i < |e|
    ensures h + e[..i + 1] == (h + e[..i]) + [e[i]]
  {
    assert e[..i + 1] == e[..i] + [e[i]];
  }

  /** `parse`: the preamble and one generated line per line of the content, joined
      with line breaks. The module directory is a parameter. */
  method Parse(content: string, moduleDir: string) returns (script: string)
    ensures script == JoinWith(Header(moduleDir) + Emitted(Split(content, "\n")), "\n")
  {
    var lines := Split(content, "\n");
    var outlines := Header(moduleDir);
    var number := 1;
    var i := 0;
    while i < |lines|
      invariant 0 <= i <= |lines|
      invariant number == 1 + TestLinesBefore(lines, i)
      invariant outlines == Header(moduleDir) + Emitted(lines)[..i]
    {
      var line := PyStrip(lines[i]);
      line := ReplacePipe(line);
      ParseStep(lines, i, number);
      AppendNext(Header(moduleDir), Emitted(lines), i);
      var numbered := SequenceInclude(line, number);
      outlines := outlines + [numbered.value.0];
      number := numbered.value.1;
      i := i + 1;
    }
    assert Emitted(lines)[..i] == Emitted(lines);
    script := JoinWith(outlines, "\n");
  }

  /** Numbering a line leaves no pipe character in it. */
  lemma NumberedHasNoPipe(line: string, n: int)
    ensures '|' !in Numbered(line, n)
  {
    if CleansToTest(line) {
      IntToStringChars(n);
      var d := IntToString(n);
      var r := ReplacePipe(PyStrip(line)[4..]);
      assert '|' !in d;
      assert '|' !in "TEST --seq=";
      assert '|' !in "TEST --seq=" + d;
    }
  }

  /** No generated line holds a pipe character. */
  lemma PipesReplaced(lines: seq<string>, k: nat)
    requires k < |lines|
    ensures '|' !in Emitted(lines)[k]
  {
    NumberLinesAt(Numbered, lines, k);
    NumberedHasNoPipe(lines[k], 1 + TestLinesBefore(lines, k));
  }

  /** TEST lines are numbered in order: a later TEST line has a larger number, and
      each TEST line counts itself for the lines after it. */
  lemma NumbersIncrease(lines: seq<string>, j: nat, k: nat)
    requires j < k < |lines|
    requires CleansToTest(lines[j])
    ensures TestLinesBefore(lines, j) < TestLinesBefore(lines, k)
  {
    CountWhereCounts(CleansToTest, lines, j, k);
  }

  /** Numbering a line brings in no line break. */
  lemma NumberedSingleLine(line: string, n: int)
    requires '\n' !in line
    ensures '\n' !in Numbered(line, n)
  {
    var s := PyStrip(line);
    assert '\n' !in s by {
      var u := LStripBy(line, PySpace);
      assert s == u[..|s|];
      assert u == line[|line| - |u|..];
    }
    if CleansToTest(line) {
      assert '\n' !in Numbered(line, n) by {
        assert '\n' !in ReplacePipe(s[4..]) by {
          assert '\n' !in s[4..];
          ReplaceAllKeepsOut(s[4..], "|", " --pipe ", '\n');
        }
        assert '\n' !in IntToString(n) by {
          IntToStringChars(n);
        }
        assert Numbered(line, n) == "TEST --seq=" + IntToString(n) + ReplacePipe(s[4..]);
      }
    } else {
      assert '\n' !in Numbered(line, n) by {
        assert Numbered(line, n) == Clean(line);
        ReplaceAllKeepsOut(s, "|", " --pipe ", '\n');
      }
    }
  }

  /** A generated line holds no line break when its test-file line has none. */
  lemma EmittedSingleLine(lines: seq<string>, k: nat)
    requires k < |lines|
    requires '\n' !in lines[k]
    ensures '\n' !in Emitted(lines)[k]
  {
    NumberLinesAt(Numbered, lines, k);
    NumberedSingleLine(lines[k], 1 + TestLinesBefore(lines, k));
  }

  /** The generated script splits back into exactly the preamble and one line per
      line of the content. */
  lemma ScriptLines(content: string, moduleDir: string)
    requires '\n' !in moduleDir
    ensures var lines := Split(content, "\n");
      Split(JoinWith(Header(moduleDir) + Emitted(lines), "\n"), "\n") == Header(moduleDir) + Emitted(lines)
  {
    var lines := Split(content, "\n");
    SplitFieldsLackSeparator(content, '\n');
    var all := Header(moduleDir) + Emitted(lines);
    forall k | 0 <= k < |all| ensures '\n' !in all[k] {
      if k >= 6 {
        EmittedSingleLine(lines, k - 6);
      }
    }
    SplitJoin(all, '\n');
  }
}
