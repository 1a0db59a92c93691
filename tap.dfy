/** The verdict words of a Test Anything Protocol status line, shared by every
    generation's reporter. */
module Tap {
  import opened Text

  /** The verdict word a status line starts with. */
  predicate ReportsOk(line: string) {
    StartsWith(line, "ok ")
  }

  predicate ReportsNotOk(line: string) {
    StartsWith(line, "not ok ")
  }

  lemma OkLine(rest: string)
    ensures ReportsOk("ok     " + rest) && !ReportsNotOk("ok     " + rest)
  {
    var line := "ok     " + rest;
    assert line[..3] == "ok ";
    assert line[0] == 'o';
  }

  lemma NotOkLine(rest: string)
    ensures ReportsNotOk("not ok " + rest) && !ReportsOk("not ok " + rest)
  {
    var line := "not ok " + rest;
    assert line[..7] == "not ok ";
    assert line[0] == 'n';
  }

  /** A status line made of the verdict word padded to six characters, a space and the
      rest of the line reports exactly that verdict. */
  lemma VerdictWordLine(ok: bool, rest: string)
    ensures var line := PadRight(if ok then "ok" else "not ok", 6) + " " + rest;
      (ReportsOk(line) <==> ok) && (ReportsNotOk(line) <==> !ok)
  {
    assert Spaces(4) == "    ";
    if ok {
      assert PadRight("ok", 6) + " " == "ok     ";
      OkLine(rest);
    } else {
      assert PadRight("not ok", 6) + " " == "not ok ";
      NotOkLine(rest);
    }
  }

  /** A line that reports a verdict starts with that verdict's word and not the other's. */
  lemma VerdictWords(line: string)
    ensures ReportsOk(line) ==> StartsWith(line, "ok") && !StartsWith(line, "not ok")
    ensures ReportsNotOk(line) ==> StartsWith(line, "not ok") && !StartsWith(line, "ok")
  {
    if ReportsOk(line) {
      assert line[..2] == line[..3][..2];
      assert line[0] == 'o';
    }
    if ReportsNotOk(line) {
      assert line[..6] == line[..7][..6];
      assert line[0] == 'n';
    }
  }
}
