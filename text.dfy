/** String operations of Ruby and Python that the engine relies on, written
    out on `seq<char>`. */
module Text {
  import opened Values

  predicate StartsWith(s: string, prefix: string) {
    |prefix| <= |s| && s[..|prefix|] == prefix
  }

  predicate EndsWith(s: string, suffix: string) {
    |suffix| <= |s| && s[|s| - |suffix|..] == suffix
  }

  lemma ConcatAssoc(a: string, b: string, c: string)
    ensures (a + b) + c == a + (b + c)
  {
  }

  lemma PrefixOfConcat(a: string, b: string)
    ensures StartsWith(a + b, a)
  {
    assert (a + b)[..|a|] == a;
  }

  lemma SuffixOfConcat(a: string, b: string)
    ensures EndsWith(a + b, b)
  {
    assert (a + b)[|a|..] == b;
  }

  /** Concatenation of the parts in order (Ruby `Array#join` with no separator). */
  function Concat(parts: seq<string>): string {
    if parts == [] then "" else Concat(parts[..|parts| - 1]) + parts[|parts| - 1]
  }

  /** Parts joined with a separator between neighbours (`Array#join(sep)`, `str.join`). */
  function JoinWith(parts: seq<string>, sep: string): string {
    if parts == [] then ""
    else if |parts| == 1 then parts[0]
    else JoinWith(parts[..|parts| - 1], sep) + sep + parts[|parts| - 1]
  }

  /** `sep` occurs in `s` at position `j`. */
  predicate OccursAt(s: string, sep: string, j: int) {
    0 <= j && j + |sep| <= |s| && s[j..j + |sep|] == sep
  }

  /** Index of the first occurrence of a non-empty `sep` in `s`. */
  function IndexOf(s: string, sep: string): (r: Option<nat>)
    requires |sep| > 0
    ensures r.Some? ==> OccursAt(s, sep, r.value)
    ensures r.Some? ==> forall j :: 0 <= j < r.value ==> !OccursAt(s, sep, j)
    ensures r.None? ==> forall j :: !OccursAt(s, sep, j)
    decreases |s|
  {
    if |s| < |sep| then None
    else if s[..|sep|] == sep then Some(0)
    else
      OccursInTail(s, sep);
      match IndexOf(s[1..], sep)
      case None => None
      case Some(k) => Some(k + 1)
  }

  /** An occurrence past the first position is an occurrence in the tail, and back. */
  lemma OccursInTail(s: string, sep: string)
    requires |s| > 0
    ensures forall j :: j > 0 ==> (OccursAt(s, sep, j) <==> OccursAt(s[1..], sep, j - 1))
  {
    forall j | j > 0
      ensures OccursAt(s, sep, j) <==> OccursAt(s[1..], sep, j - 1)
    {
      if 0 <= j - 1 && j - 1 + |sep| <= |s| - 1 {
        assert s[1..][j - 1..j - 1 + |sep|] == s[j..j + |sep|];
      }
    }
  }

  /** Every field between separators, empty ones included (Python `str.split(sep)`). */
  function Split(s: string, sep: string): (r: seq<string>)
    requires |sep| > 0
    ensures |r| > 0
    decreases |s|
  {
    match IndexOf(s, sep)
    case None => [s]
    case Some(i) => [s[..i]] + Split(s[i + |sep|..], sep)
  }

  /** A text without the separator character is a single field. */
  lemma SplitWithoutSeparator(b: string, c: char)
    requires c !in b
    ensures Split(b, [c]) == [b]
  {
    forall j | 0 <= j < |b| ensures !OccursAt(b, [c], j) {
      assert b[j..j + 1][0] == b[j];
    }
  }

  /** Splitting on a single character distributes over a last field that lacks it. */
  lemma {:induction false} SplitSnoc(a: string, c: char, b: string)
    requires c !in b
    ensures Split(a + [c] + b, [c]) == Split(a, [c]) + [b]
    decreases |a|
  {
    var s := a + [c] + b;
    match IndexOf(a, [c])
    case None =>
      forall j | 0 <= j < |a| ensures !OccursAt(s, [c], j) {
        assert !OccursAt(a, [c], j);
        assert s[j..j + 1] == a[j..j + 1];
      }
      assert s[|a|..|a| + 1] == [c];
      IndexOfFirst(s, [c], |a|);
      assert s[..|a|] == a;
      assert s[|a| + 1..] == b;
      SplitWithoutSeparator(b, c);
    case Some(i) =>
      assert s[i..i + 1] == a[i..i + 1];
      forall j | 0 <= j < i ensures !OccursAt(s, [c], j) {
        assert !OccursAt(a, [c], j);
        assert s[j..j + 1] == a[j..j + 1];
      }
      IndexOfFirst(s, [c], i);
      assert OccursAt(a, [c], i) && i + 1 <= |a|;
      assert s[..i] == a[..i];
      assert s == a[..i + 1] + (a[i + 1..] + [c] + b);
      assert s[i + 1..] == a[i + 1..] + [c] + b;
      SplitSnoc(a[i + 1..], c, b);
  }

  /** No field of a split on one character contains that character. */
  lemma {:induction false} SplitFieldsLackSeparator(s: string, c: char)
    ensures forall k :: 0 <= k < |Split(s, [c])| ==> c !in Split(s, [c])[k]
    decreases |s|
  {
    match IndexOf(s, [c])
    case None =>
      forall j | 0 <= j < |s| ensures s[j] != c {
        assert !OccursAt(s, [c], j);
        assert s[j..j + 1] == [s[j]];
      }
    case Some(i) =>
      forall j | 0 <= j < i ensures s[j] != c {
        assert !OccursAt(s, [c], j);
        assert s[j..j + 1] == [s[j]];
      }
      SplitFieldsLackSeparator(s[i + 1..], c);
  }

  /** The first occurrence, characterised: an occurrence with none before it. */
  lemma IndexOfFirst(s: string, sep: string, i: nat)
    requires |sep| > 0
    requires OccursAt(s, sep, i)
    requires forall j :: 0 <= j < i ==> !OccursAt(s, sep, j)
    ensures IndexOf(s, sep) == Some(i)
  {
  }

  function DropTrailingEmpty(parts: seq<string>): (r: seq<string>)
    ensures |r| <= |parts| && r == parts[..|r|]
    ensures r != [] ==> r[|r| - 1] != ""
  {
    if parts == [] then []
    else if parts[|parts| - 1] == "" then DropTrailingEmpty(parts[..|parts| - 1])
    else parts
  }

  /** Ruby `String#split(sep)` for a non-blank string separator: trailing empty fields are dropped. */
  function RubySplit(s: string, sep: string): seq<string>
    requires |sep| > 0
  {
    DropTrailingEmpty(Split(s, sep))
  }

  /** Every non-overlapping occurrence of `pat`, scanned left to right, replaced by `repl`
      (Ruby `gsub` with a string, Python `str.replace`). */
  function ReplaceAll(s: string, pat: string, repl: string): string
    requires |pat| > 0
    decreases |s|
  {
    if |s| < |pat| then s
    else if s[..|pat|] == pat then repl + ReplaceAll(s[|pat|..], pat, repl)
    else [s[0]] + ReplaceAll(s[1..], pat, repl)
  }

  /** Replacing a one-character string by text that lacks that character leaves none of it. */
  lemma {:induction false} ReplaceAllRemoves(s: string, c: char, repl: string)
    requires c !in repl
    ensures c !in ReplaceAll(s, [c], repl)
    decreases |s|
  {
    if |s| >= 1 {
      if s[..1] == [c] {
        ReplaceAllRemoves(s[1..], c, repl);
      } else {
        ReplaceAllRemoves(s[1..], c, repl);
        assert s[0] != c;
      }
    }
  }

  /** Text starting with the pattern: the replacement, then the rest replaced. */
  lemma ReplaceAllMatch(pat: string, x: string, repl: string)
    requires |pat| > 0
    ensures ReplaceAll(pat + x, pat, repl) == repl + ReplaceAll(x, pat, repl)
  {
    assert (pat + x)[..|pat|] == pat;
    assert (pat + x)[|pat|..] == x;
  }

  /** Characters that cannot start the pattern are copied as they are. */
  lemma {:induction false} ReplaceAllSkip(p: string, x: string, pat: string, repl: string)
    requires |pat| > 0
    requires forall k :: 0 <= k < |p| ==> p[k] != pat[0]
    ensures ReplaceAll(p + x, pat, repl) == p + ReplaceAll(x, pat, repl)
    decreases |p|
  {
    if p != [] {
      var s := p + x;
      if |s| >= |pat| {
        assert s[..|pat|] != pat by {
          assert s[..|pat|][0] == p[0];
        }
        assert ReplaceAll(s, pat, repl) == [p[0]] + ReplaceAll(s[1..], pat, repl);
        assert s[1..] == p[1..] + x;
        ReplaceAllSkip(p[1..], x, pat, repl);
        assert [p[0]] + p[1..] == p;
      } else {
        assert ReplaceAll(x, pat, repl) == x;
      }
    } else {
      assert p + x == x;
    }
  }

  /** A text without the character is left as it is. */
  lemma {:induction false} ReplaceAllAbsent(s: string, c: char, repl: string)
    ensures c !in s ==> ReplaceAll(s, [c], repl) == s
    decreases |s|
  {
    if c !in s && |s| >= 1 {
      assert s[..1] != [c] by { assert s[..1][0] == s[0]; }
      ReplaceAllAbsent(s[1..], c, repl);
      assert [s[0]] + s[1..] == s;
    }
  }

  /** Replacing never introduces a character that neither the text nor the replacement holds. */
  lemma {:induction false} ReplaceAllKeepsOut(s: string, pat: string, repl: string, c: char)
    requires |pat| > 0 && c !in s && c !in repl
    ensures c !in ReplaceAll(s, pat, repl)
    decreases |s|
  {
    if |s| >= |pat| {
      ReplaceAllKeepsOut(s[if s[..|pat|] == pat then |pat| else 1..], pat, repl, c);
    }
  }

  /** Splitting a join on a character the parts lack gives the parts back. */
  lemma {:induction false} SplitJoin(parts: seq<string>, c: char)
    requires parts != []
    requires forall k :: 0 <= k < |parts| ==> c !in parts[k]
    ensures Split(JoinWith(parts, [c]), [c]) == parts
    decreases |parts|
  {
    if |parts| == 1 {
      SplitWithoutSeparator(parts[0], c);
    } else {
      var front := parts[..|parts| - 1];
      SplitJoin(front, c);
      SplitSnoc(JoinWith(front, [c]), c, parts[|parts| - 1]);
      assert front + [parts[|parts| - 1]] == parts;
    }
  }

  // ---------------------------------------------------------------------
  // Whitespace

  /** Ruby's whitespace for `strip`: NUL, tab, line feed, vertical tab, form feed, carriage return, space. */
  predicate RubySpace(c: char) {
    c == '\0' || c == '\t' || c == '\n' || c == '\U{B}' || c == '\U{C}' || c == '\r' || c == ' '
  }

  function LStripBy(s: string, space: char -> bool): (r: string)
    ensures |r| <= |s| && r == s[|s| - |r|..]
    ensures r != [] ==> !space(r[0])
    decreases |s|
  {
    if s != [] && space(s[0]) then LStripBy(s[1..], space) else s
  }

  /** Everything `LStripBy` drops is space. */
  lemma {:induction false} LStripByDropsSpace(s: string, space: char -> bool)
    ensures forall k :: 0 <= k < |s| - |LStripBy(s, space)| ==> space(s[k])
    decreases |s|
  {
    if s != [] && space(s[0]) {
      LStripByDropsSpace(s[1..], space);
    }
  }

  function RStripBy(s: string, space: char -> bool): (r: string)
    ensures |r| <= |s| && r == s[..|r|]
    ensures r != [] ==> !space(r[|r| - 1])
    decreases |s|
  {
    if s != [] && space(s[|s| - 1]) then RStripBy(s[..|s| - 1], space) else s
  }

  /** Ruby `String#strip`. */
  function RubyStrip(s: string): string {
    RStripBy(LStripBy(s, RubySpace), RubySpace)
  }

  /** Python's `str.isspace` on the characters the model covers: ASCII whitespace,
      the information separators U+001C..U+001F, NEL and NO-BREAK SPACE. */
  predicate PySpace(c: char) {
    c == ' ' || c == '\t' || c == '\n' || c == '\U{B}' || c == '\U{C}' || c == '\r'
    || ('\U{1C}' <= c <= '\U{1F}') || c == '\U{85}' || c == '\U{A0}'
  }

  /** Python `str.strip()`. */
  function PyStrip(s: string): string {
    RStripBy(LStripBy(s, PySpace), PySpace)
  }

  /** The first whitespace-separated word (Python `s.split()[0]`); None when there is none. */
  function PyFirstWord(s: string): (r: Option<string>)
    ensures r.Some? ==> r.value != [] && forall k :: 0 <= k < |r.value| ==> !PySpace(r.value[k])
  {
    var t := LStripBy(s, PySpace);
    if t == [] then None else Some(t[..WordEnd(t, 0)])
  }

  function WordEnd(t: string, i: nat): (j: nat)
    requires i <= |t|
    ensures i <= j <= |t|
    ensures forall k :: i <= k < j ==> !PySpace(t[k])
    ensures j < |t| ==> PySpace(t[j])
    decreases |t| - i
  {
    if i == |t| || PySpace(t[i]) then i else WordEnd(t, i + 1)
  }

  // ---------------------------------------------------------------------
  // Numbers

  predicate IsDigit(c: char) {
    '0' <= c <= '9'
  }

  function DigitValue(c: char): nat
    requires IsDigit(c)
  {
    (c as int - '0' as int) as nat
  }

  /** The digits of the longest prefix `to_i` reads: digits, where a single `_` may stand
      between two of them; the underscores are dropped. */
  function LeadingDigits(s: string): (r: string)
    ensures |r| <= |s|
    ensures forall k :: 0 <= k < |r| ==> IsDigit(r[k])
    ensures s != [] && IsDigit(s[0]) <==> r != []
    decreases |s|
  {
    if s == [] || !IsDigit(s[0]) then []
    else if |s| >= 3 && s[1] == '_' && IsDigit(s[2]) then [s[0]] + LeadingDigits(s[2..])
    else [s[0]] + LeadingDigits(s[1..])
  }

  /** The number a digit string denotes. */
  function DigitsValue(ds: string): nat
    requires forall k :: 0 <= k < |ds| ==> IsDigit(ds[k])
  {
    if ds == [] then 0 else 10 * DigitsValue(ds[..|ds| - 1]) + DigitValue(ds[|ds| - 1])
  }

  /** The whitespace `to_i` skips: tab, line feed, vertical tab, form feed, carriage return
      and space (not NUL, which `strip` also drops). */
  predicate ToISpace(c: char) {
    RubySpace(c) && c != '\0'
  }

  /** Ruby `String#to_i`: leading whitespace, an optional sign, then the leading digits
      with their `_` separators; 0 when there are none. */
  function ToI(s: string): int {
    var t := LStripBy(s, ToISpace);
    if t != [] && t[0] == '-' then -(DigitsValue(LeadingDigits(t[1..]) ) as int)
    else if t != [] && t[0] == '+' then DigitsValue(LeadingDigits(t[1..]))
    else DigitsValue(LeadingDigits(t))
  }

  /** `to_i` reads through a single underscore between digits. */
  lemma ToIReadsSeparator()
    ensures ToI("1_0") == 10
  {
    var s := "1_0";
    assert !ToISpace(s[0]);
    assert LStripBy(s, ToISpace) == s;
    assert s[2..] == "0";
    assert LeadingDigits("0") == "0";
    assert LeadingDigits(s) == "10";
    assert s[0] != '-' && s[0] != '+';
    assert "10"[..1] == "1";
    assert DigitsValue("1") == 1;
    assert DigitsValue("10") == 10;
  }

  /** `to_i` stops at a doubled underscore. */
  lemma ToIStopsAtDoubleSeparator()
    ensures ToI("1__0") == 1
  {
    var s := "1__0";
    assert !ToISpace(s[0]);
    assert LStripBy(s, ToISpace) == s;
    assert LeadingDigits(s[1..]) == [];
    assert LeadingDigits(s) == "1";
  }

  /** A leading NUL is not whitespace to `to_i`. */
  lemma ToIStopsAtNul(t: string)
    ensures ToI("\0" + t) == 0
  {
    var s := "\0" + t;
    assert !ToISpace(s[0]);
    assert LStripBy(s, ToISpace) == s;
  }

  lemma {:induction false} DigitsValueOfNatToString(n: nat)
    ensures DigitsValue(NatToString(n)) == n
    decreases n
  {
    var s := NatToString(n);
    if n >= 10 {
      DigitsValueOfNatToString(n / 10);
      assert s[..|s| - 1] == NatToString(n / 10);
    }
  }

  lemma LeadingDigitsOfDigits(s: string)
    requires forall k :: 0 <= k < |s| ==> IsDigit(s[k])
    ensures LeadingDigits(s) == s
  {
  }

  /** `to_i` reads back what `to_s` wrote. */
  lemma ToIOfIntToString(i: int)
    ensures ToI(IntToString(i)) == i
  {
    if i < 0 {
      var n: nat := -i;
      assert IntToString(i) == "-" + NatToString(n);
      ToIOfNegative(n);
    } else {
      ToIOfNatToString(i);
    }
  }

  lemma ToIOfNatToString(n: nat)
    ensures ToI(NatToString(n)) == n
  {
    var s := NatToString(n);
    assert !ToISpace(s[0]) && s[0] != '-' && s[0] != '+';
    assert LStripBy(s, ToISpace) == s;
    DigitsValueOfNatToString(n);
    LeadingDigitsOfDigits(s);
  }

  lemma ToIOfNegative(n: nat)
    ensures ToI("-" + NatToString(n)) == -(n as int)
  {
    var d := NatToString(n);
    var s := "-" + d;
    assert !ToISpace(s[0]);
    assert LStripBy(s, ToISpace) == s;
    assert s[1..] == d;
    DigitsValueOfNatToString(n);
    LeadingDigitsOfDigits(d);
    assert LeadingDigits(s[1..]) == d;
  }

  // ---------------------------------------------------------------------
  // printf-style padding

  function Spaces(n: nat): (r: string)
    ensures |r| == n && forall k :: 0 <= k < n ==> r[k] == ' '
  {
    if n == 0 then "" else Spaces(n - 1) + " "
  }

  /** `%-Ns`: left-justified in a field of at least `width` characters. */
  function PadRight(s: string, width: nat): (r: string)
    ensures StartsWith(r, s)
    ensures |r| == if |s| < width then width else |s|
  {
    if |s| < width then s + Spaces(width - |s|) else s
  }

  /** `%Nd` / `%Ns`: right-justified in a field of at least `width` characters. */
  function PadLeft(s: string, width: nat): (r: string)
    ensures EndsWith(r, s)
    ensures |r| == if |s| < width then width else |s|
  {
    if |s| < width then Spaces(width - |s|) + s else s
  }
}
