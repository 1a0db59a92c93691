/** Ruby's `Array#sort` on strings: ascending in the order of `String#<=>`, which
    compares character by character and puts a proper prefix first. */
module Sorting {

  /** `a <= b` under `String#<=>`. */
  predicate Below(a: string, b: string)
    decreases |a|
  {
    a == [] || (b != [] && (a[0] < b[0] || (a[0] == b[0] && Below(a[1..], b[1..]))))
  }

  lemma {:induction false} BelowTotal(a: string, b: string)
    ensures Below(a, b) || Below(b, a)
    decreases |a|
  {
    if a != [] && b != [] && a[0] == b[0] {
      BelowTotal(a[1..], b[1..]);
    }
  }

  /** Each element is below the next. */
  predicate Sorted(s: seq<string>) {
    forall i :: 0 < i < |s| ==> Below(s[i - 1], s[i])
  }

  /** `x` placed before the first element it is below. */
  function Insert(x: string, s: seq<string>): (r: seq<string>)
    ensures multiset(r) == multiset(s) + multiset{x}
    ensures |r| == |s| + 1
  {
    if s == [] then [x]
    else if Below(x, s[0]) then [x] + s
    else
      assert s == [s[0]] + s[1..];
      [s[0]] + Insert(x, s[1..])
  }

  lemma {:induction false} InsertSorted(x: string, s: seq<string>)
    requires Sorted(s)
    ensures Sorted(Insert(x, s))
    ensures Insert(x, s)[0] == x || Insert(x, s)[0] == s[0]
  {
    if s != [] && !Below(x, s[0]) {
      var t := s[1..];
      SortedTail(s);
      InsertSorted(x, t);
      BelowTotal(x, s[0]);
      var u := Insert(x, t);
      assert Insert(x, s) == [s[0]] + u;
      assert Below(s[0], u[0]) by {
        if t != [] {
          assert t[0] == s[1];
        }
      }
      SortedCons(s[0], u);
    }
  }

  /** A sorted sequence stays sorted without its first element. */
  lemma SortedTail(s: seq<string>)
    requires Sorted(s) && s != []
    ensures Sorted(s[1..])
  {
    var t := s[1..];
    forall i | 0 < i < |t| ensures Below(t[i - 1], t[i]) {
      assert t[i - 1] == s[i] && t[i] == s[i + 1];
    }
  }

  /** An element below the head of a sorted sequence can be put in front of it. */
  lemma SortedCons(a: string, u: seq<string>)
    requires Sorted(u) && u != [] && Below(a, u[0])
    ensures Sorted([a] + u)
  {
    var r := [a] + u;
    forall i | 0 < i < |r| ensures Below(r[i - 1], r[i]) {
      if i > 1 {
        assert r[i - 1] == u[i - 2] && r[i] == u[i - 1];
      }
    }
  }

  /** `Array#sort`: an ordered permutation of its input. */
  function Sort(s: seq<string>): (r: seq<string>)
    ensures multiset(r) == multiset(s)
    ensures |r| == |s|
  {
    if s == [] then []
    else
      assert s == s[..|s| - 1] + [s[|s| - 1]];
      Insert(s[|s| - 1], Sort(s[..|s| - 1]))
  }

  lemma {:induction false} SortSorted(s: seq<string>)
    ensures Sorted(Sort(s))
  {
    if s != [] {
      SortSorted(s[..|s| - 1]);
      InsertSorted(s[|s| - 1], Sort(s[..|s| - 1]));
    }
  }
}
