/** The comparison plugins of the current generation
    (lib/kadalu/binnacle/plugins/compare.rb). Each handler builds a result hash from
    one comparison; `diagnostic` records whether it prints its explanatory text. */
module KadaluCompare {
  import opened Values
  import KS = KadaluStore
  import KP = KadaluPlugins

  /** A handler's result hash, and whether it printed a diagnostic. */
  datatype Checked = Checked(data: map<Key, Value>, diagnostic: bool)

  /** `compare_equal?(value1, value2, title = '')` */
  function CompareEqual(value1: Value, value2: Value, title: Value): (r: Checked)
    ensures r.data.Keys == {"value1", "value2", "ok", "title"}
    ensures r.data["value1"] == value1 && r.data["value2"] == value2 && r.data["title"] == title
  {
    var ok := value1 == value2;
    Checked(map["value1" := value1, "value2" := value2, "ok" := Bool(ok), "title" := title], !ok)
  }

  /** `compare_not_equal?(value1, value2, title = '')` */
  function CompareNotEqual(value1: Value, value2: Value, title: Value): (r: Checked)
    ensures r.data.Keys == {"value1", "value2", "ok", "title"}
    ensures r.data["value1"] == value1 && r.data["value2"] == value2 && r.data["title"] == title
  {
    var ok := value1 != value2;
    Checked(map["value1" := value1, "value2" := value2, "ok" := Bool(ok), "title" := title], !ok)
  }

  /** `compare_true?(expr, title = '')`: no diagnostic. */
  function CompareTrue(expr: Value, title: Value): (r: Checked)
    ensures r.data.Keys == {"ok", "title"} && r.data["title"] == title && !r.diagnostic
  {
    Checked(map["ok" := Bool(expr == Bool(true)), "title" := title], false)
  }

  /** `compare_false?(expr, title = '')`: no diagnostic. */
  function CompareFalse(expr: Value, title: Value): (r: Checked)
    ensures r.data.Keys == {"ok", "title"} && r.data["title"] == title && !r.diagnostic
  {
    Checked(map["ok" := Bool(expr == Bool(false)), "title" := title], false)
  }

  /** `compare_equal?` is ok exactly when the values are equal, and prints its diagnostic
      exactly when it is not ok. */
  lemma EqualOkIff(value1: Value, value2: Value, title: Value)
    ensures CompareEqual(value1, value2, title).data["ok"] == Bool(true) <==> value1 == value2
    ensures CompareEqual(value1, value2, title).data["ok"] == Bool(false) <==> value1 != value2
    ensures CompareEqual(value1, value2, title).diagnostic <==> CompareEqual(value1, value2, title).data["ok"] == Bool(false)
  {
  }

  /** On the same inputs `compare_not_equal?` decides the opposite of `compare_equal?`, with the
      same other fields, and prints only when it is not ok. */
  lemma NotEqualNegatesEqual(value1: Value, value2: Value, title: Value)
    ensures var eq := CompareEqual(value1, value2, title).data;
      var ne := CompareNotEqual(value1, value2, title).data;
      ne["ok"] == Bool(!eq["ok"].b) && ne - {"ok"} == eq - {"ok"}
    ensures CompareNotEqual(value1, value2, title).diagnostic <==> CompareNotEqual(value1, value2, title).data["ok"] == Bool(false)
  {
    var eq := CompareEqual(value1, value2, title).data;
    var ne := CompareNotEqual(value1, value2, title).data;
    assert ne - {"ok"} == map["value1" := value1, "value2" := value2, "title" := title];
    assert eq - {"ok"} == map["value1" := value1, "value2" := value2, "title" := title];
  }

  /** `compare_true?` accepts only `true` itself: truthy values such as 1 or a string are not ok. */
  lemma TrueOnlyForTrue(expr: Value, title: Value)
    ensures CompareTrue(expr, title).data["ok"] == Bool(true) <==> expr == Bool(true)
    ensures Truthy(expr) && expr != Bool(true) ==> CompareTrue(expr, title).data["ok"] == Bool(false)
    ensures CompareTrue(Int(1), title).data["ok"] == Bool(false)
  {
  }

  /** `compare_false?` accepts only `false` itself: nil is not ok. */
  lemma FalseOnlyForFalse(expr: Value, title: Value)
    ensures CompareFalse(expr, title).data["ok"] == Bool(true) <==> expr == Bool(false)
    ensures CompareFalse(Nil, title).data["ok"] == Bool(false)
  {
  }

  /** The new-style name each legacy alias delegates to. */
  function AliasOf(alias: string): Option<string> {
    if alias == "EQUAL" then Some("compare_equal?")
    else if alias == "NOT_EQUAL" then Some("compare_not_equal?")
    else if alias == "TRUE" then Some("compare_true?")
    else if alias == "FALSE" then Some("compare_false?")
    else None
  }

  /** `EQUAL`, `NOT_EQUAL`, `TRUE`, `FALSE`: the new-style plugin under `'return'`, then the alias's wrapper. */
  function AliasCall(s: KS.State, alias: string, checked: Checked, innerDuration: nat, duration: nat,
                     respond: KP.Respond): (KS.State, Outcome)
    requires AliasOf(alias).Some?
  {
    KP.Delegate(s, AliasOf(alias).value, alias, Hash(checked.data), innerDuration, duration, respond)
  }

  /** An alias reports the same hash as the new-style plugin (stamped with the alias's name),
      computed with `response` scoped to `'return'`, and the flag reads as before afterwards. */
  lemma AliasReportsSameHash(s: KS.State, alias: string, value1: Value, value2: Value, title: Value,
                             innerDuration: nat, duration: nat, respond: KP.Respond)
    requires forall d :: respond(Str("return"), d) == d
    requires KP.CountIsInt(s)
    requires alias in {"EQUAL", "NOT_EQUAL", "TRUE", "FALSE"}
    ensures var checked :=
        if alias == "EQUAL" then CompareEqual(value1, value2, title)
        else if alias == "NOT_EQUAL" then CompareNotEqual(value1, value2, title)
        else if alias == "TRUE" then CompareTrue(value1, title)
        else CompareFalse(value1, title);
      var (s1, o) := AliasCall(s, alias, checked, innerDuration, duration, respond);
      var n := KP.Count(s);
      o == Returned(respond(KS.Lookup(s, "response"),
                            Hash(KP.Stamp(KP.Stamp(checked.data, AliasOf(alias).value, innerDuration, n + 1),
                                          alias, duration, n + 2))))
      && KS.Lookup(s1, "response") == KS.Lookup(s, "response")
  {
    var checked :=
      if alias == "EQUAL" then CompareEqual(value1, value2, title)
      else if alias == "NOT_EQUAL" then CompareNotEqual(value1, value2, title)
      else if alias == "TRUE" then CompareTrue(value1, title)
      else CompareFalse(value1, title);
    KP.DelegateReportsOnce(s, AliasOf(alias).value, alias, Hash(checked.data), innerDuration, duration, respond);
  }
}
