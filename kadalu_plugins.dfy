/** Plugin registration of the current generation (lib/kadalu/binnacle/plugins.rb).
    `define_method` is modelled as a table from plugin name to handler; the wrapper
    around every handler decides whether the handler's result is reportable, stamps it
    and numbers it from the store counter, and hands it to the result encoder.

    The encoder (`Utils.response`) lives in a file that is not part of this model: it is
    a parameter `respond`, given the store's `response` flag and the stamped result. */
module KadaluPlugins {
  import opened Values
  import KS = KadaluStore

  /** `Utils.response(data)`: given the current `response` flag and the stamped data. */
  type Respond = (Value, Value) -> Value

  /** A handler result is reported when it is a hash with an `ok` key. */
  predicate Reportable(data: Value) {
    data.Hash? && "ok" in data.h
  }

  /** The fields the wrapper writes into a reportable result. */
  function Stamp(h: map<Key, Value>, name: string, duration: nat, taskNumber: int): (r: map<Key, Value>)
    ensures r.Keys == h.Keys + {"name", "duration_seconds", "task_number"}
    ensures r["name"] == Str(name) && r["duration_seconds"] == Int(duration)
    ensures r["task_number"] == Int(taskNumber)
    ensures forall k :: k in h && k != "name" && k != "duration_seconds" && k != "task_number" ==> r[k] == h[k]
  {
    h["name" := Str(name)]["duration_seconds" := Int(duration)]["task_number" := Int(taskNumber)]
  }

  /** The wrapper `define_method` installs, applied to the handler's result `data`
      (the handler has already run in state `s`). A nil result or a hash without `ok`
      returns nil; any other non-hash makes `data.key?` raise. */
  function Wrapped(s: KS.State, name: string, data: Value, duration: nat, respond: Respond): (KS.State, Outcome) {
    if data.Nil? then (s, Returned(Nil))
    else if !data.Hash? then (s, Raised)
    else if "ok" !in data.h then (s, Returned(Nil))
    else
      var (s1, o) := KS.Increment(s, "count");
      if o.Raised? || !o.value.Int? then (s1, Raised)
      else (s1, Returned(respond(KS.Lookup(s1, "response"), Hash(Stamp(data.h, name, duration, o.value.i)))))
  }

  /** A nil result, or a hash without `ok` (a configuration plugin), is not reported:
      nil comes back and the store, `count` included, is untouched. */
  lemma NotReportableUntouched(s: KS.State, name: string, data: Value, duration: nat, respond: Respond)
    requires data.Nil? || data.Hash?
    requires !Reportable(data)
    ensures Wrapped(s, name, data, duration, respond) == (s, Returned(Nil))
  {
  }

  /** The first reportable result after the counter was cleared is task 1. */
  lemma FirstTaskNumber(s: KS.State, name: string, data: Value, duration: nat, respond: Respond)
    requires Reportable(data)
    requires "count" !in s.data
    ensures var (s1, o) := Wrapped(s, name, data, duration, respond);
      s1 == s.(data := s.data["count" := Int(1)])
      && o == Returned(respond(KS.Lookup(s, "response"), Hash(Stamp(data.h, name, duration, 1))))
  {
    assert KS.Lookup(s.(data := s.data["count" := Int(1)]), "response") == KS.Lookup(s, "response");
  }

  /** Each reportable result is numbered one more than the previous one, and the
      wrapper returns exactly what the encoder returns for the stamped result. */
  lemma NextTaskNumber(s: KS.State, name: string, data: Value, duration: nat, respond: Respond, n: int)
    requires Reportable(data)
    requires "count" in s.data && s.data["count"] == Int(n)
    ensures var (s1, o) := Wrapped(s, name, data, duration, respond);
      s1 == s.(data := s.data["count" := Int(n + 1)])
      && o == Returned(respond(KS.Lookup(s, "response"), Hash(Stamp(data.h, name, duration, n + 1))))
  {
    assert KS.Lookup(s.(data := s.data["count" := Int(n + 1)]), "response") == KS.Lookup(s, "response");
  }

  /** The wrapper on the store object. */
  method Wrap(store: KS.Store, name: string, data: Value, duration: nat, respond: Respond) returns (o: Outcome)
    modifies store
    ensures (store.Current(), o) == Wrapped(old(store.Current()), name, data, duration, respond)
  {
    if data.Nil? {
      return Returned(Nil);
    }
    if !data.Hash? {
      return Raised;
    }
    if "ok" !in data.h {
      return Returned(Nil);
    }
    var count := store.Inc("count");
    if count.Raised? || !count.value.Int? {
      return Raised;
    }
    var stamped := Stamp(data.h, name, duration, count.value.i);
    o := Returned(respond(store.Get("response"), Hash(stamped)));
  }

  /** The counter value the wrapper will increase: 0 before the first reportable result. */
  predicate CountIsInt(s: KS.State) {
    "count" !in s.data || s.data["count"].Int?
  }

  function Count(s: KS.State): int
    requires CountIsInt(s)
  {
    if "count" in s.data then s.data["count"].i else 0
  }

  /** Each reportable result is numbered one more than the previous one (1 for the first),
      and the wrapper returns exactly what the encoder returns for the stamped result. */
  lemma TaskNumbering(s: KS.State, name: string, data: Value, duration: nat, respond: Respond)
    requires Reportable(data)
    requires CountIsInt(s)
    ensures var (s1, o) := Wrapped(s, name, data, duration, respond);
      s1 == s.(data := s.data["count" := Int(Count(s) + 1)])
      && CountIsInt(s1) && Count(s1) == Count(s) + 1
      && o == Returned(respond(KS.Lookup(s, "response"), Hash(Stamp(data.h, name, duration, Count(s) + 1))))
  {
    if "count" in s.data {
      NextTaskNumber(s, name, data, duration, respond, s.data["count"].i);
    } else {
      FirstTaskNumber(s, name, data, duration, respond);
    }
  }

  /** The store as the block of `Store.set(:response, 'return') { ... }` sees it. */
  function Flagged(s: KS.State): (r: KS.State)
    ensures KS.Lookup(r, "response") == Str("return")
  {
    s.(data := s.data["response" := Str("return")])
  }

  /** `Store.set(:response, 'return') { data = ... }`: the built-in plugins call another
      plugin on `Flagged(s)`, the encoder switched to returning its hash; `inner` is what that
      call returns. The flag (its value before, a default included) is restored if the call
      returns normally. */
  function UnderReturn(s: KS.State, inner: (KS.State, Outcome)): (KS.State, Outcome) {
    var (s1, o) := inner;
    if o.Raised? then (s1, Raised) else (s1.(data := s1.data["response" := KS.Lookup(s, "response")]), o)
  }

  /** A plugin whose handler is `UnderReturn` of another plugin's wrapped call: the inner
      result is wrapped once more under the outer name. */
  function Delegate(s: KS.State, inner: string, outer: string, data: Value, innerDuration: nat,
                    outerDuration: nat, respond: Respond): (KS.State, Outcome)
  {
    var (s1, o) := UnderReturn(s, Wrapped(Flagged(s), inner, data, innerDuration, respond));
    if o.Raised? then (s1, Raised) else Wrapped(s1, outer, o.value, outerDuration, respond)
  }

  /** When the encoder hands the data back under `'return'`, a delegating plugin reports
      one result: the inner hash stamped twice, so it carries the outer name and the
      second of the two task numbers it consumed; the `response` flag reads as before. */
  lemma DelegateReportsOnce(s: KS.State, inner: string, outer: string, data: Value, innerDuration: nat,
                            outerDuration: nat, respond: Respond)
    requires forall d :: respond(Str("return"), d) == d
    requires Reportable(data)
    requires CountIsInt(s)
    ensures var (s1, o) := Delegate(s, inner, outer, data, innerDuration, outerDuration, respond);
      var n := Count(s);
      s1.data == s.data["count" := Int(n + 2)]["response" := KS.Lookup(s, "response")]
      && s1.defaults == s.defaults
      && KS.Lookup(s1, "response") == KS.Lookup(s, "response")
      && o == Returned(respond(KS.Lookup(s, "response"),
                               Hash(Stamp(Stamp(data.h, inner, innerDuration, n + 1), outer, outerDuration, n + 2))))
  {
    var n := Count(s);
    var stamped := Hash(Stamp(data.h, inner, innerDuration, n + 1));
    var s2 := Flagged(s).(data := Flagged(s).data["count" := Int(n + 1)]["response" := KS.Lookup(s, "response")]);
    InnerReportReturned(s, inner, data, innerDuration, respond);
    assert Delegate(s, inner, outer, data, innerDuration, outerDuration, respond)
        == Wrapped(s2, outer, stamped, outerDuration, respond);
    assert Reportable(stamped);
    assert CountIsInt(s2) && Count(s2) == n + 1;
    TaskNumbering(s2, outer, stamped, outerDuration, respond);
    assert KS.Lookup(s2, "response") == KS.Lookup(s, "response");
    FlagAndCountUpdates(s.data, KS.Lookup(s, "response"), Int(n + 1), Int(n + 2));
  }

  /** Setting the flag, the counter, the flag back and the counter again is one write of each. */
  lemma FlagAndCountUpdates(m: map<Key, Value>, prev: Value, first: Value, second: Value)
    ensures m["response" := Str("return")]["count" := first]["response" := prev]["count" := second]
         == m["count" := second]["response" := prev]
  {
  }

  /** Under the `'return'` flag the inner plugin hands its stamped hash back, numbered one
      past the counter, and the flag is put back afterwards. */
  lemma InnerReportReturned(s: KS.State, inner: string, data: Value, innerDuration: nat, respond: Respond)
    requires forall d :: respond(Str("return"), d) == d
    requires Reportable(data)
    requires CountIsInt(s)
    ensures UnderReturn(s, Wrapped(Flagged(s), inner, data, innerDuration, respond))
      == (Flagged(s).(data := Flagged(s).data["count" := Int(Count(s) + 1)]["response" := KS.Lookup(s, "response")]),
          Returned(Hash(Stamp(data.h, inner, innerDuration, Count(s) + 1))))
  {
    var s0 := Flagged(s);
    assert CountIsInt(s0) && Count(s0) == Count(s);
    TaskNumbering(s0, inner, data, innerDuration, respond);
  }

  /** `default_config(key, value)`: registers a store default. */
  method DefaultConfig(store: KS.Store, key: Key, value: Value)
    modifies store
    ensures store.data == old(store.data)
    ensures store.defaults == old(store.defaults)[key := value]
  {
    var _ := store.DefaultValue(key, value);
  }

  /** Loading plugins.rb registers the default `response` flag `'stdout'`. */
  method LoadPlugins(store: KS.Store)
    modifies store
    ensures store.data == old(store.data)
    ensures store.defaults == old(store.defaults)["response" := Str("stdout")]
    ensures "response" !in store.data ==> store.Get("response") == Str("stdout")
  {
    DefaultConfig(store, "response", Str("stdout"));
  }
}
