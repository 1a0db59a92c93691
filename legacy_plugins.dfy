/** The plugin wrappers of the older generation: `Plugins.register` in
    lib/binnacle/plugins.rb (stamps duration, caller line and node) and `register_plugin`
    in lib/binnacle/helpers.rb (stamps duration and caller line). Both hand a reportable
    result to `response`. Durations are given as whole seconds and the caller's location
    as a path and a line number. */
module LegacyPlugins {
  import opened Values
  import LS = LegacyStore
  import LU = LegacyUtils

  /** How a wrapped plugin call ends: nil for a result that is not reported, the routing of
      a reported result, or an exception. */
  datatype Called = Silent | Answered(routed: LU.Routed) | Threw

  /** What the Ruby method returns. */
  function ValueOf(c: Called): Value
    requires !c.Threw?
  {
    match c
    case Silent => Nil
    case Answered(Handed(h)) => Hash(h)
    case Answered(Emitted(_, _, _, result)) => result
  }

  predicate Reportable(data: Value) {
    data.Hash? && "ok" in data.h
  }

  /** The fields lib/binnacle/plugins.rb writes into a reportable result. */
  function Stamp(h: map<Key, Value>, duration: nat, line: string, node: Value): (r: map<Key, Value>)
    ensures r.Keys == h.Keys + {"duration_seconds", "line", "node"}
    ensures r["duration_seconds"] == Int(duration) && r["line"] == Str(line) && r["node"] == node
    ensures forall k :: k in h && k !in {"duration_seconds", "line", "node"} ==> r[k] == h[k]
  {
    h["duration_seconds" := Int(duration)]["line" := Str(line)]["node" := node]
  }

  /** The `Plugins.register` wrapper applied to the handler's result `data`. */
  function Wrapped(d: LS.Data, data: Value, duration: nat, path: string, lineno: nat): (LS.Data, Called) {
    if data.Nil? then (d, Silent)
    else if !data.Hash? then (d, Threw)
    else if "ok" !in data.h then (d, Silent)
    else
      var (d1, node) := LS.GetStep(d, "node_name");
      var (d2, routed) := LU.Response(d1, Stamp(data.h, duration, LU.CallerLineNumber(path, lineno), node));
      (d2, Answered(routed))
  }

  /** A nil result or a hash without `ok` returns nil without calling `response`. */
  lemma NotReportableSilent(d: LS.Data, data: Value, duration: nat, path: string, lineno: nat)
    requires data.Nil? || data.Hash?
    requires !Reportable(data)
    ensures Wrapped(d, data, duration, path, lineno) == (d, Silent)
  {
  }

  /** A reportable result is stamped with the duration, the caller's `path:lineno` and the
      node name read at call time, then routed by `response` on the store's flag. */
  lemma ReportableStamped(d: LS.Data, data: Value, duration: nat, path: string, lineno: nat)
    requires Reportable(data)
    ensures var (_, c) := Wrapped(d, data, duration, path, lineno);
      c == Answered(LU.Route(Stamp(data.h, duration, LU.CallerLineNumber(path, lineno), At(d, "node_name")),
                             At(d, "response"), At(d, "exit_on_not_ok")))
  {
    var (d1, node) := LS.GetStep(d, "node_name");
    LU.ResponseRoutesOnStore(d1, Stamp(data.h, duration, LU.CallerLineNumber(path, lineno), node));
    assert At(d1, "response") == At(d, "response");
    assert At(d1, "exit_on_not_ok") == At(d, "exit_on_not_ok");
  }

  /** The `register_plugin` wrapper of lib/binnacle/helpers.rb: duration and line only. */
  function HelperWrapped(d: LS.Data, data: Value, duration: nat, path: string, lineno: nat): (LS.Data, Called) {
    if data.Nil? then (d, Silent)
    else if !data.Hash? then (d, Threw)
    else if "ok" !in data.h then (d, Silent)
    else
      var stamped := data.h["duration_seconds" := Int(duration)]["line" := Str(LU.CallerLineNumber(path, lineno))];
      var (d1, routed) := LU.Response(d, stamped);
      (d1, Answered(routed))
  }

  /** helpers.rb: nil or a hash without `ok` is not reported; a reportable result gains
      `duration_seconds` and `line` (and no node) before `response`. */
  lemma HelperWrapperStamps(d: LS.Data, data: Value, duration: nat, path: string, lineno: nat)
    requires data.Nil? || data.Hash?
    ensures !Reportable(data) ==> HelperWrapped(d, data, duration, path, lineno) == (d, Silent)
    ensures Reportable(data) ==> var (_, c) := HelperWrapped(d, data, duration, path, lineno);
      c.Answered?
      && var payload := if c.routed.Handed? then c.routed.data else c.routed.payload;
      payload.Keys == data.h.Keys + {"duration_seconds", "line"}
      && payload["duration_seconds"] == Int(duration) && payload["line"] == Str(LU.CallerLineNumber(path, lineno))
      && c.routed == LU.Route(payload, At(d, "response"), At(d, "exit_on_not_ok"))
  {
    if Reportable(data) {
      var stamped := data.h["duration_seconds" := Int(duration)]["line" := Str(LU.CallerLineNumber(path, lineno))];
      LU.ResponseRoutesOnStore(d, stamped);
    }
  }

  /** A plugin call on the store object: the handler has produced `data`. */
  method Wrap(store: LS.Store, data: Value, duration: nat, path: string, lineno: nat) returns (c: Called)
    modifies store
    ensures (store.data, c) == Wrapped(old(store.data), data, duration, path, lineno)
  {
    if data.Nil? {
      return Silent;
    }
    if !data.Hash? {
      return Threw;
    }
    if "ok" !in data.h {
      return Silent;
    }
    var node := store.Get("node_name");
    var stamped := Stamp(data.h, duration, LU.CallerLineNumber(path, lineno), node);
    var flag := store.Get("response");
    if flag == Str("return") {
      return Answered(LU.Handed(stamped));
    }
    var exitOnNotOk := store.Get("exit_on_not_ok");
    c := Answered(LU.Route(stamped, flag, exitOnNotOk));
  }
}
