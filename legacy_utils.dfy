/** Result routing of the older generation (lib/binnacle/utils.rb; lib/binnacle/helpers.rb
    carries the same `response` and `caller_line_number`). The flag and the exit switch
    are read with the older store's `get`, which leaves nil entries behind for missing keys.
    Printing and `exit` are recorded in the outcome instead of performed; the JSON text is
    the hash itself. */
module LegacyUtils {
  import opened Values
  import opened Text
  import LS = LegacyStore

  datatype Channel = Stdout | Stderr

  /** What `response` does with a result: hand it back, or print it on a channel and then
      either exit with status 1 or return the `output` entry. */
  datatype Routed =
    | Handed(data: map<Key, Value>)
    | Emitted(channel: Channel, payload: map<Key, Value>, exits: bool, result: Value)

  /** `response(data)` once the `response` flag and the `exit_on_not_ok` switch are known. */
  function Route(data: map<Key, Value>, flag: Value, exitOnNotOk: Value): (r: Routed)
    ensures flag == Str("return") <==> r.Handed?
    ensures r.Handed? ==> r.data == data
    ensures r.Emitted? ==> r.payload == data
    ensures r.Emitted? ==> (r.channel == Stdout <==> flag == Str("stdout"))
    ensures r.Emitted? ==> (r.exits <==> Truthy(exitOnNotOk) && !Truthy(At(data, "ok")))
    ensures r.Emitted? ==> ("output" in data ==> r.result == data["output"]) && ("output" !in data ==> r.result == Nil)
  {
    if flag == Str("return") then Handed(data)
    else
      Emitted(if flag == Str("stdout") then Stdout else Stderr, data,
              Truthy(exitOnNotOk) && !Truthy(At(data, "ok")),
              if "output" in data then data["output"] else Nil)
  }

  /** `response(data)` on the store: the flag is read first, the exit switch only when the
      result is not handed back. */
  function Response(d: LS.Data, data: map<Key, Value>): (LS.Data, Routed) {
    var (d1, flag) := LS.GetStep(d, "response");
    if flag == Str("return") then (d1, Handed(data))
    else
      var (d2, exitOnNotOk) := LS.GetStep(d1, "exit_on_not_ok");
      (d2, Route(data, flag, exitOnNotOk))
  }

  /** `response` routes on the flag and switch the store holds (nil when missing) and changes
      the store only by the nil entries its reads leave behind. */
  lemma ResponseRoutesOnStore(d: LS.Data, data: map<Key, Value>)
    ensures Response(d, data).1 == Route(data, At(d, "response"), At(d, "exit_on_not_ok"))
    ensures var d1 := Response(d, data).0;
      d1.Keys <= d.Keys + {"response", "exit_on_not_ok"} && "response" in d1
      && forall k :: k in d ==> k in d1 && d1[k] == d[k]
    ensures forall k :: k in Response(d, data).0 && k !in d ==> Response(d, data).0[k] == Nil
  {
  }

  /** Under `'return'` the data comes back unchanged, nothing is printed and the process never exits. */
  lemma ReturnHandsBack(d: LS.Data, data: map<Key, Value>)
    requires At(d, "response") == Str("return")
    ensures Response(d, data) == (d, Handed(data))
  {
  }

  /** `caller_line_number`: the caller's path and line number as `path:lineno`. */
  function CallerLineNumber(path: string, lineno: nat): (r: string)
    ensures StartsWith(r, path + ":")
  {
    path + ":" + NatToString(lineno)
  }

  /** The line number reads back from the text after the path and its colon, which holds no colon. */
  lemma CallerLineNumberReadsBack(path: string, lineno: nat)
    ensures var r := CallerLineNumber(path, lineno);
      ToI(r[|path| + 1..]) == lineno && ':' !in r[|path| + 1..]
  {
    var r := CallerLineNumber(path, lineno);
    assert r[|path| + 1..] == NatToString(lineno);
    ToIOfNatToString(lineno);
  }
}
