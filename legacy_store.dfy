/** The configuration store of the older generation (lib/binnacle/store.rb): a
    single table `@data`, with no defaults. Reading a missing key writes a nil
    entry for it. Blocks are modelled as in the newer store: a sequence of store
    operations, with `Raise` standing for an exception escaping from the block. */
module LegacyStore {
  import opened Values

  datatype Block = NoBlock | Block(ops: seq<Op>)

  datatype Op =
    | Set(name: Key, value: Value, block: Block)
    | Get(name: Key)
    | Remember(keys: seq<Key>, block: Block)
    | Raise

  type Data = map<Key, Value>

  /** `Store.get`: the entry, after inserting nil for a missing key. */
  function GetStep(data: Data, name: Key): (r: (Data, Value))
    ensures name in r.0 && r.1 == r.0[name]
    ensures name in data ==> r == (data, data[name])
    ensures name !in data ==> r == (data[name := Nil], Nil)
  {
    if name in data then (data, data[name]) else (data[name := Nil], Nil)
  }

  function Snapshot(data: Data, keys: seq<Key>): (vs: seq<Value>)
    ensures |vs| == |keys|
  {
    if keys == [] then []
    else Snapshot(data, keys[..|keys| - 1]) + [At(data, keys[|keys| - 1])]
  }

  function WriteBack(data: Data, keys: seq<Key>, values: seq<Value>): Data
    requires |values| == |keys|
  {
    if keys == [] then data
    else WriteBack(data, keys[..|keys| - 1], values[..|keys| - 1])[keys[|keys| - 1] := values[|keys| - 1]]
  }

  function CallBlock(data: Data, block: Block): (Data, Outcome)
    decreases block
  {
    if block.NoBlock? then (data, Raised) else Run(data, block.ops)
  }

  /** The statements of a block in order, stopping at the first exception. */
  function Run(data: Data, ops: seq<Op>): (Data, Outcome)
    decreases ops
  {
    if ops == [] then (data, Returned(Nil))
    else
      var (d1, o1) := Run(data, ops[..|ops| - 1]);
      if o1.Raised? then (d1, Raised) else Step(d1, ops[|ops| - 1])
  }

  function Step(data: Data, op: Op): (Data, Outcome)
    decreases op
  {
    match op
    case Set(name, value, block) =>
      if block.NoBlock? then (data[name := value], Returned(Nil))
      else
        var (d0, prev) := GetStep(data, name);
        var (d1, o) := Run(d0[name := value], block.ops);
        if o.Raised? then (d1, Raised) else (d1[name := prev], Returned(Nil))
    case Get(name) =>
      var (d1, v) := GetStep(data, name);
      (d1, Returned(v))
    case Remember(keys, block) =>
      var values := Snapshot(data, keys);
      var (d1, o) := CallBlock(data, block);
      if o.Raised? then (d1, Raised) else (WriteBack(d1, keys, values), o)
    case Raise => (data, Raised)
  }

  lemma RunSnoc(data: Data, ops: seq<Op>, op: Op)
    ensures Run(data, ops + [op]) ==
      (if Run(data, ops).1.Raised? then (Run(data, ops).0, Raised) else Step(Run(data, ops).0, op))
  {
    assert (ops + [op])[..|ops|] == ops;
  }

  /** Once a statement raises, the rest of the block does not run. */
  lemma {:induction false} RaisedStops(data: Data, ops: seq<Op>, i: nat)
    requires i <= |ops|
    requires Run(data, ops[..i]).1.Raised?
    ensures Run(data, ops) == Run(data, ops[..i])
    decreases |ops| - i
  {
    if i < |ops| {
      var front := ops[..|ops| - 1];
      assert front[..i] == ops[..i];
      RaisedStops(data, front, i);
      assert Run(data, front) == Run(data, ops[..i]);
    } else {
      assert ops[..i] == ops;
    }
  }

  // ---------------------------------------------------------------------
  // Properties

  /** `get` on a missing key leaves a nil entry behind and returns nil; on a present key
      it changes nothing. */
  lemma GetInsertsNil(data: Data, name: Key)
    ensures name !in data ==> Step(data, Op.Get(name)) == (data[name := Nil], Returned(Nil))
    ensures name in data ==> Step(data, Op.Get(name)) == (data, Returned(data[name]))
  {
  }

  /** `set` without a block overwrites the key and returns nil; a later `get` sees the value. */
  lemma SetThenGet(data: Data, name: Key, value: Value)
    ensures Step(data, Op.Set(name, value, NoBlock)) == (data[name := value], Returned(Nil))
    ensures Step(Step(data, Op.Set(name, value, NoBlock)).0, Op.Get(name)).1 == Returned(value)
  {
  }

  /** `set` with a block: after a normal return the key holds its value from before the
      call, and nil when it was missing (the key is then present with nil). */
  lemma ScopedSetRestores(data: Data, name: Key, value: Value, ops: seq<Op>)
    requires Run(GetStep(data, name).0[name := value], ops).1.Returned?
    ensures var (d1, o) := Step(data, Op.Set(name, value, Block(ops)));
      o == Returned(Nil) && name in d1 && d1[name] == At(data, name)
  {
  }

  /** Nested scoped sets on one key unwind in LIFO order. */
  lemma NestedScopedSets(data: Data, name: Key, outer: Value, inner: Value, ops: seq<Op>)
    requires Run(data[name := outer][name := inner], ops).1.Returned?
    ensures var innerSet := Step(data[name := outer], Op.Set(name, inner, Block(ops)));
      innerSet.1 == Returned(Nil) && innerSet.0[name] == outer
    ensures var outerSet := Step(data, Op.Set(name, outer, Block([Op.Set(name, inner, Block(ops))])));
      outerSet.1 == Returned(Nil) && outerSet.0[name] == At(data, name)
  {
    var d1 := data[name := outer];
    var innerOp := Op.Set(name, inner, Block(ops));
    assert GetStep(d1, name).0 == d1;
    ScopedSetRestores(d1, name, inner, ops);
    assert GetStep(data, name).0[name := outer] == d1;
    RunSnoc(d1, [], innerOp);
    assert [] + [innerOp] == [innerOp];
    ScopedSetRestores(data, name, outer, [innerOp]);
  }

  /** There is no `ensure`: an exception in the block leaves the scoped value set. */
  lemma ScopedSetLeaksOnRaise(data: Data, name: Key, value: Value)
    ensures Step(data, Op.Set(name, value, Block([Op.Raise]))) == (data[name := value], Raised)
  {
    assert [Op.Raise][..0] == [];
    assert GetStep(data, name).0[name := value] == data[name := value];
  }

  lemma {:induction false} WriteBackSnapshot(data: Data, taken: Data, keys: seq<Key>, k: Key)
    ensures k in keys ==>
      (k in WriteBack(data, keys, Snapshot(taken, keys))
       && WriteBack(data, keys, Snapshot(taken, keys))[k] == At(taken, k))
    ensures k !in keys ==>
      ((k in WriteBack(data, keys, Snapshot(taken, keys)) <==> k in data)
       && (k in data ==> WriteBack(data, keys, Snapshot(taken, keys))[k] == data[k]))
  {
    if keys != [] {
      var front := keys[..|keys| - 1];
      assert Snapshot(taken, keys)[..|keys| - 1] == Snapshot(taken, front);
      WriteBackSnapshot(data, taken, front, k);
      assert k in keys <==> k in front || k == keys[|keys| - 1];
    }
  }

  /** `remember`: after a normal return exactly the listed keys hold their snapshot (nil
      for a key that was missing), the others hold what the block left, and the block's
      value is returned. */
  lemma RememberRestores(data: Data, keys: seq<Key>, ops: seq<Op>, k: Key)
    requires Run(data, ops).1.Returned?
    ensures Step(data, Op.Remember(keys, Block(ops))).1 == Run(data, ops).1
    ensures k in keys ==> var d1 := Step(data, Op.Remember(keys, Block(ops))).0;
      k in d1 && d1[k] == At(data, k)
    ensures k !in keys ==> var d1 := Step(data, Op.Remember(keys, Block(ops))).0;
      (k in d1 <==> k in Run(data, ops).0) && (k in d1 ==> d1[k] == Run(data, ops).0[k])
  {
    WriteBackSnapshot(Run(data, ops).0, data, keys, k);
  }

  // ---------------------------------------------------------------------
  // The store as the source keeps it

  class Store {
    var data: Data

    constructor ()
      ensures data == map[]
    {
      data := map[];
    }

    /** `Store.get(name)` */
    method Get(name: Key) returns (v: Value)
      modifies this
      ensures (data, Returned(v)) == Step(old(data), Op.Get(name))
    {
      if name !in data {
        data := data[name := Nil];
      }
      v := data[name];
    }

    /** `Store.set(name, value, &block)` */
    method Set(name: Key, value: Value, block: Block) returns (o: Outcome)
      modifies this
      ensures (data, o) == Step(old(data), Op.Set(name, value, block))
      decreases block
    {
      if block.Block? {
        var prev := Get(name);
        data := data[name := value];
        o := RunBlock(block.ops);
        if o.Returned? {
          data := data[name := prev];
          o := Returned(Nil);
        }
      } else {
        data := data[name := value];
        o := Returned(Nil);
      }
    }

    /** `Store.remember(keys, &block)` */
    method Remember(keys: seq<Key>, block: Block) returns (o: Outcome)
      modifies this
      ensures (data, o) == Step(old(data), Op.Remember(keys, block))
      decreases block
    {
      var values := [];
      var i := 0;
      while i < |keys|
        invariant 0 <= i <= |keys|
        invariant data == old(data)
        invariant values == Snapshot(data, keys[..i])
      {
        assert keys[..i + 1][..i] == keys[..i];
        values := values + [At(data, keys[i])];
        i := i + 1;
      }
      assert keys[..|keys|] == keys;
      if block.NoBlock? {
        return Raised;
      }
      o := RunBlock(block.ops);
      if o.Raised? {
        return;
      }
      i := 0;
      ghost var before := data;
      while i < |keys|
        invariant 0 <= i <= |keys|
        invariant data == WriteBack(before, keys[..i], values[..i])
      {
        assert keys[..i + 1][..i] == keys[..i];
        assert values[..i + 1][..i] == values[..i];
        data := data[keys[i] := values[i]];
        i := i + 1;
      }
      assert values[..|keys|] == values;
    }

    method Perform(op: Op) returns (o: Outcome)
      modifies this
      ensures (data, o) == Step(old(data), op)
      decreases op
    {
      match op
      case Set(name, value, block) => o := Set(name, value, block);
      case Get(name) =>
        var v := Get(name);
        o := Returned(v);
      case Remember(keys, block) => o := Remember(keys, block);
      case Raise => o := Raised;
    }

    /** `block.call` on a given block. */
    method RunBlock(ops: seq<Op>) returns (o: Outcome)
      modifies this
      ensures (data, o) == Run(old(data), ops)
      decreases ops
    {
      o := Returned(Nil);
      var i := 0;
      while i < |ops| && o.Returned?
        invariant 0 <= i <= |ops|
        invariant (data, o) == Run(old(data), ops[..i])
      {
        assert ops[..i + 1][..i] == ops[..i];
        o := Perform(ops[i]);
        i := i + 1;
      }
      if i < |ops| {
        RaisedStops(old(data), ops, i);
      } else {
        assert ops[..i] == ops;
      }
    }
  }
}
