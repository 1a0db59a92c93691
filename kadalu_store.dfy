/** The global configuration store of the current generation
    (lib/kadalu/binnacle/store.rb): a key/value table `data`, a table of
    registered `defaults`, scoped overrides, per-entry hash overrides, an
    auto-initialised counter, `remember` and `reset`.

    A Ruby block given to a store operation is modelled as a `Block` of store
    operations; `Raise` stands for any exception escaping from the block. */
module KadaluStore {
  import opened Values

  datatype Block = NoBlock | Block(ops: seq<Op>)

  datatype Op =
    | Set(name: Key, value: Value, block: Block)
    | HashSet(hashName: Key, name: Key, value: Value, block: Block)
    | HashRemove(hashName: Key, name: Key, block: Block)
    | Inc(name: Key)
    | Get(name: Key)
    | Remember(keys: seq<Key>, block: Block)
    | DefaultValue(key: Key, value: Value)
    | Reset
    | Raise

  /** What the store holds: `@data` and `@default_values`. */
  datatype State = State(data: map<Key, Value>, defaults: map<Key, Value>)

  /** `Store.get`: the value in `data`, else the registered default, else nil. */
  function Lookup(s: State, name: Key): (v: Value)
    ensures name in s.data ==> v == s.data[name]
    ensures name !in s.data && name in s.defaults ==> v == s.defaults[name]
    ensures name !in s.data && name !in s.defaults ==> v == Nil
  {
    if name in s.data then s.data[name]
    else if name in s.defaults then s.defaults[name]
    else Nil
  }

  /** `@data[hash_name] = {} unless @data.key?(hash_name)` */
  function EnsureHash(s: State, hashName: Key): State {
    if hashName in s.data then s else s.(data := s.data[hashName := Hash(map[])])
  }

  predicate HoldsHash(s: State, hashName: Key) {
    hashName in s.data && s.data[hashName].Hash?
  }

  /** `@data[hash_name][name] = value` */
  function PutEntry(s: State, hashName: Key, name: Key, value: Value): State
    requires HoldsHash(s, hashName)
  {
    s.(data := s.data[hashName := Hash(s.data[hashName].h[name := value])])
  }

  /** `@data[hash_name].delete(name)` */
  function DeleteEntry(s: State, hashName: Key, name: Key): State
    requires HoldsHash(s, hashName)
  {
    s.(data := s.data[hashName := Hash(s.data[hashName].h - {name})])
  }

  /** The values `@data[key]` held for each listed key (nil when absent; defaults are not consulted). */
  function Snapshot(data: map<Key, Value>, keys: seq<Key>): (vs: seq<Value>)
    ensures |vs| == |keys|
  {
    if keys == [] then []
    else Snapshot(data, keys[..|keys| - 1]) + [At(data, keys[|keys| - 1])]
  }

  /** `keys.each_with_index { |key, idx| @data[key] = values[idx] }` */
  function WriteBack(data: map<Key, Value>, keys: seq<Key>, values: seq<Value>): map<Key, Value>
    requires |values| == |keys|
  {
    if keys == [] then data
    else WriteBack(data, keys[..|keys| - 1], values[..|keys| - 1])[keys[|keys| - 1] := values[|keys| - 1]]
  }

  /** `block.call`: the statements in order, stopping at the first exception; the value
      of the last statement, nil for an empty block. A missing block raises. */
  function CallBlock(s: State, block: Block): (State, Outcome)
    decreases block
  {
    if block.NoBlock? then (s, Raised) else Run(s, block.ops)
  }

  function Run(s: State, ops: seq<Op>): (State, Outcome)
    decreases ops
  {
    if ops == [] then (s, Returned(Nil))
    else
      var (s1, o1) := Run(s, ops[..|ops| - 1]);
      if o1.Raised? then (s1, Raised) else Step(s1, ops[|ops| - 1])
  }

  /** `inc`: an absent key starts at 1, an integer goes one up, anything else raises. */
  function Increment(s: State, name: Key): (State, Outcome) {
    if name !in s.data then (s.(data := s.data[name := Int(1)]), Returned(Int(1)))
    else if s.data[name].Int? then
      (s.(data := s.data[name := Int(s.data[name].i + 1)]), Returned(Int(s.data[name].i + 1)))
    else (s, Raised)
  }

  /** One store operation, as store.rb performs it. */
  function Step(s: State, op: Op): (State, Outcome)
    decreases op
  {
    match op
    case Set(name, value, block) =>
      if block.NoBlock? then (s.(data := s.data[name := value]), Returned(Nil))
      else
        var prev := Lookup(s, name);
        var (s1, o) := Run(s.(data := s.data[name := value]), block.ops);
        if o.Raised? then (s1, Raised)
        else (s1.(data := s1.data[name := prev]), Returned(Nil))
    case HashSet(hashName, name, value, block) =>
      var s0 := EnsureHash(s, hashName);
      if !HoldsHash(s0, hashName) then (s0, Raised)
      else if block.NoBlock? then (PutEntry(s0, hashName, name, value), Returned(Nil))
      else
        var prev := At(s0.data[hashName].h, name);
        var (s1, o) := Run(PutEntry(s0, hashName, name, value), block.ops);
        if o.Raised? || !HoldsHash(s1, hashName) then (s1, Raised)
        else if Truthy(prev) then (PutEntry(s1, hashName, name, prev), Returned(Nil))
        else (DeleteEntry(s1, hashName, name), Returned(Nil))
    case HashRemove(hashName, name, block) =>
      var s0 := EnsureHash(s, hashName);
      if !HoldsHash(s0, hashName) then (s0, Raised)
      else if block.NoBlock? then
        (if name in s0.data[hashName].h then DeleteEntry(s0, hashName, name) else s0, Returned(Nil))
      else
        var prev := At(s0.data[hashName].h, name);
        var (s1, o) := Run(if Truthy(prev) then DeleteEntry(s0, hashName, name) else s0, block.ops);
        if o.Raised? then (s1, Raised)
        else if !Truthy(prev) then (s1, Returned(Nil))
        else if !HoldsHash(s1, hashName) then (s1, Raised)
        else (PutEntry(s1, hashName, name, prev), Returned(Nil))
    case Inc(name) => Increment(s, name)
    case Get(name) => (s, Returned(Lookup(s, name)))
    case Remember(keys, block) =>
      var values := Snapshot(s.data, keys);
      var (s1, o) := CallBlock(s, block);
      if o.Raised? then (s1, Raised) else (s1.(data := WriteBack(s1.data, keys, values)), o)
    case DefaultValue(key, value) => (s.(defaults := s.defaults[key := value]), Returned(value))
    case Reset => (s.(data := map[]), Returned(Hash(map[])))
    case Raise => (s, Raised)
  }

  /** Once a statement raises, the rest of the block does not run. */
  lemma {:induction false} RaisedStops(s: State, ops: seq<Op>, i: nat)
    requires i <= |ops|
    requires Run(s, ops[..i]).1.Raised?
    ensures Run(s, ops) == Run(s, ops[..i])
    decreases |ops| - i
  {
    if i < |ops| {
      var front := ops[..|ops| - 1];
      assert front[..i] == ops[..i];
      RaisedStops(s, front, i);
      assert Run(s, front).1.Raised?;
      assert Run(s, front) == Run(s, ops[..i]);
    } else {
      assert ops[..i] == ops;
    }
  }

  // ---------------------------------------------------------------------
  // Properties of the store operations

  /** `set` without a block: `get` returns the new value; every other key reads as before. */
  lemma SetThenGet(s: State, name: Key, value: Value, other: Key)
    ensures Step(s, Op.Set(name, value, NoBlock)).1 == Returned(Nil)
    ensures Lookup(Step(s, Op.Set(name, value, NoBlock)).0, name) == value
    ensures other != name ==> Lookup(Step(s, Op.Set(name, value, NoBlock)).0, other) == Lookup(s, other)
  {
  }

  /** `set` with a block: the block sees the new value, and once the block returns
      normally `get` reads what it read before the `set` (the default included). */
  lemma ScopedSetRestores(s: State, name: Key, value: Value, ops: seq<Op>)
    requires Run(s.(data := s.data[name := value]), ops).1.Returned?
    ensures Step(s, Op.Set(name, value, Block(ops))).1 == Returned(Nil)
    ensures Lookup(Step(s, Op.Set(name, value, Block(ops))).0, name) == Lookup(s, name)
  {
    var r := Run(s.(data := s.data[name := value]), ops);
    assert Step(s, Op.Set(name, value, Block(ops))) == (r.0.(data := r.0.data[name := Lookup(s, name)]), Returned(Nil));
  }

  /** Scoped sets on one key unwind in LIFO order: each call saved its own previous value,
      so after the inner block the outer value is back, and after the outer block the
      value from before both calls. */
  lemma NestedScopedSets(s: State, name: Key, outer: Value, inner: Value, ops: seq<Op>)
    requires Run(s.(data := s.data[name := outer]).(data := s.data[name := outer][name := inner]), ops).1.Returned?
    ensures var innerSet := Step(s.(data := s.data[name := outer]), Op.Set(name, inner, Block(ops)));
      innerSet.1 == Returned(Nil) && Lookup(innerSet.0, name) == outer
    ensures var outerSet := Step(s, Op.Set(name, outer, Block([Op.Set(name, inner, Block(ops))])));
      outerSet.1 == Returned(Nil) && Lookup(outerSet.0, name) == Lookup(s, name)
  {
    var s1 := s.(data := s.data[name := outer]);
    var innerOp := Op.Set(name, inner, Block(ops));
    ScopedSetRestores(s1, name, inner, ops);
    RunSnoc(s1, [], innerOp);
    assert [] + [innerOp] == [innerOp];
    ScopedSetRestores(s, name, outer, [innerOp]);
  }

  /** The source restores without `ensure`: when the block raises, the scoped value stays set. */
  lemma ScopedSetLeaksOnRaise(s: State, name: Key, value: Value)
    ensures Step(s, Op.Set(name, value, Block([Op.Raise])))
      == (s.(data := s.data[name := value]), Raised)
    ensures Lookup(Step(s, Op.Set(name, value, Block([Op.Raise]))).0, name) == value
  {
    var s1 := s.(data := s.data[name := value]);
    assert [Op.Raise][..0] == [];
    assert Run(s1, [Op.Raise]) == (s1, Raised);
  }

  /** `hash_set` with a block: after a normal return the entry holds its earlier value
      again when that value was truthy, and is absent otherwise. */
  lemma ScopedHashSetRestores(s: State, hashName: Key, name: Key, value: Value, ops: seq<Op>)
    requires HoldsHash(EnsureHash(s, hashName), hashName)
    requires Step(s, Op.HashSet(hashName, name, value, Block(ops))).1.Returned?
    ensures var s1 := Step(s, Op.HashSet(hashName, name, value, Block(ops))).0;
      var prev := At(EnsureHash(s, hashName).data[hashName].h, name);
      HoldsHash(s1, hashName)
      && (Truthy(prev) ==> name in s1.data[hashName].h && s1.data[hashName].h[name] == prev)
      && (!Truthy(prev) ==> name !in s1.data[hashName].h)
  {
  }

  /** `hash_set` without a block creates the container when it is missing and stores the entry. */
  lemma HashSetStores(s: State, hashName: Key, name: Key, value: Value)
    requires hashName !in s.data || s.data[hashName].Hash?
    ensures var (s1, o) := Step(s, Op.HashSet(hashName, name, value, NoBlock));
      o == Returned(Nil) && HoldsHash(s1, hashName) && s1.data[hashName].h[name] == value
      && (hashName !in s.data ==> s1.data[hashName].h == map[name := value])
      && (hashName in s.data ==>
            forall n :: n != name && n in s.data[hashName].h ==>
              n in s1.data[hashName].h && s1.data[hashName].h[n] == s.data[hashName].h[n])
      && (forall n :: n in s1.data[hashName].h ==> n == name || (hashName in s.data && n in s.data[hashName].h))
      && (forall k :: k != hashName && k in s.data ==> k in s1.data && s1.data[k] == s.data[k])
      && s1.data.Keys == s.data.Keys + {hashName}
      && s1.defaults == s.defaults
  {
  }

  /** `hash_set`/`hash_remove` on a key that holds something other than a hash raise. */
  lemma HashOperationsNeedAHash(s: State, hashName: Key, name: Key, value: Value, block: Block)
    requires hashName in s.data && !s.data[hashName].Hash?
    ensures Step(s, Op.HashSet(hashName, name, value, block)) == (s, Raised)
    ensures Step(s, Op.HashRemove(hashName, name, block)) == (s, Raised)
  {
  }

  /** `hash_remove` with a block: the block runs without the entry, and after a normal
      return an entry that held a truthy value holds it again. */
  lemma ScopedHashRemoveRestores(s: State, hashName: Key, name: Key, ops: seq<Op>)
    requires HoldsHash(EnsureHash(s, hashName), hashName)
    requires Step(s, Op.HashRemove(hashName, name, Block(ops))).1.Returned?
    ensures var prev := At(EnsureHash(s, hashName).data[hashName].h, name);
      var s1 := Step(s, Op.HashRemove(hashName, name, Block(ops))).0;
      Truthy(prev) ==> HoldsHash(s1, hashName) && s1.data[hashName].h[name] == prev
    ensures var s0 := EnsureHash(s, hashName);
      var prev := At(s0.data[hashName].h, name);
      var s1 := Step(s, Op.HashRemove(hashName, name, Block(ops))).0;
      && (Truthy(prev) ==> s1 == PutEntry(Run(DeleteEntry(s0, hashName, name), ops).0, hashName, name, prev))
      && (!Truthy(prev) ==> s1 == Run(s0, ops).0)
  {
  }

  /** `hash_remove` without a block: the entry is gone and the other entries stay. */
  lemma HashRemoveRemoves(s: State, hashName: Key, name: Key)
    requires HoldsHash(s, hashName)
    ensures var s1 := Step(s, Op.HashRemove(hashName, name, NoBlock)).0;
      HoldsHash(s1, hashName) && s1.data[hashName].h == s.data[hashName].h - {name}
  {
    assert name !in s.data[hashName].h ==> s.data[hashName].h - {name} == s.data[hashName].h;
  }

  /** Running one more statement after a block prefix. */
  lemma RunSnoc(s: State, ops: seq<Op>, op: Op)
    ensures Run(s, ops + [op]) ==
      (if Run(s, ops).1.Raised? then (Run(s, ops).0, Raised) else Step(Run(s, ops).0, op))
  {
    assert (ops + [op])[..|ops|] == ops;
  }

  /** `inc` counts from 1 on a key that holds nothing: n calls leave n and return n. */
  lemma {:induction false} IncCounts(s: State, name: Key, n: nat)
    requires name !in s.data
    requires n > 0
    ensures Run(s, Repeat(Op.Inc(name), n)) == (s.(data := s.data[name := Int(n)]), Returned(Int(n)))
  {
    var front := Repeat(Op.Inc(name), n - 1);
    assert Repeat(Op.Inc(name), n) == front + [Op.Inc(name)];
    RunSnoc(s, front, Op.Inc(name));
    if n > 1 {
      IncCounts(s, name, n - 1);
      var s1 := s.(data := s.data[name := Int(n - 1)]);
      assert s1.data[name := Int(n)] == s.data[name := Int(n)];
    } else {
      assert front == [];
    }
  }

  /** `inc` on a key that holds something other than an integer raises and changes nothing. */
  lemma IncNeedsAnInteger(s: State, name: Key)
    requires name in s.data && !s.data[name].Int?
    ensures Step(s, Op.Inc(name)) == (s, Raised)
  {
  }

  /** `reset` empties the data and keeps the registered defaults. */
  lemma ResetKeepsDefaults(s: State, name: Key)
    ensures Step(s, Op.Reset).0.defaults == s.defaults
    ensures Lookup(Step(s, Op.Reset).0, name) == At(s.defaults, name)
  {
  }

  /** A registered default is what `get` returns until the key is set. */
  lemma DefaultVisibleUntilSet(s: State, key: Key, value: Value)
    ensures Step(s, Op.DefaultValue(key, value)).1 == Returned(value)
    ensures key !in s.data ==> Lookup(Step(s, Op.DefaultValue(key, value)).0, key) == value
    ensures key in s.data ==> Lookup(Step(s, Op.DefaultValue(key, value)).0, key) == s.data[key]
  {
  }

  /** Writing back a snapshot taken over the same keys gives each listed key its
      snapshot value and leaves unlisted keys alone. */
  lemma {:induction false} WriteBackSnapshot(data: map<Key, Value>, taken: map<Key, Value>, keys: seq<Key>, k: Key)
    ensures k in keys ==>
      (k in WriteBack(data, keys, Snapshot(taken, keys))
       && WriteBack(data, keys, Snapshot(taken, keys))[k] == At(taken, k))
    ensures k !in keys ==>
      ((k in WriteBack(data, keys, Snapshot(taken, keys)) <==> k in data)
       && (k in data ==> WriteBack(data, keys, Snapshot(taken, keys))[k] == data[k]))
  {
    if keys != [] {
      var front := keys[..|keys| - 1];
      var vs := Snapshot(taken, keys);
      assert vs[..|keys| - 1] == Snapshot(taken, front);
      WriteBackSnapshot(data, taken, front, k);
      assert k in keys <==> k in front || k == keys[|keys| - 1];
    }
  }

  /** `remember` with a block that returns normally: it returns the block's value, each
      listed key holds its `@data` value from before (nil when it was absent, which then
      hides a registered default), and unlisted keys keep what the block left. */
  lemma RememberRestores(s: State, keys: seq<Key>, ops: seq<Op>, k: Key)
    requires Run(s, ops).1.Returned?
    ensures Step(s, Op.Remember(keys, Block(ops))).1 == Run(s, ops).1
    ensures k in keys ==> Lookup(Step(s, Op.Remember(keys, Block(ops))).0, k) == At(s.data, k)
    ensures k !in keys ==> Lookup(Step(s, Op.Remember(keys, Block(ops))).0, k) == Lookup(Run(s, ops).0, k)
  {
    WriteBackSnapshot(Run(s, ops).0.data, s.data, keys, k);
  }

  /** `remember` without a block raises after taking the snapshot, changing nothing. */
  lemma RememberNeedsABlock(s: State, keys: seq<Key>)
    ensures Step(s, Op.Remember(keys, NoBlock)) == (s, Raised)
  {
  }

  // ---------------------------------------------------------------------
  // The store as the source keeps it: class-level hashes updated in place.

  class Store {
    var data: map<Key, Value>
    var defaults: map<Key, Value>

    function Current(): State
      reads this
    {
      State(data, defaults)
    }

    constructor ()
      ensures data == map[] && defaults == map[]
    {
      data := map[];
      defaults := map[];
    }

    /** `Store.get(name)` */
    function Get(name: Key): Value
      reads this
    {
      Lookup(Current(), name)
    }

    /** `Store.set(name, value, &block)` */
    method Set(name: Key, value: Value, block: Block) returns (o: Outcome)
      modifies this
      ensures (Current(), o) == Step(old(Current()), Op.Set(name, value, block))
      decreases block
    {
      if block.Block? {
        var prev := Get(name);
        data := data[name := value];
        o := RunBlock(block.ops);
        if o.Returned? {
          data := data[name := prev];
          o := Returned(Nil);
        }
      } else {
        data := data[name := value];
        o := Returned(Nil);
      }
    }

    /** `Store.hash_set(hash_name, name, value, &block)` */
    method HashSet(hashName: Key, name: Key, value: Value, block: Block) returns (o: Outcome)
      modifies this
      ensures (Current(), o) == Step(old(Current()), Op.HashSet(hashName, name, value, block))
      decreases block
    {
      if hashName !in data {
        data := data[hashName := Hash(map[])];
      }
      if !data[hashName].Hash? {
        return Raised;
      }
      if block.Block? {
        var prev := At(data[hashName].h, name);
        data := data[hashName := Hash(data[hashName].h[name := value])];
        o := RunBlock(block.ops);
        if o.Raised? || hashName !in data || !data[hashName].Hash? {
          return Raised;
        }
        if Truthy(prev) {
          data := data[hashName := Hash(data[hashName].h[name := prev])];
        } else {
          data := data[hashName := Hash(data[hashName].h - {name})];
        }
        o := Returned(Nil);
      } else {
        data := data[hashName := Hash(data[hashName].h[name := value])];
        o := Returned(Nil);
      }
    }

    /** `Store.hash_remove(hash_name, name, &block)` */
    method HashRemove(hashName: Key, name: Key, block: Block) returns (o: Outcome)
      modifies this
      ensures (Current(), o) == Step(old(Current()), Op.HashRemove(hashName, name, block))
      decreases block
    {
      if hashName !in data {
        data := data[hashName := Hash(map[])];
      }
      if !data[hashName].Hash? {
        return Raised;
      }
      if block.Block? {
        var prev := At(data[hashName].h, name);
        if Truthy(prev) {
          data := data[hashName := Hash(data[hashName].h - {name})];
        }
        o := RunBlock(block.ops);
        if o.Raised? {
          return Raised;
        }
        if Truthy(prev) {
          if hashName !in data || !data[hashName].Hash? {
            return Raised;
          }
          data := data[hashName := Hash(data[hashName].h[name := prev])];
        }
        o := Returned(Nil);
      } else {
        if name in data[hashName].h {
          data := data[hashName := Hash(data[hashName].h - {name})];
        }
        o := Returned(Nil);
      }
    }

    /** `Store.inc(name)` */
    method Inc(name: Key) returns (o: Outcome)
      modifies this
      ensures (Current(), o) == Step(old(Current()), Op.Inc(name))
    {
      // `@data[name] = 0 unless @data.key?(name)`, then `@data[name] += 1`
      var current := if name in data then data[name] else Int(0);
      if !current.Int? {
        return Raised;
      }
      data := data[name := Int(current.i + 1)];
      o := Returned(Int(current.i + 1));
    }

    /** `Store.remember(keys, &block)` */
    method Remember(keys: seq<Key>, block: Block) returns (o: Outcome)
      modifies this
      ensures (Current(), o) == Step(old(Current()), Op.Remember(keys, block))
      decreases block
    {
      var values := TakeSnapshot(keys);
      if block.NoBlock? {
        assert CallBlock(old(Current()), block) == (old(Current()), Raised);
        return Raised;
      }
      assert CallBlock(old(Current()), block) == Run(old(Current()), block.ops);
      o := RunBlock(block.ops);
      ghost var s1 := Current();
      if o.Raised? {
        assert Step(old(Current()), Op.Remember(keys, block)) == (s1, Raised);
        return;
      }
      assert Step(old(Current()), Op.Remember(keys, block)) == (s1.(data := WriteBack(s1.data, keys, values)), o);
      PutBack(keys, values);
    }

    /** `values = keys.map { |key| @data[key] }` */
    method TakeSnapshot(keys: seq<Key>) returns (values: seq<Value>)
      ensures values == Snapshot(data, keys)
    {
      values := [];
      var i := 0;
      while i < |keys|
        invariant 0 <= i <= |keys|
        invariant values == Snapshot(data, keys[..i])
      {
        assert keys[..i + 1][..i] == keys[..i];
        values := values + [At(data, keys[i])];
        i := i + 1;
      }
      assert keys[..|keys|] == keys;
    }

    /** The write-back loop of `remember`. */
    method PutBack(keys: seq<Key>, values: seq<Value>)
      requires |values| == |keys|
      modifies this
      ensures data == WriteBack(old(data), keys, values) && defaults == old(defaults)
    {
      var i := 0;
      while i < |keys|
        invariant 0 <= i <= |keys|
        invariant defaults == old(defaults)
        invariant data == WriteBack(old(data), keys[..i], values[..i])
      {
        assert keys[..i + 1][..i] == keys[..i];
        assert values[..i + 1][..i] == values[..i];
        data := data[keys[i] := values[i]];
        i := i + 1;
      }
      assert keys[..|keys|] == keys;
      assert values[..|keys|] == values;
    }

    /** `Store.default_value(key, value)` */
    method DefaultValue(key: Key, value: Value) returns (o: Outcome)
      modifies this
      ensures (Current(), o) == Step(old(Current()), Op.DefaultValue(key, value))
    {
      defaults := defaults[key := value];
      o := Returned(value);
    }

    /** `Store.reset` */
    method Reset() returns (o: Outcome)
      modifies this
      ensures (Current(), o) == Step(old(Current()), Op.Reset)
    {
      data := map[];
      o := Returned(Hash(map[]));
    }

    /** One statement of a block. */
    method Perform(op: Op) returns (o: Outcome)
      modifies this
      ensures (Current(), o) == Step(old(Current()), op)
      decreases op
    {
      match op
      case Set(name, value, block) => o := Set(name, value, block);
      case HashSet(hashName, name, value, block) => o := HashSet(hashName, name, value, block);
      case HashRemove(hashName, name, block) => o := HashRemove(hashName, name, block);
      case Inc(name) => o := Inc(name);
      case Get(name) => o := Returned(Get(name));
      case Remember(keys, block) => o := Remember(keys, block);
      case DefaultValue(key, value) => o := DefaultValue(key, value);
      case Reset => o := Reset();
      case Raise => o := Raised;
    }

    /** `block.call` on a given block. */
    method RunBlock(ops: seq<Op>) returns (o: Outcome)
      modifies this
      ensures (Current(), o) == Run(old(Current()), ops)
      decreases ops
    {
      o := Returned(Nil);
      var i := 0;
      while i < |ops| && o.Returned?
        invariant 0 <= i <= |ops|
        invariant (Current(), o) == Run(old(Current()), ops[..i])
      {
        assert ops[..i + 1][..i] == ops[..i];
        o := Perform(ops[i]);
        i := i + 1;
      }
      if i < |ops| {
        RaisedStops(old(Current()), ops, i);
      } else {
        assert ops[..i] == ops;
      }
    }
  }
}
