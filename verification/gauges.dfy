/** The in-flight gauge registry each request pipeline keeps: a dictionary
    from gauge identity to a boxed `int` counter. The first touch of a key
    creates the counter and registers a gauge reading it with the metrics
    sink; increments and decrements are unchecked 32-bit operations. */
module Gauges {
  import opened Wrappers
  import opened GaugeOptions

  datatype GaugeRegistry = GaugeRegistry(values: map<GaugeKey, Int32>, registered: seq<GaugeKey>) {
    /** Every counter was registered with the sink exactly once. */
    ghost predicate Valid() {
      && (forall k :: k in values <==> k in registered)
      && (forall i, j :: 0 <= i < j < |registered| ==> registered[i] != registered[j])
    }

    /** `GetOrAdd`: an existing counter is reused; a missing one starts at 0
        and its gauge is registered. */
    function GetOrAdd(key: GaugeKey): (r: GaugeRegistry)
      ensures key in r.values
      ensures key in values ==> r == this
      ensures key !in values ==> r.values == values[key := 0] && r.registered == registered + [key]
    {
      if key in values then this
      else GaugeRegistry(values[key := 0], registered + [key])
    }

    /** `Interlocked.Increment(ref GetGaugeValue(key).Value)`. */
    function Increment(key: GaugeKey): (r: GaugeRegistry)
      ensures key in r.values
    {
      var g := GetOrAdd(key);
      g.(values := g.values[key := Wrap32(g.values[key] as int + 1)])
    }

    /** `Interlocked.Decrement(ref gauges[key].Value)`: the indexer throws
        when the key was never added, which is `None` here. */
    function Decrement(key: GaugeKey): (r: Option<GaugeRegistry>)
      ensures r.None? <==> key !in values
    {
      if key !in values then None
      else Some(this.(values := values[key := Wrap32(values[key] as int - 1)]))
    }
  }

  const Empty := GaugeRegistry(map[], [])

  // ---------------------------------------------------------------------

  lemma EmptyValid()
    ensures Empty.Valid()
  {
  }

  /** Adding, incrementing and decrementing keep each counter registered
      exactly once. */
  lemma OperationsPreserveValid(g: GaugeRegistry, key: GaugeKey)
    requires g.Valid()
    ensures g.GetOrAdd(key).Valid()
    ensures g.Increment(key).Valid()
    ensures g.Decrement(key).Some? ==> g.Decrement(key).value.Valid()
  {
    var a := g.GetOrAdd(key);
    if key !in g.values {
      assert key !in g.registered;
      forall i, j | 0 <= i < j < |a.registered| ensures a.registered[i] != a.registered[j] {
        if j == |g.registered| { assert a.registered[i] == g.registered[i]; }
      }
    }
  }

  /** An increment adds one (modulo 2^32) to its own counter, starting
      from 0 for a new one, and touches no other counter. */
  lemma IncrementEffect(g: GaugeRegistry, key: GaugeKey)
    ensures g.Increment(key).values[key] == Wrap32((if key in g.values then g.values[key] as int else 0) + 1)
    ensures forall k :: k in g.values && k != key ==>
              k in g.Increment(key).values && g.Increment(key).values[k] == g.values[k]
    ensures g.Increment(key).values.Keys == g.values.Keys + {key}
  {
  }

  /** A decrement on a counter that exists subtracts one from it modulo
      2^32, keeps every other counter and registers nothing. */
  lemma DecrementEffect(g: GaugeRegistry, key: GaugeKey)
    ensures key in g.values ==>
              && g.Decrement(key).Some?
              && g.Decrement(key).value.values[key] == Wrap32(g.values[key] as int - 1)
              && g.Decrement(key).value.values.Keys == g.values.Keys
              && (forall k :: k in g.values && k != key ==> g.Decrement(key).value.values[k] == g.values[k])
              && g.Decrement(key).value.registered == g.registered
  {
  }

  /** A decrement right after an increment of the same key gives back the
      registry as it was after the key's first touch: every counter holds
      its prior value (a new one holds 0). */
  lemma {:induction false} IncrementThenDecrement(g: GaugeRegistry, key: GaugeKey)
    ensures g.Increment(key).Decrement(key) == Some(g.GetOrAdd(key))
  {
    var a := g.GetOrAdd(key);
    var v := a.values[key];
    WrapInverse(v);
    assert a.values[key := Wrap32(v as int + 1)][key := Wrap32(Wrap32(v as int + 1) as int - 1)] == a.values;
  }

  /** Incrementing two different counters and then decrementing both, in
      the same order, gives back the registry as it was after both keys'
      first touch. */
  lemma {:induction false} PairRoundTrip(g: GaugeRegistry, a: GaugeKey, b: GaugeKey)
    requires a != b
    ensures g.Increment(a).Increment(b).Decrement(a).Some?
    ensures g.Increment(a).Increment(b).Decrement(a).value.Decrement(b) == Some(g.GetOrAdd(a).GetOrAdd(b))
  {
    IncrementThenDecrement(g, a);
    DecrementPassesIncrement(g.Increment(a), a, b);
    IncrementThenDecrement(g.GetOrAdd(a), b);
  }

  /** Decrementing one counter commutes with incrementing another. */
  lemma DecrementPassesIncrement(x: GaugeRegistry, a: GaugeKey, b: GaugeKey)
    requires a != b && a in x.values
    ensures x.Increment(b).Decrement(a) == Some(x.Decrement(a).value.Increment(b))
  {
    var y := x.GetOrAdd(b);
    var da := Wrap32(x.values[a] as int - 1);
    var ib := Wrap32(y.values[b] as int + 1);
    var up := x.Increment(b);
    assert up == y.(values := y.values[b := ib]);
    assert up.values[a] == x.values[a];
    var left := up.Decrement(a).value;
    assert left == y.(values := y.values[b := ib][a := da]);
    var w := x.Decrement(a).value.GetOrAdd(b);
    assert w == y.(values := y.values[a := da]);
    assert w.values[b] == y.values[b];
    var right := x.Decrement(a).value.Increment(b);
    assert right == y.(values := y.values[a := da][b := ib]);
    assert y.values[b := ib][a := da] == y.values[a := da][b := ib];
  }

  /** Touching two counters one after the other keeps the registry valid,
      whichever way each goes. */
  lemma PairStepsValid(g: GaugeRegistry, a: GaugeKey, b: GaugeKey)
    requires g.Valid()
    ensures g.Increment(a).Increment(b).Valid()
    ensures g.Decrement(a).Some? ==> g.Decrement(a).value.Valid()
    ensures g.Decrement(a).Some? && g.Decrement(a).value.Decrement(b).Some? ==>
              g.Decrement(a).value.Decrement(b).value.Valid()
  {
    OperationsPreserveValid(g, a);
    OperationsPreserveValid(g.Increment(a), b);
    if g.Decrement(a).Some? {
      OperationsPreserveValid(g.Decrement(a).value, b);
    }
  }

  lemma WrapInverse(v: Int32)
    ensures Wrap32(Wrap32(v as int + 1) as int - 1) == v
  {
    if v == 0x7FFF_FFFF {
      WrapCongruent(v as int + 1, -0x8000_0000);
      WrapCongruent(-0x8000_0000 - 1, v as int);
    } else {
      WrapCongruent(v as int + 1, v as int + 1 - 0);
    }
  }

  /** A key is registered once no matter how many times it is touched. */
  lemma {:induction false} RegisteredOnce(g: GaugeRegistry, keys: seq<GaugeKey>)
    requires g.Valid()
    ensures TouchAll(g, keys).Valid()
    ensures forall k :: k in TouchAll(g, keys).values <==> k in g.values || k in keys
    decreases |keys|
  {
    if keys != [] {
      OperationsPreserveValid(g, keys[0]);
      RegisteredOnce(g.Increment(keys[0]), keys[1..]);
      assert forall k :: k in keys <==> k == keys[0] || k in keys[1..];
    }
  }

  /** The registry after incrementing the given keys in order. */
  function TouchAll(g: GaugeRegistry, keys: seq<GaugeKey>): GaugeRegistry
    decreases |keys|
  {
    if keys == [] then g else TouchAll(g.Increment(keys[0]), keys[1..])
  }
}
