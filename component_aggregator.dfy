/** The map aggregator: a key-to-value map held in a field and merged in
    place with each contribution. A key the map lacks takes the incoming
    value; a key it has is resolved by the aggregator's merge policy
    (overwrite, 32-bit integer sum, component-wise maximum or minimum of an
    (x, y) pair). */
module ComponentAggregators {
  import opened JavaInts

  /** A MapWritable: a mutable map object that callers may share. */
  class MapBox<K(==), V> {
    var contents: map<K, V>

    constructor ()
      ensures contents == map[]
    {
      contents := map[];
    }
  }

  /** The merge result of the whole aggregation: the stored map after every
      entry of `incoming` has been put in, the shared keys resolved by
      merge(stored, incoming). */
  function Merged<K, V>(stored: map<K, V>, incoming: map<K, V>, merge: (V, V) -> V): (r: map<K, V>)
    ensures r.Keys == stored.Keys + incoming.Keys
    ensures forall k :: k in incoming && k !in stored ==> r[k] == incoming[k]
    ensures forall k :: k in stored && k !in incoming ==> r[k] == stored[k]
    ensures forall k :: k in stored && k in incoming ==> r[k] == merge(stored[k], incoming[k])
  {
    map k | k in stored.Keys + incoming.Keys ::
      if k !in stored then incoming[k]
      else if k in incoming then merge(stored[k], incoming[k])
      else stored[k]
  }

  /** The entries of m whose keys are in ks. */
  function Restrict<K, V>(m: map<K, V>, ks: set<K>): (r: map<K, V>)
    ensures r.Keys == m.Keys * ks
    ensures forall k :: k in r ==> r[k] == m[k]
  {
    map k | k in m.Keys * ks :: m[k]
  }

  /** One entry put into the stored map: inserted when its key is absent,
      merged with the stored value otherwise. */
  function Put<K, V>(m: map<K, V>, k: K, v: V, merge: (V, V) -> V): map<K, V>
  {
    if k !in m then m[k := v] else m[k := merge(m[k], v)]
  }

  /** One more entry of the same contribution: merging the entries in `done`
      and then the entry for key k is merging the entries in done + {k}. */
  lemma {:induction false} MergedStep<K, V>(stored: map<K, V>, incoming: map<K, V>, merge: (V, V) -> V, done: set<K>, k: K)
    requires k in incoming && k !in done
    ensures Merged(stored, Restrict(incoming, done + {k}), merge)
            == Put(Merged(stored, Restrict(incoming, done), merge), k, incoming[k], merge)
  {
    var before := Merged(stored, Restrict(incoming, done), merge);
    var after := Merged(stored, Restrict(incoming, done + {k}), merge);
    var expected := before[k := if k in before then merge(before[k], incoming[k]) else incoming[k]];
    assert k in before <==> k in stored;
    forall j | j in after
      ensures j in expected && after[j] == expected[j]
    {
      if j == k {
      } else if j in incoming && j in done {
      } else {
      }
    }
    assert after.Keys == expected.Keys;
  }

  lemma RestrictNone<K, V>(m: map<K, V>)
    ensures Restrict(m, m.Keys - m.Keys) == map[]
  {
  }

  lemma RestrictAll<K, V>(m: map<K, V>)
    ensures Restrict(m, m.Keys - {}) == m
  {
  }

  lemma VisitOne<K>(keys: set<K>, remaining: set<K>, k: K)
    requires k in remaining && remaining <= keys
    ensures (keys - remaining) + {k} == keys - (remaining - {k})
  {
  }

  class ComponentAggregator<K(==), V> {
    /** The policy that resolves a key present on both sides: merge(stored, incoming). */
    const merge: (V, V) -> V
    var internalState: MapBox?<K, V>

    /** An aggregator holds no map until one is set. */
    constructor (merge: (V, V) -> V)
      ensures this.merge == merge && internalState == null
    {
      this.merge := merge;
      internalState := null;
    }

    /** Puts every entry of `incoming` into the held map: an absent key takes
        the incoming value, a present key the policy's value. The entries are
        visited in an unspecified order, which does not matter since each key
        occurs once. */
    method Aggregate(incoming: MapBox<K, V>)
      requires internalState != null
      modifies internalState
      ensures internalState == old(internalState)
      ensures internalState.contents == Merged(old(internalState.contents), old(incoming.contents), merge)
    {
      var entries := incoming.contents;
      var state := internalState;
      ghost var stored := state.contents;
      var remaining := entries.Keys;
      RestrictNone(entries);
      while remaining != {}
        invariant remaining <= entries.Keys
        invariant state.contents == Merged(stored, Restrict(entries, entries.Keys - remaining), merge)
        decreases |remaining|
      {
        var k :| k in remaining;
        MergedStep(stored, entries, merge, entries.Keys - remaining, k);
        VisitOne(entries.Keys, remaining, k);
        state.contents := Put(state.contents, k, entries[k], merge);
        remaining := remaining - {k};
      }
      RestrictAll(entries);
    }

    /** A new empty map; the held map is left as it is. */
    method CreateInitialValue() returns (m: MapBox<K, V>)
      ensures fresh(m) && m.contents == map[]
    {
      m := new MapBox();
    }

    method GetAggregatedValue() returns (m: MapBox?<K, V>)
      ensures m == internalState
    {
      m := internalState;
    }

    /** Empties the held map object in place, as seen by everyone sharing it. */
    method Reset()
      requires internalState != null
      modifies internalState
      ensures internalState == old(internalState) && internalState.contents == map[]
    {
      internalState.contents := map[];
    }

    /** Installs the given map object itself as the held state. */
    method SetAggregatedValue(m: MapBox<K, V>)
      modifies this
      ensures internalState == m
    {
      internalState := m;
    }
  }

  /** The overwrite policy: the incoming value replaces the stored one. */
  function Overwrite<V>(stored: V, incoming: V): (r: V)
    ensures r == incoming
  {
    incoming
  }

  /** The integer-sum policy: Java `int` addition, wrapping at 32 bits. */
  function IntSum(stored: int32, incoming: int32): (r: int32)
    ensures (r - (stored + incoming)) % TWO_32 == 0
    ensures INT_MIN <= stored + incoming <= INT_MAX ==> r == stored + incoming
  {
    Add32(incoming, stored)
  }

  /** The `float[]{x, y}` a coordinate aggregator stores, its values taken
      as exact reals. */
  datatype XY = XY(x: real, y: real)

  function Max(a: real, b: real): real { if a >= b then a else b }
  function Min(a: real, b: real): real { if a <= b then a else b }

  /** The maximum policy: each coordinate the larger of the two. */
  function XYMax(stored: XY, incoming: XY): (r: XY)
    ensures r.x >= stored.x && r.x >= incoming.x && (r.x == stored.x || r.x == incoming.x)
    ensures r.y >= stored.y && r.y >= incoming.y && (r.y == stored.y || r.y == incoming.y)
  {
    XY(Max(incoming.x, stored.x), Max(incoming.y, stored.y))
  }

  /** The minimum policy: each coordinate the smaller of the two. */
  function XYMin(stored: XY, incoming: XY): (r: XY)
    ensures r.x <= stored.x && r.x <= incoming.x && (r.x == stored.x || r.x == incoming.x)
    ensures r.y <= stored.y && r.y <= incoming.y && (r.y == stored.y || r.y == incoming.y)
  {
    XY(Min(incoming.x, stored.x), Min(incoming.y, stored.y))
  }

  ghost predicate Commutative<V(!new)>(merge: (V, V) -> V) {
    forall a, b :: merge(a, b) == merge(b, a)
  }

  ghost predicate Associative<V(!new)>(merge: (V, V) -> V) {
    forall a, b, c :: merge(merge(a, b), c) == merge(a, merge(b, c))
  }

  ghost predicate Idempotent<V(!new)>(merge: (V, V) -> V) {
    forall a :: merge(a, a) == a
  }

  /** With the overwrite policy an aggregation is a map update by the
      contribution, and repeating it changes nothing. */
  lemma OverwriteIsUpdate<K, V>(stored: map<K, V>, incoming: map<K, V>)
    ensures Merged(stored, incoming, Overwrite) == stored + incoming
    ensures Merged(Merged(stored, incoming, Overwrite), incoming, Overwrite) == Merged(stored, incoming, Overwrite)
  {
  }

  /** Under a commutative, associative policy two contributions can be
      aggregated in either order. */
  lemma {:induction false} AggregationsCommute<K, V(!new)>(stored: map<K, V>, a: map<K, V>, b: map<K, V>, merge: (V, V) -> V)
    requires Commutative(merge) && Associative(merge)
    ensures Merged(Merged(stored, a, merge), b, merge) == Merged(Merged(stored, b, merge), a, merge)
  {
    var ab := Merged(Merged(stored, a, merge), b, merge);
    var ba := Merged(Merged(stored, b, merge), a, merge);
    forall k | k in ab
      ensures k in ba && ab[k] == ba[k]
    {
      if k in stored && k in a && k in b {
        assert ab[k] == merge(merge(stored[k], a[k]), b[k]);
        assert ba[k] == merge(merge(stored[k], b[k]), a[k]);
        calc {
          merge(merge(stored[k], a[k]), b[k]);
          merge(stored[k], merge(a[k], b[k]));
          { assert merge(a[k], b[k]) == merge(b[k], a[k]); }
          merge(stored[k], merge(b[k], a[k]));
          merge(merge(stored[k], b[k]), a[k]);
        }
      } else if k !in stored && k in a && k in b {
        assert ab[k] == merge(a[k], b[k]);
        assert ba[k] == merge(b[k], a[k]);
      }
    }
    assert ab.Keys == ba.Keys;
  }

  /** Under an idempotent policy aggregating the same contribution twice is
      aggregating it once. */
  lemma {:induction false} AggregationIdempotent<K, V(!new)>(stored: map<K, V>, a: map<K, V>, merge: (V, V) -> V)
    requires Associative(merge) && Idempotent(merge)
    ensures Merged(Merged(stored, a, merge), a, merge) == Merged(stored, a, merge)
  {
    var once := Merged(stored, a, merge);
    var twice := Merged(once, a, merge);
    forall k | k in twice
      ensures k in once && twice[k] == once[k]
    {
      if k in stored && k in a {
        calc {
          twice[k];
          merge(merge(stored[k], a[k]), a[k]);
          merge(stored[k], merge(a[k], a[k]));
          once[k];
        }
      } else if k in a {
        assert twice[k] == merge(a[k], a[k]);
      }
    }
    assert twice.Keys == once.Keys;
  }

  lemma {:induction false} IntSumCommutesAndAssociates()
    ensures Commutative(IntSum) && Associative(IntSum)
  {
    forall a: int32, b: int32, c: int32
      ensures IntSum(IntSum(a, b), c) == IntSum(a, IntSum(b, c))
    {
      calc {
        IntSum(IntSum(a, b), c);
        Add32(c, Add32(b, a));
        { Add32Associative(c, b, a); }
        Add32(Add32(c, b), a);
        { Add32Associative(a, c, b); assert Add32(c, b) == Add32(b, c); }
        IntSum(a, IntSum(b, c));
      }
    }
  }

  lemma XYMaxLaws()
    ensures Commutative(XYMax) && Associative(XYMax) && Idempotent(XYMax)
  {
  }

  lemma XYMinLaws()
    ensures Commutative(XYMin) && Associative(XYMin) && Idempotent(XYMin)
  {
  }

  /** Aggregating with the maximum policy only raises stored coordinates. */
  lemma XYMaxMonotone<K>(stored: map<K, XY>, incoming: map<K, XY>)
    ensures forall k :: k in stored ==>
              Merged(stored, incoming, XYMax)[k].x >= stored[k].x && Merged(stored, incoming, XYMax)[k].y >= stored[k].y
  {
  }

  /** Aggregating with the minimum policy only lowers stored coordinates. */
  lemma XYMinMonotone<K>(stored: map<K, XY>, incoming: map<K, XY>)
    ensures forall k :: k in stored ==>
              Merged(stored, incoming, XYMin)[k].x <= stored[k].x && Merged(stored, incoming, XYMin)[k].y <= stored[k].y
  {
  }
}
