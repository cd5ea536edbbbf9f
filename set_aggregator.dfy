/** The set aggregator: a set of vertex ids held in a field and grown in
    place by union with each contribution. */
module SetAggregators {
  import opened JavaInts

  /** A LongWritableSet: a mutable set object that callers may share. Its
      `reset` is assumed to empty the set. */
  class LongWritableSet {
    var elements: set<int64>

    constructor ()
      ensures elements == {}
    {
      elements := {};
    }

    method AddAll(s: set<int64>)
      modifies this
      ensures elements == old(elements) + s
    {
      elements := elements + s;
    }

    method Reset()
      modifies this
      ensures elements == {}
    {
      elements := {};
    }
  }

  class SetAggregator {
    var internalState: LongWritableSet?

    /** An aggregator holds no set until one is created or set. */
    constructor ()
      ensures internalState == null
    {
      internalState := null;
    }

    /** Adds every element of the contribution to the held set. */
    method Aggregate(incoming: LongWritableSet)
      requires internalState != null
      modifies internalState
      ensures internalState == old(internalState)
      ensures internalState.elements == Aggregated(old(internalState.elements), old(incoming.elements))
    {
      internalState.AddAll(incoming.elements);
    }

    /** Installs a new empty set as the held state and returns that same object. */
    method CreateInitialValue() returns (s: LongWritableSet)
      modifies this
      ensures fresh(s) && s.elements == {} && internalState == s
    {
      internalState := new LongWritableSet();
      s := internalState;
    }

    method GetAggregatedValue() returns (s: LongWritableSet?)
      ensures s == internalState
    {
      s := internalState;
    }

    /** Resets the held set object in place. */
    method Reset()
      requires internalState != null
      modifies internalState
      ensures internalState == old(internalState) && internalState.elements == {}
    {
      internalState.Reset();
    }

    /** Installs the given set object itself as the held state. */
    method SetAggregatedValue(s: LongWritableSet)
      modifies this
      ensures internalState == s
    {
      internalState := s;
    }
  }

  /** The state an aggregation leaves, as a function of the state before it
      and the contribution. */
  function Aggregated(state: set<int64>, incoming: set<int64>): (r: set<int64>)
    ensures state <= r && incoming <= r
    ensures forall x :: x in r ==> x in state || x in incoming
  {
    state + incoming
  }

  /** A sequence of contributions aggregated one after the other. */
  function AggregatedAll(state: set<int64>, contributions: seq<set<int64>>): set<int64>
  {
    if contributions == [] then state
    else Aggregated(AggregatedAll(state, contributions[..|contributions| - 1]), contributions[|contributions| - 1])
  }

  /** Between resets the state only grows: whatever sequence of
      contributions arrives, it contains the starting state and every
      contributed element, and nothing else. */
  lemma {:induction false} AggregatedAllIsUnion(state: set<int64>, contributions: seq<set<int64>>)
    ensures forall x :: x in AggregatedAll(state, contributions) <==>
              x in state || exists i :: 0 <= i < |contributions| && x in contributions[i]
  {
    if contributions != [] {
      var n := |contributions| - 1;
      AggregatedAllIsUnion(state, contributions[..n]);
      forall x
        ensures x in AggregatedAll(state, contributions) <==>
                x in state || exists i :: 0 <= i < |contributions| && x in contributions[i]
      {
        if x in AggregatedAll(state, contributions) && x !in state {
          if x in contributions[n] {
          } else {
            var i :| 0 <= i < n && x in contributions[..n][i];
            assert x in contributions[i];
          }
        }
        if exists i :: 0 <= i < |contributions| && x in contributions[i] {
          var i :| 0 <= i < |contributions| && x in contributions[i];
          if i < n {
            assert x in contributions[..n][i];
          }
        }
      }
    }
  }

  /** The order of contributions does not matter, and repeating one adds nothing. */
  lemma AggregationCommutesAndIsIdempotent(state: set<int64>, a: set<int64>, b: set<int64>)
    ensures Aggregated(Aggregated(state, a), b) == Aggregated(Aggregated(state, b), a)
    ensures Aggregated(Aggregated(state, a), a) == Aggregated(state, a)
  {
  }
}
