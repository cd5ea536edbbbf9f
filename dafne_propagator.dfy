/** The dafne propagator: the gila round with two changes. Each force is
    scaled component-wise by a `cos`/`sin` pair kept in fields of the
    computation (recomputed per processed message when angle weighting is
    on), and successors may be queued on the vertex instead of flooded at
    once, a share of the queue being flushed at the end of every round. */
module DafnePropagator {
  import opened JavaInts
  import opened LayoutMessages
  import opened Rounds

  /** The `cos`/`sin` pair the computation starts from, as initialisation
      writes it: 1 when angle weighting is on, and otherwise never assigned,
      so the Java default 0. */
  function InitialWeightsAsWritten(useCosSin: bool): (w: Vec)
    ensures useCosSin ==> w == Vec(1.0, 1.0)
    ensures !useCosSin ==> w == ZERO
  {
    if useCosSin then Vec(1.0, 1.0) else ZERO
  }

  /** The pair the computation is evidently meant to start from: 1 for both,
      so that without angle weighting the forces are taken as they are. */
  function InitialWeights(useCosSin: bool): (w: Vec)
    ensures w == Vec(1.0, 1.0)
  {
    Vec(1.0, 1.0)
  }

  /** The least integer not below r. */
  function Ceil(r: real): (c: int)
    ensures c as real - 1.0 < r <= c as real
  {
    -((-r).Floor)
  }

  /** The number of queued messages flushed per round: the ceiling of the
      flush ratio times the number of edges, converted to `int` as
      Double.intValue does, which clamps at the `int` range. */
  function DrainCount(ratio: real, numEdges: int32): (n: int32)
    ensures var share := ratio * numEdges as real;
            && (INT_MIN as real <= share <= INT_MAX as real ==> n as real - 1.0 < share <= n as real)
            && (share > INT_MAX as real ==> n == INT_MAX)
            && (ratio >= 0.0 && numEdges >= 0 ==> n >= 0)
  {
    var share := ratio * numEdges as real;
    assert ratio >= 0.0 && numEdges >= 0 ==> share >= 0.0 by {
      if ratio >= 0.0 && numEdges >= 0 {
        ProductNonNegative(ratio, numEdges as real);
      }
    }
    var c := Ceil(share);
    if c > INT_MAX then INT_MAX else if c < INT_MIN then INT_MIN else c
  }

  lemma ProductNonNegative(a: real, b: real)
    requires a >= 0.0 && b >= 0.0
    ensures a * b >= 0.0
  {
  }

  function Min(a: int, b: int): int { if a <= b then a else b }

  class Propagator {
    const num: Numerics
    const walshawConstant: real
    /** Whether successors are queued on the vertex rather than flooded at once. */
    const useQueues: bool
    /** The share of the vertex's edge count flushed from its queue per round. */
    const queueFlushRatio: real
    /** Whether forces are weighted by the direction to the peer. */
    const useCosSin: bool
    /** MessageWritable.isAZombie, whose rule is not part of this model. */
    const isAZombie: LayoutMessage -> bool
    var cos: real
    var sin: real
    var sent: seq<Send>
    var aggregated: seq<bool>

    /** The configuration is usable, and without angle weighting the forces
        are taken unscaled. */
    predicate Valid()
      reads this
    {
      queueFlushRatio >= 0.0 && (!useCosSin ==> cos == 1.0 && sin == 1.0)
    }

    /** The computation after initialisation, with the corrected starting
        pair. */
    constructor (num: Numerics, walshawConstant: real, useQueues: bool, queueFlushRatio: real, useCosSin: bool,
                 isAZombie: LayoutMessage -> bool)
      requires queueFlushRatio >= 0.0
      ensures this.num == num && this.walshawConstant == walshawConstant && this.isAZombie == isAZombie
      ensures this.useQueues == useQueues && this.queueFlushRatio == queueFlushRatio && this.useCosSin == useCosSin
      ensures Vec(cos, sin) == InitialWeights(useCosSin)
      ensures sent == [] && aggregated == []
      ensures Valid()
    {
      this.num := num;
      this.walshawConstant := walshawConstant;
      this.useQueues := useQueues;
      this.queueFlushRatio := queueFlushRatio;
      this.useCosSin := useCosSin;
      this.isAZombie := isAZombie;
      var w := InitialWeights(useCosSin);
      cos, sin := w.x, w.y;
      sent, aggregated := [], [];
    }

    /** The work for one message from a peer not analysed yet: with angle
        weighting the pair becomes that of the peer; the force law's two
        vectors are scaled by the pair; the peer is marked analysed and,
        unless the message is a zombie, a `false` is aggregated and its
        successor flooded or queued. */
    method ProcessMessage(id: int64, v: CoordinateState, env: RoundEnv, m: LayoutMessage) returns (c: Contribution)
      requires env.variant.Dafne? && env.variant.useCosSin == useCosSin
      requires !useCosSin ==> Vec(cos, sin) == env.variant.weights
      modifies this`sent, this`aggregated, this`cos, this`sin, v`analysed, v`queue
      ensures c == Contribute(env, m)
      ensures useCosSin ==> Vec(cos, sin) == AngleWeights(env.num, GeometryOf(env, m.coords))
      ensures !useCosSin ==> cos == old(cos) && sin == old(sin)
      ensures v.analysed == old(v.analysed) + {m.payload}
      ensures Outputs(sent, aggregated, v.queue) == Emit(isAZombie, useQueues, id, old(Outputs(sent, aggregated, v.queue)), m)
    {
      var g := GeometryOf(env, m.coords);
      if useCosSin {
        cos := env.num.quotient(g.dx, g.distance);
        sin := env.num.quotient(g.dy, g.distance);
      }
      var attraction := env.num.attractive(g, env.selfDeg, m.deg);
      var repulsion := env.num.repulsive(g, env.selfDeg, m.deg);
      c := Contribution(Weight(attraction, Vec(cos, sin)), Weight(repulsion, Vec(cos, sin)));
      v.Analyse(m.payload);
      if !isAZombie(m) {
        aggregated := aggregated + [false];
        if !useQueues {
          sent := sent + [SendToAllEdges(id, Propagate(m))];
        } else {
          v.EnqueueMessage(Propagate(m));
        }
      }
    }

    /** The walk over the inbox in arrival order, as in gila; the successors
        of processed non-zombie messages are flooded, or appended to the
        vertex's queue when queues are on. Returns the weighted attraction
        (zero unless the vertex has been reset) and the weighted repulsion. */
    method ReceiveMessages(id: int64, v: CoordinateState, env: RoundEnv, inbox: seq<LayoutMessage>)
      returns (attraction: Vec, repulsion: Vec)
      requires env.variant == Dafne(useCosSin, Vec(cos, sin))
      modifies this`sent, this`aggregated, this`cos, this`sin, v`analysed, v`queue
      ensures var scan := ScanInbox(id, old(v.analysed), inbox);
              var forwarded := Forwarded(isAZombie, scan.processed);
              && v.analysed == scan.analysed
              && aggregated == old(aggregated) + Falses(|forwarded|)
              && (!useQueues ==> sent == old(sent) + Broadcasts(id, forwarded) && v.queue == old(v.queue))
              && (useQueues ==> sent == old(sent) && v.queue == old(v.queue) + forwarded)
              && Vec(cos, sin) == WeightsAfter(env, scan.processed)
              && attraction == (if v.reset then AttractionTotal(env, scan.processed) else ZERO)
              && repulsion == RepulsionTotal(env, scan.processed)
    {
      ghost var a0 := v.analysed;
      ghost var start := Outputs(sent, aggregated, v.queue);
      attraction, repulsion := ZERO, ZERO;
      var i := 0;
      while i < |inbox|
        invariant 0 <= i <= |inbox|
        invariant !useCosSin ==> Vec(cos, sin) == env.variant.weights
        invariant Walked(env, isAZombie, id, a0, start, useQueues, inbox[..i], v.analysed, Outputs(sent, aggregated, v.queue),
                         Vec(cos, sin), v.reset, attraction, repulsion)
      {
        assert inbox[..i + 1] == inbox[..i] + [inbox[i]];
        attraction, repulsion := WalkMessage(id, v, env, a0, start, inbox[..i], inbox[i], attraction, repulsion);
        i := i + 1;
      }
      assert inbox[..i] == inbox;
      WalkDone(env, isAZombie, id, a0, start, useQueues, inbox, v.analysed, Outputs(sent, aggregated, v.queue),
               Vec(cos, sin), v.reset, attraction, repulsion);
    }

    /** One message of the inbox walk: skipped, or processed and its
        contribution added to the totals (the attraction only once the
        vertex has been reset). */
    method WalkMessage(id: int64, v: CoordinateState, env: RoundEnv, ghost a0: set<int64>, ghost start: Outputs,
                       ghost prefix: seq<LayoutMessage>, m: LayoutMessage, attraction: Vec, repulsion: Vec)
      returns (attraction': Vec, repulsion': Vec)
      requires env.variant.Dafne? && env.variant.useCosSin == useCosSin
      requires !useCosSin ==> Vec(cos, sin) == env.variant.weights
      requires Walked(env, isAZombie, id, a0, start, useQueues, prefix, v.analysed, Outputs(sent, aggregated, v.queue),
                      Vec(cos, sin), v.reset, attraction, repulsion)
      modifies this`sent, this`aggregated, this`cos, this`sin, v`analysed, v`queue
      ensures !useCosSin ==> cos == old(cos) && sin == old(sin)
      ensures Walked(env, isAZombie, id, a0, start, useQueues, prefix + [m], v.analysed, Outputs(sent, aggregated, v.queue),
                     Vec(cos, sin), v.reset, attraction', repulsion')
    {
      attraction', repulsion' := attraction, repulsion;
      if m.payload == id || v.IsAnalysed(m.payload) {
        WalkSkip(env, isAZombie, id, a0, start, useQueues, prefix, m, v.analysed, Outputs(sent, aggregated, v.queue),
                 Vec(cos, sin), v.reset, attraction, repulsion);
      } else {
        WalkProcess(env, isAZombie, id, a0, start, useQueues, prefix, m, v.analysed, Outputs(sent, aggregated, v.queue),
                    Vec(cos, sin), v.reset, attraction, repulsion);
        var c := ProcessMessage(id, v, env, m);
        if v.reset {
          attraction' := Add(attraction, c.attraction);
        }
        repulsion' := Add(repulsion, c.repulsion);
      }
    }

    /** The end-of-round flush: up to `count` messages are taken off the
        head of the vertex's queue and each is aggregated as `false` and
        flooded, stopping at the first empty slot. */
    method FlushQueue(id: int64, v: CoordinateState, count: nat)
      modifies this`sent, this`aggregated, v`queue
      ensures var n := Min(count, |old(v.queue)|);
              && sent == old(sent) + Broadcasts(id, old(v.queue)[..n])
              && aggregated == old(aggregated) + Falses(n)
              && v.queue == old(v.queue)[n..]
    {
      ghost var q0, sent0, aggregated0 := v.queue, sent, aggregated;
      ghost var n := Min(count, |q0|);
      var toDequeue := v.DequeueMessages(count);
      var i := 0;
      while i < |toDequeue|
        invariant 0 <= i <= n
        invariant v.queue == q0[n..]
        invariant sent == sent0 + Broadcasts(id, q0[..i])
        invariant aggregated == aggregated0 + Falses(i)
      {
        var current := toDequeue[i];
        if current.Some? {
          assert q0[..i + 1] == q0[..i] + [current.value];
          BroadcastsSnoc(id, q0[..i], current.value);
          FalsesSnoc(i);
          AppendAssociative(aggregated0, Falses(i), [false]);
          AppendAssociative(sent0, Broadcasts(id, q0[..i]), [SendToAllEdges(id, current.value)]);
          aggregated := aggregated + [false];
          sent := sent + [SendToAllEdges(id, current.value)];
        } else {
          break;
        }
        i := i + 1;
      }
      assert i == n;
    }

    /** The round of vertex `id` with `numEdges` edges, value `v` and the
        given inbox: the inbox walk, the net force added and the vertex set
        moving, then, with queues on, the flush of DrainCount messages from
        the queue, which by then holds this round's successors at its tail. */
    method Compute(id: int64, numEdges: int32, v: CoordinateState, inbox: seq<LayoutMessage>)
      requires Valid() && numEdges >= 0
      modifies this`sent, this`aggregated, this`cos, this`sin, v`analysed, v`queue, v`moving, v`force
      ensures Valid()
      ensures var env := old(RoundEnv(num, Dafne(useCosSin, Vec(cos, sin)), v.coords,
                                      SelfDegree(numEdges, v.oneDegreeVertices)));
              var scan := ScanInbox(id, old(v.analysed), inbox);
              var forwarded := Forwarded(isAZombie, scan.processed);
              && v.analysed == scan.analysed
              && v.force == Add(old(v.force), NetForce(env, old(v.reset), walshawConstant, scan.processed))
              && v.moving
              && Vec(cos, sin) == WeightsAfter(env, scan.processed)
              && (!useQueues ==>
                    && sent == old(sent) + Broadcasts(id, forwarded)
                    && aggregated == old(aggregated) + Falses(|forwarded|)
                    && v.queue == old(v.queue))
              && (useQueues ==>
                    var q := old(v.queue) + forwarded;
                    var n := Min(DrainCount(queueFlushRatio, numEdges), |q|);
                    && sent == old(sent) + Broadcasts(id, q[..n])
                    && aggregated == old(aggregated) + Falses(|forwarded|) + Falses(n)
                    && v.queue == q[n..])
    {
      var env := RoundEnv(num, Dafne(useCosSin, Vec(cos, sin)), v.coords, SelfDegree(numEdges, v.oneDegreeVertices));
      ghost var scan := ScanInbox(id, v.analysed, inbox);
      ghost var q := v.queue + Forwarded(isAZombie, scan.processed);
      var finalForce, repulsiveForce := ReceiveMessages(id, v, env, inbox);
      if !useCosSin {
        WeightsAfterFixed(env, scan.processed);
      }
      repulsiveForce := Scale(walshawConstant, repulsiveForce);
      finalForce := Sub(finalForce, repulsiveForce);
      v.SetAsMoving();
      v.AddToForceVector(finalForce);
      if !useQueues {
        return;
      }
      assert v.queue == q;
      ghost var sentBefore, aggregatedBefore := sent, aggregated;
      FlushQueue(id, v, DrainCount(queueFlushRatio, numEdges));
      AppendAssociative(old(aggregated), Falses(|Forwarded(isAZombie, scan.processed)|), Falses(Min(DrainCount(queueFlushRatio, numEdges), |q|)));
    }
  }

  /** As written, a computation without angle weighting scales every force
      by the default pair (0, 0): whatever the inbox, its rounds add no
      force at all. */
  lemma {:induction false} AsWrittenWeightsCancelForce(env: RoundEnv, reset: bool, walshawConstant: real, ms: seq<LayoutMessage>)
    requires env.variant == Dafne(false, InitialWeightsAsWritten(false))
    ensures NetForce(env, reset, walshawConstant, ms) == ZERO
  {
    ZeroWeightTotals(env, ms);
  }

  lemma {:induction false} ZeroWeightTotals(env: RoundEnv, ms: seq<LayoutMessage>)
    requires env.variant == Dafne(false, ZERO)
    ensures AttractionTotal(env, ms) == ZERO && RepulsionTotal(env, ms) == ZERO
  {
    if ms != [] {
      ZeroWeightTotals(env, ms[..|ms| - 1]);
    }
  }

  /** With the corrected starting pair and no angle weighting, a dafne round
      adds the same force as a gila round given the same force law and
      helpers, wherever the distance helper agrees with the square root of
      the squared distance. */
  lemma {:induction false} CorrectedWeightsMatchGila(num: Numerics, my: Coords, selfDeg: int32, reset: bool,
                                                     walshawConstant: real, ms: seq<LayoutMessage>)
    requires forall m :: m in ms ==> num.computeModule(my, m.coords) == num.sqrt(num.squareModule(my, m.coords))
    ensures NetForce(RoundEnv(num, Dafne(false, InitialWeights(false)), my, selfDeg), reset, walshawConstant, ms)
            == NetForce(RoundEnv(num, Gila, my, selfDeg), reset, walshawConstant, ms)
  {
    UnitWeightTotals(num, my, selfDeg, ms);
  }

  lemma {:induction false} UnitWeightTotals(num: Numerics, my: Coords, selfDeg: int32, ms: seq<LayoutMessage>)
    requires forall m :: m in ms ==> num.computeModule(my, m.coords) == num.sqrt(num.squareModule(my, m.coords))
    ensures var dafne := RoundEnv(num, Dafne(false, Vec(1.0, 1.0)), my, selfDeg);
            var gila := RoundEnv(num, Gila, my, selfDeg);
            AttractionTotal(dafne, ms) == AttractionTotal(gila, ms) && RepulsionTotal(dafne, ms) == RepulsionTotal(gila, ms)
  {
    if ms != [] {
      var prefix := ms[..|ms| - 1];
      assert forall m :: m in prefix ==> m in ms;
      UnitWeightTotals(num, my, selfDeg, prefix);
      var m := ms[|ms| - 1];
      var dafne := RoundEnv(num, Dafne(false, Vec(1.0, 1.0)), my, selfDeg);
      var gila := RoundEnv(num, Gila, my, selfDeg);
      assert GeometryOf(dafne, m.coords) == GeometryOf(gila, m.coords);
    }
  }
}
