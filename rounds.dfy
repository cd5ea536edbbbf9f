/** What one round of the layout computes for one vertex, independent of the
    propagator variant: which inbox messages are processed, what force they
    contribute, and which successors are flooded onwards. Float arithmetic
    is replaced by exact reals, and the force law and the geometry helpers
    by functions passed in. */
module Rounds {
  import opened JavaInts
  import opened BigEndian
  import opened LayoutMessages

  datatype Option<T> = None | Some(value: T)

  /** A two-dimensional force. */
  datatype Vec = Vec(x: real, y: real)

  const ZERO: Vec := Vec(0.0, 0.0)

  function Add(a: Vec, b: Vec): Vec { Vec(a.x + b.x, a.y + b.y) }
  function Sub(a: Vec, b: Vec): Vec { Vec(a.x - b.x, a.y - b.y) }
  function Scale(k: real, a: Vec): Vec { Vec(k * a.x, k * a.y) }

  /** Component-wise product: x scaled by w.x, y by w.y. */
  function Weight(a: Vec, w: Vec): Vec { Vec(a.x * w.x, a.y * w.y) }

  /** What the force law is told about a peer: the vector to it, the
      distance and the squared distance. */
  datatype Geometry = Geometry(dx: real, dy: real, distance: real, squareDistance: real)

  /** The numeric collaborators of a round, left abstract: the value of a
      float coordinate, the distance helpers, square root, float division,
      and the attractive and repulsive laws, which take the geometry, the
      vertex's own degree and the peer's degree. */
  datatype Numerics = Numerics(
    value: Float32 -> real,
    squareModule: (Coords, Coords) -> real,
    computeModule: (Coords, Coords) -> real,
    sqrt: real -> real,
    quotient: (real, real) -> real,
    attractive: (Geometry, int32, int32) -> Vec,
    repulsive: (Geometry, int32, int32) -> Vec)

  /** The two propagators: gila adds the law's forces as they are; dafne
      scales each by the `cos`/`sin` pair, which is recomputed per message
      when angle weighting is on and otherwise stays at `weights`. */
  datatype Variant = Gila | Dafne(useCosSin: bool, weights: Vec)

  /** The fixed inputs of one vertex's round. */
  datatype RoundEnv = RoundEnv(num: Numerics, variant: Variant, my: Coords, selfDeg: int32)

  /** The vertex's own degree in the force law: its edges plus the degree-one
      neighbours folded into it, added as Java `int`s. */
  function SelfDegree(numEdges: int32, oneDegreeVertices: int32): (d: int32)
    ensures INT_MIN <= numEdges + oneDegreeVertices <= INT_MAX ==> d == numEdges + oneDegreeVertices
  {
    Add32(numEdges, oneDegreeVertices)
  }

  /** What the force law is told about the peer at `foreign`: the vector
      from the vertex to the peer (foreign minus own), the squared distance
      from squareModule, and the distance, which gila takes as the square
      root of the squared distance and dafne from computeModule. */
  function GeometryOf(env: RoundEnv, foreign: Coords): (g: Geometry)
    ensures g.dx == env.num.value(foreign.x) - env.num.value(env.my.x)
    ensures g.dy == env.num.value(foreign.y) - env.num.value(env.my.y)
    ensures g.squareDistance == env.num.squareModule(env.my, foreign)
    ensures env.variant.Gila? ==> g.distance == env.num.sqrt(g.squareDistance)
    ensures env.variant.Dafne? ==> g.distance == env.num.computeModule(env.my, foreign)
  {
    var dx := env.num.value(foreign.x) - env.num.value(env.my.x);
    var dy := env.num.value(foreign.y) - env.num.value(env.my.y);
    var square := env.num.squareModule(env.my, foreign);
    match env.variant
    case Gila => Geometry(dx, dy, env.num.sqrt(square), square)
    case Dafne(_, _) => Geometry(dx, dy, env.num.computeModule(env.my, foreign), square)
  }

  /** The `cos`/`sin` pair dafne computes for a peer when angle weighting
      is on: each component of the vector to the peer divided by the
      distance. */
  function AngleWeights(num: Numerics, g: Geometry): (w: Vec)
    ensures w.x == num.quotient(g.dx, g.distance) && w.y == num.quotient(g.dy, g.distance)
  {
    Vec(num.quotient(g.dx, g.distance), num.quotient(g.dy, g.distance))
  }

  /** When the quotient helper is real division and the distance is the
      Euclidean length of the vector to the peer, the pair is that vector's
      direction: cos^2 + sin^2 = 1. */
  lemma AngleWeightsUnit(num: Numerics, g: Geometry)
    requires forall a: real, b: real :: b != 0.0 ==> num.quotient(a, b) * b == a
    requires g.distance > 0.0 && g.distance * g.distance == g.dx * g.dx + g.dy * g.dy
    ensures var w := AngleWeights(num, g); w.x * w.x + w.y * w.y == 1.0
  {
    var w := AngleWeights(num, g);
    UnitDirection(w.x, w.y, g.distance, g.dx, g.dy);
  }

  /** If c·d = x and s·d = y for a positive d with d^2 = x^2 + y^2, then
      c^2 + s^2 = 1. */
  lemma UnitDirection(c: real, s: real, d: real, x: real, y: real)
    requires d > 0.0 && c * d == x && s * d == y && d * d == x * x + y * y
    ensures c * c + s * s == 1.0
  {
    var n := c * c + s * s;
    calc {
      n * (d * d);
      == (c * d) * (c * d) + (s * d) * (s * d);
      == x * x + y * y;
      == d * d;
    }
    FactorOfSquareIsOne(n, d, d * d);
  }

  lemma FactorOfSquareIsOne(n: real, d: real, p: real)
    requires d > 0.0 && p == d * d && n * p == p
    ensures n == 1.0
  {
    calc { p; == d * d; > { SquarePositive(d); } 0.0; }
    CancelFactor(n - 1.0, p);
  }

  lemma SquarePositive(d: real)
    requires d > 0.0
    ensures d * d > 0.0
  {
  }

  lemma CancelFactor(e: real, p: real)
    requires p > 0.0 && e * p == 0.0
    ensures e == 0.0
  {
  }

  datatype Contribution = Contribution(attraction: Vec, repulsion: Vec)

  /** The force one processed message contributes, before the attraction is
      gated on the vertex having been reset. */
  function Contribute(env: RoundEnv, m: LayoutMessage): (c: Contribution)
    ensures env.variant.Gila? ==>
              c.attraction == env.num.attractive(GeometryOf(env, m.coords), env.selfDeg, m.deg) &&
              c.repulsion == env.num.repulsive(GeometryOf(env, m.coords), env.selfDeg, m.deg)
    ensures env.variant.Dafne? ==>
              var g := GeometryOf(env, m.coords);
              var w := if env.variant.useCosSin then AngleWeights(env.num, g) else env.variant.weights;
              && c.attraction == Vec(env.num.attractive(g, env.selfDeg, m.deg).x * w.x,
                                     env.num.attractive(g, env.selfDeg, m.deg).y * w.y)
              && c.repulsion == Vec(env.num.repulsive(g, env.selfDeg, m.deg).x * w.x,
                                    env.num.repulsive(g, env.selfDeg, m.deg).y * w.y)
  {
    var g := GeometryOf(env, m.coords);
    var a := env.num.attractive(g, env.selfDeg, m.deg);
    var r := env.num.repulsive(g, env.selfDeg, m.deg);
    match env.variant
    case Gila => Contribution(a, r)
    case Dafne(useCosSin, weights) =>
      var w := if useCosSin then AngleWeights(env.num, g) else weights;
      Contribution(Weight(a, w), Weight(r, w))
  }

  function AttractionTotal(env: RoundEnv, ms: seq<LayoutMessage>): Vec
  {
    if ms == [] then ZERO
    else Add(AttractionTotal(env, ms[..|ms| - 1]), Contribute(env, ms[|ms| - 1]).attraction)
  }

  function RepulsionTotal(env: RoundEnv, ms: seq<LayoutMessage>): Vec
  {
    if ms == [] then ZERO
    else Add(RepulsionTotal(env, ms[..|ms| - 1]), Contribute(env, ms[|ms| - 1]).repulsion)
  }

  /** The force a round adds to the vertex: the attraction of the processed
      messages, counted only once the vertex has been reset, less their
      repulsion scaled by the Walshaw constant. */
  function NetForce(env: RoundEnv, reset: bool, walshawConstant: real, ms: seq<LayoutMessage>): (f: Vec)
    ensures ms == [] ==> f == ZERO
    ensures !reset ==> f == Scale(-walshawConstant, RepulsionTotal(env, ms))
  {
    Sub(if reset then AttractionTotal(env, ms) else ZERO, Scale(walshawConstant, RepulsionTotal(env, ms)))
  }

  /** A message is skipped when it comes from the vertex itself or from a
      peer already analysed. */
  predicate Skips(id: int64, analysed: set<int64>, m: LayoutMessage)
  {
    m.payload == id || m.payload in analysed
  }

  /** The analysed set and the processed messages after a prefix of the inbox. */
  datatype Scan = Scan(analysed: set<int64>, processed: seq<LayoutMessage>)

  /** The walk over the inbox in arrival order: a skipped message changes
      nothing, any other is processed and its origin analysed. */
  function ScanInbox(id: int64, analysed: set<int64>, inbox: seq<LayoutMessage>): (r: Scan)
    ensures analysed <= r.analysed
    ensures |r.processed| <= |inbox|
  {
    if inbox == [] then Scan(analysed, [])
    else
      var before := ScanInbox(id, analysed, inbox[..|inbox| - 1]);
      var m := inbox[|inbox| - 1];
      if Skips(id, before.analysed, m) then before
      else Scan(before.analysed + {m.payload}, before.processed + [m])
  }

  function Payloads(ms: seq<LayoutMessage>): set<int64>
  {
    set m | m in ms :: m.payload
  }

  /** The origins in the inbox other than the vertex itself. */
  function ForeignPayloads(id: int64, inbox: seq<LayoutMessage>): set<int64>
  {
    set m | m in inbox && m.payload != id :: m.payload
  }

  /** Reference definition of the processed messages: those whose origin is
      neither the vertex, nor analysed before the round, nor the origin of an
      earlier message in the inbox. */
  predicate FirstNewAt(id: int64, analysed: set<int64>, inbox: seq<LayoutMessage>, k: nat)
    requires k < |inbox|
  {
    && inbox[k].payload != id
    && inbox[k].payload !in analysed
    && forall j :: 0 <= j < k ==> inbox[j].payload != inbox[k].payload
  }

  function FirstNew(id: int64, analysed: set<int64>, inbox: seq<LayoutMessage>): seq<LayoutMessage>
  {
    if inbox == [] then []
    else
      FirstNew(id, analysed, inbox[..|inbox| - 1])
      + (if FirstNewAt(id, analysed, inbox, |inbox| - 1) then [inbox[|inbox| - 1]] else [])
  }

  /** The non-zombie messages, in order: those a round floods onwards.
      `isAZombie` is MessageWritable.isAZombie, whose rule is not part of
      this model. */
  function NonZombies(isAZombie: LayoutMessage -> bool, ms: seq<LayoutMessage>): (r: seq<LayoutMessage>)
    ensures |r| <= |ms|
  {
    if ms == [] then []
    else NonZombies(isAZombie, ms[..|ms| - 1]) + (if isAZombie(ms[|ms| - 1]) then [] else [ms[|ms| - 1]])
  }

  /** The kept messages are exactly the non-zombie ones. */
  lemma {:induction false} NonZombiesMembers(isAZombie: LayoutMessage -> bool, ms: seq<LayoutMessage>)
    ensures forall m :: m in NonZombies(isAZombie, ms) <==> m in ms && !isAZombie(m)
  {
    if ms != [] {
      var prefix := ms[..|ms| - 1];
      NonZombiesMembers(isAZombie, prefix);
      assert ms == prefix + [ms[|ms| - 1]];
    }
  }

  /** The successors of a sequence of messages, in order. */
  function PropagateAll(ms: seq<LayoutMessage>): (r: seq<LayoutMessage>)
    ensures |r| == |ms|
    ensures forall i :: 0 <= i < |ms| ==> r[i] == Propagate(ms[i])
  {
    seq(|ms|, i requires 0 <= i < |ms| => Propagate(ms[i]))
  }

  /** The successors a round floods onwards: one per processed non-zombie message. */
  function Forwarded(isAZombie: LayoutMessage -> bool, ms: seq<LayoutMessage>): seq<LayoutMessage>
  {
    PropagateAll(NonZombies(isAZombie, ms))
  }

  /** A sendMessageToAllEdges call: the sending vertex and the message. */
  datatype Send = SendToAllEdges(from: int64, msg: LayoutMessage)

  function Broadcasts(from: int64, ms: seq<LayoutMessage>): (r: seq<Send>)
    ensures |r| == |ms|
    ensures forall i :: 0 <= i < |ms| ==> r[i] == SendToAllEdges(from, ms[i])
  {
    seq(|ms|, i requires 0 <= i < |ms| => SendToAllEdges(from, ms[i]))
  }

  /** n contributions of `false` ("something changed") to the message aggregator. */
  function Falses(n: nat): (r: seq<bool>)
    ensures |r| == n && forall i :: 0 <= i < n ==> !r[i]
  {
    seq(n, _ => false)
  }

  lemma PrefixOfAppend<T>(s: seq<T>, x: T)
    ensures (s + [x])[..|s|] == s && (s + [x])[|s|] == x
  {
  }

  lemma AppendAssociative<T>(a: seq<T>, b: seq<T>, c: seq<T>)
    ensures (a + b) + c == a + (b + c)
  {
  }

  /** One more inbox message: the walk either skips it or processes it. */
  lemma ScanStep(id: int64, analysed: set<int64>, inbox: seq<LayoutMessage>, i: nat)
    requires i < |inbox|
    ensures var before := ScanInbox(id, analysed, inbox[..i]);
            var m := inbox[i];
            ScanInbox(id, analysed, inbox[..i + 1])
            == if Skips(id, before.analysed, m) then before
               else Scan(before.analysed + {m.payload}, before.processed + [m])
  {
    assert inbox[..i + 1][..i] == inbox[..i];
  }

  /** One more processed message adds its contribution to both totals. */
  lemma ProcessedStep(env: RoundEnv, ms: seq<LayoutMessage>, m: LayoutMessage)
    ensures AttractionTotal(env, ms + [m]) == Add(AttractionTotal(env, ms), Contribute(env, m).attraction)
    ensures RepulsionTotal(env, ms + [m]) == Add(RepulsionTotal(env, ms), Contribute(env, m).repulsion)
  {
    PrefixOfAppend(ms, m);
  }

  /** One more processed message adds, unless it is a zombie, its successor
      to the flooded messages. */
  lemma ForwardedStep(isAZombie: LayoutMessage -> bool, ms: seq<LayoutMessage>, m: LayoutMessage)
    ensures Forwarded(isAZombie, ms + [m]) == Forwarded(isAZombie, ms) + (if isAZombie(m) then [] else [Propagate(m)])
  {
    PrefixOfAppend(ms, m);
    var nz := NonZombies(isAZombie, ms);
    assert NonZombies(isAZombie, ms + [m]) == nz + (if isAZombie(m) then [] else [m]);
    if !isAZombie(m) {
      PrefixOfAppend(nz, m);
      assert PropagateAll(nz + [m]) == PropagateAll(nz) + [Propagate(m)];
    } else {
      assert NonZombies(isAZombie, ms + [m]) == nz;
      assert Forwarded(isAZombie, ms) + [] == Forwarded(isAZombie, ms);
    }
  }

  lemma BroadcastsAppend(from: int64, ms: seq<LayoutMessage>, extra: seq<LayoutMessage>)
    ensures Broadcasts(from, ms + extra) == Broadcasts(from, ms) + Broadcasts(from, extra)
  {
    assert forall i :: 0 <= i < |ms| ==> (ms + extra)[i] == ms[i];
    assert forall i :: |ms| <= i < |ms| + |extra| ==> (ms + extra)[i] == extra[i - |ms|];
  }

  /** One more processed message adds, unless it is a zombie, one send of its
      successor and one `false` aggregate. */
  lemma RoundOutputStep(isAZombie: LayoutMessage -> bool, from: int64, ms: seq<LayoutMessage>, m: LayoutMessage)
    ensures isAZombie(m) ==> Forwarded(isAZombie, ms + [m]) == Forwarded(isAZombie, ms)
    ensures !isAZombie(m) ==>
              && Broadcasts(from, Forwarded(isAZombie, ms + [m]))
                 == Broadcasts(from, Forwarded(isAZombie, ms)) + [SendToAllEdges(from, Propagate(m))]
              && Falses(|Forwarded(isAZombie, ms + [m])|) == Falses(|Forwarded(isAZombie, ms)|) + [false]
  {
    var f := Forwarded(isAZombie, ms);
    ForwardedStep(isAZombie, ms, m);
    if isAZombie(m) {
      assert f + [] == f;
    } else {
      BroadcastsSnoc(from, f, Propagate(m));
      FalsesSnoc(|f|);
    }
  }

  lemma BroadcastsSnoc(from: int64, ms: seq<LayoutMessage>, m: LayoutMessage)
    ensures Broadcasts(from, ms + [m]) == Broadcasts(from, ms) + [SendToAllEdges(from, m)]
  {
    var l := Broadcasts(from, ms + [m]);
    var r := Broadcasts(from, ms) + [SendToAllEdges(from, m)];
    assert |l| == |r|;
    forall i | 0 <= i < |l|
      ensures l[i] == r[i]
    {
      if i < |ms| {
        assert (ms + [m])[i] == ms[i];
      }
    }
  }

  lemma FalsesSnoc(n: nat)
    ensures Falses(n + 1) == Falses(n) + [false]
  {
    assert forall i :: 0 <= i < n + 1 ==> Falses(n + 1)[i] == (Falses(n) + [false])[i];
  }

  /** The `cos`/`sin` pair after a round that processed `ms`: with angle
      weighting, the pair of the last processed peer; otherwise, or when
      nothing was processed, the pair the round started with. */
  function WeightsAfter(env: RoundEnv, ms: seq<LayoutMessage>): Vec
    requires env.variant.Dafne?
  {
    if env.variant.useCosSin && ms != [] then AngleWeights(env.num, GeometryOf(env, ms[|ms| - 1].coords))
    else env.variant.weights
  }

  lemma WeightsAfterStep(env: RoundEnv, ms: seq<LayoutMessage>, m: LayoutMessage)
    requires env.variant.Dafne?
    ensures WeightsAfter(env, ms + [m])
            == if env.variant.useCosSin then AngleWeights(env.num, GeometryOf(env, m.coords)) else env.variant.weights
  {
    PrefixOfAppend(ms, m);
  }

  /** Without angle weighting the pair never changes. */
  lemma WeightsAfterFixed(env: RoundEnv, ms: seq<LayoutMessage>)
    requires env.variant.Dafne? && !env.variant.useCosSin
    ensures WeightsAfter(env, ms) == env.variant.weights
  {
  }

  /** What a round has produced so far: the sendMessageToAllEdges calls,
      the values aggregated and the vertex's queue. */
  datatype Outputs = Outputs(sent: seq<Send>, aggregated: seq<bool>, queue: seq<LayoutMessage>)

  /** The outputs after processing message m: nothing for a zombie;
      otherwise a `false` aggregate and the successor, flooded or queued. */
  function Emit(isAZombie: LayoutMessage -> bool, useQueues: bool, id: int64, out: Outputs, m: LayoutMessage): (r: Outputs)
    ensures isAZombie(m) ==> r == out
    ensures !isAZombie(m) ==> r.aggregated == out.aggregated + [false]
    ensures !isAZombie(m) && !useQueues ==> r.sent == out.sent + [SendToAllEdges(id, Propagate(m))] && r.queue == out.queue
    ensures !isAZombie(m) && useQueues ==> r.sent == out.sent && r.queue == out.queue + [Propagate(m)]
  {
    if isAZombie(m) then out
    else if useQueues then Outputs(out.sent, out.aggregated + [false], out.queue + [Propagate(m)])
    else Outputs(out.sent + [SendToAllEdges(id, Propagate(m))], out.aggregated + [false], out.queue)
  }

  /** The outputs after processing the messages ms in order. */
  function EmitAll(isAZombie: LayoutMessage -> bool, useQueues: bool, id: int64, start: Outputs, ms: seq<LayoutMessage>): Outputs
  {
    if ms == [] then start
    else Emit(isAZombie, useQueues, id, EmitAll(isAZombie, useQueues, id, start, ms[..|ms| - 1]), ms[|ms| - 1])
  }

  /** Processing ms aggregates one `false` per successor and floods the
      successors in order, or with queues appends them to the queue. */
  lemma {:induction false} EmitAllForwarded(isAZombie: LayoutMessage -> bool, useQueues: bool, id: int64, start: Outputs,
                                            ms: seq<LayoutMessage>)
    ensures var fwd := Forwarded(isAZombie, ms);
            EmitAll(isAZombie, useQueues, id, start, ms)
            == Outputs(if useQueues then start.sent else start.sent + Broadcasts(id, fwd),
                       start.aggregated + Falses(|fwd|),
                       if useQueues then start.queue + fwd else start.queue)
  {
    if ms == [] {
      assert start.sent + [] == start.sent && start.queue + [] == start.queue;
      assert start.aggregated + [] == start.aggregated;
    } else {
      var prefix := ms[..|ms| - 1];
      var m := ms[|ms| - 1];
      assert ms == prefix + [m];
      EmitAllForwarded(isAZombie, useQueues, id, start, prefix);
      RoundOutputStep(isAZombie, id, prefix, m);
      ForwardedStep(isAZombie, prefix, m);
      var fwd := Forwarded(isAZombie, prefix);
      if !isAZombie(m) {
        AppendAssociative(start.aggregated, Falses(|fwd|), [false]);
        AppendAssociative(start.sent, Broadcasts(id, fwd), [SendToAllEdges(id, Propagate(m))]);
        AppendAssociative(start.queue, fwd, [Propagate(m)]);
      }
    }
  }

  /** The state the walk over `prefix` leaves, starting from the analysed
      set a0 and the outputs `start`: the analysed set, the outputs, (for
      dafne) the `cos`/`sin` pair and the two force totals are those of the
      messages ScanInbox processes. */
  ghost predicate Walked(env: RoundEnv, isAZombie: LayoutMessage -> bool, id: int64, a0: set<int64>, start: Outputs, useQueues: bool,
                         prefix: seq<LayoutMessage>, analysed: set<int64>, out: Outputs, weights: Vec,
                         reset: bool, attraction: Vec, repulsion: Vec)
  {
    var processed := ScanInbox(id, a0, prefix).processed;
    && analysed == ScanInbox(id, a0, prefix).analysed
    && out == EmitAll(isAZombie, useQueues, id, start, processed)
    && (env.variant.Dafne? ==> weights == WeightsAfter(env, processed))
    && attraction == (if reset then AttractionTotal(env, processed) else ZERO)
    && repulsion == RepulsionTotal(env, processed)
  }

  /** A skipped message leaves the walk's state as it was. */
  lemma WalkSkip(env: RoundEnv, isAZombie: LayoutMessage -> bool, id: int64, a0: set<int64>, start: Outputs, useQueues: bool,
                 prefix: seq<LayoutMessage>, m: LayoutMessage, analysed: set<int64>, out: Outputs, weights: Vec,
                 reset: bool, attraction: Vec, repulsion: Vec)
    requires Walked(env, isAZombie, id, a0, start, useQueues, prefix, analysed, out, weights, reset, attraction, repulsion)
    requires Skips(id, analysed, m)
    ensures Walked(env, isAZombie, id, a0, start, useQueues, prefix + [m], analysed, out, weights, reset, attraction, repulsion)
  {
    ScanStep(id, a0, prefix + [m], |prefix|);
    PrefixOfAppend(prefix, m);
  }

  /** A processed message adds its origin to the analysed set, its outputs,
      (for dafne with angle weighting) its own pair, and its contribution. */
  lemma WalkProcess(env: RoundEnv, isAZombie: LayoutMessage -> bool, id: int64, a0: set<int64>, start: Outputs, useQueues: bool,
                    prefix: seq<LayoutMessage>, m: LayoutMessage, analysed: set<int64>, out: Outputs, weights: Vec,
                    reset: bool, attraction: Vec, repulsion: Vec)
    requires Walked(env, isAZombie, id, a0, start, useQueues, prefix, analysed, out, weights, reset, attraction, repulsion)
    requires !Skips(id, analysed, m)
    ensures var c := Contribute(env, m);
            var w := if env.variant.Dafne? && env.variant.useCosSin then AngleWeights(env.num, GeometryOf(env, m.coords))
                     else weights;
            Walked(env, isAZombie, id, a0, start, useQueues, prefix + [m], analysed + {m.payload},
                   Emit(isAZombie, useQueues, id, out, m), w,
                   reset, if reset then Add(attraction, c.attraction) else attraction, Add(repulsion, c.repulsion))
  {
    var processed := ScanInbox(id, a0, prefix).processed;
    ScanStep(id, a0, prefix + [m], |prefix|);
    PrefixOfAppend(prefix, m);
    PrefixOfAppend(processed, m);
    ProcessedStep(env, processed, m);
    if env.variant.Dafne? {
      WeightsAfterStep(env, processed, m);
    }
  }

  /** At the end of the inbox the walk's state is the outcome of the whole
      walk: the analysed set, one `false` per successor, the successors
      flooded in order or queued, and the totals of the processed messages. */
  lemma WalkDone(env: RoundEnv, isAZombie: LayoutMessage -> bool, id: int64, a0: set<int64>, start: Outputs, useQueues: bool,
                 inbox: seq<LayoutMessage>, analysed: set<int64>, out: Outputs, weights: Vec,
                 reset: bool, attraction: Vec, repulsion: Vec)
    requires Walked(env, isAZombie, id, a0, start, useQueues, inbox, analysed, out, weights, reset, attraction, repulsion)
    ensures var scan := ScanInbox(id, a0, inbox);
            var fwd := Forwarded(isAZombie, scan.processed);
            && analysed == scan.analysed
            && out == Outputs(if useQueues then start.sent else start.sent + Broadcasts(id, fwd),
                              start.aggregated + Falses(|fwd|),
                              if useQueues then start.queue + fwd else start.queue)
            && (env.variant.Dafne? ==> weights == WeightsAfter(env, scan.processed))
            && attraction == (if reset then AttractionTotal(env, scan.processed) else ZERO)
            && repulsion == RepulsionTotal(env, scan.processed)
  {
    EmitAllForwarded(isAZombie, useQueues, id, start, ScanInbox(id, a0, inbox).processed);
  }

  /** The analysed set after a prefix is the starting set plus the origins
      of the processed messages. */
  lemma {:induction false} ScanAnalysedIsProcessedPayloads(id: int64, analysed: set<int64>, inbox: seq<LayoutMessage>)
    ensures ScanInbox(id, analysed, inbox).analysed == analysed + Payloads(ScanInbox(id, analysed, inbox).processed)
  {
    if inbox != [] {
      var before := ScanInbox(id, analysed, inbox[..|inbox| - 1]);
      ScanAnalysedIsProcessedPayloads(id, analysed, inbox[..|inbox| - 1]);
      var m := inbox[|inbox| - 1];
      if !Skips(id, before.analysed, m) {
        assert Payloads(before.processed + [m]) == Payloads(before.processed) + {m.payload};
      }
    }
  }

  /** After the round the analysed set is the old one plus every origin in
      the inbox other than the vertex's own: it only grows, and every
      message not from the vertex itself ends analysed. */
  lemma {:induction false} ScanAnalysedExactly(id: int64, analysed: set<int64>, inbox: seq<LayoutMessage>)
    ensures ScanInbox(id, analysed, inbox).analysed == analysed + ForeignPayloads(id, inbox)
  {
    if inbox != [] {
      var prefix := inbox[..|inbox| - 1];
      var m := inbox[|inbox| - 1];
      ScanAnalysedExactly(id, analysed, prefix);
      assert inbox == prefix + [m];
      assert ForeignPayloads(id, inbox) == ForeignPayloads(id, prefix) + (if m.payload != id then {m.payload} else {});
    }
  }

  /** Processed messages never come from the vertex itself or from a peer
      analysed before the round. */
  lemma {:induction false} ScanProcessesOnlyNewPeers(id: int64, analysed: set<int64>, inbox: seq<LayoutMessage>)
    ensures forall m :: m in ScanInbox(id, analysed, inbox).processed ==> m.payload != id && m.payload !in analysed
  {
    if inbox != [] {
      ScanProcessesOnlyNewPeers(id, analysed, inbox[..|inbox| - 1]);
      ScanAnalysedIsProcessedPayloads(id, analysed, inbox[..|inbox| - 1]);
    }
  }

  /** No origin is processed twice: repeated messages from one peer
      contribute force at most once. */
  lemma {:induction false} ScanPayloadsDistinct(id: int64, analysed: set<int64>, inbox: seq<LayoutMessage>)
    ensures var p := ScanInbox(id, analysed, inbox).processed;
            forall i, j :: 0 <= i < j < |p| ==> p[i].payload != p[j].payload
  {
    if inbox != [] {
      var prefix := inbox[..|inbox| - 1];
      var before := ScanInbox(id, analysed, prefix);
      ScanPayloadsDistinct(id, analysed, prefix);
      ScanAnalysedIsProcessedPayloads(id, analysed, prefix);
      var m := inbox[|inbox| - 1];
      if !Skips(id, before.analysed, m) {
        var p := before.processed + [m];
        forall i, j | 0 <= i < j < |p|
          ensures p[i].payload != p[j].payload
        {
          if j == |p| - 1 {
            assert p[i] in before.processed;
          }
        }
      }
    }
  }

  /** The processed messages are inbox messages, no more of them than the
      inbox holds (their order is given by ScanIsFirstNew). */
  lemma {:induction false} ScanProcessedWithinInbox(id: int64, analysed: set<int64>, inbox: seq<LayoutMessage>)
    ensures |ScanInbox(id, analysed, inbox).processed| <= |inbox|
    ensures forall m :: m in ScanInbox(id, analysed, inbox).processed ==> m in inbox
  {
    if inbox != [] {
      var prefix := inbox[..|inbox| - 1];
      ScanProcessedWithinInbox(id, analysed, prefix);
      assert forall m :: m in prefix ==> m in inbox;
    }
  }

  /** The walk processes exactly the first message of each origin that is
      neither the vertex itself nor analysed before the round. */
  lemma {:induction false} ScanIsFirstNew(id: int64, analysed: set<int64>, inbox: seq<LayoutMessage>)
    ensures ScanInbox(id, analysed, inbox).processed == FirstNew(id, analysed, inbox)
  {
    if inbox != [] {
      var n := |inbox| - 1;
      var prefix := inbox[..n];
      var m := inbox[n];
      ScanIsFirstNew(id, analysed, prefix);
      ScanAnalysedExactly(id, analysed, prefix);
      var before := ScanInbox(id, analysed, prefix);
      assert Skips(id, before.analysed, m) <==> !FirstNewAt(id, analysed, inbox, n) by {
        if m.payload != id && m.payload !in analysed {
          if m.payload in ForeignPayloads(id, prefix) {
            var q :| q in prefix && q.payload != id && q.payload == m.payload;
            var j :| 0 <= j < n && prefix[j] == q;
            assert inbox[j].payload == m.payload;
          }
          if !FirstNewAt(id, analysed, inbox, n) {
            var j :| 0 <= j < n && inbox[j].payload == m.payload;
            assert prefix[j] in prefix;
          }
        }
      }
    }
  }

  /** Each round floods at most one successor per inbox message: one per
      processed non-zombie message. */
  lemma ForwardedAtMostInbox(isAZombie: LayoutMessage -> bool, id: int64, analysed: set<int64>, inbox: seq<LayoutMessage>)
    ensures |Forwarded(isAZombie, ScanInbox(id, analysed, inbox).processed)| <= |inbox|
  {
    ScanProcessedWithinInbox(id, analysed, inbox);
  }

  /** Every successor sent carries an origin processed in this round, with
      its coordinates and degree. */
  lemma {:induction false} ForwardedComeFromProcessed(isAZombie: LayoutMessage -> bool, ms: seq<LayoutMessage>)
    ensures forall f :: f in Forwarded(isAZombie, ms) ==>
              exists m :: m in ms && !isAZombie(m) && f == Propagate(m)
  {
    var nz := NonZombies(isAZombie, ms);
    NonZombiesMembers(isAZombie, ms);
    forall f | f in Forwarded(isAZombie, ms)
      ensures exists m :: m in ms && !isAZombie(m) && f == Propagate(m)
    {
      var i :| 0 <= i < |nz| && Forwarded(isAZombie, ms)[i] == f;
      assert nz[i] in nz;
    }
  }

  /** The rule both propagators' class comments describe for the zombie
      test: a message is flooded onwards only while its ttl is positive. */
  ghost predicate TtlRule(isAZombie: LayoutMessage -> bool)
  {
    forall m :: isAZombie(m) <==> m.ttl <= 0
  }

  /** Under the ttl rule every successor a round floods has a ttl of at
      least 0: a round never floods a successor whose ttl has gone negative. */
  lemma ForwardedTtlUnderTtlRule(isAZombie: LayoutMessage -> bool, ms: seq<LayoutMessage>)
    requires TtlRule(isAZombie)
    ensures forall f :: f in Forwarded(isAZombie, ms) ==> f.ttl >= 0
  {
    ForwardedComeFromProcessed(isAZombie, ms);
  }

  /** Under the ttl rule the successor propagateAndDie builds is processed
      by its receiver but never flooded further. */
  lemma DieEndsFloodUnderTtlRule(isAZombie: LayoutMessage -> bool, m: LayoutMessage)
    requires TtlRule(isAZombie)
    ensures Forwarded(isAZombie, [PropagateAndDie(m)]) == []
  {
    assert [PropagateAndDie(m)][..0] == [];
  }

  /** Under the ttl rule a message with ttl t >= 0 is flooded for exactly t
      hops: its first t successors are flooded onwards, the t-th is not. */
  lemma FloodLastsTtlHopsUnderTtlRule(isAZombie: LayoutMessage -> bool, m: LayoutMessage)
    requires TtlRule(isAZombie) && m.ttl >= 0
    ensures forall k: nat :: k < m.ttl ==> !isAZombie(PropagateTimes(m, k))
    ensures isAZombie(PropagateTimes(m, m.ttl as nat))
  {
    forall k: nat | k <= m.ttl
      ensures PropagateTimes(m, k).ttl == m.ttl - k
    {
      PropagateTimesLowersTtl(m, k);
    }
  }

  /** The value of the vertex (its CoordinateWritable): position, force,
      analysed peers, outgoing queue and flags. Its methods model the
      collaborator's operations under the stated assumptions. */
  class CoordinateState {
    var coords: Coords
    var force: Vec
    var analysed: set<int64>
    var queue: seq<LayoutMessage>
    var moving: bool
    var reset: bool
    var oneDegreeVertices: int32

    constructor (coords: Coords, oneDegreeVertices: int32)
      ensures this.coords == coords && this.oneDegreeVertices == oneDegreeVertices
      ensures force == ZERO && analysed == {} && queue == [] && !moving && !reset
    {
      this.coords := coords;
      this.oneDegreeVertices := oneDegreeVertices;
      force := ZERO;
      analysed := {};
      queue := [];
      moving := false;
      reset := false;
    }

    predicate IsAnalysed(p: int64)
      reads this
    {
      p in analysed
    }

    method Analyse(p: int64)
      modifies this`analysed
      ensures analysed == old(analysed) + {p}
    {
      analysed := analysed + {p};
    }

    method SetAsMoving()
      modifies this`moving
      ensures moving
    {
      moving := true;
    }

    /** Adds a vector to the accumulated force, component by component. */
    method AddToForceVector(f: Vec)
      modifies this`force
      ensures force == Add(old(force), f)
    {
      force := Add(force, f);
    }

    /** Appends a message at the tail of the queue. */
    method EnqueueMessage(m: LayoutMessage)
      modifies this`queue
      ensures queue == old(queue) + [m]
    {
      queue := queue + [m];
    }

    /** Takes the n oldest messages off the queue (all of them if fewer),
        returned oldest first and padded with nulls to length n. */
    method DequeueMessages(n: nat) returns (out: seq<Option<LayoutMessage>>)
      modifies this`queue
      ensures var k := if n < |old(queue)| then n else |old(queue)|;
              && |out| == n
              && (forall i :: 0 <= i < k ==> out[i] == Some(old(queue)[i]))
              && (forall i :: k <= i < n ==> out[i] == None)
              && queue == old(queue)[k..]
    {
      var q := queue;
      var k := if n < |q| then n else |q|;
      out := seq(n, i requires 0 <= i < n => if i < k then Some(q[i]) else None);
      queue := q[k..];
    }
  }
}
