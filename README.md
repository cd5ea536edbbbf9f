# GiLA / dafne layout core in Dafny

This project models the sequential core of GiLA and dafne. They are a
distributed force-directed graph layout on Giraph. Each vertex floods its
position across the graph in layout messages with a hop budget (ttl). In each
superstep, every vertex walks its inbox. Every message from a peer it has not
yet analysed adds that peer's repulsion to the vertex's force, and also its
attraction once the vertex has been reset. Unless the message is a zombie, its
successor is sent onwards, and a `false` is aggregated so the master knows the
flood is still going. Aggregators merge
what the vertices contribute.

The modules:

- `JavaInts`: Java `int`/`long` ranges and 32-bit wrap-around for `+` and `- 1`.
- `BigEndian`: the byte layout of `java.io.DataOutput`/`DataInput` for `int`,
  `long` and `float`. A `float` is kept as its 32-bit pattern, and `writeFloat`
  goes through `Float.floatToIntBits`, which canonicalises every NaN.
- `LayoutMessages`: the layout message as a value. It covers the
  constructors, `setDeg`, `propagate`, `propagateAndDie`, and the
  `specificWrite`/`specificRead` codec with its round trip.
- `ComponentAggregators`: the map aggregator as a class over a shared mutable
  map object. Its `aggregate` loop is proved against a merge function. The
  overwrite, int-sum, max and min policies come with their algebraic laws.
- `SetAggregators`: the set aggregator as a class over a shared mutable set
  object, with in-place union.
- `Rounds`: what the two propagators share.
  - `ScanInbox` is the walk over the inbox. `FirstNew` is an independent
    reference definition of which messages the walk processes.
  - The force law and the geometry helpers are function-valued parameters
    over exact reals.
  - Also here: the force totals, the flooded successors, and the vertex
    value (`CoordinateState`), a class.
- `GilaPropagator` and `DafnePropagator`: the two `compute` methods as
  classes.
  - The `sendMessageToAllEdges` and `aggregate` calls are recorded as
    sequence fields.
  - Each class's inbox loop keeps the invariant that the state so far is that
    of `ScanInbox` on the prefix read (dafne also keeps the fixed pair when
    angle weighting is off).
  - dafne adds the `cos`/`sin` weighting, queueing on the vertex, and the
    end-of-round drain of the queue.

## Model

| member | source | states |
|---|---|---|
| LayoutMessages.NewMessage | gila-common/src/unipg/gila/common/datastructures/messagetypes/LayoutMessage.java:60-62 | the ttl constructor keeps payload, ttl and coordinates; deg is the field default -1 (line 33) |
| LayoutMessages.NewMessageNoTtl | gila-common/src/unipg/gila/common/datastructures/messagetypes/LayoutMessage.java:49-51 | the two-argument constructor gives ttl 0 and deg -1 |
| LayoutMessages.SetDeg | gila-common/src/unipg/gila/common/datastructures/messagetypes/LayoutMessage.java:76-78 | setDeg changes deg and nothing else |
| LayoutMessages.NewMessageWithDeg | gila-common/src/unipg/gila/common/datastructures/messagetypes/LayoutMessage.java:71-74 | the four-argument constructor sets payload, ttl, coordinates and the given deg |
| LayoutMessages.Propagate | gila-common/src/unipg/gila/common/datastructures/messagetypes/LayoutMessage.java:88-91 | the successor keeps origin, coordinates and degree; its ttl is one lower, and wraps to Integer.MAX_VALUE below Integer.MIN_VALUE; no ttl check |
| LayoutMessages.PropagateAndDie | gila-common/src/unipg/gila/common/datastructures/messagetypes/LayoutMessage.java:97-100 | the successor has ttl 0 whatever the input, with origin, coordinates and degree kept |
| LayoutMessages.PropagateTimesLowersTtl | gila-common/src/unipg/gila/common/datastructures/messagetypes/LayoutMessage.java:88-91 | n propagations lower the ttl by exactly n (absent wrap-around) and keep origin, coordinates and degree |
| LayoutMessages.PropagateTimesWraps | gila-common/src/unipg/gila/common/datastructures/messagetypes/LayoutMessage.java:88-91 | the ttl alone never ends a chain of propagations: after ttl − Integer.MIN_VALUE + 1 hops it has wrapped round to Integer.MAX_VALUE |
| LayoutMessages.PropagateAndDieIdempotent | gila-common/src/unipg/gila/common/datastructures/messagetypes/LayoutMessage.java:97-100 | dying twice is dying once |
| LayoutMessages.SpecificWrite | gila-common/src/unipg/gila/common/datastructures/messagetypes/LayoutMessage.java:118-123 | exactly 20 bytes: the long payload, float x, float y and int deg, in that order, each in DataOutput's big-endian form |
| LayoutMessages.SpecificRead | gila-common/src/unipg/gila/common/datastructures/messagetypes/LayoutMessage.java:106-112 | fails exactly when fewer than 20 bytes remain; otherwise consumes 20 bytes and leaves the ttl as it was |
| LayoutMessages.ReadAfterWrite | gila-common/src/unipg/gila/common/datastructures/messagetypes/LayoutMessage.java:106-123 | reading what was written restores payload and deg exactly and each coordinate as floatToIntBits of it, and leaves the following bytes unread |
| LayoutMessages.RoundTrip | gila-common/src/unipg/gila/common/datastructures/messagetypes/LayoutMessage.java:106-123 | for non-NaN coordinates, write then read into a message with the same ttl gives back the message itself |
| BigEndian.ReadWriteLong | gila-common/src/unipg/gila/common/datastructures/messagetypes/LayoutMessage.java:107 | readLong of writeLong's eight bytes, whatever follows, is the value written |
| BigEndian.ReadWriteFloat | gila-common/src/unipg/gila/common/datastructures/messagetypes/LayoutMessage.java:109-110 | readFloat of writeFloat's bytes is floatToIntBits of the value: the same pattern, or the canonical NaN |
| BigEndian.ReadWriteInt | gila-common/src/unipg/gila/common/datastructures/messagetypes/LayoutMessage.java:111 | readInt of writeInt's four bytes is the value written |
| BigEndian.BitsToInt | gila-common/src/unipg/gila/common/datastructures/messagetypes/LayoutMessage.java:109-110 | the Java int with a given 32-bit pattern: non-negative exactly when the top bit is clear, and taking it back modulo 2^32 gives the pattern again |
| BigEndian.FloatToIntBits | gila-common/src/unipg/gila/common/datastructures/messagetypes/LayoutMessage.java:120-121 | the pattern writeFloat writes: unchanged unless NaN, every NaN as 0x7fc00000 |
| ComponentAggregators.ComponentAggregator.Aggregate | dafne-core/src/unipg/dafne/aggregators/ComponentAggregatorAbstract.java:25-35 | the held map object, updated in place, becomes the merge of its old contents and the contribution |
| ComponentAggregators.Merged | dafne-core/src/unipg/dafne/aggregators/ComponentAggregatorAbstract.java:25-35 | keys are the old keys plus the incoming keys; an absent key takes the incoming value; a shared key takes the policy's value; other keys are unchanged |
| ComponentAggregators.MergedStep | dafne-core/src/unipg/dafne/aggregators/ComponentAggregatorAbstract.java:28-33 | one more entry is put in: inserted when absent, resolved by the policy otherwise |
| ComponentAggregators.ComponentAggregator.CreateInitialValue | dafne-core/src/unipg/dafne/aggregators/ComponentAggregatorAbstract.java:38-40 | returns a new empty map and does not install it |
| ComponentAggregators.ComponentAggregator.GetAggregatedValue | dafne-core/src/unipg/dafne/aggregators/ComponentAggregatorAbstract.java:43-45 | returns the held map object itself |
| ComponentAggregators.ComponentAggregator.Reset | dafne-core/src/unipg/dafne/aggregators/ComponentAggregatorAbstract.java:48-50 | empties the held map object in place |
| ComponentAggregators.ComponentAggregator.SetAggregatedValue | dafne-core/src/unipg/dafne/aggregators/ComponentAggregatorAbstract.java:53-55 | installs the given object itself, so a later get returns it |
| ComponentAggregators.Overwrite | dafne-core/src/unipg/dafne/aggregators/ComponentAggregatorAbstract.java:77-79 | a shared key takes the incoming value |
| ComponentAggregators.OverwriteIsUpdate | dafne-core/src/unipg/dafne/aggregators/ComponentAggregatorAbstract.java:77-79 | with overwrite, aggregation is the map update by the contribution, and repeating it changes nothing |
| ComponentAggregators.IntSum | dafne-core/src/unipg/dafne/aggregators/ComponentAggregatorAbstract.java:91-95 | the sum of stored and incoming modulo 2^32, and the exact sum when it fits in an int |
| ComponentAggregators.IntSumCommutesAndAssociates | dafne-core/src/unipg/dafne/aggregators/ComponentAggregatorAbstract.java:91-95 | the wrapping int sum is commutative and associative |
| ComponentAggregators.AggregationsCommute | dafne-core/src/unipg/dafne/aggregators/ComponentAggregatorAbstract.java:25-35 | under a commutative, associative policy, two contributions can be aggregated in either order |
| ComponentAggregators.AggregationIdempotent | dafne-core/src/unipg/dafne/aggregators/ComponentAggregatorAbstract.java:25-35 | under an associative, idempotent policy, aggregating a contribution twice is aggregating it once |
| ComponentAggregators.XYMax | dafne-core/src/unipg/dafne/aggregators/ComponentAggregatorAbstract.java:106-118 | each coordinate is the larger of stored and incoming, and is one of them |
| ComponentAggregators.XYMaxLaws | dafne-core/src/unipg/dafne/aggregators/ComponentAggregatorAbstract.java:106-111 | the maximum policy is commutative, associative and idempotent |
| ComponentAggregators.XYMaxMonotone | dafne-core/src/unipg/dafne/aggregators/ComponentAggregatorAbstract.java:106-118 | aggregating with the maximum never lowers a stored coordinate |
| ComponentAggregators.XYMin | dafne-core/src/unipg/dafne/aggregators/ComponentAggregatorAbstract.java:130-133 | each coordinate is the smaller of stored and incoming, and is one of them |
| ComponentAggregators.XYMinLaws | dafne-core/src/unipg/dafne/aggregators/ComponentAggregatorAbstract.java:130-133 | the minimum policy is commutative, associative and idempotent |
| ComponentAggregators.XYMinMonotone | dafne-core/src/unipg/dafne/aggregators/ComponentAggregatorAbstract.java:130-133 | aggregating with the minimum never raises a stored coordinate |
| SetAggregators.SetAggregator.Aggregate | gila-common/src/unipg/gila/aggregators/SetAggregator.java:26-28 | the held set object, updated in place, becomes its old elements plus the contribution's |
| SetAggregators.Aggregated | gila-common/src/unipg/gila/aggregators/SetAggregator.java:27 | the result contains the old state and the contribution, and nothing else |
| SetAggregators.AggregatedAllIsUnion | gila-common/src/unipg/gila/aggregators/SetAggregator.java:26-28 | between resets the state is the start state plus every contributed element: it only grows |
| SetAggregators.AggregationCommutesAndIsIdempotent | gila-common/src/unipg/gila/aggregators/SetAggregator.java:27 | two aggregations commute, and repeating one adds nothing |
| SetAggregators.SetAggregator.CreateInitialValue | gila-common/src/unipg/gila/aggregators/SetAggregator.java:30-33 | installs a new empty set and returns that same object |
| SetAggregators.SetAggregator.GetAggregatedValue | gila-common/src/unipg/gila/aggregators/SetAggregator.java:35-37 | returns the held set object itself |
| SetAggregators.SetAggregator.Reset | gila-common/src/unipg/gila/aggregators/SetAggregator.java:39-41 | resets the held set object in place, under the stated assumption that reset clears it |
| SetAggregators.SetAggregator.SetAggregatedValue | gila-common/src/unipg/gila/aggregators/SetAggregator.java:43-45 | installs the given object itself, so a later get returns it |
| Rounds.SelfDegree | gila-core/src/unipg/gila/layout/Propagator.java:127 | the vertex's own degree is its edge count plus its degree-one vertices, added as Java ints |
| Rounds.Contribute | gila-core/src/unipg/gila/layout/Propagator.java:119-138 | in gila, a processed message contributes the force law's attractive and repulsive vectors for the peer's geometry, the own degree and the message's deg; in dafne (lines 140-150 of dafne-core/src/unipg/dafne/layout/Propagator.java) each vector is scaled componentwise by the peer's cos/sin pair, or by the fixed pair without angle weighting |
| Rounds.GeometryOf | gila-core/src/unipg/gila/layout/Propagator.java:119-125 | the delta is the peer's coordinates minus the vertex's own; the square distance is squareModule; the distance is sqrt of it in gila, computeModule in dafne (lines 120-127 of dafne-core/src/unipg/dafne/layout/Propagator.java) |
| Rounds.AngleWeights | dafne-core/src/unipg/dafne/layout/Propagator.java:129-132 | the pair is the delta divided by the distance, component by component |
| Rounds.AngleWeightsUnit | dafne-core/src/unipg/dafne/layout/Propagator.java:129-132 | with exact division and the Euclidean distance of a non-zero delta, the pair is a unit direction: cos² + sin² = 1 |
| Rounds.NetForce | gila-core/src/unipg/gila/layout/Propagator.java:153-157 | an empty round adds no force; before a reset only the scaled repulsion is subtracted |
| Rounds.ScanInbox | gila-core/src/unipg/gila/layout/Propagator.java:111-150 | the walk never forgets an analysed peer and processes at most one message per inbox message |
| Rounds.ScanStep | gila-core/src/unipg/gila/layout/Propagator.java:116-117 | a self-origin or already-analysed message changes nothing; any other is processed and its origin analysed |
| Rounds.ScanAnalysedIsProcessedPayloads | gila-core/src/unipg/gila/layout/Propagator.java:143 | the analysed set after the walk is the old one plus the processed origins |
| Rounds.ScanAnalysedExactly | gila-core/src/unipg/gila/layout/Propagator.java:111-150 | after the walk the analysed set is the old one plus every inbox origin except the vertex's own |
| Rounds.ScanProcessesOnlyNewPeers | gila-core/src/unipg/gila/layout/Propagator.java:116-117 | no processed message comes from the vertex itself or from a peer analysed before the round |
| Rounds.ScanPayloadsDistinct | gila-core/src/unipg/gila/layout/Propagator.java:116-143 | no origin is processed twice: duplicates contribute force at most once |
| Rounds.ScanProcessedWithinInbox | gila-core/src/unipg/gila/layout/Propagator.java:111-150 | the processed messages are inbox messages, at most as many as the inbox holds |
| Rounds.ScanIsFirstNew | gila-core/src/unipg/gila/layout/Propagator.java:111-150 | the walk processes exactly the first message of each origin that is neither the vertex nor analysed before, in arrival order |
| Rounds.ForwardedAtMostInbox | gila-core/src/unipg/gila/layout/Propagator.java:111-150 | a round floods at most one successor per inbox message |
| Rounds.ForwardedComeFromProcessed | gila-core/src/unipg/gila/layout/Propagator.java:145-148 | every successor sent is the propagation of a processed message the zombie test let through |
| Rounds.ForwardedTtlUnderTtlRule | gila-core/src/unipg/gila/layout/Propagator.java:145-147 | if a message is a zombie exactly when its ttl is at most 0, every successor flooded has a ttl of at least 0 |
| Rounds.DieEndsFloodUnderTtlRule | gila-common/src/unipg/gila/common/datastructures/messagetypes/LayoutMessage.java:97-100 | under that rule, the successor built by propagateAndDie is never flooded further |
| Rounds.FloodLastsTtlHopsUnderTtlRule | gila-core/src/unipg/gila/layout/Propagator.java:145-147 | under that rule, a message with ttl t ≥ 0 stays live for t propagations and is a zombie after exactly t |
| Rounds.NonZombiesMembers | gila-core/src/unipg/gila/layout/Propagator.java:145 | the messages flooded onwards are exactly the processed ones the zombie test does not reject |
| Rounds.ProcessedStep | gila-core/src/unipg/gila/layout/Propagator.java:131-141 | a processed message adds its attraction and its repulsion to the totals |
| Rounds.ForwardedStep | gila-core/src/unipg/gila/layout/Propagator.java:145-148 | a processed message adds its successor to the flooded ones unless it is a zombie |
| Rounds.RoundOutputStep | gila-core/src/unipg/gila/layout/Propagator.java:145-148 | a processed non-zombie message adds one send of its successor and one `false` aggregate; a zombie adds neither |
| Rounds.Emit | dafne-core/src/unipg/dafne/layout/Propagator.java:154-160 | a zombie emits nothing; otherwise one `false` aggregate and the successor, sent with queues off or enqueued (and not sent) with queues on |
| Rounds.EmitAllForwarded | dafne-core/src/unipg/dafne/layout/Propagator.java:112-162 | over a walk, one `false` per flooded successor, and the successors sent in order or appended to the queue |
| Rounds.WeightsAfterStep | dafne-core/src/unipg/dafne/layout/Propagator.java:129-132 | with angle weighting the pair becomes that of the peer just processed |
| Rounds.WeightsAfterFixed | dafne-core/src/unipg/dafne/layout/Propagator.java:129-132 | without angle weighting the pair never changes |
| Rounds.WalkSkip | gila-core/src/unipg/gila/layout/Propagator.java:116-117 | a skipped message leaves analysed set, outputs, weights and force totals as they were |
| Rounds.WalkProcess | gila-core/src/unipg/gila/layout/Propagator.java:119-148 | a processed message extends the analysed set, the outputs and the totals by its own share |
| Rounds.WalkDone | gila-core/src/unipg/gila/layout/Propagator.java:111-150 | once the whole inbox is walked, the analysed set, the outputs (one `false` per successor; successors flooded in order, or queued) and the totals are those of the walk |
| Rounds.CoordinateState.Analyse | gila-core/src/unipg/gila/layout/Propagator.java:143 | adds the origin to the analysed set |
| Rounds.CoordinateState.SetAsMoving | gila-core/src/unipg/gila/layout/Propagator.java:159 | the vertex is moving |
| Rounds.CoordinateState.AddToForceVector | gila-core/src/unipg/gila/layout/Propagator.java:160 | adds the vector to the accumulated force |
| Rounds.CoordinateState.EnqueueMessage | dafne-core/src/unipg/dafne/layout/Propagator.java:159 | appends the successor at the tail of the queue |
| Rounds.CoordinateState.DequeueMessages | dafne-core/src/unipg/dafne/layout/Propagator.java:177 | returns n slots: the oldest min(n, queue length) messages, then nulls; removes those from the queue |
| GilaPropagator.Propagator.ProcessMessage | gila-core/src/unipg/gila/layout/Propagator.java:119-148 | one processed message: its contribution, its origin analysed, and one send plus one `false` unless it is a zombie |
| GilaPropagator.Propagator.ReceiveMessages | gila-core/src/unipg/gila/layout/Propagator.java:111-150 | the loop leaves the analysed set, sends, aggregates and both force sums those of the inbox walk; attraction only once reset |
| GilaPropagator.Propagator.Compute | gila-core/src/unipg/gila/layout/Propagator.java:93-162 | the round: analysed set and outputs of the walk, the force grows by attraction − walshawConstant·repulsion, and the vertex is moving |
| DafnePropagator.InitialWeightsAsWritten | dafne-core/src/unipg/dafne/layout/Propagator.java:83-88 | initialisation leaves the pair (1, 1) with angle weighting and the default (0, 0) without |
| DafnePropagator.InitialWeights | dafne-core/src/unipg/dafne/layout/Propagator.java:83-88 | the corrected initial pair is (1, 1) in both cases |
| DafnePropagator.DrainCount | dafne-core/src/unipg/dafne/layout/Propagator.java:177 | the ceiling of queueFlushRatio·numEdges, clamped at Integer.MAX_VALUE as Double.intValue does, and never negative for non-negative inputs |
| DafnePropagator.Propagator.constructor | dafne-core/src/unipg/dafne/layout/Propagator.java:72-88 | the configuration is stored, and the pair starts at the corrected (1, 1) |
| DafnePropagator.Propagator.ProcessMessage | dafne-core/src/unipg/dafne/layout/Propagator.java:120-160 | with angle weighting the pair becomes the peer's; the contribution is the law's vectors scaled by the pair; the origin is analysed; the outputs are those of Emit |
| DafnePropagator.Propagator.WalkMessage | dafne-core/src/unipg/dafne/layout/Propagator.java:113-160 | one pass of the inbox loop: a skipped message leaves the walk's state unchanged, a processed one turns it into the state after the prefix one longer; without angle weighting the pair is untouched |
| DafnePropagator.Propagator.ReceiveMessages | dafne-core/src/unipg/dafne/layout/Propagator.java:112-162 | the loop leaves the analysed set, the pair, the weighted force sums, the aggregates, and the sends (queues off) or the queue tail (queues on) as the inbox walk gives them |
| DafnePropagator.Propagator.FlushQueue | dafne-core/src/unipg/dafne/layout/Propagator.java:177-187 | at most `count` queued messages, oldest first, are each aggregated as `false` and sent; they leave the queue; the loop stops at the first null |
| DafnePropagator.Propagator.Compute | dafne-core/src/unipg/dafne/layout/Propagator.java:92-189 | the round: walk, net force added and vertex moving; with queues off nothing is dequeued; with queues on, min(DrainCount, queue length) messages from the head of the queue, which now has this round's successors at its tail, are sent |
| DafnePropagator.AsWrittenWeightsCancelForce | dafne-core/src/unipg/dafne/layout/Propagator.java:140-150 | with the pair as initialisation leaves it without angle weighting, every round adds zero force |
| DafnePropagator.CorrectedWeightsMatchGila | dafne-core/src/unipg/dafne/layout/Propagator.java:140-150 | with the corrected pair and no angle weighting, a dafne round adds the same force as a gila round given the same force law and helpers, wherever computeModule agrees with sqrt of squareModule |

## Left out

- Giraph plumbing is not modelled: `initialize`, `getConf`, reading aggregated values, logging and the `Writable` wrappers. The configuration and the Walshaw constant become constructor parameters. `sendMessageToAllEdges` and `aggregate` become appends to the `sent` and `aggregated` sequences.
- The force-law classes (`FR`, `Force`) and their reflective loading are not part of this model. The force law, `Toolbox.computeModule`/`squareModule`, `Math.sqrt`, float division and the value of a float are function-valued parameters (`Numerics`).
- IEEE-754 float arithmetic is not modelled. Forces, distances, `cos`/`sin` and the product `queueFlushRatio·numEdges` are exact reals, so rounding, overflow to infinity and NaN propagation are not captured. The codec keeps floats as 32-bit patterns.
- `MessageWritable`, which holds the ttl and decides `isAZombie`, is not part of this model, and neither is the superclass state it reads from the wire: `SpecificRead` leaves the ttl untouched. `isAZombie` is a parameter of each propagator (a function of the message's fields), so whether a round stops flooding at ttl ≤ 0 depends on that unseen rule. The `...UnderTtlRule` lemmas show that under the rule the propagator's class comment states (gila-core/src/unipg/gila/layout/Propagator.java:51) a flood lasts exactly ttl hops and propagateAndDie's successor goes no further.
- The parameter-less constructor is not modelled, since it leaves every field to the unseen superclass.
- `propagate` copying the coordinates into a fresh array: messages are values here, so a successor cannot alias its original. That copy has nothing left to show.
- LayoutMessages.SpecificRead: a stream that ends early is an `EndOfInput` failure, and the bytes already consumed are not modelled.
- LayoutMessages.ReadAfterWrite: a NaN coordinate comes back as the canonical NaN pattern, as `floatToIntBits` makes it, and not as the pattern written.
- dafne's own message class, vertex value, `Toolbox` and force law (the `unipg.dafne` classes imported at dafne-core/src/unipg/dafne/layout/Propagator.java:20-26, its law set up by `generateForce(new Object[]{k})` at line 81) are not part of this model. They are taken to behave like gila's: dafne floods with the same successor rule (`LayoutMessages.Propagate`), and both propagators read the same `Numerics`, so the same force law and geometry helpers.
- `CoordinateWritable` is not part of this model. Its state is the `CoordinateState` class. `dequeueMessages` is assumed FIFO: it returns the oldest messages, then nulls up to the count asked for.
- `LongWritableSet` is not part of this model. Its `reset` is assumed to clear the set.
- Cross-worker concurrency is not modelled. Each aggregator and vertex has one sequential caller. A map aggregator visits the contribution's entries in an unspecified order (any order gives the same result, since each key occurs once).
- The fields `k` and `minimumForceThreshold` are not modelled, since `compute` never reads them.
- DafnePropagator.Propagator.Compute: requires `numEdges >= 0` and a non-negative `queueFlushRatio` (through `Valid`), so that the drain count is a natural number; a negative count has no meaning for `dequeueMessages`, which is not part of this model.
- DafnePropagator.Propagator.Compute: uses the corrected initial pair. The as-written pair is covered by `AsWrittenWeightsCancelForce`.

## Findings

| source | as written | input that shows it | evidently intended | confidence | as-written member | corrected member |
|---|---|---|---|---|---|---|
| dafne-core/src/unipg/dafne/layout/Propagator.java:83-88 | `cos` and `sin` are set to 1 only when angle weighting is on. Otherwise they keep Java's default 0, and lines 142-150 multiply every attraction and repulsion by them. | useCosSin = false, any inbox with a processed message: the vertex force stays unchanged | with angle weighting off, the forces are added unscaled (`cos = sin = 1`), as gila does | not executed | DafnePropagator.AsWrittenWeightsCancelForce | DafnePropagator.CorrectedWeightsMatchGila |
