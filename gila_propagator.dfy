/** The gila propagator: one vertex's round. Every message from a new peer
    adds the peer's repulsion (and its attraction, once the vertex has been
    reset), marks the peer analysed and, unless the message is a zombie,
    floods the message's successor to all edges at once. */
module GilaPropagator {
  import opened JavaInts
  import opened LayoutMessages
  import opened Rounds

  class Propagator {
    /** The force law and float helpers (selected by configuration). */
    const num: Numerics
    /** The repulsion scale, read from its aggregator when the round starts. */
    const walshawConstant: real
    /** MessageWritable.isAZombie, whose rule is not part of this model. */
    const isAZombie: LayoutMessage -> bool
    /** The sendMessageToAllEdges calls issued, in order. */
    var sent: seq<Send>
    /** The values contributed to the message aggregator, in order. */
    var aggregated: seq<bool>

    constructor (num: Numerics, walshawConstant: real, isAZombie: LayoutMessage -> bool)
      ensures this.num == num && this.walshawConstant == walshawConstant && this.isAZombie == isAZombie
      ensures sent == [] && aggregated == []
    {
      this.num := num;
      this.walshawConstant := walshawConstant;
      this.isAZombie := isAZombie;
      sent := [];
      aggregated := [];
    }

    /** The work for one message from a peer not analysed yet: the force
        law's two vectors for the peer, the peer marked analysed and, unless
        the message is a zombie, a `false` aggregate and its successor
        flooded to all edges. */
    method ProcessMessage(id: int64, v: CoordinateState, env: RoundEnv, m: LayoutMessage) returns (c: Contribution)
      modifies this`sent, this`aggregated, v`analysed
      ensures c == Contribute(env, m)
      ensures v.analysed == old(v.analysed) + {m.payload}
      ensures Outputs(sent, aggregated, v.queue) == Emit(isAZombie, false, id, old(Outputs(sent, aggregated, v.queue)), m)
    {
      c := Contribute(env, m);
      v.Analyse(m.payload);
      if !isAZombie(m) {
        aggregated := aggregated + [false];
        sent := sent + [SendToAllEdges(id, Propagate(m))];
      }
    }

    /** The walk over the inbox in arrival order: each message from a peer
        neither the vertex itself nor analysed yet is processed. Returns the
        attraction of the processed messages (zero unless the vertex has been
        reset) and their repulsion. */
    method ReceiveMessages(id: int64, v: CoordinateState, env: RoundEnv, inbox: seq<LayoutMessage>)
      returns (attraction: Vec, repulsion: Vec)
      requires env.variant.Gila?
      modifies this`sent, this`aggregated, v`analysed
      ensures var scan := ScanInbox(id, old(v.analysed), inbox);
              && v.analysed == scan.analysed
              && sent == old(sent) + Broadcasts(id, Forwarded(isAZombie, scan.processed))
              && aggregated == old(aggregated) + Falses(|Forwarded(isAZombie, scan.processed)|)
              && attraction == (if v.reset then AttractionTotal(env, scan.processed) else ZERO)
              && repulsion == RepulsionTotal(env, scan.processed)
    {
      ghost var a0 := v.analysed;
      ghost var start := Outputs(sent, aggregated, v.queue);
      attraction, repulsion := ZERO, ZERO;
      var i := 0;
      while i < |inbox|
        invariant 0 <= i <= |inbox|
        invariant Walked(env, isAZombie, id, a0, start, false, inbox[..i], v.analysed, Outputs(sent, aggregated, v.queue),
                         ZERO, v.reset, attraction, repulsion)
      {
        var currentMessage := inbox[i];
        assert inbox[..i + 1] == inbox[..i] + [currentMessage];
        if currentMessage.payload == id || v.IsAnalysed(currentMessage.payload) {
          WalkSkip(env, isAZombie, id, a0, start, false, inbox[..i], currentMessage, v.analysed, Outputs(sent, aggregated, v.queue),
                   ZERO, v.reset, attraction, repulsion);
        } else {
          WalkProcess(env, isAZombie, id, a0, start, false, inbox[..i], currentMessage, v.analysed, Outputs(sent, aggregated, v.queue),
                      ZERO, v.reset, attraction, repulsion);
          var c := ProcessMessage(id, v, env, currentMessage);
          if v.reset {
            attraction := Add(attraction, c.attraction);
          }
          repulsion := Add(repulsion, c.repulsion);
        }
        i := i + 1;
      }
      assert inbox[..i] == inbox;
      WalkDone(env, isAZombie, id, a0, start, false, inbox, v.analysed, Outputs(sent, aggregated, v.queue),
               ZERO, v.reset, attraction, repulsion);
    }

    /** The round of vertex `id` with `numEdges` edges, value `v` and the
        given inbox. The vertex's processed peers, the flooded successors
        (one send and one `false` aggregate each) and the force added are
        those of the inbox walk; the vertex is set moving even when nothing
        was processed. */
    method Compute(id: int64, numEdges: int32, v: CoordinateState, inbox: seq<LayoutMessage>)
      modifies this`sent, this`aggregated, v`analysed, v`moving, v`force
      ensures var env := old(RoundEnv(num, Gila, v.coords, SelfDegree(numEdges, v.oneDegreeVertices)));
              var scan := ScanInbox(id, old(v.analysed), inbox);
              && v.analysed == scan.analysed
              && sent == old(sent) + Broadcasts(id, Forwarded(isAZombie, scan.processed))
              && aggregated == old(aggregated) + Falses(|Forwarded(isAZombie, scan.processed)|)
              && v.force == Add(old(v.force), NetForce(env, old(v.reset), walshawConstant, scan.processed))
              && v.moving
    {
      var env := RoundEnv(num, Gila, v.coords, SelfDegree(numEdges, v.oneDegreeVertices));
      var finalForce, repulsiveForce := ReceiveMessages(id, v, env, inbox);
      repulsiveForce := Scale(walshawConstant, repulsiveForce);
      finalForce := Sub(finalForce, repulsiveForce);
      v.SetAsMoving();
      v.AddToForceVector(finalForce);
    }
  }
}
