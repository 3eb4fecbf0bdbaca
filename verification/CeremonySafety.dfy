/** What every ceremony keeps, whatever events arrive in whatever order. */
module CeremonySafety {
  import opened Wrappers
  import opened Bitcoin
  import opened Ceremony
  import Sets

  // ---- Which locals are present in which phase ----

  /** Each optional local is present exactly in its phases; nonces are
      aggregated only while there is a graph, and signatures kept only for its nodes. */
  predicate PhaseOk(own: Session, l: Locals) {
    && (l.batchId.Some? <==> l.phase != Waiting)
    && (l.expiry.Some? <==> l.phase != Waiting)
    && (l.vtxoChunks.Some? <==> l.phase == Waiting || l.phase == Joined)
    && (l.connectorChunks.Some? <==> l.phase != Forfeited)
    && (l.graph.Some? <==> l.phase == SigningTree || l.phase == Forfeited)
    && (l.commitmentTx.Some? <==> l.phase == SigningTree || l.phase == Forfeited)
    && (l.nonceTrees == if l.phase == SigningTree || l.phase == Forfeited then Some({own.cosigner}) else None)
    && (l.aggregated != map[] ==> l.phase == SigningTree || l.phase == Forfeited)
    && (l.treeSignatures != map[] ==> l.graph.Some? && l.treeSignatures.Keys <= l.graph.value.nodes)
    && (l.phase == Waiting ==> l.vtxoChunks == Some([]) && l.connectorChunks == Some([]))
  }

  lemma PhaseStep(own: Session, l: Locals, event: Event, a: Answers)
    requires PhaseOk(own, l)
    ensures Handle(own, l, event, a).1 == Running ==> PhaseOk(own, Handle(own, l, event, a).0)
    ensures PhaseRank(l.phase) <= PhaseRank(Handle(own, l, event, a).0.phase)
    ensures Handle(own, l, event, a).1.Failed? && Handle(own, l, event, a).1.error.Internal? ==>
              var missing := Handle(own, l, event, a).1.error.missing;
              || (missing == VtxoChunks && l.phase == SigningTree && event.TreeTx?)
              || (missing == AggregatedNonce && l.phase == SigningTree && event.TreeNonces?)
  {
  }

  /** Whatever the stream delivers, a running ceremony has each local exactly
      in its phases, and of all the "missing" and "unexpected" failures only
      two can ever be reported. */
  lemma {:induction false} CeremonyInvariant(own: Session, stream: Stream)
    ensures Run(own, stream).1 == Running ==> PhaseOk(own, Run(own, stream).0)
    ensures Run(own, stream).1.Failed? && Run(own, stream).1.error.Internal?
            ==> Run(own, stream).1.error.missing in {VtxoChunks, AggregatedNonce}
    decreases |stream|
  {
    if stream != [] {
      var front, last := stream[..|stream| - 1], stream[|stream| - 1];
      CeremonyInvariant(own, front);
      if Run(own, front).1 == Running {
        PhaseStep(own, Run(own, front).0, last.0, last.1);
      }
    }
  }

  /** Those two are reported exactly when, while signing, a chunk of the VTXO
      tree arrives, or the last expected number of nonces is reached with a
      node of the graph still uncovered. */
  lemma InternalFailures(own: Session, stream: Stream, event: Event, a: Answers)
    requires Run(own, stream).1 == Running
    ensures var (l, _) := Run(own, stream);
            var status := Run(own, stream + [(event, a)]).1;
            && (status == Failed(Internal(VtxoChunks))
                <==> l.phase == SigningTree && event.TreeTx? && event.kind == VtxoTree)
            && (status == Failed(Internal(AggregatedNonce))
                <==> && l.phase == SigningTree && event.TreeNonces? && own.cosigner.xOnly in event.nonces && a.treeSigns
                     && l.graph.Some?
                     && |l.aggregated[event.txid := event.nonces]| == |l.graph.value.nodes|
                     && l.aggregated[event.txid := event.nonces].Keys != l.graph.value.nodes)
  {
    CeremonyInvariant(own, stream);
    RunOn(own, stream, event, a);
    var (l, _) := Run(own, stream);
    if event.TreeNonces? && l.graph.Some? {
      var keys := l.aggregated[event.txid := event.nonces].Keys;
      assert |l.aggregated[event.txid := event.nonces]| == |keys|;
      if |keys| == |l.graph.value.nodes| && l.graph.value.nodes <= keys {
        Sets.SameSize(l.graph.value.nodes, keys);
      }
    }
  }

  const GOOD_ANSWERS := Answers(true, Some(TxGraph(Foreign(0), {Foreign(0)})), true, true, true, true, false)

  /** A stream that brings a ceremony to signing a graph of one node. */
  lemma SigningReachable(own: Session) returns (stream: Stream)
    ensures Run(own, stream).1 == Running && Run(own, stream).0.phase == SigningTree
    ensures Run(own, stream).0.graph == GOOD_ANSWERS.graph && Run(own, stream).0.aggregated == map[]
  {
    var joining, signing := BatchStarted(0, [own.intentId], 0), TreeSigningStarted(0, [own.cosigner], 0);
    var joined: Stream := [] + [(joining, GOOD_ANSWERS)];
    RunOn(own, [], joining, GOOD_ANSWERS);
    assert Run(own, joined).1 == Running && Run(own, joined).0.phase == Joined;
    RunOn(own, joined, signing, GOOD_ANSWERS);
    stream := joined + [(signing, GOOD_ANSWERS)];
    CeremonyInvariant(own, stream);
  }

  /** Both do happen. A VTXO chunk that follows the start of signing ends the ceremony. */
  lemma LateChunkReachable(own: Session)
    ensures exists stream: Stream :: Run(own, stream).1 == Failed(Internal(VtxoChunks))
  {
    var stream := SigningReachable(own);
    var late := TreeTx(VtxoTree, 0);
    RunOn(own, stream, late, GOOD_ANSWERS);
    CeremonyInvariant(own, stream);
    assert Run(own, stream + [(late, GOOD_ANSWERS)]).1 == Failed(Internal(VtxoChunks));
  }

  /** So do nonces for a foreign node that complete the count. */
  lemma ForeignNonceReachable(own: Session)
    ensures exists stream: Stream :: Run(own, stream).1 == Failed(Internal(AggregatedNonce))
  {
    var stream := SigningReachable(own);
    var l := Run(own, stream).0;
    var foreign := TreeNonces(0, Foreign(1), map[own.cosigner.xOnly := 0]);
    var aggregated := l.aggregated[Foreign(1) := foreign.nonces];
    assert aggregated.Keys == {Foreign(1)} && |aggregated| == |aggregated.Keys|;
    assert Foreign(0) in l.graph.value.nodes && Foreign(0) !in aggregated.Keys;
    InternalFailures(own, stream, foreign, GOOD_ANSWERS);
    assert Run(own, stream + [(foreign, GOOD_ANSWERS)]).1 == Failed(Internal(AggregatedNonce));
  }

  // ---- The order of outgoing calls ----

  predicate AllSignatures(calls: seq<Call>) {
    forall i :: 0 <= i < |calls| ==> calls[i].SubmitSignatures?
  }

  /** Confirm, then nonces, then any number of signatures, then at most one set of forfeits. */
  ghost predicate Ordered(calls: seq<Call>) {
    || calls == []
    || calls == [Confirm]
    || exists id, nodes, signatures, forfeits: seq<Call> ::
         && calls == [Confirm, SubmitNonces(id, nodes)] + signatures + forfeits
         && AllSignatures(signatures)
         && (forfeits == [] || forfeits == [SubmitForfeits])
  }

  /** The calls made by the time a phase is running. */
  ghost predicate CallsOf(phase: Phase, calls: seq<Call>) {
    match phase
    case Waiting => calls == []
    case Joined => calls == [Confirm]
    case SigningTree =>
      && |calls| >= 2 && calls[0] == Confirm && calls[1].SubmitNonces? && AllSignatures(calls[2..])
    case Forfeited => Ordered(calls)
  }

  lemma SigningIsOrdered(calls: seq<Call>)
    requires CallsOf(SigningTree, calls)
    ensures Ordered(calls) && Ordered(calls + [SubmitForfeits])
  {
    var id, nodes := calls[1].id, calls[1].nodes;
    assert calls == [Confirm, SubmitNonces(id, nodes)] + calls[2..] + [];
    assert calls + [SubmitForfeits] == [Confirm, SubmitNonces(id, nodes)] + calls[2..] + [SubmitForfeits];
  }

  lemma CallsStep(own: Session, l: Locals, event: Event, a: Answers)
    requires PhaseOk(own, l) && CallsOf(l.phase, l.calls)
    ensures var (next, status) := Handle(own, l, event, a);
            && l.calls <= next.calls && |next.calls| <= |l.calls| + 1
            && Ordered(next.calls)
            && (status == Running ==> CallsOf(next.phase, next.calls))
  {
    var (next, status) := Handle(own, l, event, a);
    if l.phase == SigningTree {
      SigningIsOrdered(l.calls);
      if event.TreeNonces? && next.calls != l.calls {
        assert next.calls[2..] == l.calls[2..] + [next.calls[|l.calls|]];
        SigningIsOrdered(next.calls);
      }
    } else if l.phase == Joined && next.calls != l.calls {
      assert next.calls == [Confirm, next.calls[1]];
      assert next.calls[2..] == [];
      SigningIsOrdered(next.calls);
    }
  }

  lemma {:induction false} CallsAlways(own: Session, stream: Stream)
    ensures Ordered(Run(own, stream).0.calls)
    ensures Run(own, stream).1 == Running ==> CallsOf(Run(own, stream).0.phase, Run(own, stream).0.calls)
    decreases |stream|
  {
    if stream != [] {
      var front, last := stream[..|stream| - 1], stream[|stream| - 1];
      CallsAlways(own, front);
      CeremonyInvariant(own, front);
      if Run(own, front).1 == Running {
        CallsStep(own, Run(own, front).0, last.0, last.1);
      }
    }
  }

  /** For every event stream, the calls of a ceremony, however it ends, come in
      the one order of the protocol, and its phase never goes back. */
  lemma CallOrder(own: Session, stream: Stream, n: nat)
    requires n <= |stream|
    ensures Ordered(Run(own, stream).0.calls)
    ensures Run(own, stream[..n]).0.calls <= Run(own, stream).0.calls
    ensures PhaseRank(Run(own, stream[..n]).0.phase) <= PhaseRank(Run(own, stream).0.phase)
  {
    CallsAlways(own, stream);
    RunGrows(own, stream, n);
  }

  lemma {:induction false} RunGrows(own: Session, stream: Stream, n: nat)
    requires n <= |stream|
    ensures Run(own, stream[..n]).0.calls <= Run(own, stream).0.calls
    ensures PhaseRank(Run(own, stream[..n]).0.phase) <= PhaseRank(Run(own, stream).0.phase)
    decreases |stream|
  {
    if n == |stream| {
      assert stream[..n] == stream;
    } else {
      var front, last := stream[..|stream| - 1], stream[|stream| - 1];
      assert front[..n] == stream[..n];
      RunGrows(own, front, n);
      if Run(own, front).1 == Running {
        CeremonyInvariant(own, front);
        CallsAlways(own, front);
        PhaseStep(own, Run(own, front).0, last.0, last.1);
        CallsStep(own, Run(own, front).0, last.0, last.1);
      }
    }
  }

  // ---- Tree signatures cover exactly the graph ----

  lemma SignaturesNeedAll(own: Session, l: Locals, event: Event, a: Answers)
    requires var after := Handle(own, l, event, a).0.calls; |after| > |l.calls| && after[|l.calls|].SubmitSignatures?
    ensures var after := Handle(own, l, event, a).0;
            && after.graph.Some? && l.graph == after.graph
            && |after.aggregated| == |after.graph.value.nodes| && after.graph.value.nodes <= after.aggregated.Keys
            && after.calls[|l.calls|].signed == after.graph.value.nodes
  {
  }

  /** Partial signatures are only submitted when the nonces aggregated so far
      are for the nodes of the graph, all of them and no others; equal numbers
      and every node found leave no room for a foreign one. */
  lemma SignaturesCoverGraph(own: Session, stream: Stream, event: Event, a: Answers)
    requires Run(own, stream).1 == Running
    requires var before, after := Run(own, stream).0.calls, Run(own, stream + [(event, a)]).0.calls;
             |after| > |before| && after[|before|].SubmitSignatures?
    ensures var before, after := Run(own, stream).0, Run(own, stream + [(event, a)]).0;
            && after.graph.Some? && before.graph == after.graph
            && after.aggregated.Keys == after.graph.value.nodes
            && after.calls[|before.calls|].signed == after.graph.value.nodes
  {
    RunOn(own, stream, event, a);
    SignaturesNeedAll(own, Run(own, stream).0, event, a);
    var after := Run(own, stream + [(event, a)]).0;
    assert |after.aggregated| == |after.aggregated.Keys|;
    Sets.SameSize(after.graph.value.nodes, after.aggregated.Keys);
  }

  // ---- What a result means ----

  ghost predicate JoinedAt(own: Session, stream: Stream, i: int) {
    0 <= i < |stream| && stream[i].0.BatchStarted? && own.intentId in stream[i].0.intentIds
  }

  ghost predicate SigningAt(own: Session, stream: Stream, i: int) {
    0 <= i < |stream| && stream[i].0.TreeSigningStarted? && own.cosigner in stream[i].0.cosigners
  }

  ghost predicate FinalizationAt(stream: Stream, i: int) {
    0 <= i < |stream| && stream[i].0.BatchFinalization?
  }

  /** The events a phase cannot have been reached without, in order. */
  ghost predicate Passed(own: Session, stream: Stream, phase: Phase) {
    match phase
    case Waiting => true
    case Joined => exists i :: JoinedAt(own, stream, i)
    case SigningTree => exists i, j :: i < j && JoinedAt(own, stream, i) && SigningAt(own, stream, j)
    case Forfeited =>
      exists i, j, k :: i < j < k && JoinedAt(own, stream, i) && SigningAt(own, stream, j) && FinalizationAt(stream, k)
  }

  lemma PassedStays(own: Session, stream: Stream, last: (Event, Answers), phase: Phase)
    requires Passed(own, stream, phase)
    ensures Passed(own, stream + [last], phase)
  {
    var longer := stream + [last];
    match phase
    case Waiting =>
    case Joined =>
      var i :| JoinedAt(own, stream, i);
      assert JoinedAt(own, longer, i);
    case SigningTree =>
      var i, j :| i < j && JoinedAt(own, stream, i) && SigningAt(own, stream, j);
      assert JoinedAt(own, longer, i) && SigningAt(own, longer, j);
    case Forfeited =>
      var i, j, k :| i < j < k && JoinedAt(own, stream, i) && SigningAt(own, stream, j) && FinalizationAt(stream, k);
      assert JoinedAt(own, longer, i) && SigningAt(own, longer, j) && FinalizationAt(longer, k);
  }

  lemma PassedNext(own: Session, stream: Stream, last: (Event, Answers), phase: Phase, next: Phase)
    requires Passed(own, stream, phase)
    requires next == phase
             || (phase == Waiting && next == Joined && JoinedAt(own, [last], 0))
             || (phase == Joined && next == SigningTree && SigningAt(own, [last], 0))
             || (phase == SigningTree && next == Forfeited && FinalizationAt([last], 0))
    ensures Passed(own, stream + [last], next)
  {
    var longer, n := stream + [last], |stream|;
    if next == phase {
      PassedStays(own, stream, last, phase);
    } else if next == Joined {
      assert JoinedAt(own, longer, n);
    } else if next == SigningTree {
      var i :| JoinedAt(own, stream, i);
      assert JoinedAt(own, longer, i) && SigningAt(own, longer, n);
    } else {
      var i, j :| i < j && JoinedAt(own, stream, i) && SigningAt(own, stream, j);
      assert JoinedAt(own, longer, i) && SigningAt(own, longer, j) && FinalizationAt(longer, n);
    }
  }

  /** The only moves between phases, and the events that make them. */
  lemma PhaseMoves(own: Session, l: Locals, event: Event, a: Answers)
    requires Handle(own, l, event, a).1 == Running
    ensures var next := Handle(own, l, event, a).0.phase;
            || next == l.phase
            || (l.phase == Waiting && next == Joined && JoinedAt(own, [(event, a)], 0))
            || (l.phase == Joined && next == SigningTree && SigningAt(own, [(event, a)], 0))
            || (l.phase == SigningTree && next == Forfeited && FinalizationAt([(event, a)], 0))
  {
  }

  lemma {:induction false} PassedAlways(own: Session, stream: Stream)
    requires Run(own, stream).1 == Running
    ensures Passed(own, stream, Run(own, stream).0.phase)
    decreases |stream|
  {
    if stream != [] {
      var front, last := stream[..|stream| - 1], stream[|stream| - 1];
      PassedAlways(own, front);
      var l := Run(own, front).0;
      PhaseMoves(own, l, last.0, last.1);
      PassedNext(own, front, last, l.phase, Run(own, stream).0.phase);
      assert stream == front + [last];
    }
  }

  /** A batch with our intent started, our key was called to sign, the batch
      went into finalization, and `txid` was finalized, in this order. */
  ghost predicate Completed(own: Session, stream: Stream, txid: Txid) {
    exists i, j, k, n ::
      && i < j < k < n < |stream|
      && JoinedAt(own, stream, i) && SigningAt(own, stream, j) && FinalizationAt(stream, k)
      && stream[n].0.BatchFinalized? && stream[n].0.commitmentTxid == txid
  }

  lemma CompletedStays(own: Session, stream: Stream, last: (Event, Answers), txid: Txid)
    requires Completed(own, stream, txid)
    ensures Completed(own, stream + [last], txid)
  {
    var longer := stream + [last];
    var i, j, k, n :| && i < j < k < n < |stream|
                      && JoinedAt(own, stream, i) && SigningAt(own, stream, j) && FinalizationAt(stream, k)
                      && stream[n].0.BatchFinalized? && stream[n].0.commitmentTxid == txid;
    assert JoinedAt(own, longer, i) && SigningAt(own, longer, j) && FinalizationAt(longer, k);
    assert longer[n] == stream[n];
  }

  lemma CompletedNow(own: Session, stream: Stream, last: (Event, Answers), txid: Txid)
    requires Passed(own, stream, Forfeited)
    requires last.0.BatchFinalized? && last.0.commitmentTxid == txid
    ensures Completed(own, stream + [last], txid)
  {
    var longer := stream + [last];
    var i, j, k :| i < j < k && JoinedAt(own, stream, i) && SigningAt(own, stream, j) && FinalizationAt(stream, k);
    assert JoinedAt(own, longer, i) && SigningAt(own, longer, j) && FinalizationAt(longer, k);
    assert longer[|stream|] == last;
  }

  lemma SettledByEvent(own: Session, l: Locals, event: Event, a: Answers, txid: Txid)
    requires Handle(own, l, event, a).1 == Settled(txid)
    ensures l.phase == Forfeited && event.BatchFinalized? && event.commitmentTxid == txid
  {
  }

  /** A ceremony returns a txid only from a finalized event that carries it,
      after all that must come before. */
  lemma {:induction false} SettledMeans(own: Session, stream: Stream, txid: Txid)
    requires Run(own, stream).1 == Settled(txid)
    ensures Completed(own, stream, txid)
    decreases |stream|
  {
    var front, last := stream[..|stream| - 1], stream[|stream| - 1];
    assert stream == front + [last];
    if Run(own, front).1 == Running {
      PassedAlways(own, front);
      SettledByEvent(own, Run(own, front).0, last.0, last.1, txid);
      CompletedNow(own, front, last, txid);
    } else {
      SettledMeans(own, front, txid);
      CompletedStays(own, front, last, txid);
    }
  }
}
