/**
 * The batch ceremony of a delegated settlement (delegate.rs): one event at a
 * time, over locals most of which are present only in some phases.
 */
module Ceremony {
  import opened Wrappers
  import opened Bitcoin

  /** A full public key; batches list these, nonces are keyed by the x-only part. */
  datatype CosignerKey = CosignerKey(xOnly: Key, odd: bool)

  type BatchId = nat

  /** The tree a batch signs, by the txids of its nodes. */
  datatype TxGraph = TxGraph(root: Txid, nodes: set<Txid>)

  datatype TreeKind = VtxoTree | ConnectorTree

  /** What the stream yields; intent ids are hashed symbolically. */
  datatype Event =
    | StreamStarted
    | BatchStarted(id: BatchId, intentIds: seq<nat>, expiry: nat)
    | TreeTx(kind: TreeKind, chunk: nat)
    | TreeSignature(kind: TreeKind, txid: Txid, signature: nat)
    | TreeSigningStarted(id: BatchId, cosigners: seq<CosignerKey>, commitmentTx: nat)
    | TreeNonces(id: BatchId, txid: Txid, nonces: map<Key, nat>)
    | TreeNoncesAggregated
    | BatchFinalization
    | BatchFinalized(id: BatchId, commitmentTxid: Txid)
    | BatchFailed(id: BatchId)
    | Heartbeat
    | StreamError
    | StreamEnded

  /** What the server and the libraries answer while an event is handled.
      `stale` tells whether an error message they supply reads "already
      registered". */
  datatype Answers = Answers(
    callSucceeds: bool,
    graph: Option<TxGraph>,
    noncesGenerated: bool,
    treeSigns: bool,
    connectorsBuild: bool,
    forfeitsComplete: bool,
    stale: bool)

  /** The four steps of the loop: `Start`, `BatchStarted`, `BatchSigningStarted`, `Finalized`. */
  datatype Phase = Waiting | Joined | SigningTree | Forfeited

  function PhaseRank(phase: Phase): nat {
    match phase case Waiting => 0 case Joined => 1 case SigningTree => 2 case Forfeited => 3
  }

  datatype Call =
    | Confirm
    | SubmitNonces(id: BatchId, nodes: set<Txid>)
    | SubmitSignatures(id: BatchId, signed: set<Txid>)
    | SubmitForfeits

  datatype Locals = Locals(
    phase: Phase,
    batchId: Option<BatchId>,
    commitmentTx: Option<nat>,
    vtxoChunks: Option<seq<nat>>,
    graph: Option<TxGraph>,
    treeSignatures: map<Txid, nat>,
    connectorChunks: Option<seq<nat>>,
    expiry: Option<nat>,
    aggregated: map<Txid, map<Key, nat>>,
    nonceTrees: Option<set<CosignerKey>>,
    calls: seq<Call>)

  const FRESH := Locals(Waiting, None, None, Some([]), None, map[], Some([]), None, map[], None, [])

  datatype Missing =
    | VtxoChunks
    | ConnectorChunks
    | VtxoGraphChunks
    | VtxoGraph
    | OwnKeypair
    | NonceTrees
    | NonceTree
    | CommitmentTx
    | BatchExpiry
    | AggregatedNonce
    | Connectors

  datatype Error =
    | Internal(missing: Missing)
    | NotACosigner
    | StreamOver
    | External(stale: bool)

  /** Whether the loop goes on, and if not, how it ends. */
  datatype Status = Running | Settled(txid: Txid) | Failed(error: Error)

  datatype Session = Session(intentId: nat, cosigner: CosignerKey)

  // ---- One event ----

  function Handle(own: Session, l: Locals, event: Event, a: Answers): (Locals, Status) {
    match event
    case BatchStarted(id, intentIds, expiry) =>
      if l.phase != Waiting || own.intentId !in intentIds then (l, Running)
      else
        var called := l.(calls := l.calls + [Confirm]);
        if !a.callSucceeds then (called, Failed(External(a.stale)))
        else (called.(batchId := Some(id), expiry := Some(expiry), phase := Joined), Running)
    case TreeTx(kind, chunk) =>
      if l.phase != Joined && l.phase != SigningTree then (l, Running)
      else if kind == VtxoTree then
        if l.vtxoChunks.None? then (l, Failed(Internal(VtxoChunks)))
        else (l.(vtxoChunks := Some(l.vtxoChunks.value + [chunk])), Running)
      else
        if l.connectorChunks.None? then (l, Failed(Internal(ConnectorChunks)))
        else (l.(connectorChunks := Some(l.connectorChunks.value + [chunk])), Running)
    case TreeSignature(kind, txid, signature) =>
      if l.phase != SigningTree || kind != VtxoTree || l.graph.None? || txid !in l.graph.value.nodes then (l, Running)
      else (l.(treeSignatures := l.treeSignatures[txid := signature]), Running)
    case TreeSigningStarted(id, cosigners, commitmentTx) =>
      if l.phase != Joined then (l, Running) else SigningStarted(own, l, id, cosigners, commitmentTx, a)
    case TreeNonces(id, txid, nonces) =>
      if l.phase != SigningTree || own.cosigner.xOnly !in nonces then (l, Running)
      else Nonces(own, l.(aggregated := l.aggregated[txid := nonces]), id, a)
    case BatchFinalization =>
      if l.phase != SigningTree then (l, Running) else Finalization(l, a)
    case BatchFinalized(_, commitmentTxid) =>
      if l.phase != Forfeited then (l, Running) else (l, Settled(commitmentTxid))
    case BatchFailed(id) =>
      if l.batchId == Some(id) then (l, Failed(External(a.stale))) else (l, Running)
    case StreamError => (l, Failed(External(a.stale)))
    case StreamEnded => (l, Failed(StreamOver))
    case StreamStarted => (l, Running)
    case TreeNoncesAggregated => (l, Running)
    case Heartbeat => (l, Running)
  }

  function SigningStarted(own: Session, l: Locals, id: BatchId, cosigners: seq<CosignerKey>, commitmentTx: nat,
                          a: Answers)
    : (Locals, Status)
  {
    if l.vtxoChunks.None? then (l, Failed(Internal(VtxoGraphChunks)))
    else
      var taken := l.(vtxoChunks := None);
      if a.graph.None? then (taken, Failed(External(a.stale)))
      else
        var built := taken.(graph := a.graph);
        if own.cosigner !in cosigners then (built, Failed(NotACosigner))
        else if !a.noncesGenerated then (built, Failed(External(a.stale)))
        else
          var called := built.(calls := built.calls + [SubmitNonces(id, a.graph.value.nodes)]);
          if !a.callSucceeds then (called, Failed(External(a.stale)))
          else
            var trees := Some({own.cosigner});
            (called.(commitmentTx := Some(commitmentTx), nonceTrees := trees, phase := SigningTree), Running)
  }

  /** Forfeit against the connectors, if there are any. */
  function Finalization(l: Locals, a: Answers): (Locals, Status) {
    if l.connectorChunks.None? then (l, Failed(Internal(Connectors)))
    else
      var taken := l.(connectorChunks := None);
      if l.connectorChunks.value == [] then (taken.(phase := Forfeited), Running)
      else if !a.connectorsBuild || !a.forfeitsComplete then (taken, Failed(External(a.stale)))
      else
        var called := taken.(calls := taken.calls + [SubmitForfeits]);
        if !a.callSucceeds then (called, Failed(External(a.stale))) else (called.(phase := Forfeited), Running)
  }

  /** Sign and submit once every node has its aggregated nonce. */
  function Nonces(own: Session, l: Locals, id: BatchId, a: Answers): (Locals, Status) {
    if l.graph.None? then (l, Failed(Internal(VtxoGraph)))
    else if |l.aggregated| != |l.graph.value.nodes| then (l, Running)
    else if l.nonceTrees.None? then (l, Failed(Internal(NonceTrees)))
    else if own.cosigner !in l.nonceTrees.value then (l, Failed(Internal(NonceTree)))
    else if l.commitmentTx.None? then (l, Failed(Internal(CommitmentTx)))
    else if l.expiry.None? then (l, Failed(Internal(BatchExpiry)))
    else if !a.treeSigns then (l, Failed(External(a.stale)))
    else if !(l.graph.value.nodes <= l.aggregated.Keys) then (l, Failed(Internal(AggregatedNonce)))
    else
      var called := l.(calls := l.calls + [SubmitSignatures(id, l.graph.value.nodes)]);
      if !a.callSucceeds then (called, Failed(External(a.stale))) else (called, Running)
  }

  // ---- Runs over any event stream ----

  type Stream = seq<(Event, Answers)>

  function Run(own: Session, stream: Stream): (Locals, Status) {
    if stream == [] then (FRESH, Running)
    else
      var last := stream[|stream| - 1];
      var (l, status) := Run(own, stream[..|stream| - 1]);
      if status != Running then (l, status) else Handle(own, l, last.0, last.1)
  }

  // ---- The loop itself ----

  /** The event stream of the server, with all that was received from it. */
  class Source {
    var heard: Stream

    constructor ()
      ensures heard == []
    {
      heard := [];
    }

    method Next() returns (event: Event, a: Answers)
      modifies this
      ensures heard == old(heard) + [(event, a)]
    {
      event, a := *, *;
      heard := heard + [(event, a)];
    }
  }

  /** The ceremony with its locals as fields. */
  class Settlement {
    const own: Session
    var phase: Phase
    var batchId: Option<BatchId>
    var commitmentTx: Option<nat>
    var vtxoChunks: Option<seq<nat>>
    var graph: Option<TxGraph>
    var treeSignatures: map<Txid, nat>
    var connectorChunks: Option<seq<nat>>
    var expiry: Option<nat>
    var aggregated: map<Txid, map<Key, nat>>
    var nonceTrees: Option<set<CosignerKey>>
    var calls: seq<Call>

    ghost function Now(): Locals
      reads this
    {
      Locals(phase, batchId, commitmentTx, vtxoChunks, graph, treeSignatures, connectorChunks, expiry, aggregated,
             nonceTrees, calls)
    }

    constructor (own: Session)
      ensures this.own == own && Now() == FRESH
    {
      this.own := own;
      phase := Waiting;
      batchId, commitmentTx, vtxoChunks, graph := None, None, Some([]), None;
      treeSignatures, connectorChunks, expiry := map[], Some([]), None;
      aggregated, nonceTrees, calls := map[], None, [];
    }

    method OnEvent(event: Event, a: Answers) returns (status: Status)
      modifies this
      ensures (Now(), status) == Handle(own, old(Now()), event, a)
    {
      status := Running;
      match event {
        case BatchStarted(id, intentIds, batchExpiry) =>
          if phase == Waiting && own.intentId in intentIds {
            calls := calls + [Confirm];
            if !a.callSucceeds {
              return Failed(External(a.stale));
            }
            batchId := Some(id);
            expiry := Some(batchExpiry);
            phase := Joined;
          }
        case TreeTx(kind, chunk) =>
          if phase == Joined || phase == SigningTree {
            if kind == VtxoTree {
              if vtxoChunks.None? {
                return Failed(Internal(VtxoChunks));
              }
              vtxoChunks := Some(vtxoChunks.value + [chunk]);
            } else {
              if connectorChunks.None? {
                return Failed(Internal(ConnectorChunks));
              }
              connectorChunks := Some(connectorChunks.value + [chunk]);
            }
          }
        case TreeSignature(kind, txid, signature) =>
          if phase == SigningTree && kind == VtxoTree && graph.Some? && txid in graph.value.nodes {
            treeSignatures := treeSignatures[txid := signature];
          }
        case TreeSigningStarted(id, cosigners, tx) =>
          if phase == Joined {
            status := StartSigning(id, cosigners, tx, a);
          }
        case TreeNonces(id, txid, nonces) =>
          if phase == SigningTree && own.cosigner.xOnly in nonces {
            aggregated := aggregated[txid := nonces];
            status := SignWhenComplete(id, a);
          }
        case BatchFinalization =>
          if phase == SigningTree {
            status := Forfeit(a);
          }
        case BatchFinalized(_, commitmentTxid) =>
          if phase == Forfeited {
            return Settled(commitmentTxid);
          }
        case BatchFailed(id) =>
          if batchId == Some(id) {
            return Failed(External(a.stale));
          }
        case StreamError =>
          return Failed(External(a.stale));
        case StreamEnded =>
          return Failed(StreamOver);
        case StreamStarted =>
        case TreeNoncesAggregated =>
        case Heartbeat =>
      }
    }

    method StartSigning(id: BatchId, cosigners: seq<CosignerKey>, tx: nat, a: Answers) returns (status: Status)
      modifies this
      ensures (Now(), status) == SigningStarted(own, old(Now()), id, cosigners, tx, a)
    {
      if vtxoChunks.None? {
        return Failed(Internal(VtxoGraphChunks));
      }
      vtxoChunks := None;
      if a.graph.None? {
        return Failed(External(a.stale));
      }
      graph := a.graph;
      if own.cosigner !in cosigners {
        return Failed(NotACosigner);
      }
      if !a.noncesGenerated {
        return Failed(External(a.stale));
      }
      calls := calls + [SubmitNonces(id, graph.value.nodes)];
      if !a.callSucceeds {
        return Failed(External(a.stale));
      }
      commitmentTx := Some(tx);
      nonceTrees := Some({own.cosigner});
      phase := SigningTree;
      return Running;
    }

    method SignWhenComplete(id: BatchId, a: Answers) returns (status: Status)
      modifies this
      ensures (Now(), status) == Nonces(own, old(Now()), id, a)
    {
      if graph.None? {
        return Failed(Internal(VtxoGraph));
      }
      if |aggregated| != |graph.value.nodes| {
        return Running;
      }
      if nonceTrees.None? {
        return Failed(Internal(NonceTrees));
      }
      if own.cosigner !in nonceTrees.value {
        return Failed(Internal(NonceTree));
      }
      if commitmentTx.None? {
        return Failed(Internal(CommitmentTx));
      }
      if expiry.None? {
        return Failed(Internal(BatchExpiry));
      }
      if !a.treeSigns {
        return Failed(External(a.stale));
      }
      var signed: set<Txid> := {};
      var todo := graph.value.nodes;
      while todo != {}
        invariant signed + todo == graph.value.nodes && signed <= aggregated.Keys
        decreases todo
      {
        var txid :| txid in todo;
        if txid !in aggregated {
          return Failed(Internal(AggregatedNonce));
        }
        signed := signed + {txid};
        todo := todo - {txid};
      }
      calls := calls + [SubmitSignatures(id, signed)];
      return if a.callSucceeds then Running else Failed(External(a.stale));
    }

    method Forfeit(a: Answers) returns (status: Status)
      modifies this
      ensures (Now(), status) == Finalization(old(Now()), a)
    {
      if connectorChunks.None? {
        return Failed(Internal(Connectors));
      }
      var chunks := connectorChunks.value;
      connectorChunks := None;
      if chunks != [] {
        if !a.connectorsBuild || !a.forfeitsComplete {
          return Failed(External(a.stale));
        }
        calls := calls + [SubmitForfeits];
        if !a.callSucceeds {
          return Failed(External(a.stale));
        }
      }
      phase := Forfeited;
      return Running;
    }

    /** Handle events until the ceremony ends; the deadline strikes after `patience` of them. */
    method Settle(source: Source, patience: nat) returns (status: Status, ghost stream: Stream)
      requires Now() == FRESH
      modifies this, source
      ensures source.heard == old(source.heard) + stream
      ensures (Now(), status) == Run(own, stream)
      ensures forall n :: 0 <= n < |stream| ==> Run(own, stream[..n]).1 == Running
      ensures status == Running ==> |stream| == patience
    {
      status, stream := Running, [];
      for i := 0 to patience
        invariant status == Running && |stream| == i
        invariant source.heard == old(source.heard) + stream
        invariant (Now(), status) == Run(own, stream)
        invariant forall n :: 0 <= n < |stream| ==> Run(own, stream[..n]).1 == Running
      {
        var event, a := source.Next();
        status := OnEvent(event, a);
        RunOn(own, stream, event, a);
        StillRunning(own, stream, (event, a));
        stream := stream + [(event, a)];
        if status != Running {
          return;
        }
      }
    }
  }

  lemma RunOn(own: Session, stream: Stream, event: Event, a: Answers)
    requires Run(own, stream).1 == Running
    ensures Run(own, stream + [(event, a)]) == Handle(own, Run(own, stream).0, event, a)
  {
    assert (stream + [(event, a)])[..|stream|] == stream;
  }

  lemma StillRunning(own: Session, stream: Stream, last: (Event, Answers))
    requires Run(own, stream).1 == Running
    requires forall n :: 0 <= n < |stream| ==> Run(own, stream[..n]).1 == Running
    ensures forall n :: 0 <= n < |stream + [last]| ==> Run(own, (stream + [last])[..n]).1 == Running
  {
    forall n | 0 <= n < |stream + [last]|
      ensures Run(own, (stream + [last])[..n]).1 == Running
    {
      assert (stream + [last])[..n] == if n == |stream| then stream else stream[..n];
    }
  }

  /** Once a ceremony has ended, further events change nothing. */
  lemma {:induction false} EndedStays(own: Session, stream: Stream, n: nat)
    requires n <= |stream| && Run(own, stream[..n]).1 != Running
    ensures Run(own, stream) == Run(own, stream[..n])
    decreases |stream|
  {
    if n == |stream| {
      assert stream[..n] == stream;
    } else {
      var front := stream[..|stream| - 1];
      assert front[..n] == stream[..n];
      EndedStays(own, front, n);
    }
  }
}
