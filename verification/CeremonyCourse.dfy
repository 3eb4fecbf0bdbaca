/** What a ceremony comes to, read off the events alone. */
module CeremonyCourse {
  import opened Wrappers
  import opened Bitcoin
  import opened Ceremony

  // ---- The course of a ceremony: its events, cut at the three that move it on ----

  type Step = (Event, Answers)

  datatype Course =
    | Before(pre: Stream)
    | InBatch(pre: Stream, join: Step, mid: Stream)
    | Signing(pre: Stream, join: Step, mid: Stream, sign: Step, tail: Stream)
    | Closing(pre: Stream, join: Step, mid: Stream, sign: Step, tail: Stream, final: Step, rest: Stream)

  predicate Joins(own: Session, e: Event) {
    e.BatchStarted? && own.intentId in e.intentIds
  }

  function Extend(own: Session, c: Course, e: Step): Course {
    match c
    case Before(pre) =>
      if Joins(own, e.0) then InBatch(pre, e, []) else Before(pre + [e])
    case InBatch(pre, join, mid) =>
      if e.0.TreeSigningStarted? then Signing(pre, join, mid, e, []) else InBatch(pre, join, mid + [e])
    case Signing(pre, join, mid, sign, tail) =>
      if e.0.BatchFinalization? then Closing(pre, join, mid, sign, tail, e, [])
      else Signing(pre, join, mid, sign, tail + [e])
    case Closing(pre, join, mid, sign, tail, final, rest) =>
      Closing(pre, join, mid, sign, tail, final, rest + [e])
  }

  function CourseOf(own: Session, stream: Stream): Course {
    if stream == [] then Before([])
    else Extend(own, CourseOf(own, stream[..|stream| - 1]), stream[|stream| - 1])
  }

  function Whole(c: Course): Stream {
    match c
    case Before(pre) => pre
    case InBatch(pre, join, mid) => pre + [join] + mid
    case Signing(pre, join, mid, sign, tail) => pre + [join] + mid + [sign] + tail
    case Closing(pre, join, mid, sign, tail, final, rest) => pre + [join] + mid + [sign] + tail + [final] + rest
  }

  /** The cuts are at the first batch start with our intent, the first start of
      signing after it, and the first finalization after that. */
  ghost predicate IsCut(own: Session, c: Course) {
    && (forall i :: 0 <= i < |c.pre| ==> !Joins(own, c.pre[i].0))
    && (c.Before? || (Joins(own, c.join.0) && forall i :: 0 <= i < |c.mid| ==> !c.mid[i].0.TreeSigningStarted?))
    && (c.Signing? || c.Closing? ==>
          c.sign.0.TreeSigningStarted? && forall i :: 0 <= i < |c.tail| ==> !c.tail[i].0.BatchFinalization?)
    && (c.Closing? ==> c.final.0.BatchFinalization?)
  }

  lemma CutStays(own: Session, c: Course, e: Step)
    requires IsCut(own, c)
    ensures IsCut(own, Extend(own, c, e))
  {
  }

  lemma WholeGrows(own: Session, c: Course, e: Step)
    ensures Whole(Extend(own, c, e)) == Whole(c) + [e]
  {
  }

  lemma CutOn(own: Session, c: Course, e: Step, front: Stream)
    requires IsCut(own, c) && Whole(c) == front
    ensures IsCut(own, Extend(own, c, e)) && Whole(Extend(own, c, e)) == front + [e]
  {
    CutStays(own, c, e);
    WholeGrows(own, c, e);
  }

  lemma CourseOn(own: Session, front: Stream, e: Step)
    ensures CourseOf(own, front + [e]) == Extend(own, CourseOf(own, front), e)
  {
    assert (front + [e])[..|front|] == front;
  }

  lemma {:induction false} CourseCuts(own: Session, stream: Stream)
    ensures Whole(CourseOf(own, stream)) == stream && IsCut(own, CourseOf(own, stream))
    decreases |stream|
  {
    if stream == [] {
      assert CourseOf(own, stream) == Before([]);
    } else {
      var front, e := stream[..|stream| - 1], stream[|stream| - 1];
      var c := CourseOf(own, front);
      assert stream == front + [e];
      CourseCuts(own, front);
      CourseOn(own, front, e);
      CutOn(own, c, e, front);
    }
  }

  // ---- What the events between the cuts add up to ----

  /** The chunks of one tree, in the order they arrived. */
  function Chunks(s: Stream, kind: TreeKind): seq<nat> {
    if s == [] then []
    else
      var last, heard := s[|s| - 1].0, Chunks(s[..|s| - 1], kind);
      if last.TreeTx? && last.kind == kind then heard + [last.chunk] else heard
  }

  /** The nonces of a node that name our own key. */
  predicate NamesUs(own: Session, e: Event) {
    e.TreeNonces? && own.cosigner.xOnly in e.nonces
  }

  /** The latest such nonces of every node. */
  function HeardNonces(own: Session, s: Stream): map<Txid, map<Key, nat>> {
    if s == [] then map[]
    else
      var last, heard := s[|s| - 1].0, HeardNonces(own, s[..|s| - 1]);
      if NamesUs(own, last) then heard[last.txid := last.nonces] else heard
  }

  /** The latest signature of every node of the VTXO tree. */
  function HeardSignatures(nodes: set<Txid>, s: Stream): map<Txid, nat> {
    if s == [] then map[]
    else
      var last, heard := s[|s| - 1].0, HeardSignatures(nodes, s[..|s| - 1]);
      if last.TreeSignature? && last.kind == VtxoTree && last.txid in nodes
      then heard[last.txid := last.signature] else heard
  }

  /** The last event brings nonces that name us, and with them as many nodes
      have nonces as there are nodes. */
  predicate Completes(own: Session, nodes: set<Txid>, s: Stream) {
    s != [] && NamesUs(own, s[|s| - 1].0) && |HeardNonces(own, s)| == |nodes|
  }

  /** Signatures go out upon every event that completes the nonces. */
  function SignaturesDue(own: Session, nodes: set<Txid>, s: Stream): seq<Call> {
    if s == [] then []
    else
      var due := SignaturesDue(own, nodes, s[..|s| - 1]);
      if Completes(own, nodes, s) then due + [SubmitSignatures(s[|s| - 1].0.id, nodes)] else due
  }

  /** Every event that completed the nonces did so for exactly the nodes, and
      signing and submitting succeeded. */
  ghost predicate SignedWell(own: Session, nodes: set<Txid>, s: Stream) {
    forall k :: 0 < k <= |s| && Completes(own, nodes, s[..k]) ==>
                  && HeardNonces(own, s[..k]).Keys == nodes
                  && s[k - 1].1.treeSigns && s[k - 1].1.callSucceeds
  }

  /** We were called to sign, and could. */
  predicate SignsUp(own: Session, sign: Step) {
    && sign.0.TreeSigningStarted? && own.cosigner in sign.0.cosigners
    && sign.1.graph.Some? && sign.1.noncesGenerated && sign.1.callSucceeds
  }

  function OpeningCalls(sign: Step): seq<Call>
    requires sign.0.TreeSigningStarted? && sign.1.graph.Some?
  {
    [Confirm, SubmitNonces(sign.0.id, sign.1.graph.value.nodes)]
  }

  /** Forfeits go out upon finalization exactly if a connector chunk was heard. */
  function ForfeitsDue(heard: Stream): seq<Call> {
    if Chunks(heard, ConnectorTree) == [] then [] else [SubmitForfeits]
  }

  predicate Forfeits(heard: Stream, final: Step) {
    Chunks(heard, ConnectorTree) != [] ==>
      final.1.connectorsBuild && final.1.forfeitsComplete && final.1.callSucceeds
  }

  /** The locals and the calls of a running ceremony, read off its course. */
  ghost predicate Matches(own: Session, l: Locals, c: Course) {
    match c
    case Before(_) =>
      l == Locals(Waiting, None, None, Some([]), None, map[], Some([]), None, map[], None, [])
    case InBatch(_, join, mid) =>
      && Joins(own, join.0) && join.1.callSucceeds
      && l == Locals(Joined, Some(join.0.id), None, Some(Chunks(mid, VtxoTree)), None, map[],
                     Some(Chunks(mid, ConnectorTree)), Some(join.0.expiry), map[], None, [Confirm])
    case Signing(_, join, mid, sign, tail) =>
      && Joins(own, join.0) && join.1.callSucceeds && SignsUp(own, sign)
      && var nodes := sign.1.graph.value.nodes;
         && Chunks(tail, VtxoTree) == [] && SignedWell(own, nodes, tail)
         && l == Locals(SigningTree, Some(join.0.id), Some(sign.0.commitmentTx), None, sign.1.graph,
                        HeardSignatures(nodes, tail), Some(Chunks(mid + tail, ConnectorTree)), Some(join.0.expiry),
                        HeardNonces(own, tail), Some({own.cosigner}),
                        OpeningCalls(sign) + SignaturesDue(own, nodes, tail))
    case Closing(_, join, mid, sign, tail, final, _) =>
      && Joins(own, join.0) && join.1.callSucceeds && SignsUp(own, sign) && Forfeits(mid + tail, final)
      && var nodes := sign.1.graph.value.nodes;
         && Chunks(tail, VtxoTree) == [] && SignedWell(own, nodes, tail)
         && l == Locals(Forfeited, Some(join.0.id), Some(sign.0.commitmentTx), None, sign.1.graph,
                        HeardSignatures(nodes, tail), None, Some(join.0.expiry), HeardNonces(own, tail),
                        Some({own.cosigner}),
                        OpeningCalls(sign) + SignaturesDue(own, nodes, tail) + ForfeitsDue(mid + tail))
  }

  lemma ChunksOn(s: Stream, e: Step, kind: TreeKind)
    ensures Chunks(s + [e], kind)
            == if e.0.TreeTx? && e.0.kind == kind then Chunks(s, kind) + [e.0.chunk] else Chunks(s, kind)
  {
    assert (s + [e])[..|s|] == s;
  }

  lemma NoncesOn(own: Session, nodes: set<Txid>, s: Stream, e: Step)
    ensures HeardNonces(own, s + [e])
            == if NamesUs(own, e.0) then HeardNonces(own, s)[e.0.txid := e.0.nonces] else HeardNonces(own, s)
    ensures SignaturesDue(own, nodes, s + [e])
            == if Completes(own, nodes, s + [e])
               then SignaturesDue(own, nodes, s) + [SubmitSignatures(e.0.id, nodes)] else SignaturesDue(own, nodes, s)
  {
    assert (s + [e])[..|s|] == s && (s + [e])[|s|] == e;
  }

  lemma SignaturesOn(nodes: set<Txid>, s: Stream, e: Step)
    ensures HeardSignatures(nodes, s + [e])
            == if e.0.TreeSignature? && e.0.kind == VtxoTree && e.0.txid in nodes
               then HeardSignatures(nodes, s)[e.0.txid := e.0.signature] else HeardSignatures(nodes, s)
  {
    assert (s + [e])[..|s|] == s && (s + [e])[|s|] == e;
  }

  lemma MatchesBefore(own: Session, l: Locals, c: Course, e: Step)
    requires c.Before? && Matches(own, l, c) && Handle(own, l, e.0, e.1).1 == Running
    ensures Matches(own, Handle(own, l, e.0, e.1).0, Extend(own, c, e))
  {
  }

  lemma MatchesInBatch(own: Session, l: Locals, c: Course, e: Step)
    requires c.InBatch? && Matches(own, l, c) && Handle(own, l, e.0, e.1).1 == Running
    ensures Matches(own, Handle(own, l, e.0, e.1).0, Extend(own, c, e))
  {
    ChunksOn(c.mid, e, VtxoTree);
    ChunksOn(c.mid, e, ConnectorTree);
    if e.0.TreeSigningStarted? {
      assert c.mid + [] == c.mid;
      assert Handle(own, l, e.0, e.1).0.calls
          == OpeningCalls(e) + SignaturesDue(own, e.1.graph.value.nodes, []);
    }
  }

  lemma {:induction false} SizeOne<T>(a: set<T>, b: set<T>)
    requires a <= b && |a| == |b|
    ensures a == b
  {
    if a != {} {
      var x :| x in a;
      SizeOne(a - {x}, b - {x});
    }
  }

  lemma SignedWellOn(own: Session, nodes: set<Txid>, tail: Stream, e: Step)
    requires SignedWell(own, nodes, tail)
    requires Completes(own, nodes, tail + [e]) ==>
               HeardNonces(own, tail + [e]).Keys == nodes && e.1.treeSigns && e.1.callSucceeds
    ensures SignedWell(own, nodes, tail + [e])
  {
    var longer := tail + [e];
    forall k | 0 < k <= |longer| && Completes(own, nodes, longer[..k])
      ensures HeardNonces(own, longer[..k]).Keys == nodes && longer[k - 1].1.treeSigns && longer[k - 1].1.callSucceeds
    {
      if k <= |tail| {
        assert longer[..k] == tail[..k];
      } else {
        assert longer[..k] == longer;
      }
    }
  }

  lemma TailOn(own: Session, nodes: set<Txid>, c: Course, e: Step)
    requires c.Signing?
    ensures !(e.0.TreeTx? && e.0.kind == VtxoTree) ==> Chunks(c.tail + [e], VtxoTree) == Chunks(c.tail, VtxoTree)
    ensures var heard := Chunks(c.mid + c.tail, ConnectorTree);
            Chunks(c.mid + (c.tail + [e]), ConnectorTree)
            == if e.0.TreeTx? && e.0.kind == ConnectorTree then heard + [e.0.chunk] else heard
    ensures HeardNonces(own, c.tail + [e])
            == if NamesUs(own, e.0) then HeardNonces(own, c.tail)[e.0.txid := e.0.nonces] else HeardNonces(own, c.tail)
    ensures SignaturesDue(own, nodes, c.tail + [e])
            == if Completes(own, nodes, c.tail + [e])
               then SignaturesDue(own, nodes, c.tail) + [SubmitSignatures(e.0.id, nodes)]
               else SignaturesDue(own, nodes, c.tail)
    ensures HeardSignatures(nodes, c.tail + [e])
            == if e.0.TreeSignature? && e.0.kind == VtxoTree && e.0.txid in nodes
               then HeardSignatures(nodes, c.tail)[e.0.txid := e.0.signature] else HeardSignatures(nodes, c.tail)
    ensures Completes(own, nodes, c.tail + [e])
            <==> NamesUs(own, e.0) && |HeardNonces(own, c.tail + [e])| == |nodes|
  {
    ChunksOn(c.tail, e, VtxoTree);
    ChunksOn(c.mid + c.tail, e, ConnectorTree);
    assert c.mid + (c.tail + [e]) == c.mid + c.tail + [e];
    NoncesOn(own, nodes, c.tail, e);
    SignaturesOn(nodes, c.tail, e);
  }

  lemma MatchesNonces(own: Session, l: Locals, c: Course, e: Step)
    requires c.Signing? && Matches(own, l, c) && e.0.TreeNonces? && Handle(own, l, e.0, e.1).1 == Running
    ensures Matches(own, Handle(own, l, e.0, e.1).0, Extend(own, c, e))
  {
    var nodes := c.sign.1.graph.value.nodes;
    TailOn(own, nodes, c, e);
    var heard := HeardNonces(own, c.tail + [e]);
    assert |heard| == |heard.Keys|;
    if Completes(own, nodes, c.tail + [e]) {
      SizeOne(nodes, heard.Keys);
    }
    SignedWellOn(own, nodes, c.tail, e);
    assert OpeningCalls(c.sign) + SignaturesDue(own, nodes, c.tail + [e])
        == if Completes(own, nodes, c.tail + [e]) then l.calls + [SubmitSignatures(e.0.id, nodes)] else l.calls;
  }

  lemma MatchesChunk(own: Session, l: Locals, c: Course, e: Step)
    requires c.Signing? && Matches(own, l, c) && e.0.TreeTx? && Handle(own, l, e.0, e.1).1 == Running
    ensures Matches(own, Handle(own, l, e.0, e.1).0, Extend(own, c, e))
  {
    var nodes := c.sign.1.graph.value.nodes;
    TailOn(own, nodes, c, e);
    SignedWellOn(own, nodes, c.tail, e);
  }

  lemma MatchesSigning(own: Session, l: Locals, c: Course, e: Step)
    requires c.Signing? && Matches(own, l, c) && !e.0.TreeNonces? && !e.0.BatchFinalization? && !e.0.TreeTx?
    requires Handle(own, l, e.0, e.1).1 == Running
    ensures Matches(own, Handle(own, l, e.0, e.1).0, Extend(own, c, e))
  {
    var nodes := c.sign.1.graph.value.nodes;
    TailOn(own, nodes, c, e);
    SignedWellOn(own, nodes, c.tail, e);
  }

  lemma MatchesFinal(own: Session, l: Locals, c: Course, e: Step)
    requires (c.Signing? && e.0.BatchFinalization?) || c.Closing?
    requires Matches(own, l, c) && Handle(own, l, e.0, e.1).1 == Running
    ensures Matches(own, Handle(own, l, e.0, e.1).0, Extend(own, c, e))
  {
  }

  /** While a ceremony runs, every local and every call it has made are what
      its course says: each event counts exactly where it should. */
  lemma {:induction false} RunMatchesCourse(own: Session, stream: Stream)
    requires Run(own, stream).1 == Running
    ensures Matches(own, Run(own, stream).0, CourseOf(own, stream))
    decreases |stream|
  {
    if stream != [] {
      var front, e := stream[..|stream| - 1], stream[|stream| - 1];
      RunMatchesCourse(own, front);
      var l, c := Run(own, front).0, CourseOf(own, front);
      if c.Before? {
        MatchesBefore(own, l, c, e);
      } else if c.InBatch? {
        MatchesInBatch(own, l, c, e);
      } else if c.Closing? || e.0.BatchFinalization? {
        MatchesFinal(own, l, c, e);
      } else if e.0.TreeNonces? {
        MatchesNonces(own, l, c, e);
      } else if e.0.TreeTx? {
        MatchesChunk(own, l, c, e);
      } else {
        MatchesSigning(own, l, c, e);
      }
    }
  }

  // ---- How a ceremony ends ----

  /** Whether the next event lets the ceremony go on, and the result it ends
      with, read off the course so far. */
  ghost predicate GoesOn(own: Session, c: Course, e: Step) {
    match e.0
    case BatchStarted(_, _, _) => c.Before? && Joins(own, e.0) ==> e.1.callSucceeds
    case TreeTx(kind, _) => !(c.Signing? && kind == VtxoTree)
    case TreeSigningStarted(_, _, _) => c.InBatch? ==> SignsUp(own, e)
    case TreeNonces(_, _, _) =>
      c.Signing? && c.sign.1.graph.Some? && Completes(own, c.sign.1.graph.value.nodes, c.tail + [e]) ==>
        && HeardNonces(own, c.tail + [e]).Keys == c.sign.1.graph.value.nodes
        && e.1.treeSigns && e.1.callSucceeds
    case BatchFinalization => c.Signing? ==> Forfeits(c.mid + c.tail, e)
    case BatchFinalized(_, _) => !c.Closing?
    case BatchFailed(id) => c.Before? || !c.join.0.BatchStarted? || c.join.0.id != id
    case StreamError => false
    case StreamEnded => false
    case _ => true
  }

  /** The failures there are, and whose text may read "already registered". */
  predicate FailsWith(own: Session, c: Course, e: Step, error: Error) {
    match error
    case NotACosigner =>
      c.InBatch? && e.0.TreeSigningStarted? && e.1.graph.Some? && own.cosigner !in e.0.cosigners
    case StreamOver => e.0.StreamEnded?
    case Internal(missing) =>
      c.Signing? && ((missing == VtxoChunks && e.0.TreeTx?) || (missing == AggregatedNonce && e.0.TreeNonces?))
    case External(stale) => stale == e.1.stale
  }

  lemma FailsAs(own: Session, l: Locals, c: Course, e: Step)
    requires Matches(own, l, c) && Handle(own, l, e.0, e.1).1.Failed?
    ensures FailsWith(own, c, e, Handle(own, l, e.0, e.1).1.error)
    ensures e.0.StreamEnded? ==> Handle(own, l, e.0, e.1).1.error == StreamOver
  {
  }

  lemma EndsQuietly(own: Session, l: Locals, c: Course, e: Step)
    requires Matches(own, l, c) && !e.0.TreeNonces?
    ensures Handle(own, l, e.0, e.1).1 == Running <==> GoesOn(own, c, e)
    ensures Handle(own, l, e.0, e.1).1.Settled? <==> c.Closing? && e.0.BatchFinalized?
    ensures Handle(own, l, e.0, e.1).1.Settled? ==> Handle(own, l, e.0, e.1).1.txid == e.0.commitmentTxid
    ensures e.0.BatchFailed? && !GoesOn(own, c, e) ==> Handle(own, l, e.0, e.1) == (l, Failed(External(e.1.stale)))
  {
  }

  lemma EndsAtNonces(own: Session, l: Locals, c: Course, e: Step)
    requires Matches(own, l, c) && e.0.TreeNonces?
    ensures Handle(own, l, e.0, e.1).1 == Running <==> GoesOn(own, c, e)
    ensures !Handle(own, l, e.0, e.1).1.Settled?
  {
    if c.Signing? {
      var nodes := c.sign.1.graph.value.nodes;
      TailOn(own, nodes, c, e);
      var heard := HeardNonces(own, c.tail + [e]);
      assert |heard| == |heard.Keys|;
      if Completes(own, nodes, c.tail + [e]) && nodes <= heard.Keys {
        SizeOne(nodes, heard.Keys);
      }
    }
  }

  /** A running ceremony goes on after an event exactly as its course allows;
      it returns a txid exactly upon a finalized event after its finalization;
      and a batch failure ends it exactly if it names the joined batch. */
  lemma EndsExactly(own: Session, stream: Stream, e: Step)
    requires Run(own, stream).1 == Running
    ensures var c, status := CourseOf(own, stream), Run(own, stream + [e]).1;
            && (status == Running <==> GoesOn(own, c, e))
            && (status.Settled? <==> c.Closing? && e.0.BatchFinalized?)
            && (status.Settled? ==> status.txid == e.0.commitmentTxid)
            && (status.Failed? ==> FailsWith(own, c, e, status.error))
            && (e.0.BatchFailed? ==>
                  status == if !c.Before? && c.join.0.BatchStarted? && c.join.0.id == e.0.id
                            then Failed(External(e.1.stale)) else Running)
  {
    RunOn(own, stream, e.0, e.1);
    RunMatchesCourse(own, stream);
    if Run(own, stream + [e]).1.Failed? {
      FailsAs(own, Run(own, stream).0, CourseOf(own, stream), e);
    }
    if e.0.TreeNonces? {
      EndsAtNonces(own, Run(own, stream).0, CourseOf(own, stream), e);
    } else {
      EndsQuietly(own, Run(own, stream).0, CourseOf(own, stream), e);
    }
  }

  // ---- Forfeits ----

  lemma ClosedStays(own: Session, l: Locals, c: Course, e: Step)
    requires c.Closing? && Matches(own, l, c)
    ensures Handle(own, l, e.0, e.1).0 == l && Matches(own, l, Extend(own, c, e))
  {
  }

  lemma ForfeitingRuns(own: Session, l: Locals, event: Event, a: Answers)
    requires l.phase != Forfeited && Handle(own, l, event, a).0.phase == Forfeited
    ensures Handle(own, l, event, a).1 == Running
  {
  }

  lemma PhaseOfCourse(own: Session, l: Locals, c: Course)
    requires Matches(own, l, c)
    ensures l.phase == Forfeited <==> c.Closing?
  {
  }

  /** Past its finalization, however it ends, a ceremony has made the calls of its course. */
  lemma {:induction false} ForfeitedMatches(own: Session, stream: Stream)
    requires Run(own, stream).0.phase == Forfeited
    ensures CourseOf(own, stream).Closing? && Matches(own, Run(own, stream).0, CourseOf(own, stream))
    decreases |stream|
  {
    if stream != [] {
      var front, e := stream[..|stream| - 1], stream[|stream| - 1];
      var (l, status) := Run(own, front);
      if l.phase == Forfeited {
        ForfeitedMatches(own, front);
        ClosedStays(own, l, CourseOf(own, front), e);
      } else {
        ForfeitingRuns(own, l, e.0, e.1);
        RunMatchesCourse(own, stream);
        PhaseOfCourse(own, Run(own, stream).0, CourseOf(own, stream));
      }
    }
  }

  predicate ConnectorHeard(s: Stream) {
    exists i :: 0 <= i < |s| && s[i].0.TreeTx? && s[i].0.kind == ConnectorTree
  }

  lemma {:induction false} ChunkHeard(s: Stream)
    ensures Chunks(s, ConnectorTree) != [] <==> ConnectorHeard(s)
  {
    if s != [] {
      var front, last := s[..|s| - 1], s[|s| - 1];
      ChunkHeard(front);
      assert s == front + [last];
      if ConnectorHeard(front) {
        var i :| 0 <= i < |front| && front[i].0.TreeTx? && front[i].0.kind == ConnectorTree;
        assert s[i] == front[i];
      }
    }
  }

  lemma {:induction false} OnlySignaturesDue(own: Session, nodes: set<Txid>, s: Stream)
    ensures forall i :: 0 <= i < |SignaturesDue(own, nodes, s)| ==> SignaturesDue(own, nodes, s)[i].SubmitSignatures?
  {
    if s != [] {
      OnlySignaturesDue(own, nodes, s[..|s| - 1]);
    }
  }

  /** Once past its finalization, and so whenever it returns a txid, a ceremony
      has submitted forfeits if and only if a connector chunk arrived between
      the start of its batch and the finalization, and then once, as its last call. */
  lemma ForfeitsExactly(own: Session, stream: Stream)
    requires Run(own, stream).0.phase == Forfeited
    ensures var c, calls := CourseOf(own, stream), Run(own, stream).0.calls;
            && c.Closing?
            && (SubmitForfeits in calls <==> ConnectorHeard(c.mid + c.tail))
            && forall i :: 0 <= i < |calls| && calls[i] == SubmitForfeits ==> i == |calls| - 1
  {
    ForfeitedMatches(own, stream);
    var c, calls := CourseOf(own, stream), Run(own, stream).0.calls;
    var due := SignaturesDue(own, c.sign.1.graph.value.nodes, c.tail);
    OnlySignaturesDue(own, c.sign.1.graph.value.nodes, c.tail);
    ChunkHeard(c.mid + c.tail);
    assert calls == OpeningCalls(c.sign) + due + ForfeitsDue(c.mid + c.tail);
    forall i | 0 <= i < 2 + |due|
      ensures calls[i] != SubmitForfeits
    {
      if i >= 2 {
        assert calls[i] == due[i - 2];
      }
    }
    if ForfeitsDue(c.mid + c.tail) != [] {
      assert calls[2 + |due|] == SubmitForfeits;
    }
  }

  /** A txid is only returned past the finalization. */
  lemma {:induction false} SettledForfeited(own: Session, stream: Stream)
    requires Run(own, stream).1.Settled?
    ensures Run(own, stream).0.phase == Forfeited
    decreases |stream|
  {
    var front, e := stream[..|stream| - 1], stream[|stream| - 1];
    if Run(own, front).1 == Running {
      SettlesForfeited(own, Run(own, front).0, e.0, e.1);
    } else {
      SettledForfeited(own, front);
    }
  }

  lemma SettlesForfeited(own: Session, l: Locals, event: Event, a: Answers)
    requires Handle(own, l, event, a).1.Settled?
    ensures Handle(own, l, event, a).0.phase == Forfeited
  {
  }
}
