/** Checkpoint signatures leave only after the server has committed to the ark transaction. */
module SpendCommitment {
  import opened Wrappers
  import opened Bitcoin
  import opened SpendStore
  import opened SpendProtocol
  import opened SpendRuns
  import opened SpendInvariants
  import Signing

  // ---- In every run, even over tampered records ----

  /** A call about to finalize holds checkable evidence for exactly that transaction. */
  predicate Armed(pc: Pc) {
    match pc
    case Upgrading(p, txid, _) => HasEvidence(p) && p.arkTxid == Encoded(txid)
    case Finalizing(p, txid, _, _) => HasEvidence(p) && p.arkTxid == Encoded(txid)
    case _ => true
  }

  lemma ArmedStep(pc: Pc, reply: Reply)
    requires Armed(pc) && !pc.Done? && Answers(Request(pc), reply)
    ensures Armed(Advance(pc, reply))
  {
    match pc
    case Sending(job, first) =>
      if AfterSubmit(job, first, reply).Upgrading? {
        Signing.CosignatureClosed(job.arkTx, reply.arkTx);
        Signing.CosignatureSound(job.arkTx, reply.arkTx);
      }
    case Loading(_) =>
    case _ =>
  }

  ghost predicate AllArmed(s: System) {
    && (forall id :: id in s.calls ==> Armed(s.calls[id].pc))
    && (forall n :: 0 <= n < |s.log| && s.log[n].Sent? ==> Armed(s.log[n].pc))
  }

  lemma ArmedSystemStep(s: System, step: Step)
    requires AllArmed(s) && Enabled(s, step)
    ensures AllArmed(Apply(s, step))
  {
    var moved := MovedBy(s, step);
    if moved.Some? {
      ArmedStep(s.calls[moved.value.0].pc, moved.value.1);
    }
  }

  lemma {:induction false} ArmedAlways(steps: seq<Step>)
    requires Legal(steps)
    ensures AllArmed(State(steps))
    decreases |steps|
  {
    if steps != [] {
      ArmedAlways(Front(steps));
      ArmedSystemStep(State(Front(steps)), Last(steps));
    }
  }

  /** Whatever the server answers and whatever the store is made to contain:
      a finalize for a transaction is only sent by a call that holds a PSBT of
      that transaction which passes the whole co-signature check on its own. */
  lemma FinalizeNeedsEvidence(steps: seq<Step>, n: nat)
    requires Legal(steps) && n < |State(steps).log|
    requires State(steps).log[n].Sent? && State(steps).log[n].pc.Finalizing?
    ensures var pc := State(steps).log[n].pc;
            && pc.pending.serverSignedArkTx.Some? && pc.pending.serverSignedArkTx.value.Encoded?
            && var evidence := pc.pending.serverSignedArkTx.value.value;
               evidence.Txid() == pc.txid && Signing.Cosigned(evidence)
  {
    ArmedAlways(steps);
  }

  // ---- In runs where only the protocol writes records ----

  predicate SignatureFree(checkpoints: seq<Psbt>) {
    forall c :: c in checkpoints ==> forall i :: 0 <= i < |c.inputs| ==> c.inputs[i].tapScriptSigs == map[]
  }

  /** Callers hand over unsigned checkpoints that carry no signature. */
  predicate UnsignedCalls(steps: seq<Step>) {
    forall i :: 0 <= i < |steps| && steps[i].Begin? && steps[i].call.Spend? ==> SignatureFree(steps[i].call.checkpoints)
  }

  /** The client has received, for a submit of `txid` it sent, an answer that
      passes the co-signature check. */
  ghost predicate Committed(log: seq<Event>, id: Id, txid: Txid) {
    exists j :: 0 <= j < |log| && CommitsAt(log[j], id, txid)
  }

  predicate CommitsAt(e: Event, id: Id, txid: Txid) {
    && e.Received? && e.id == id && e.pc.Sending? && e.reply.Accepted?
    && e.pc.job.arkTx.Txid() == txid
    && Signing.VerifyServerArkTxSig(e.pc.job.arkTx, e.reply.arkTx).Ok?
  }

  lemma CommittedStays(log: seq<Event>, more: seq<Event>, id: Id, txid: Txid)
    requires Committed(log, id, txid)
    ensures Committed(log + more, id, txid)
  {
    var j :| 0 <= j < |log| && CommitsAt(log[j], id, txid);
    assert (log + more)[j] == log[j];
  }

  ghost predicate RecordGuarded(r: PendingSpend, log: seq<Event>, id: Id) {
    if r.stage == Submitting then
      DecodeAll(r.unsignedCheckpoints).Some? ==> SignatureFree(DecodeAll(r.unsignedCheckpoints).value)
    else
      r.arkTxid.Encoded? && Committed(log, id, r.arkTxid.value)
  }

  ghost predicate PcGuarded(pc: Pc, log: seq<Event>, id: Id) {
    match pc
    case Loading(call) => call.Spend? ==> SignatureFree(call.checkpoints)
    case Persisting(job) => SignatureFree(job.checkpoints)
    case Sending(job, _) => SignatureFree(job.checkpoints)
    case Clearing(_) => true
    case Upgrading(p, txid, _) => Committed(log, id, txid)
    case Finalizing(p, txid, _, _) => Committed(log, id, txid)
    case Marking(p, txid, _) => Committed(log, id, txid)
    case Rescuing(p, _) => p.arkTxid.Encoded? && Committed(log, id, p.arkTxid.value)
    case Done(_) => true
  }

  ghost predicate Guarded(s: System) {
    && (forall id :: id in s.records ==> RecordGuarded(s.records[id], s.log, id))
    && (forall id :: id in s.calls ==> PcGuarded(s.calls[id].pc, s.log, id))
    && (forall n :: 0 <= n < |s.log| && s.log[n].Sent? ==> PcGuarded(s.log[n].pc, s.log[..n], s.log[n].id))
  }

  lemma LoadGuarded(call: Call, found: Option<PendingSpend>, log: seq<Event>)
    requires call.Spend? ==> SignatureFree(call.checkpoints)
    requires found.Some? ==> RecordOk(found.value, call.id) && RecordGuarded(found.value, log, call.id)
    ensures PcGuarded(AfterLoad(call, found), log, call.id)
  {
  }

  lemma SubmitGuarded(job: Job, first: bool, reply: Reply, log: seq<Event>, id: Id)
    requires Answers(Submit(job.arkTx, job.checkpoints), reply)
    requires |log| > 0 && log[|log| - 1] == Received(id, Sending(job, first), reply)
    ensures PcGuarded(AfterSubmit(job, first, reply), log, id)
  {
  }

  lemma GuardedAdvance(pc: Pc, records: Records, id: Id, reply: Reply, after: Records, log: seq<Event>)
    requires !pc.Done? && Answers(Request(pc), reply) && Plausible(records, Request(pc), reply, after)
    requires id in records ==> RecordOk(records[id], id) && RecordGuarded(records[id], log, id)
    requires PcOk(pc, Lookup(records, id), id, false) && PcGuarded(pc, log, id)
    requires pc.Sending? && reply.Accepted? ==> |log| > 0 && log[|log| - 1] == Received(id, pc, reply)
    ensures PcGuarded(Advance(pc, reply), log, id)
  {
    match pc
    case Loading(call) =>
      if reply.Loaded? {
        LoadGuarded(call, reply.found, log);
      }
    case Sending(job, first) =>
      if reply.Accepted? {
        SubmitGuarded(job, first, reply, log, id);
      }
    case _ =>
  }

  lemma GuardedRecord(pc: Pc, records: Records, id: Id, reply: Reply, after: Records, log: seq<Event>)
    requires !pc.Done? && Answers(Request(pc), reply) && Plausible(records, Request(pc), reply, after)
    requires id in records ==> RecordGuarded(records[id], log, id)
    requires PcOk(pc, Lookup(records, id), id, false) && PcGuarded(pc, log, id)
    ensures id in after ==> RecordGuarded(after[id], log, id)
  {
  }

  /** One exchange keeps the guard; a received reply is already in the log. */
  lemma GuardedExchange(pc: Pc, records: Records, id: Id, reply: Reply, after: Records, log: seq<Event>)
    requires !pc.Done? && Answers(Request(pc), reply) && Plausible(records, Request(pc), reply, after)
    requires id in records ==> RecordOk(records[id], id) && RecordGuarded(records[id], log, id)
    requires PcOk(pc, Lookup(records, id), id, false) && PcGuarded(pc, log, id)
    requires pc.Sending? && reply.Accepted? ==> |log| > 0 && log[|log| - 1] == Received(id, pc, reply)
    ensures PcGuarded(Advance(pc, reply), log, id)
    ensures id in after ==> RecordGuarded(after[id], log, id)
  {
    GuardedAdvance(pc, records, id, reply, after, log);
    GuardedRecord(pc, records, id, reply, after, log);
  }

  lemma GuardStays(s: System, more: seq<Event>, id: Id)
    requires Guarded(s)
    ensures id in s.records ==> RecordGuarded(s.records[id], s.log + more, id)
    ensures id in s.calls ==> PcGuarded(s.calls[id].pc, s.log + more, id)
  {
    if id in s.records && s.records[id].stage != Submitting {
      CommittedStays(s.log, more, id, s.records[id].arkTxid.value);
    }
    if id in s.calls {
      match s.calls[id].pc
      case Upgrading(_, txid, _) => CommittedStays(s.log, more, id, txid);
      case Finalizing(_, txid, _, _) => CommittedStays(s.log, more, id, txid);
      case Marking(_, txid, _) => CommittedStays(s.log, more, id, txid);
      case Rescuing(p, _) => CommittedStays(s.log, more, id, p.arkTxid.value);
      case _ =>
    }
  }

  lemma GuardedMove(s: System, step: Step, id: Id)
    requires Inv(s, false) && Guarded(s) && Enabled(s, step) && MovedBy(s, step).Some?
    requires id == MovedBy(s, step).value.0
    ensures var next := Apply(s, step);
            && PcGuarded(next.calls[id].pc, next.log, id)
            && (id in next.records ==> RecordGuarded(next.records[id], next.log, id))
            && (forall other :: other != id ==> Lookup(next.records, other) == Lookup(s.records, other))
  {
    var next := Apply(s, step);
    var reply := MovedBy(s, step).value.1;
    MovedPlausibly(s, step);
    assert next.log == s.log + next.log[|s.log|..];
    GuardStays(s, next.log[|s.log|..], id);
    GuardedExchange(s.calls[id].pc, s.records, id, reply, next.records, next.log);
    LocalFrame(s.calls[id].pc, s.records, id, reply, next.records, false);
  }

  lemma SentGuarded(s: System, step: Step, n: nat)
    requires Guarded(s) && Enabled(s, step) && n < |Apply(s, step).log| && Apply(s, step).log[n].Sent?
    ensures var log := Apply(s, step).log; PcGuarded(log[n].pc, log[..n], log[n].id)
  {
    var log := Apply(s, step).log;
    if n < |s.log| {
      assert log[..n] == s.log[..n];
    } else {
      assert log[..n] == s.log;
    }
  }

  lemma GuardedStep(s: System, step: Step)
    requires Inv(s, false) && Guarded(s) && Enabled(s, step) && !step.Tamper?
    requires step.Begin? && step.call.Spend? ==> SignatureFree(step.call.checkpoints)
    ensures Guarded(Apply(s, step))
  {
    var next := Apply(s, step);
    var more := next.log[|s.log|..];
    assert next.log == s.log + more;
    var moved := MovedBy(s, step);
    if moved.Some? {
      GuardedMove(s, step, moved.value.0);
    }
    forall id | id in next.records
      ensures RecordGuarded(next.records[id], next.log, id)
    {
      GuardStays(s, more, id);
      if moved.Some? && id != moved.value.0 {
        assert Lookup(next.records, id) == Lookup(s.records, id);
      }
    }
    forall id | id in next.calls
      ensures PcGuarded(next.calls[id].pc, next.log, id)
    {
      GuardStays(s, more, id);
    }
    forall n | 0 <= n < |next.log| && next.log[n].Sent?
      ensures PcGuarded(next.log[n].pc, next.log[..n], next.log[n].id)
    {
      SentGuarded(s, step, n);
    }
  }

  lemma {:induction false} GuardedAlways(steps: seq<Step>)
    requires Legal(steps) && Untampered(steps) && UnsignedCalls(steps)
    ensures Guarded(State(steps))
    decreases |steps|
  {
    if steps != [] {
      LegalPrefix(steps, |steps| - 1);
      GuardedAlways(Front(steps));
      InvAlways(Front(steps), false);
      GuardedStep(State(Front(steps)), Last(steps));
    }
  }

  /** The checkpoints a message carries. */
  function Carried(pc: Pc): seq<Psbt> {
    match pc
    case Sending(job, _) => job.checkpoints
    case Finalizing(_, _, checkpoints, _) => checkpoints
    case _ => []
  }

  /** In every run, whatever the server does: a message that carries any
      checkpoint signature is a finalize, and before it was sent the client
      had received, for its own submit of that transaction, a response with a
      valid co-signature by the key of the committed escrow leaf. */
  lemma SignaturesOnlyAfterCommitment(steps: seq<Step>, n: nat)
    requires Legal(steps) && Untampered(steps) && UnsignedCalls(steps)
    requires n < |State(steps).log| && State(steps).log[n].Sent?
    requires !SignatureFree(Carried(State(steps).log[n].pc))
    ensures var sent := State(steps).log[n];
            sent.pc.Finalizing? && Committed(State(steps).log[..n], sent.id, sent.pc.txid)
  {
    GuardedAlways(steps);
  }
}
