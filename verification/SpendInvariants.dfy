/** What every step of a spend keeps, seen from one id: its record and its call. */
module SpendInvariants {
  import opened Wrappers
  import opened Bitcoin
  import opened SpendStore
  import opened SpendProtocol
  import opened SpendRuns
  import Signing

  // ---- Records ----

  /** The record holds a co-signed copy of its own transaction, checkable on its own. */
  predicate HasEvidence(r: PendingSpend) {
    && r.serverSignedArkTx.Some? && r.serverSignedArkTx.value.Encoded?
    && r.arkTxid == Encoded(r.serverSignedArkTx.value.value.Txid())
    && Signing.Cosigned(r.serverSignedArkTx.value.value)
  }

  predicate HasSubmission(r: PendingSpend) {
    && r.arkTx.Some? && r.arkTx.value.Encoded?
    && r.arkTxid == Encoded(r.arkTx.value.value.Txid())
    && DecodeAll(r.unsignedCheckpoints).Some?
    && DecodeParties(r.partySignedCheckpoints).Some?
  }

  predicate RecordOk(r: PendingSpend, id: Id) {
    && r.id == id
    && (r.stage == Submitting ==> HasSubmission(r))
    && (r.stage != Submitting ==> HasEvidence(r) && DecodeAll(r.signedCheckpoints).Some?)
  }

  predicate SameSpend(a: PendingSpend, b: PendingSpend) {
    a.id == b.id && a.arkTxid == b.arkTxid && a.token == b.token
  }

  // ---- Calls ----

  predicate JobOk(job: Job, id: Id) {
    && job.pending.stage == Submitting
    && RecordOk(job.pending, id)
    && job.pending.arkTx == Some(Encoded(job.arkTx))
    && DecodeAll(job.pending.unsignedCheckpoints) == Some(job.checkpoints)
  }

  predicate SubmittedOk(p: PendingSpend, id: Id, txid: Txid) {
    p.stage == Submitted && RecordOk(p, id) && p.arkTxid == Encoded(txid)
  }

  /** The stored record next to a call that holds the submitted record `p`. */
  predicate Behind(entry: Option<PendingSpend>, p: PendingSpend, unsaved: bool, quiet: bool) {
    && entry.Some? && SameSpend(entry.value, p)
    && (entry.value == p || (unsaved && entry.value.stage == Submitting))
    && (unsaved && quiet ==> entry.value.stage == Submitting)
  }

  /** How a call and the record of its id belong together. `quiet` when failed
      writes leave no trace. */
  predicate PcOk(pc: Pc, entry: Option<PendingSpend>, id: Id, quiet: bool) {
    match pc
    case Loading(call) => call.id == id
    case Persisting(job) => entry.None? && JobOk(job, id)
    case Sending(job, _) => entry == Some(job.pending) && JobOk(job, id)
    case Clearing(p) => entry == Some(p) && p.stage == Submitting
    case Upgrading(p, txid, checkpoints) =>
      && SubmittedOk(p, id, txid) && DecodeAll(p.signedCheckpoints) == Some(checkpoints)
      && entry.Some? && SameSpend(entry.value, p) && entry.value.stage == Submitting
    case Finalizing(p, txid, checkpoints, unsaved) =>
      && SubmittedOk(p, id, txid) && DecodeAll(p.signedCheckpoints) == Some(checkpoints)
      && Behind(entry, p, unsaved, quiet)
    case Marking(p, txid, unsaved) => SubmittedOk(p, id, txid) && Behind(entry, p, unsaved, quiet)
    case Rescuing(p, _) =>
      && p.stage == Submitted && RecordOk(p, id)
      && entry.Some? && SameSpend(entry.value, p)
      && (entry.value.stage == Submitting || (!quiet && (entry.value == p || entry.value == p.(stage := Finalized))))
    case Done(Success(txid)) =>
      entry.Some? && entry.value.stage == Finalized && entry.value.arkTxid == Encoded(txid)
    case Done(_) => true
  }

  lemma NewJobOk(call: Call)
    requires call.Spend?
    ensures JobOk(Job(NewRecord(call), call.arkTx, call.checkpoints, call.parties), call.id)
  {
    DecodeEncode(call.checkpoints);
    forall p | 0 <= p < |call.parties|
      ensures DecodeAll(EncodeParties(call.parties)[p]).Some?
    {
      DecodeEncode(call.parties[p]);
    }
  }

  /** A submit that succeeds produces a record with checkable evidence. */
  lemma UpgradeOk(job: Job, first: bool, reply: Reply, id: Id)
    requires JobOk(job, id) && Answers(Submit(job.arkTx, job.checkpoints), reply)
    requires AfterSubmit(job, first, reply).Upgrading?
    ensures var next := AfterSubmit(job, first, reply);
            && SubmittedOk(next.pending, id, next.txid)
            && SameSpend(next.pending, job.pending)
            && DecodeAll(next.pending.signedCheckpoints) == Some(next.checkpoints)
  {
    Signing.CosignatureClosed(job.arkTx, reply.arkTx);
    Signing.CosignatureSound(job.arkTx, reply.arkTx);
    DecodeEncode(AfterSubmit(job, first, reply).checkpoints);
  }

  /** A well-formed record resumes into a call that fits it. */
  lemma ResumeOk(record: PendingSpend, id: Id, quiet: bool)
    requires RecordOk(record, id)
    ensures PcOk(FromRecord(record), Some(record), id, quiet)
  {
  }

  lemma LoadOk(call: Call, found: Option<PendingSpend>, quiet: bool)
    requires found.Some? ==> RecordOk(found.value, call.id)
    ensures PcOk(AfterLoad(call, found), found, call.id, quiet)
  {
    if found.Some? {
      ResumeOk(found.value, call.id, quiet);
    } else if call.Spend? {
      NewJobOk(call);
    }
  }

  lemma SubmitOk(job: Job, first: bool, reply: Reply, id: Id, quiet: bool)
    requires JobOk(job, id) && Answers(Submit(job.arkTx, job.checkpoints), reply)
    ensures PcOk(AfterSubmit(job, first, reply), Some(job.pending), id, quiet)
  {
    if AfterSubmit(job, first, reply).Upgrading? {
      UpgradeOk(job, first, reply, id);
    }
  }

  lemma LocalStoreStep(pc: Pc, records: Records, id: Id, reply: Reply, after: Records, quiet: bool)
    requires !pc.Done? && !pc.Loading? && IsStoreEffect(Request(pc)) && Plausible(records, Request(pc), reply, after)
    requires Answers(Request(pc), reply)
    requires id in records ==> RecordOk(records[id], id)
    requires PcOk(pc, Lookup(records, id), id, quiet)
    requires quiet && reply == StoreFailed ==> after == records
    ensures PcOk(Advance(pc, reply), Lookup(after, id), id, quiet)
    ensures id in after ==> RecordOk(after[id], id)
  {
  }

  /** One exchange keeps a call and the record of its id together. */
  lemma LocalStep(pc: Pc, records: Records, id: Id, reply: Reply, after: Records, quiet: bool)
    requires !pc.Done? && Answers(Request(pc), reply) && Plausible(records, Request(pc), reply, after)
    requires id in records ==> RecordOk(records[id], id)
    requires PcOk(pc, Lookup(records, id), id, quiet)
    requires quiet && IsStoreEffect(Request(pc)) && reply == StoreFailed ==> after == records
    ensures PcOk(Advance(pc, reply), Lookup(after, id), id, quiet)
    ensures id in after ==> RecordOk(after[id], id)
  {
    match pc
    case Loading(call) =>
      if reply.Loaded? {
        LoadOk(call, reply.found, quiet);
      }
    case Sending(job, first) => SubmitOk(job, first, reply, id, quiet);
    case Finalizing(_, _, _, _) =>
    case _ => LocalStoreStep(pc, records, id, reply, after, quiet);
  }

  /** It touches the record of no other id. */
  lemma LocalFrame(pc: Pc, records: Records, id: Id, reply: Reply, after: Records, quiet: bool)
    requires !pc.Done? && Plausible(records, Request(pc), reply, after) && PcOk(pc, Lookup(records, id), id, quiet)
    requires id in records ==> RecordOk(records[id], id)
    ensures forall other :: other != id ==> Lookup(after, other) == Lookup(records, other)
  {
  }

  // ---- The whole system ----

  ghost predicate Inv(s: System, quiet: bool) {
    && (forall id :: id in s.records ==> RecordOk(s.records[id], id))
    && (forall id :: id in s.calls ==>
                       s.calls[id].call.id == id && PcOk(s.calls[id].pc, Lookup(s.records, id), id, quiet))
  }

  lemma InvMove(s: System, next: System, id: Id, quiet: bool)
    requires Inv(s, quiet)
    requires forall other :: other != id ==> Lookup(next.records, other) == Lookup(s.records, other)
    requires forall other :: other != id && other in next.calls ==>
                               other in s.calls && next.calls[other].call == s.calls[other].call
                               && next.calls[other].pc == s.calls[other].pc
    requires id in next.records ==> RecordOk(next.records[id], id)
    requires id in next.calls ==>
               next.calls[id].call.id == id && PcOk(next.calls[id].pc, Lookup(next.records, id), id, quiet)
    ensures Inv(next, quiet)
  {
    forall other | other in next.records
      ensures RecordOk(next.records[other], other)
    {
      assert Lookup(next.records, other) == Some(next.records[other]);
    }
  }

  /** The reply that moves the call of `id` in a step, if one does. */
  function MovedBy(s: System, step: Step): Option<(Id, Reply)>
    requires Enabled(s, step)
  {
    match step
    case StoreOp(id, reply, _) => Some((id, reply))
    case Receive(id) => Some((id, s.replies[s.calls[id].ticket.value]))
    case Abandon(id, reply) => Some((id, reply))
    case _ => None
  }

  lemma InvStep(s: System, step: Step, quiet: bool)
    requires Inv(s, quiet) && Enabled(s, step) && !step.Tamper? && (quiet ==> QuietStep(s, step))
    ensures Inv(Apply(s, step), quiet)
  {
    if MovedBy(s, step).Some? {
      InvMoved(s, step, quiet);
    } else {
      InvOther(s, step, quiet);
    }
  }

  /** An exchange moves one call: the records before and after it fit its effect and reply. */
  lemma MovedPlausibly(s: System, step: Step)
    requires Enabled(s, step) && MovedBy(s, step).Some?
    ensures var (id, reply) := MovedBy(s, step).value;
            && id in s.calls && !s.calls[id].pc.Done? && Answers(Request(s.calls[id].pc), reply)
            && Plausible(s.records, Request(s.calls[id].pc), reply, Apply(s, step).records)
            && Apply(s, step).calls == s.calls[id := Active(s.calls[id].call, Advance(s.calls[id].pc, reply), None)]
  {
  }

  lemma UnmovedRecords(s: System, step: Step)
    requires Enabled(s, step) && MovedBy(s, step).None? && !step.Tamper?
    ensures Apply(s, step).records == s.records
  {
  }

  /** A call that a step does not move stays where it was, or has just begun. */
  lemma OthersStay(s: System, step: Step, id: Id)
    requires Enabled(s, step) && (MovedBy(s, step).Some? ==> id != MovedBy(s, step).value.0)
    ensures id in Apply(s, step).calls ==>
              || (step.Begin? && Apply(s, step).calls[id].pc == Loading(step.call) && step.call.id == id)
              || (id in s.calls && Apply(s, step).calls[id].pc == s.calls[id].pc)
  {
  }

  /** An accepted submit is news from the server, and the newest. */
  lemma AcceptedReceived(s: System, step: Step)
    requires Enabled(s, step) && MovedBy(s, step).Some?
    ensures s.log <= Apply(s, step).log
    ensures var (id, reply) := MovedBy(s, step).value;
            reply.Accepted? ==> Apply(s, step).log == s.log + [Received(id, s.calls[id].pc, reply)]
  {
  }

  lemma InvMoved(s: System, step: Step, quiet: bool)
    requires Inv(s, quiet) && Enabled(s, step) && MovedBy(s, step).Some? && (quiet ==> QuietStep(s, step))
    ensures Inv(Apply(s, step), quiet)
  {
    var next := Apply(s, step);
    var (id, reply) := MovedBy(s, step).value;
    MovedPlausibly(s, step);
    LocalStep(s.calls[id].pc, s.records, id, reply, next.records, quiet);
    LocalFrame(s.calls[id].pc, s.records, id, reply, next.records, quiet);
    InvMove(s, next, id, quiet);
  }

  lemma InvOther(s: System, step: Step, quiet: bool)
    requires Inv(s, quiet) && Enabled(s, step) && MovedBy(s, step).None? && !step.Tamper?
    ensures Inv(Apply(s, step), quiet)
  {
  }

  lemma {:induction false} InvAlways(steps: seq<Step>, quiet: bool)
    requires Legal(steps) && Untampered(steps) && (quiet ==> Quiet(steps))
    ensures Inv(State(steps), quiet)
    decreases |steps|
  {
    if steps != [] {
      InvAlways(Front(steps), quiet);
      InvStep(State(Front(steps)), Last(steps), quiet);
    }
  }
}
