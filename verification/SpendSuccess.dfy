/** Success means finalized, for good. */
module SpendSuccess {
  import opened Wrappers
  import opened Bitcoin
  import opened SpendStore
  import opened SpendProtocol
  import opened SpendRuns
  import opened SpendInvariants
  import opened SpendNetwork
  import opened SpendSafety

  /** The server acknowledged a finalize of `txid` sent for `id`. */
  ghost predicate Acked(log: seq<Event>, id: Id, txid: Txid) {
    exists t :: && 0 <= t < |log| && log[t].Sent? && log[t].id == id
                && log[t].pc.Finalizing? && log[t].pc.txid == txid
                && HandledAs(log, t, Acknowledged)
  }

  lemma AckedStays(log: seq<Event>, more: seq<Event>, id: Id, txid: Txid)
    requires Acked(log, id, txid)
    ensures Acked(log + more, id, txid)
  {
    var t :| && 0 <= t < |log| && log[t].Sent? && log[t].id == id
             && log[t].pc.Finalizing? && log[t].pc.txid == txid
             && HandledAs(log, t, Acknowledged);
    HandledStays(log, more, t, Acknowledged);
    assert (log + more)[t] == log[t];
  }

  ghost predicate RecordAcked(r: PendingSpend, log: seq<Event>, id: Id) {
    r.stage == Finalized ==> r.arkTxid.Encoded? && Acked(log, id, r.arkTxid.value)
  }

  ghost predicate PcAcked(pc: Pc, log: seq<Event>, id: Id) {
    match pc
    case Marking(_, txid, _) => Acked(log, id, txid)
    case Done(Success(txid)) => Acked(log, id, txid)
    case _ => true
  }

  ghost predicate EndAcked(e: Event, log: seq<Event>) {
    e.Ended? && e.outcome.Success? ==>
      && Acked(log, e.id, e.outcome.txid)
      && (e.call.Spend? ==> e.outcome.txid == e.call.arkTx.Txid())
  }

  ghost predicate AllAcked(s: System) {
    && (forall id :: id in s.records ==> RecordAcked(s.records[id], s.log, id))
    && (forall id :: id in s.calls ==> PcAcked(s.calls[id].pc, s.log, id))
    && (forall n :: 0 <= n < |s.log| ==> EndAcked(s.log[n], s.log))
  }

  lemma AckedAdvance(pc: Pc, records: Records, id: Id, reply: Reply, after: Records, log: seq<Event>)
    requires !pc.Done? && Answers(Request(pc), reply) && Plausible(records, Request(pc), reply, after)
    requires id in records ==> RecordOk(records[id], id) && RecordAcked(records[id], log, id)
    requires PcOk(pc, Lookup(records, id), id, false) && PcAcked(pc, log, id)
    requires pc.Finalizing? && reply == Acknowledged ==> Acked(log, id, pc.txid)
    ensures PcAcked(Advance(pc, reply), log, id)
  {
  }

  lemma AckedRecord(pc: Pc, records: Records, id: Id, reply: Reply, after: Records, log: seq<Event>)
    requires !pc.Done? && Answers(Request(pc), reply) && Plausible(records, Request(pc), reply, after)
    requires id in records ==> RecordAcked(records[id], log, id)
    requires PcOk(pc, Lookup(records, id), id, false) && PcAcked(pc, log, id)
    ensures id in after ==> RecordAcked(after[id], log, id)
  {
  }

  lemma AcksStay(s: System, more: seq<Event>, id: Id)
    requires AllAcked(s)
    ensures id in s.records ==> RecordAcked(s.records[id], s.log + more, id)
    ensures id in s.calls ==> PcAcked(s.calls[id].pc, s.log + more, id)
  {
    if id in s.records && s.records[id].stage == Finalized {
      AckedStays(s.log, more, id, s.records[id].arkTxid.value);
    }
    if id in s.calls {
      match s.calls[id].pc
      case Marking(_, txid, _) => AckedStays(s.log, more, id, txid);
      case Done(Success(txid)) => AckedStays(s.log, more, id, txid);
      case _ =>
    }
  }

  /** Only the server acknowledges a finalize, and it does so for the one the call waits for. */
  lemma FinalizeAcked(s: System, step: Step, id: Id)
    requires Net(s) && Enabled(s, step) && MovedBy(s, step) == Some((id, Acknowledged)) && s.calls[id].pc.Finalizing?
    ensures Acked(s.log, id, s.calls[id].pc.txid)
  {
    var t := s.calls[id].ticket.value;
    assert HandledAs(s.log, t, Acknowledged);
  }

  lemma AckedMove(s: System, step: Step, id: Id)
    requires Inv(s, false) && Net(s) && AllAcked(s) && Enabled(s, step) && MovedBy(s, step).Some?
    requires id == MovedBy(s, step).value.0
    ensures var next := Apply(s, step);
            && PcAcked(next.calls[id].pc, next.log, id)
            && (id in next.records ==> RecordAcked(next.records[id], next.log, id))
            && (forall other :: other != id ==> Lookup(next.records, other) == Lookup(s.records, other))
  {
    var next := Apply(s, step);
    var more := next.log[|s.log|..];
    var pc, reply := s.calls[id].pc, MovedBy(s, step).value.1;
    MovedPlausibly(s, step);
    assert next.log == s.log + more;
    AcksStay(s, more, id);
    if pc.Finalizing? && reply == Acknowledged {
      FinalizeAcked(s, step, id);
      AckedStays(s.log, more, id, pc.txid);
    }
    AckedAdvance(pc, s.records, id, reply, next.records, next.log);
    AckedRecord(pc, s.records, id, reply, next.records, next.log);
    LocalFrame(pc, s.records, id, reply, next.records, false);
  }

  lemma EndsAcked(s: System, step: Step)
    requires AllBound(s) && AllAcked(s) && Enabled(s, step)
    ensures forall n :: 0 <= n < |Apply(s, step).log| ==> EndAcked(Apply(s, step).log[n], Apply(s, step).log)
  {
    var log := Apply(s, step).log;
    LogGrows(s, step);
    var more := log[|s.log|..];
    assert log == s.log + more;
    forall n | 0 <= n < |log|
      ensures EndAcked(log[n], log)
    {
      if n < |s.log| {
        assert EndAcked(s.log[n], s.log);
        if s.log[n].Ended? && s.log[n].outcome.Success? {
          AckedStays(s.log, more, s.log[n].id, s.log[n].outcome.txid);
        }
      } else if step.End? {
        AcksStay(s, more, step.id);
      }
    }
  }

  lemma OthersAcked(s: System, step: Step, id: Id)
    requires AllAcked(s) && Enabled(s, step) && !step.Tamper?
    requires MovedBy(s, step).Some? ==> id != MovedBy(s, step).value.0
    requires Lookup(Apply(s, step).records, id) == Lookup(s.records, id)
    ensures id in Apply(s, step).records ==> RecordAcked(Apply(s, step).records[id], Apply(s, step).log, id)
    ensures id in Apply(s, step).calls ==> PcAcked(Apply(s, step).calls[id].pc, Apply(s, step).log, id)
  {
    LogGrows(s, step);
    OthersStay(s, step, id);
    var log := Apply(s, step).log;
    assert log == s.log + log[|s.log|..];
    AcksStay(s, log[|s.log|..], id);
  }

  lemma RecordsAndCallsAcked(s: System, step: Step, id: Id)
    requires Inv(s, false) && Net(s) && AllAcked(s) && Enabled(s, step) && !step.Tamper?
    ensures id in Apply(s, step).records ==> RecordAcked(Apply(s, step).records[id], Apply(s, step).log, id)
    ensures id in Apply(s, step).calls ==> PcAcked(Apply(s, step).calls[id].pc, Apply(s, step).log, id)
  {
    if MovedBy(s, step).None? {
      UnmovedRecords(s, step);
      OthersAcked(s, step, id);
    } else {
      AckedMove(s, step, MovedBy(s, step).value.0);
      if id != MovedBy(s, step).value.0 {
        OthersAcked(s, step, id);
      }
    }
  }

  lemma AckedStep(s: System, step: Step)
    requires Inv(s, false) && Net(s) && AllBound(s) && AllAcked(s) && Enabled(s, step) && !step.Tamper?
    ensures AllAcked(Apply(s, step))
  {
    forall id
      ensures id in Apply(s, step).records ==> RecordAcked(Apply(s, step).records[id], Apply(s, step).log, id)
      ensures id in Apply(s, step).calls ==> PcAcked(Apply(s, step).calls[id].pc, Apply(s, step).log, id)
    {
      RecordsAndCallsAcked(s, step, id);
    }
    EndsAcked(s, step);
  }

  lemma {:induction false} AckedAlways(steps: seq<Step>)
    requires Legal(steps) && Untampered(steps)
    ensures AllAcked(State(steps))
    decreases |steps|
  {
    if steps != [] {
      LegalPrefix(steps, |steps| - 1);
      AckedAlways(Front(steps));
      InvAlways(Front(steps), false);
      NetAlways(Front(steps));
      BoundAlways(Front(steps));
      AckedStep(State(Front(steps)), Last(steps));
    }
  }

  /** From an empty store: a call that returned a txid means the server
      acknowledged a finalize of exactly that txid, and it is the txid of the
      transaction the caller supplied, if one was. */
  lemma SuccessMeansFinalized(steps: seq<Step>, n: nat)
    requires Legal(steps) && Untampered(steps) && n < |State(steps).log|
    requires State(steps).log[n].Ended? && State(steps).log[n].outcome.Success?
    ensures var e := State(steps).log[n];
            && Acked(State(steps).log, e.id, e.outcome.txid)
            && (e.call.Spend? ==> e.outcome.txid == e.call.arkTx.Txid())
  {
    AckedAlways(steps);
    assert EndAcked(State(steps).log[n], State(steps).log);
  }

  // ---- Afterwards ----

  /** What a call can come to once the spend of its id is final. */
  predicate FinalOutcome(call: Call, outcome: Outcome, txid: Txid) {
    || (outcome == Success(txid) && (call.Spend? ==> call.arkTx.Txid() == txid))
    || outcome == Failed(LoadingFailed)
    || (outcome == Failed(BoundToAnotherTransaction) && call.Spend? && call.arkTx.Txid() != txid)
  }

  /** The record is finalized and no call for the id has anything left to do but read it. */
  predicate Settled(s: System, id: Id, txid: Txid) {
    && id in s.records && s.records[id].stage == Finalized && s.records[id].arkTxid == Encoded(txid)
    && (id in s.calls ==>
          match s.calls[id].pc
          case Loading(call) => call == s.calls[id].call && call.id == id
          case Done(outcome) => FinalOutcome(s.calls[id].call, outcome, txid)
          case _ => false)
  }

  /** A step that sends nothing for the id and ends a call for it only with its final outcome. */
  predicate AfterSuccess(s: System, step: Step, id: Id, txid: Txid) {
    && step != Send(id)
    && (step == End(id) ==>
          && id in s.calls && s.calls[id].pc.Done?
          && FinalOutcome(s.calls[id].call, s.calls[id].pc.outcome, txid))
  }

  /** All a call can still do is read the finalized record. */
  lemma SettledRead(call: Call, pc: Pc, records: Records, reply: Reply, after: Records, txid: Txid)
    requires pc == Loading(call) && Answers(Request(pc), reply) && Plausible(records, Request(pc), reply, after)
    requires call.id in records && records[call.id].stage == Finalized && records[call.id].arkTxid == Encoded(txid)
    ensures after == records && Advance(pc, reply).Done? && FinalOutcome(call, Advance(pc, reply).outcome, txid)
  {
  }

  lemma SettledMoved(s: System, step: Step, id: Id, txid: Txid)
    requires Inv(s, false) && Settled(s, id, txid) && Enabled(s, step) && MovedBy(s, step).Some?
    ensures Settled(Apply(s, step), id, txid)
  {
    var (moving, reply) := MovedBy(s, step).value;
    var next := Apply(s, step);
    MovedPlausibly(s, step);
    if moving != id {
      LocalFrame(s.calls[moving].pc, s.records, moving, reply, next.records, false);
      assert Lookup(next.records, id) == Lookup(s.records, id);
    } else {
      SettledRead(s.calls[id].call, s.calls[id].pc, s.records, reply, next.records, txid);
    }
  }

  lemma SettledOther(s: System, step: Step, id: Id, txid: Txid)
    requires Settled(s, id, txid) && Enabled(s, step) && MovedBy(s, step).None? && !step.Tamper?
    ensures Settled(Apply(s, step), id, txid)
    ensures AfterSuccess(s, step, id, txid)
  {
  }

  lemma SettledStep(s: System, step: Step, id: Id, txid: Txid)
    requires Inv(s, false) && Settled(s, id, txid) && Enabled(s, step) && !step.Tamper?
    ensures Settled(Apply(s, step), id, txid)
    ensures AfterSuccess(s, step, id, txid)
  {
    if MovedBy(s, step).Some? {
      SettledMoved(s, step, id, txid);
    } else {
      SettledOther(s, step, id, txid);
    }
  }

  lemma SettledByEnd(s: System, id: Id, txid: Txid)
    requires Inv(s, false) && Enabled(s, End(id)) && s.calls[id].pc == Done(Success(txid))
    ensures Settled(Apply(s, End(id)), id, txid)
  {
  }

  /** After a call for an id has succeeded with a txid, no message is ever
      sent for that id again, every later call returns the same txid (unless
      the store cannot be read, or another transaction is supplied, which is
      refused), and the record stays finalized. */
  lemma {:induction false} SuccessIsFinal(steps: seq<Step>, n: nat, id: Id, txid: Txid)
    requires Legal(steps) && Untampered(steps) && n < |steps| && steps[n] == End(id)
    requires Legal(steps[..n]) && Enabled(State(steps[..n]), End(id))
    requires State(steps[..n]).calls[id].pc == Done(Success(txid))
    ensures Settled(State(steps), id, txid)
    ensures n < |steps| - 1 ==> Legal(Front(steps)) && AfterSuccess(State(Front(steps)), Last(steps), id, txid)
    decreases |steps|
  {
    var front := Front(steps);
    LegalPrefix(steps, |steps| - 1);
    InvAlways(front, false);
    if n == |steps| - 1 {
      assert front == steps[..n];
      SettledByEnd(State(front), id, txid);
    } else {
      assert front[..n] == steps[..n];
      SuccessIsFinal(front, n, id, txid);
      SettledStep(State(front), Last(steps), id, txid);
    }
  }
}
