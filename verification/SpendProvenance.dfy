/** What is submitted and finalized is what the caller supplied and the server returned. */
module SpendProvenance {
  import opened Wrappers
  import opened Bitcoin
  import opened SpendStore
  import opened SpendProtocol
  import opened SpendRuns
  import opened SpendInvariants
  import opened SpendNetwork
  import opened SpendRecovery
  import opened Signing

  // ---- What a call records ----

  /** The record holds everything the caller supplied, and nothing of the server yet. */
  predicate Holds(r: PendingSpend, call: Call) {
    && call.Spend? && r.id == call.id && r.stage == Submitting && r.token == call.token
    && r.arkTxid == Encoded(TxidOf(call.arkTx.tx)) && r.arkTx == Some(Encoded(call.arkTx))
    && DecodeAll(r.unsignedCheckpoints) == Some(call.checkpoints)
    && DecodeParties(r.partySignedCheckpoints) == Some(call.parties)
    && r.signedCheckpoints == [] && r.serverSignedArkTx == None
  }

  /** The submit, and what it is merged with later, are the caller's. */
  predicate AsSupplied(job: Job, call: Call) {
    && Holds(job.pending, call)
    && job.arkTx == call.arkTx && job.checkpoints == call.checkpoints && job.parties == call.parties
  }

  lemma DecodeEncodeParties(parties: seq<seq<Psbt>>)
    ensures DecodeParties(EncodeParties(parties)) == Some(parties)
  {
    var texts := EncodeParties(parties);
    forall p | 0 <= p < |parties|
      ensures DecodeAll(texts[p]) == Some(parties[p])
    {
      DecodeEncode(parties[p]);
    }
    var decoded := DecodeParties(texts).value;
    assert |decoded| == |EncodeParties(decoded)| == |parties|;
    forall p | 0 <= p < |parties|
      ensures decoded[p] == parties[p]
    {
      assert EncodeParties(decoded)[p] == texts[p];
      EncodeInjective(decoded[p], parties[p]);
    }
    assert decoded == parties;
  }

  /** The new record of a spend holds all of it, so a retry that finds the
      record sends the same submit again, with the same parties to merge. */
  lemma NewRecordHolds(call: Call)
    requires call.Spend?
    ensures Holds(NewRecord(call), call)
    ensures FromRecord(NewRecord(call))
            == Sending(Job(NewRecord(call), call.arkTx, call.checkpoints, call.parties), false)
  {
    DecodeEncode(call.checkpoints);
    DecodeEncodeParties(call.parties);
  }

  lemma HeldResubmits(r: PendingSpend, call: Call)
    requires Holds(r, call)
    ensures FromRecord(r) == Sending(Job(r, call.arkTx, call.checkpoints, call.parties), false)
  {
  }

  // ---- What a spend may start with ----

  /** The checks before anything is persisted accept exactly the non-empty
      checkpoint lists onto which the signatures of every party can be merged. */
  lemma ChecksAreMergeability(checkpoints: seq<Psbt>, parties: seq<seq<Psbt>>)
    ensures ValidCheckpoints(checkpoints, parties)
            <==> checkpoints != [] && MergeAllCheckpointSigs(checkpoints, parties).Ok?
  {
    MergeFromMerges(checkpoints, parties, 0);
    if ValidCheckpoints(checkpoints, parties) {
      forall i | 0 <= i < |checkpoints|
        ensures Fits(checkpoints[i], parties, i, |checkpoints|)
      {
        assert forall p :: 0 <= p < |parties| ==> Mergeable(parties[p][i], checkpoints[i]);
      }
    }
    if checkpoints != [] && MergeAllCheckpointSigs(checkpoints, parties).Ok? {
      forall p | 0 <= p < |parties|
        ensures |parties[p]| == |checkpoints|
      {
        assert Fits(checkpoints[0], parties, 0, |checkpoints|);
      }
      forall p, j | 0 <= p < |parties| && 0 <= j < |checkpoints|
        ensures Mergeable(parties[p][j], checkpoints[j])
      {
        assert Fits(checkpoints[j], parties, j, |checkpoints|);
      }
    }
  }

  // ---- What an accepted submit is turned into ----

  /** Input 0 has the witness script submitted for this checkpoint, if it was
      submitted, and the returned one otherwise. */
  ghost predicate ScriptKept(submitted: seq<Psbt>, returned: Psbt, final: Psbt)
    requires |returned.inputs| == |final.inputs|
  {
    && (forall k :: && 0 <= k < |submitted| && TxidOf(submitted[k].tx) == TxidOf(returned.tx)
                    && (forall m :: k < m < |submitted| ==> TxidOf(submitted[m].tx) != TxidOf(returned.tx))
                    ==> && submitted[k].inputs != [] && final.inputs != []
                        && final.inputs[0].witnessScript == submitted[k].inputs[0].witnessScript)
    && ((forall k :: 0 <= k < |submitted| ==> TxidOf(submitted[k].tx) != TxidOf(returned.tx)) && final.inputs != []
        ==> final.inputs[0].witnessScript == returned.inputs[0].witnessScript)
  }

  /** Checkpoint `k` as it is finalized: what the server returned, with the
      signatures of server and parties in every slot, the server first. */
  ghost predicate CheckpointMerged(submitted: seq<Psbt>, parties: seq<seq<Psbt>>, k: nat, returned: Psbt, final: Psbt) {
    && final.tx == returned.tx && |final.inputs| == |returned.inputs|
    && (forall i :: 0 <= i < |final.inputs| ==>
                      && final.inputs[i].witnessUtxo == returned.inputs[i].witnessUtxo
                      && final.inputs[i].tapScripts == returned.inputs[i].tapScripts
                      && (i > 0 ==> final.inputs[i].witnessScript == returned.inputs[i].witnessScript))
    && ScriptKept(submitted, returned, final)
    && (forall i, key :: 0 <= i < |final.inputs| ==> SlotMerged(returned, parties, k, final, i, key))
  }

  ghost predicate AllMerged(submitted: seq<Psbt>, parties: seq<seq<Psbt>>, returned: seq<Psbt>, final: seq<Psbt>) {
    && |final| == |returned|
    && forall k :: 0 <= k < |final| ==> CheckpointMerged(submitted, parties, k, returned[k], final[k])
  }

  lemma SlotsSurviveRestoring(returned: Psbt, restored: Psbt, parties: seq<seq<Psbt>>, k: nat, final: Psbt, i: nat,
                              key: (Key, NodeHash))
    requires |returned.inputs| == |restored.inputs| && i < |returned.inputs| && i < |final.inputs|
    requires restored.inputs[i].tapScriptSigs == returned.inputs[i].tapScriptSigs
    requires SlotMerged(restored, parties, k, final, i, key)
    ensures SlotMerged(returned, parties, k, final, i, key)
  {
  }

  /** `restored` is `returned` but for the witness script of input 0. */
  lemma MergedCheckpoint(submitted: seq<Psbt>, parties: seq<seq<Psbt>>, k: nat, expected: nat, returned: Psbt,
                         restored: Psbt, final: Psbt)
    requires k < expected && Fits(restored, parties, k, expected)
    requires MergeColumn(restored, parties, k, expected) == Ok(final)
    requires restored.tx == returned.tx && |restored.inputs| == |returned.inputs|
    requires forall i :: 0 <= i < |restored.inputs| ==>
                           && restored.inputs[i].(witnessScript := None) == returned.inputs[i].(witnessScript := None)
                           && (i > 0 ==> restored.inputs[i] == returned.inputs[i])
    requires ScriptKept(submitted, returned, restored)
    ensures CheckpointMerged(submitted, parties, k, returned, final)
  {
    ColumnMerged(restored, parties, k, expected);
    forall i | 0 <= i < |final.inputs|
      ensures && final.inputs[i].witnessUtxo == returned.inputs[i].witnessUtxo
              && final.inputs[i].tapScripts == returned.inputs[i].tapScripts
              && final.inputs[i].witnessScript == restored.inputs[i].witnessScript
              && restored.inputs[i].tapScriptSigs == returned.inputs[i].tapScriptSigs
    {
      assert final.inputs[i].(tapScriptSigs := map[]) == restored.inputs[i].(tapScriptSigs := map[]);
      assert restored.inputs[i].(witnessScript := None) == returned.inputs[i].(witnessScript := None);
    }
    forall i, key | 0 <= i < |final.inputs|
      ensures SlotMerged(returned, parties, k, final, i, key)
    {
      ColumnSlots(restored, parties, k, expected, i, key);
      SlotsSurviveRestoring(returned, restored, parties, k, final, i, key);
    }
  }

  lemma RestoredCheckpoint(submitted: seq<Psbt>, returned: seq<Psbt>, k: nat)
    requires WitnessScripts(submitted).Some? && k < |returned|
    requires RestoreScripts(returned, WitnessScripts(submitted).value).Some?
    ensures var restored := RestoreScripts(returned, WitnessScripts(submitted).value).value[k];
            && restored.tx == returned[k].tx && |restored.inputs| == |returned[k].inputs|
            && (forall i :: 0 <= i < |restored.inputs| ==>
                              && restored.inputs[i].(witnessScript := None)
                                 == returned[k].inputs[i].(witnessScript := None)
                              && (i > 0 ==> restored.inputs[i] == returned[k].inputs[i]))
            && ScriptKept(submitted, returned[k], restored)
  {
    RestoredAt(returned, WitnessScripts(submitted).value, k);
    ScriptsComeBack(submitted, returned, k);
  }

  /** If the answer to a submit is taken further, every checkpoint to be
      finalized, and recorded, is the returned one with the signatures of the
      server and of all parties. */
  lemma UpgradeMerges(job: Job, first: bool, reply: Reply)
    requires Answers(Submit(job.arkTx, job.checkpoints), reply) && AfterSubmit(job, first, reply).Upgrading?
    ensures reply.Accepted?
    ensures var next := AfterSubmit(job, first, reply);
            && AllMerged(job.checkpoints, job.parties, reply.checkpoints, next.checkpoints)
            && DecodeAll(next.pending.signedCheckpoints) == Some(next.checkpoints)
            && next.txid == TxidOf(job.arkTx.tx) && next.pending.arkTxid == Encoded(next.txid)
            && VerifyServerArkTxSig(job.arkTx, reply.arkTx).Ok?
            && next.pending.serverSignedArkTx == Some(Encoded(VerifyServerArkTxSig(job.arkTx, reply.arkTx).value))
  {
    var next := AfterSubmit(job, first, reply);
    DecodeEncode(next.checkpoints);
    var restored := CheckSubmit(job, reply).value.1;
    MergeFromMerges(restored, job.parties, 0);
    forall k | 0 <= k < |next.checkpoints|
      ensures CheckpointMerged(job.checkpoints, job.parties, k, reply.checkpoints[k], next.checkpoints[k])
    {
      assert Fits(restored[k], job.parties, k, |restored|);
      RestoredCheckpoint(job.checkpoints, reply.checkpoints, k);
      MergedCheckpoint(job.checkpoints, job.parties, k, |restored|, reply.checkpoints[k], restored[k],
                       next.checkpoints[k]);
    }
  }

  // ---- In every run where only the protocol writes records ----

  /** The calls begun in a run. */
  function Begun(steps: seq<Step>): set<Call>
    decreases |steps|
  {
    if steps == [] then {}
    else Begun(Front(steps)) + if Last(steps).Begin? then {Last(steps).call} else {}
  }

  /** A spend that passes the checks was begun for the id, and the job is its. */
  ghost predicate Asked(calls: set<Call>, job: Job, id: Id) {
    exists call :: call in calls && AskedBy(call, job, id)
  }

  predicate AskedBy(call: Call, job: Job, id: Id) {
    && call.Spend? && call.id == id && ValidCheckpoints(call.checkpoints, call.parties) && AsSupplied(job, call)
  }

  /** The server's answer to the submit of a begun spend, received as event
      `j`, merges with that spend's parties to `checkpoints`. */
  ghost predicate AnsweredAt(call: Call, log: seq<Event>, j: int, id: Id, txid: Txid, checkpoints: seq<Psbt>) {
    && 0 <= j < |log| && log[j].Received? && log[j].id == id && log[j].pc.Sending? && log[j].reply.Accepted?
    && AskedBy(call, log[j].pc.job, id) && txid == TxidOf(call.arkTx.tx)
    && AllMerged(call.checkpoints, call.parties, log[j].reply.checkpoints, checkpoints)
  }

  ghost predicate Answered(calls: set<Call>, log: seq<Event>, id: Id, txid: Txid, checkpoints: seq<Psbt>) {
    exists call, j :: call in calls && AnsweredAt(call, log, j, id, txid, checkpoints)
  }

  lemma AnsweredStays(calls: set<Call>, log: seq<Event>, id: Id, txid: Txid, checkpoints: seq<Psbt>,
                      moreCalls: set<Call>, more: seq<Event>)
    requires Answered(calls, log, id, txid, checkpoints) && calls <= moreCalls
    ensures Answered(moreCalls, log + more, id, txid, checkpoints)
  {
    var call, j :| call in calls && AnsweredAt(call, log, j, id, txid, checkpoints);
    assert (log + more)[j] == log[j];
    assert AnsweredAt(call, log + more, j, id, txid, checkpoints);
  }

  /** What a submitting record was written for, or what a later one came from. */
  ghost predicate RecordTraced(r: PendingSpend, calls: set<Call>, log: seq<Event>, id: Id) {
    if r.stage == Submitting then
      exists call :: call in calls && call.Spend? && call.id == id && Holds(r, call)
                     && ValidCheckpoints(call.checkpoints, call.parties)
    else
      && r.arkTxid.Encoded? && DecodeAll(r.signedCheckpoints).Some?
      && Answered(calls, log, id, r.arkTxid.value, DecodeAll(r.signedCheckpoints).value)
  }

  ghost predicate PcTraced(pc: Pc, calls: set<Call>, log: seq<Event>, id: Id) {
    match pc
    case Loading(call) => call in calls && call.id == id
    case Persisting(job) => Asked(calls, job, id)
    case Sending(job, _) => Asked(calls, job, id)
    case Clearing(_) => true
    case Upgrading(p, txid, checkpoints) =>
      RecordTraced(p, calls, log, id) && Answered(calls, log, id, txid, checkpoints)
    case Finalizing(p, txid, checkpoints, _) =>
      RecordTraced(p, calls, log, id) && Answered(calls, log, id, txid, checkpoints)
    case Marking(p, _, _) => RecordTraced(p, calls, log, id)
    case Rescuing(p, _) => RecordTraced(p, calls, log, id)
    case Done(_) => true
  }

  lemma RecordStays(r: PendingSpend, calls: set<Call>, log: seq<Event>, id: Id, moreCalls: set<Call>, more: seq<Event>)
    requires RecordTraced(r, calls, log, id) && calls <= moreCalls
    ensures RecordTraced(r, moreCalls, log + more, id)
  {
    if r.stage != Submitting {
      AnsweredStays(calls, log, id, r.arkTxid.value, DecodeAll(r.signedCheckpoints).value, moreCalls, more);
    }
  }

  lemma PcStays(pc: Pc, calls: set<Call>, log: seq<Event>, id: Id, moreCalls: set<Call>, more: seq<Event>)
    requires PcTraced(pc, calls, log, id) && calls <= moreCalls
    ensures PcTraced(pc, moreCalls, log + more, id)
  {
    match pc
    case Upgrading(p, txid, checkpoints) =>
      RecordStays(p, calls, log, id, moreCalls, more);
      AnsweredStays(calls, log, id, txid, checkpoints, moreCalls, more);
    case Finalizing(p, txid, checkpoints, _) =>
      RecordStays(p, calls, log, id, moreCalls, more);
      AnsweredStays(calls, log, id, txid, checkpoints, moreCalls, more);
    case Marking(p, _, _) => RecordStays(p, calls, log, id, moreCalls, more);
    case Rescuing(p, _) => RecordStays(p, calls, log, id, moreCalls, more);
    case Persisting(job) => AskedStays(calls, job, id, moreCalls);
    case Sending(job, _) => AskedStays(calls, job, id, moreCalls);
    case _ =>
  }

  lemma AskedStays(calls: set<Call>, job: Job, id: Id, moreCalls: set<Call>)
    requires Asked(calls, job, id) && calls <= moreCalls
    ensures Asked(moreCalls, job, id)
  {
  }

  lemma TracedResumed(r: PendingSpend, calls: set<Call>, log: seq<Event>, id: Id)
    requires RecordTraced(r, calls, log, id)
    ensures PcTraced(FromRecord(r), calls, log, id)
  {
    if r.stage == Submitting {
      var call :| && call in calls && call.Spend? && call.id == id && Holds(r, call)
                  && ValidCheckpoints(call.checkpoints, call.parties);
      HeldResubmits(r, call);
      assert AskedBy(call, FromRecord(r).job, id);
    }
  }

  lemma TracedLoad(call: Call, found: Option<PendingSpend>, calls: set<Call>, log: seq<Event>)
    requires call in calls
    requires found.Some? ==> RecordTraced(found.value, calls, log, call.id)
    ensures PcTraced(AfterLoad(call, found), calls, log, call.id)
  {
    if found.Some? {
      TracedResumed(found.value, calls, log, call.id);
    } else if AfterLoad(call, found).Persisting? {
      NewRecordHolds(call);
      assert AskedBy(call, AfterLoad(call, found).job, call.id);
    }
  }

  lemma TracedSubmit(job: Job, first: bool, reply: Reply, calls: set<Call>, log: seq<Event>, id: Id)
    requires Answers(Submit(job.arkTx, job.checkpoints), reply) && Asked(calls, job, id)
    requires |log| > 0 && log[|log| - 1] == Received(id, Sending(job, first), reply)
    ensures PcTraced(AfterSubmit(job, first, reply), calls, log, id)
  {
    if AfterSubmit(job, first, reply).Upgrading? {
      var next := AfterSubmit(job, first, reply);
      UpgradeMerges(job, first, reply);
      var call :| call in calls && AskedBy(call, job, id);
      assert AnsweredAt(call, log, |log| - 1, id, next.txid, next.checkpoints);
    }
  }

  lemma TracedAdvance(pc: Pc, records: Records, id: Id, reply: Reply, after: Records, calls: set<Call>, log: seq<Event>)
    requires !pc.Done? && Answers(Request(pc), reply) && Plausible(records, Request(pc), reply, after)
    requires id in records ==> RecordTraced(records[id], calls, log, id)
    requires PcTraced(pc, calls, log, id)
    requires pc.Sending? && reply.Accepted? ==> |log| > 0 && log[|log| - 1] == Received(id, pc, reply)
    ensures PcTraced(Advance(pc, reply), calls, log, id)
  {
    match pc
    case Loading(call) =>
      if reply.Loaded? {
        TracedLoad(call, reply.found, calls, log);
      }
    case Sending(job, first) =>
      if reply.Accepted? {
        TracedSubmit(job, first, reply, calls, log, id);
      }
    case _ =>
  }

  lemma FinalizedTraced(p: PendingSpend, calls: set<Call>, log: seq<Event>, id: Id)
    requires p.stage == Submitted && RecordTraced(p, calls, log, id)
    ensures RecordTraced(p.(stage := Finalized), calls, log, id)
  {
  }

  lemma TracedWrite(pc: Pc, records: Records, id: Id, reply: Reply, after: Records, calls: set<Call>, log: seq<Event>)
    requires !pc.Done? && Answers(Request(pc), reply) && Plausible(records, Request(pc), reply, after)
    requires id in records ==> RecordTraced(records[id], calls, log, id)
    requires PcOk(pc, Lookup(records, id), id, false) && PcTraced(pc, calls, log, id)
    ensures id in after ==> RecordTraced(after[id], calls, log, id)
  {
    match pc
    case Persisting(job) =>
      var call :| call in calls && AskedBy(call, job, id);
    case Marking(p, _, _) => FinalizedTraced(p, calls, log, id);
    case _ =>
  }

  ghost predicate Traced(s: System, calls: set<Call>) {
    && (forall id :: id in s.records ==> RecordTraced(s.records[id], calls, s.log, id))
    && (forall id :: id in s.calls ==> PcTraced(s.calls[id].pc, calls, s.log, id))
    && (forall n :: 0 <= n < |s.log| && s.log[n].Sent? ==> PcTraced(s.log[n].pc, calls, s.log[..n], s.log[n].id))
  }

  /** A record or call that a step leaves alone stays traced. */
  lemma TraceStays(s: System, calls: set<Call>, moreCalls: set<Call>, more: seq<Event>, id: Id)
    requires Traced(s, calls) && calls <= moreCalls
    ensures id in s.records ==> RecordTraced(s.records[id], moreCalls, s.log + more, id)
    ensures id in s.calls ==> PcTraced(s.calls[id].pc, moreCalls, s.log + more, id)
  {
    if id in s.records {
      RecordStays(s.records[id], calls, s.log, id, moreCalls, more);
    }
    if id in s.calls {
      PcStays(s.calls[id].pc, calls, s.log, id, moreCalls, more);
    }
  }

  lemma TracedMove(s: System, step: Step, id: Id, calls: set<Call>)
    requires Inv(s, false) && Traced(s, calls) && Enabled(s, step) && MovedBy(s, step).Some?
    requires id == MovedBy(s, step).value.0
    ensures var next := Apply(s, step);
            && PcTraced(next.calls[id].pc, calls, next.log, id)
            && (id in next.records ==> RecordTraced(next.records[id], calls, next.log, id))
  {
    MovedPlausibly(s, step);
    AcceptedReceived(s, step);
    var next, pc, reply := Apply(s, step), s.calls[id].pc, MovedBy(s, step).value.1;
    TraceGrows(s, calls, next.log, id);
    TracedAdvance(pc, s.records, id, reply, next.records, calls, next.log);
    TracedWrite(pc, s.records, id, reply, next.records, calls, next.log);
  }

  lemma TraceGrows(s: System, calls: set<Call>, log: seq<Event>, id: Id)
    requires Traced(s, calls) && s.log <= log
    ensures id in s.records ==> RecordTraced(s.records[id], calls, log, id)
    ensures id in s.calls ==> PcTraced(s.calls[id].pc, calls, log, id)
  {
    assert log == s.log + log[|s.log|..];
    TraceStays(s, calls, calls, log[|s.log|..], id);
  }

  lemma MoveFrame(s: System, step: Step, other: Id)
    requires Inv(s, false) && Enabled(s, step) && MovedBy(s, step).Some? && other != MovedBy(s, step).value.0
    ensures Lookup(Apply(s, step).records, other) == Lookup(s.records, other)
  {
    var (id, reply) := MovedBy(s, step).value;
    MovedPlausibly(s, step);
    LocalFrame(s.calls[id].pc, s.records, id, reply, Apply(s, step).records, false);
  }

  lemma SentTraced(s: System, step: Step, calls: set<Call>, moreCalls: set<Call>, n: nat)
    requires Traced(s, calls) && calls <= moreCalls && Enabled(s, step)
    requires n < |Apply(s, step).log| && Apply(s, step).log[n].Sent?
    ensures var log := Apply(s, step).log; PcTraced(log[n].pc, moreCalls, log[..n], log[n].id)
  {
    var log := Apply(s, step).log;
    if n < |s.log| {
      assert log[..n] == s.log[..n] == s.log[..n] + [];
      PcStays(s.log[n].pc, calls, s.log[..n], s.log[n].id, moreCalls, []);
    } else {
      assert log[..n] == s.log == s.log + [];
      PcStays(s.calls[step.id].pc, calls, s.log, step.id, moreCalls, []);
    }
  }

  lemma OthersTraced(s: System, step: Step, calls: set<Call>, moreCalls: set<Call>, id: Id)
    requires Traced(s, calls) && calls <= moreCalls && Enabled(s, step) && !step.Tamper?
    requires step.Begin? ==> step.call in moreCalls
    requires MovedBy(s, step).Some? ==> id != MovedBy(s, step).value.0
    requires Lookup(Apply(s, step).records, id) == Lookup(s.records, id)
    ensures id in Apply(s, step).records ==> RecordTraced(Apply(s, step).records[id], moreCalls, Apply(s, step).log, id)
    ensures id in Apply(s, step).calls ==> PcTraced(Apply(s, step).calls[id].pc, moreCalls, Apply(s, step).log, id)
  {
    LogGrows(s, step);
    OthersStay(s, step, id);
    var log := Apply(s, step).log;
    assert log == s.log + log[|s.log|..];
    TraceStays(s, calls, moreCalls, log[|s.log|..], id);
  }

  lemma RecordAndCallTraced(s: System, step: Step, calls: set<Call>, moreCalls: set<Call>, id: Id)
    requires Inv(s, false) && Traced(s, calls) && Enabled(s, step) && !step.Tamper?
    requires moreCalls == calls + if step.Begin? then {step.call} else {}
    ensures id in Apply(s, step).records ==> RecordTraced(Apply(s, step).records[id], moreCalls, Apply(s, step).log, id)
    ensures id in Apply(s, step).calls ==> PcTraced(Apply(s, step).calls[id].pc, moreCalls, Apply(s, step).log, id)
  {
    if MovedBy(s, step).Some? {
      TracedMove(s, step, MovedBy(s, step).value.0, calls);
      assert moreCalls == calls;
      if id != MovedBy(s, step).value.0 {
        MoveFrame(s, step, id);
        OthersTraced(s, step, calls, moreCalls, id);
      }
    } else {
      UnmovedRecords(s, step);
      OthersTraced(s, step, calls, moreCalls, id);
    }
  }

  lemma TracedStep(s: System, step: Step, calls: set<Call>, moreCalls: set<Call>)
    requires Inv(s, false) && Traced(s, calls) && Enabled(s, step) && !step.Tamper?
    requires moreCalls == calls + if step.Begin? then {step.call} else {}
    ensures Traced(Apply(s, step), moreCalls)
  {
    var next := Apply(s, step);
    forall id
      ensures id in next.records ==> RecordTraced(next.records[id], moreCalls, next.log, id)
      ensures id in next.calls ==> PcTraced(next.calls[id].pc, moreCalls, next.log, id)
    {
      RecordAndCallTraced(s, step, calls, moreCalls, id);
    }
    forall n | 0 <= n < |next.log| && next.log[n].Sent?
      ensures PcTraced(next.log[n].pc, moreCalls, next.log[..n], next.log[n].id)
    {
      SentTraced(s, step, calls, moreCalls, n);
    }
  }

  lemma {:induction false} TracedAlways(steps: seq<Step>)
    requires Legal(steps) && Untampered(steps)
    ensures Traced(State(steps), Begun(steps))
    decreases |steps|
  {
    if steps != [] {
      LegalPrefix(steps, |steps| - 1);
      TracedAlways(Front(steps));
      InvAlways(Front(steps), false);
      TracedStep(State(Front(steps)), Last(steps), Begun(Front(steps)), Begun(steps));
    }
  }

  /** In every run a submit carries the transaction and the checkpoints of a
      spend begun for its id, whose checkpoints the parties' signatures fit. */
  lemma SubmitCarries(steps: seq<Step>, n: nat)
    requires Legal(steps) && Untampered(steps)
    requires n < |State(steps).log| && State(steps).log[n].Sent? && State(steps).log[n].pc.Sending?
    ensures var sent := State(steps).log[n];
            exists call :: && call in Begun(steps) && call.Spend? && call.id == sent.id
                           && ValidCheckpoints(call.checkpoints, call.parties)
                           && Request(sent.pc) == Submit(call.arkTx, call.checkpoints)
  {
    TracedAlways(steps);
    var sent := State(steps).log[n];
    var call :| call in Begun(steps) && AskedBy(call, sent.pc.job, sent.id);
    assert Request(sent.pc) == Submit(call.arkTx, call.checkpoints);
  }

  /** In every run, resumed or not, a finalize carries the checkpoints the
      server returned for a spend begun for its id, each with the signatures of
      the server and of all parties of that spend. */
  lemma FinalizeCarries(steps: seq<Step>, n: nat)
    requires Legal(steps) && Untampered(steps)
    requires n < |State(steps).log| && State(steps).log[n].Sent? && State(steps).log[n].pc.Finalizing?
    ensures var log := State(steps).log;
            var pc := log[n].pc;
            && Request(pc) == Finalize(pc.txid, pc.checkpoints)
            && exists call, j :: && call in Begun(steps) && 0 <= j < n
                                 && AnsweredAt(call, log[..n], j, log[n].id, pc.txid, pc.checkpoints)
  {
    TracedAlways(steps);
    var log := State(steps).log;
    var pc := log[n].pc;
    var call, j :| call in Begun(steps) && AnsweredAt(call, log[..n], j, log[n].id, pc.txid, pc.checkpoints);
    assert 0 <= j < n;
  }
}
