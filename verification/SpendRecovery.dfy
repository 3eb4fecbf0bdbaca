/** Recovery from a crash after the submitted stage, and what can strand a spend. */
module SpendRecovery {
  import opened Wrappers
  import opened Bitcoin
  import opened SpendStore
  import opened SpendProtocol
  import opened SpendRuns
  import opened SpendInvariants
  import Signing

  // ---- Resuming picks up where the crash left off ----

  function Evidence(p: PendingSpend): Psbt
    requires HasEvidence(p)
  {
    p.serverSignedArkTx.value.value
  }

  /** Of any record at all at the submitted stage, checkpoint signatures are
      released exactly if its evidence is a co-signed PSBT of the recorded
      transaction and every recorded checkpoint is one of its inputs; and then
      exactly these. */
  lemma SubmittedReleases(r: PendingSpend)
    requires r.stage == Submitted
    ensures FromRecord(r).Finalizing?
            <==> && r.arkTxid.Encoded?
                 && r.serverSignedArkTx.Some? && r.serverSignedArkTx.value.Encoded?
                 && var evidence := r.serverSignedArkTx.value.value;
                    && TxidOf(evidence.tx) == r.arkTxid.value && Signing.Cosigned(evidence)
                    && r.signedCheckpoints != []
                    && forall c :: c in r.signedCheckpoints ==>
                                     && c.Encoded?
                                     && exists i :: && 0 <= i < |evidence.tx.inputs|
                                                    && evidence.tx.inputs[i].previousOutput.txid == c.value.Txid()
    ensures FromRecord(r).Finalizing? ==>
              && FromRecord(r) == Finalizing(r, r.arkTxid.value, FromRecord(r).checkpoints, false)
              && EncodeAll(FromRecord(r).checkpoints) == r.signedCheckpoints
  {
    var decoded := DecodeAll(r.signedCheckpoints);
    if decoded.Some? {
      assert EncodeAll(decoded.value) == r.signedCheckpoints;
      forall c: Psbt
        ensures c in decoded.value <==> Encoded(c) in r.signedCheckpoints
      {
        EncodedIn(decoded.value, c);
      }
    }
  }

  lemma EncodedIn(values: seq<Psbt>, c: Psbt)
    ensures c in values <==> Encoded(c) in EncodeAll(values)
  {
    if c in values {
      var i :| 0 <= i < |values| && values[i] == c;
      assert EncodeAll(values)[i] == Encoded(c);
    }
    if Encoded(c) in EncodeAll(values) {
      var i :| 0 <= i < |values| && EncodeAll(values)[i] == Encoded(c);
    }
  }

  /** Of any record at the submitting stage, the submit is sent again exactly
      if it can be read, and then exactly as recorded, as no first attempt. */
  lemma SubmittingResends(r: PendingSpend)
    requires r.stage == Submitting
    ensures FromRecord(r).Sending?
            <==> && r.arkTxid.Encoded? && r.arkTx.Some? && r.arkTx.value.Encoded?
                 && Garbled !in r.unsignedCheckpoints
                 && forall p :: 0 <= p < |r.partySignedCheckpoints| ==> Garbled !in r.partySignedCheckpoints[p]
    ensures FromRecord(r).Sending? ==>
              var Sending(job, first) := FromRecord(r);
              && !first && job.pending == r && r.arkTx == Some(Encoded(job.arkTx))
              && EncodeAll(job.checkpoints) == r.unsignedCheckpoints
              && EncodeParties(job.parties) == r.partySignedCheckpoints
  {
  }

  /** A submitted record can only be refused on resume for its checkpoints:
      the evidence always passes again. */
  lemma SubmittedResumes(p: PendingSpend, id: Id, txid: Txid, checkpoints: seq<Psbt>)
    requires SubmittedOk(p, id, txid) && DecodeAll(p.signedCheckpoints) == Some(checkpoints)
    ensures FromRecord(p) == if checkpoints != [] && AllInputs(Evidence(p), checkpoints)
                             then Finalizing(p, txid, checkpoints, false)
                             else Done(Failed(StrayCheckpoints))
  {
  }

  /** In any reachable state, a stored submitted record resumes straight into
      finalizing exactly when its checkpoints are inputs of its ark transaction. */
  lemma StoredSubmittedResumes(steps: seq<Step>, id: Id)
    requires Legal(steps) && Untampered(steps)
    requires id in State(steps).records && State(steps).records[id].stage == Submitted
    ensures var p := State(steps).records[id];
            && HasEvidence(p) && DecodeAll(p.signedCheckpoints).Some?
            && var checkpoints := DecodeAll(p.signedCheckpoints).value;
               FromRecord(p) == if checkpoints != [] && AllInputs(Evidence(p), checkpoints)
                                then Finalizing(p, Evidence(p).Txid(), checkpoints, false)
                                else Done(Failed(StrayCheckpoints))
  {
    InvAlways(steps, false);
    var p := State(steps).records[id];
    SubmittedResumes(p, id, Evidence(p).Txid(), DecodeAll(p.signedCheckpoints).value);
  }

  /** A call that goes on after saving its submitted record and a call that
      finds that record after a crash are in the very same state, if and only
      if the checkpoints are inputs of the ark transaction. */
  lemma CrashTransparent(steps: seq<Step>, id: Id)
    requires Legal(steps) && Untampered(steps)
    requires id in State(steps).calls && State(steps).calls[id].pc.Upgrading?
    ensures var pc := State(steps).calls[id].pc;
            && HasEvidence(pc.pending)
            && (Advance(pc, Written) == FromRecord(pc.pending)
                <==> pc.checkpoints != [] && AllInputs(Evidence(pc.pending), pc.checkpoints))
  {
    InvAlways(steps, false);
    var pc := State(steps).calls[id].pc;
    SubmittedResumes(pc.pending, id, pc.txid, pc.checkpoints);
  }

  // ---- An undisturbed resume ----

  predicate Undisturbed(journal: seq<Exchange>) {
    forall i :: 0 <= i < |journal| ==>
                  && journal[i].reply != StoreFailed
                  && (journal[i].effect.Finalize? ==> journal[i].reply == Acknowledged)
  }

  function FinishedRecord(p: PendingSpend): PendingSpend {
    p.(stage := Finalized)
  }

  /** What remains to be done from the submitted stage on: one finalize, one mark. */
  function Remainder(p: PendingSpend, txid: Txid, checkpoints: seq<Psbt>, records: Records): seq<Exchange> {
    [Exchange(Finalize(txid, checkpoints), Acknowledged, records),
     Exchange(SaveIf(FinishedRecord(p)), Changed(true), records[p.id := FinishedRecord(p)])]
  }

  lemma FirstExchange(pc: Pc, before: Records, journal: seq<Exchange>, outcome: Outcome, after: Records)
    requires !pc.Done? && Follows(pc, before, journal, Done(outcome), after) && Undisturbed(journal)
    ensures journal != [] && journal == [journal[0]] + journal[1..]
    ensures journal[0].effect == Request(pc) && Answers(Request(pc), journal[0].reply)
    ensures Plausible(before, Request(pc), journal[0].reply, journal[0].after)
    ensures journal[0].reply != StoreFailed && (Request(pc).Finalize? ==> journal[0].reply == Acknowledged)
    ensures Follows(Advance(pc, journal[0].reply), journal[0].after, journal[1..], Done(outcome), after)
    ensures Undisturbed(journal[1..])
  {
  }

  lemma FinalizingRuns(p: PendingSpend, txid: Txid, checkpoints: seq<Psbt>, before: Records, journal: seq<Exchange>,
                       outcome: Outcome, after: Records)
    requires p.id in before && before[p.id] == p
    requires Follows(Finalizing(p, txid, checkpoints, false), before, journal, Done(outcome), after)
    requires Undisturbed(journal)
    ensures journal == Remainder(p, txid, checkpoints, before)
    ensures outcome == Success(txid) && after == before[p.id := FinishedRecord(p)]
  {
    FirstExchange(Finalizing(p, txid, checkpoints, false), before, journal, outcome, after);
    FirstExchange(Marking(p, txid, false), before, journal[1..], outcome, after);
    assert journal[1..][1..] == [];
  }

  /** A resume by id, or a spend of the very transaction that is recorded. */
  predicate Retries(call: Call, id: Id, txid: Txid) {
    call.id == id && (call.Spend? ==> TxidOf(call.arkTx.tx) == txid)
  }

  lemma NextExchange(pc: Pc, before: Records, journal: seq<Exchange>, outcome: Outcome, after: Records)
    requires !pc.Done? && Follows(pc, before, journal, Done(outcome), after)
    ensures journal != [] && journal[0].effect == Request(pc) && Answers(Request(pc), journal[0].reply)
    ensures Follows(Advance(pc, journal[0].reply), journal[0].after, journal[1..], Done(outcome), after)
  {
  }

  lemma Ended(outcome: Outcome, before: Records, journal: seq<Exchange>, end: Outcome, after: Records)
    requires Follows(Done(outcome), before, journal, Done(end), after)
    ensures journal == [] && outcome == end
  {
  }

  lemma RescueEnds(p: PendingSpend, failure: Failure, before: Records, journal: seq<Exchange>, outcome: Outcome,
                   after: Records)
    requires Follows(Rescuing(p, failure), before, journal, Done(outcome), after)
    ensures |journal| == 1 && journal[0].effect == Save(p)
  {
    NextExchange(Rescuing(p, failure), before, journal, outcome, after);
    Ended(Failed(failure), journal[0].after, journal[1..], outcome, after);
    assert |journal| == 1 + |journal[1..]|;
  }

  /** If the submitted record could not be saved, a call that does not succeed
      ends with one more attempt to save just that record. */
  lemma RescueAttempted(p: PendingSpend, txid: Txid, checkpoints: seq<Psbt>, before: Records, journal: seq<Exchange>,
                        outcome: Outcome, after: Records)
    requires Follows(Upgrading(p, txid, checkpoints), before, journal, Done(outcome), after)
    requires journal[0].reply == StoreFailed
    ensures outcome == Success(txid) || (|journal| > 2 && journal[|journal| - 1].effect == Save(p))
  {
    var rest := journal[1..];
    NextExchange(Upgrading(p, txid, checkpoints), before, journal, outcome, after);
    NextExchange(Finalizing(p, txid, checkpoints, true), journal[0].after, rest, outcome, after);
    var last := rest[1..];
    assert |journal| == 2 + |last| && (last != [] ==> journal[|journal| - 1] == last[|last| - 1]);
    if rest[0].reply != Acknowledged {
      RescueEnds(p, FinalizeFailed, rest[0].after, last, outcome, after);
    } else {
      NextExchange(Marking(p, txid, true), rest[0].after, last, outcome, after);
      if last[0].reply == StoreFailed {
        RescueEnds(p, RecordingFailed, last[0].after, last[1..], outcome, after);
        assert last[|last| - 1] == last[1..][0];
      } else {
        Ended(Success(txid), last[0].after, last[1..], outcome, after);
      }
    }
  }

  /** Once the server has acknowledged a finalize, the call succeeds with that
      txid, whether or not the record still was its own to mark, unless the
      store fails; and it sends nothing more. */
  lemma AcknowledgedSucceeds(p: PendingSpend, txid: Txid, checkpoints: seq<Psbt>, unsaved: bool, before: Records,
                             journal: seq<Exchange>, outcome: Outcome, after: Records)
    requires Follows(Finalizing(p, txid, checkpoints, unsaved), before, journal, Done(outcome), after)
    requires journal[0].reply == Acknowledged
    ensures |journal| >= 2 && journal[1].effect == SaveIf(FinishedRecord(p))
    ensures outcome == Success(txid) <==> journal[1].reply != StoreFailed
    ensures outcome == Success(txid) ==> |journal| == 2
    ensures forall i :: 0 < i < |journal| ==> IsStoreEffect(journal[i].effect)
  {
    var marking := journal[1..];
    assert Follows(Marking(p, txid, unsaved), journal[0].after, marking, Done(outcome), after);
    assert marking != [] && marking[0] == journal[1];
    var rest := marking[1..];
    assert Follows(Advance(Marking(p, txid, unsaved), marking[0].reply), marking[0].after, rest, Done(outcome), after);
    if rest != [] {
      assert rest[0] == journal[2];
      assert Follows(Done(Failed(RecordingFailed)), rest[0].after, rest[1..], Done(outcome), after);
      assert rest[1..] == [];
    }
  }

  /** A first attempt that the server turns down leaves no record behind, if the store works. */
  lemma TurnedDownIsCleared(job: Job, before: Records, journal: seq<Exchange>, outcome: Outcome, after: Records)
    requires Lookup(before, job.pending.id) == Some(job.pending)
    requires Follows(Sending(job, true), before, journal, Done(outcome), after)
    requires TurnsDown(journal[0].reply) && forall i :: 0 <= i < |journal| ==> journal[i].reply != StoreFailed
    ensures |journal| == 2 && outcome == Failed(Rejected(true)) && after == before - {job.pending.id}
  {
    var clearing := journal[1..];
    assert Follows(Clearing(job.pending), journal[0].after, clearing, Done(outcome), after);
    assert clearing != [] && clearing[0] == journal[1];
    assert Follows(Done(Failed(Rejected(true))), clearing[0].after, clearing[1..], Done(outcome), after);
    assert clearing[1..] == [];
  }

  lemma ResumedRun(call: Call, p: PendingSpend, txid: Txid, checkpoints: seq<Psbt>, before: Records,
                   journal: seq<Exchange>, outcome: Outcome, after: Records)
    requires p.id in before && before[p.id] == p && FromRecord(p) == Finalizing(p, txid, checkpoints, false)
    requires Retries(call, p.id, txid) && p.arkTxid == Encoded(txid)
    requires Follows(Loading(call), before, journal, Done(outcome), after) && Undisturbed(journal)
    ensures journal == [Exchange(Load(p.id), Loaded(Some(p)), before)] + Remainder(p, txid, checkpoints, before)
    ensures outcome == Success(txid) && after == before[p.id := FinishedRecord(p)]
  {
    FirstExchange(Loading(call), before, journal, outcome, after);
    FinalizingRuns(p, txid, checkpoints, before, journal[1..], outcome, after);
  }

  /** From a resumable submitted record, every undisturbed resume sends no
      submit and exactly one finalize, with the txid and the checkpoints of the
      uncrashed call, and ends with the same finalized record. */
  lemma UndisturbedResume(steps: seq<Step>, call: Call, id: Id, journal: seq<Exchange>, outcome: Outcome,
                          after: Records)
    requires Legal(steps) && Untampered(steps)
    requires id in State(steps).records && State(steps).records[id].stage == Submitted
    requires FromRecord(State(steps).records[id]).Finalizing?
    requires Retries(call, id, FromRecord(State(steps).records[id]).txid)
    requires Follows(Loading(call), State(steps).records, journal, Done(outcome), after) && Undisturbed(journal)
    ensures var records := State(steps).records;
            var p := records[id];
            && HasEvidence(p) && DecodeAll(p.signedCheckpoints).Some?
            && var txid, checkpoints := Evidence(p).Txid(), DecodeAll(p.signedCheckpoints).value;
               && journal == [Exchange(Load(id), Loaded(Some(p)), records)] + Remainder(p, txid, checkpoints, records)
               && outcome == Success(txid)
               && after == records[id := FinishedRecord(p)]
  {
    var records := State(steps).records;
    StoredSubmittedResumes(steps, id);
    InvAlways(steps, false);
    var p := records[id];
    var txid, checkpoints := Evidence(p).Txid(), DecodeAll(p.signedCheckpoints).value;
    ResumedRun(call, p, txid, checkpoints, records, journal, outcome, after);
  }

  /** The uncrashed call does the same from there. */
  lemma UncrashedRun(steps: seq<Step>, id: Id, journal: seq<Exchange>, outcome: Outcome, after: Records)
    requires Legal(steps) && Untampered(steps)
    requires id in State(steps).calls && State(steps).calls[id].pc.Upgrading?
    requires Follows(State(steps).calls[id].pc, State(steps).records, journal, Done(outcome), after)
    requires Undisturbed(journal)
    ensures var pc := State(steps).calls[id].pc;
            var saved := State(steps).records[id := pc.pending];
            && journal == [Exchange(Save(pc.pending), Written, saved)]
                          + Remainder(pc.pending, pc.txid, pc.checkpoints, saved)
            && outcome == Success(pc.txid)
            && after == saved[id := FinishedRecord(pc.pending)]
  {
    InvAlways(steps, false);
    var pc := State(steps).calls[id].pc;
    var saved := State(steps).records[id := pc.pending];
    FirstExchange(pc, State(steps).records, journal, outcome, after);
    FinalizingRuns(pc.pending, pc.txid, pc.checkpoints, saved, journal[1..], outcome, after);
  }

  /** Whether or not the client crashes right after saving its submitted
      record: the finalize that is sent, the final record and the result are
      the same. */
  lemma CrashChangesNothing(steps: seq<Step>, id: Id, retry: Call, uncrashed: seq<Exchange>, outcome: Outcome,
                            after: Records, resumed: seq<Exchange>, outcome': Outcome, after': Records)
    requires Legal(steps) && Untampered(steps)
    requires id in State(steps).calls && State(steps).calls[id].pc.Upgrading?
    requires var pc := State(steps).calls[id].pc; Advance(pc, Written) == FromRecord(pc.pending)
    requires Follows(State(steps).calls[id].pc, State(steps).records, uncrashed, Done(outcome), after)
    requires var saved := State(steps).records[id := State(steps).calls[id].pc.pending];
             Follows(Loading(retry), saved, resumed, Done(outcome'), after')
    requires Retries(retry, id, State(steps).calls[id].pc.txid)
    requires Undisturbed(uncrashed) && Undisturbed(resumed)
    ensures |resumed| == |uncrashed| == 3
    ensures uncrashed[0].effect.Save? && resumed[0].effect == Load(id)
    ensures resumed[1..] == uncrashed[1..] && resumed[1].effect.Finalize?
    ensures outcome' == outcome && after' == after
  {
    var pc := State(steps).calls[id].pc;
    var saved := State(steps).records[id := pc.pending];
    UpgradingIsOwn(steps, id);
    UncrashedRun(steps, id, uncrashed, outcome, after);
    ResumedRun(retry, pc.pending, pc.txid, pc.checkpoints, saved, resumed, outcome', after');
    SameTail(Exchange(Save(pc.pending), Written, saved), Exchange(Load(id), Loaded(Some(pc.pending)), saved),
             Remainder(pc.pending, pc.txid, pc.checkpoints, saved));
  }

  lemma UpgradingIsOwn(steps: seq<Step>, id: Id)
    requires Legal(steps) && Untampered(steps)
    requires id in State(steps).calls && State(steps).calls[id].pc.Upgrading?
    ensures var pc := State(steps).calls[id].pc; pc.pending.id == id && pc.pending.arkTxid == Encoded(pc.txid)
  {
    InvAlways(steps, false);
  }

  lemma SameTail(a: Exchange, b: Exchange, rest: seq<Exchange>)
    ensures ([a] + rest)[1..] == rest && ([b] + rest)[1..] == rest
  {
  }

  // ---- When an accepted submit is recorded ----

  lemma {:induction false} WitnessScriptsDefined(checkpoints: seq<Psbt>)
    ensures WitnessScripts(checkpoints).Some? <==> forall i :: 0 <= i < |checkpoints| ==> checkpoints[i].inputs != []
    ensures WitnessScripts(checkpoints).Some? ==>
              forall txid :: txid in WitnessScripts(checkpoints).value
                             <==> exists i :: 0 <= i < |checkpoints| && checkpoints[i].Txid() == txid
    decreases |checkpoints|
  {
    if checkpoints != [] {
      var front := checkpoints[..|checkpoints| - 1];
      WitnessScriptsDefined(front);
      assert forall i :: 0 <= i < |front| ==> front[i] == checkpoints[i];
    }
  }

  lemma {:induction false} RestoreDefined(returned: seq<Psbt>, scripts: map<Txid, Option<Script>>)
    ensures RestoreScripts(returned, scripts).Some?
            <==> forall i :: 0 <= i < |returned| && returned[i].Txid() in scripts ==> returned[i].inputs != []
    decreases |returned|
  {
    if returned != [] {
      RestoreDefined(returned[1..], scripts);
      assert forall i :: 0 < i < |returned| ==> returned[i] == returned[1..][i - 1];
    }
  }

  lemma {:induction false} WitnessScriptOf(checkpoints: seq<Psbt>, k: nat)
    requires WitnessScripts(checkpoints).Some? && k < |checkpoints|
    requires forall m :: k < m < |checkpoints| ==> checkpoints[m].Txid() != checkpoints[k].Txid()
    ensures var scripts := WitnessScripts(checkpoints).value;
            && checkpoints[k].inputs != [] && checkpoints[k].Txid() in scripts
            && scripts[checkpoints[k].Txid()] == checkpoints[k].inputs[0].witnessScript
    decreases |checkpoints|
  {
    if k < |checkpoints| - 1 {
      WitnessScriptOf(checkpoints[..|checkpoints| - 1], k);
    }
  }

  /** `psbt` with another witness script on input 0. */
  function WithWitnessScript(psbt: Psbt, script: Option<Script>): Psbt
    requires psbt.inputs != []
  {
    psbt.(inputs := psbt.inputs[0 := psbt.inputs[0].(witnessScript := script)])
  }

  lemma {:induction false} RestoredAt(returned: seq<Psbt>, scripts: map<Txid, Option<Script>>, i: nat)
    requires RestoreScripts(returned, scripts).Some? && i < |returned|
    ensures var restored := RestoreScripts(returned, scripts).value[i];
            if returned[i].Txid() in scripts
            then returned[i].inputs != [] && restored == WithWitnessScript(returned[i], scripts[returned[i].Txid()])
            else restored == returned[i]
    decreases |returned|
  {
    if i > 0 {
      RestoredAt(returned[1..], scripts, i - 1);
    }
  }

  /** The witness script of every submitted checkpoint comes back, in whatever
      order the server returned them and whatever it made of the script; any
      other checkpoint it returned is left alone. */
  lemma ScriptsComeBack(checkpoints: seq<Psbt>, returned: seq<Psbt>, i: nat)
    requires WitnessScripts(checkpoints).Some? && i < |returned|
    requires RestoreScripts(returned, WitnessScripts(checkpoints).value).Some?
    ensures var restored := RestoreScripts(returned, WitnessScripts(checkpoints).value).value;
            && (forall k :: && 0 <= k < |checkpoints| && checkpoints[k].Txid() == returned[i].Txid()
                            && (forall m :: k < m < |checkpoints| ==> checkpoints[m].Txid() != returned[i].Txid())
                            ==> && returned[i].inputs != [] && checkpoints[k].inputs != []
                                && restored[i]
                                   == WithWitnessScript(returned[i], checkpoints[k].inputs[0].witnessScript))
            && ((forall k :: 0 <= k < |checkpoints| ==> checkpoints[k].Txid() != returned[i].Txid())
                ==> restored[i] == returned[i])
  {
    WitnessScriptsDefined(checkpoints);
    RestoredAt(returned, WitnessScripts(checkpoints).value, i);
    forall k | && 0 <= k < |checkpoints| && checkpoints[k].Txid() == returned[i].Txid()
               && (forall m :: k < m < |checkpoints| ==> checkpoints[m].Txid() != returned[i].Txid())
      ensures checkpoints[k].inputs != []
      ensures WitnessScripts(checkpoints).value[returned[i].Txid()] == checkpoints[k].inputs[0].witnessScript
    {
      WitnessScriptOf(checkpoints, k);
    }
  }

  /** The server returned checkpoints the parties' signatures fit on. */
  predicate FitsParties(returned: seq<Psbt>, parties: seq<seq<Psbt>>) {
    forall i :: 0 <= i < |returned| ==> Signing.Fits(returned[i], parties, i, |returned|)
  }

  /** No lookup of an input 0 goes out of range. */
  predicate HaveInputs(job: Job, returned: seq<Psbt>) {
    && (forall c :: c in job.checkpoints ==> c.inputs != [])
    && (forall r, c :: r in returned && c in job.checkpoints && r.Txid() == c.Txid() ==> r.inputs != [])
  }

  lemma FitsAfterRestore(returned: seq<Psbt>, restored: seq<Psbt>, parties: seq<seq<Psbt>>)
    requires |returned| == |restored|
    requires forall i :: 0 <= i < |returned| ==> Signing.Mergeable(restored[i], returned[i])
    ensures FitsParties(returned, parties) <==> FitsParties(restored, parties)
  {
  }

  /** Putting witness scripts back runs into no missing input exactly if there is none. */
  lemma RestoringDefined(job: Job, returned: seq<Psbt>)
    ensures && WitnessScripts(job.checkpoints).Some?
            && RestoreScripts(returned, WitnessScripts(job.checkpoints).value).Some?
            <==> HaveInputs(job, returned)
  {
    WitnessScriptsDefined(job.checkpoints);
    if WitnessScripts(job.checkpoints).Some? {
      RestoreDefined(returned, WitnessScripts(job.checkpoints).value);
    }
  }

  /** The client's checks before sending do not make sure that an accepted,
      properly co-signed submit is recorded as submitted. It is exactly if no
      checkpoint lacks inputs and the returned checkpoints fit the parties'. */
  lemma AcceptedSubmitRecorded(job: Job, first: bool, reply: Reply, id: Id)
    requires JobOk(job, id) && reply.Accepted? && Signing.VerifyServerArkTxSig(job.arkTx, reply.arkTx).Ok?
    ensures AfterSubmit(job, first, reply).Upgrading?
            <==> HaveInputs(job, reply.checkpoints) && FitsParties(reply.checkpoints, job.parties)
  {
    RestoringDefined(job, reply.checkpoints);
    if CheckSubmit(job, reply).Ok? {
      var restored := CheckSubmit(job, reply).value.1;
      FitsAfterRestore(reply.checkpoints, restored, job.parties);
      Signing.MergeFromMerges(restored, job.parties, 0);
    }
  }

  /** Arguments that pass the checks although the call panics once the server has accepted. */
  lemma ChecksMissEmptyCheckpoint(checkpoint: Psbt, job: Job, reply: Reply)
    requires checkpoint.inputs == [] && job.checkpoints == [checkpoint] && job.parties == []
    requires reply.Accepted? && Signing.VerifyServerArkTxSig(job.arkTx, reply.arkTx).Ok?
    ensures ValidCheckpoints(job.checkpoints, job.parties)
    ensures AfterSubmit(job, true, reply) == Done(Failed(Panicked))
  {
  }

  /** Checkpoints that merge with a valid party's are the submitted ones, in order. */
  lemma ReturnedAreSubmitted(restored: seq<Psbt>, merged: seq<Psbt>, checkpoints: seq<Psbt>, parties: seq<seq<Psbt>>)
    requires ValidCheckpoints(checkpoints, parties) && parties != [] && restored != []
    requires Signing.MergeAllCheckpointSigs(restored, parties) == Ok(merged)
    ensures |merged| == |checkpoints|
    ensures forall k :: 0 <= k < |merged| ==> merged[k].tx == checkpoints[k].tx
  {
    Signing.MergeFromMerges(restored, parties, 0);
    assert Signing.Fits(restored[0], parties, 0, |restored|);
    assert |parties[0]| == |restored| == |checkpoints|;
    forall k | 0 <= k < |merged|
      ensures merged[k].tx == checkpoints[k].tx
    {
      assert Signing.Fits(restored[k], parties, k, |restored|);
      assert Signing.Mergeable(restored[k], parties[0][k]);
      assert Signing.Mergeable(parties[0][k], checkpoints[k]);
    }
  }

  lemma InputsCarryOver(arkTx: Psbt, other: Psbt, checkpoints: seq<Psbt>, merged: seq<Psbt>)
    requires AllInputs(arkTx, checkpoints) && other.tx == arkTx.tx
    requires |merged| == |checkpoints| && forall k :: 0 <= k < |merged| ==> merged[k].tx == checkpoints[k].tx
    ensures AllInputs(other, merged)
  {
    forall c | c in merged
      ensures exists i :: 0 <= i < |other.tx.inputs| && other.tx.inputs[i].previousOutput.txid == c.Txid()
    {
      var k :| 0 <= k < |merged| && merged[k] == c;
      assert checkpoints[k] in checkpoints && checkpoints[k].Txid() == c.Txid();
    }
  }

  /** With a signing party, and checkpoints that are inputs of the ark
      transaction, everything hangs on the server: unless it returns no
      checkpoint at all, what is recorded can be resumed. */
  lemma RecordedCanResume(job: Job, first: bool, reply: Reply, id: Id)
    requires JobOk(job, id) && Answers(Submit(job.arkTx, job.checkpoints), reply)
    requires ValidCheckpoints(job.checkpoints, job.parties) && job.parties != []
    requires AllInputs(job.arkTx, job.checkpoints)
    requires AfterSubmit(job, first, reply).Upgrading?
    ensures FromRecord(AfterSubmit(job, first, reply).pending).Finalizing? <==> reply.checkpoints != []
  {
    var next := AfterSubmit(job, first, reply);
    UpgradeOk(job, first, reply, id);
    SubmittedResumes(next.pending, id, next.txid, next.checkpoints);
    Signing.CosignatureSound(job.arkTx, reply.arkTx);
    var restored := CheckSubmit(job, reply).value.1;
    Signing.MergeFromMerges(restored, job.parties, 0);
    if reply.checkpoints != [] {
      ReturnedAreSubmitted(restored, next.checkpoints, job.checkpoints, job.parties);
      InputsCarryOver(job.arkTx, Evidence(next.pending), job.checkpoints, next.checkpoints);
    }
  }

  /** An answer with no checkpoints is recorded, and finalized with none, but
      its record can never be resumed. */
  lemma EmptyAnswerStrands(job: Job, first: bool, arkTx: Psbt, id: Id)
    requires JobOk(job, id) && Signing.VerifyServerArkTxSig(job.arkTx, arkTx).Ok?
    requires forall c :: c in job.checkpoints ==> c.inputs != []
    ensures var next := AfterSubmit(job, first, Accepted(arkTx, []));
            && next.Upgrading? && next.checkpoints == []
            && FromRecord(next.pending) == Done(Failed(StrayCheckpoints))
  {
    var reply := Accepted(arkTx, []);
    AcceptedSubmitRecorded(job, first, reply, id);
    UpgradeOk(job, first, reply, id);
    var next := AfterSubmit(job, first, reply);
    SubmittedResumes(next.pending, id, next.txid, next.checkpoints);
  }
}
