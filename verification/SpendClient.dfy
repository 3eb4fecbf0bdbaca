/** The spend methods of the client, run against a store and a server (client.rs). */
module SpendClient {
  import opened Wrappers
  import opened Bitcoin
  import opened SpendStore
  import opened SpendProtocol
  import Signing

  // ---- The store and the server, as one world ----

  function SaveReply(saved: Result<(), StoreError>): Reply {
    if saved.Ok? then Written else StoreFailed
  }

  function ChangeReply(changed: Result<bool, StoreError>): Reply {
    if changed.Ok? then Changed(changed.value) else StoreFailed
  }

  function LoadReply(loaded: Result<Option<PendingSpend>, StoreError>): Reply {
    if loaded.Ok? then Loaded(loaded.value) else StoreFailed
  }

  /**
   * Every store and network operation of a call goes through here. An
   * operation can only be made when the protocol asks for it, it leaves an
   * exchange on the trace, and it moves the protocol on by its reply.
   */
  class World {
    const store: Store
    ghost const start: Pc
    ghost const initial: Records
    ghost var pc: Pc
    ghost var trace: seq<Exchange>

    /** What was done so far is a run of the protocol, over this very store. */
    ghost predicate Valid()
      reads this, store
    {
      Follows(start, initial, trace, pc, store.records)
    }

    /** Nothing was done yet. */
    ghost predicate Begins(from: Pc)
      reads this, store
    {
      start == pc == from && initial == store.records && trace == []
    }

    constructor (store: Store, ghost from: Pc)
      ensures this.store == store && Begins(from) && Valid()
    {
      this.store := store;
      start := from;
      initial := store.records;
      pc := from;
      trace := [];
    }

    method LoadRecord(id: Id) returns (r: Result<Option<PendingSpend>, StoreError>)
      requires Valid() && !pc.Done? && Request(pc) == Load(id)
      modifies this
      ensures Valid() && pc == Advance(old(pc), LoadReply(r))
      ensures trace == old(trace) + [Exchange(Load(id), LoadReply(r), store.records)]
      ensures r.Ok? ==> r.value == Lookup(store.records, id)
    {
      r := store.Load(id);
      Note(Exchange(Load(id), LoadReply(r), store.records), store.records);
    }

    method SaveRecord(record: PendingSpend) returns (r: Result<(), StoreError>)
      requires Valid() && !pc.Done? && Request(pc) == Save(record)
      modifies this, store
      ensures Valid() && pc == Advance(old(pc), SaveReply(r))
      ensures trace == old(trace) + [Exchange(Save(record), SaveReply(r), store.records)]
    {
      ghost var before := store.records;
      r := store.Save(record);
      Note(Exchange(Save(record), SaveReply(r), store.records), before);
    }

    method RemoveRecordIf(id: Id, token: string) returns (r: Result<bool, StoreError>)
      requires Valid() && !pc.Done? && Request(pc) == RemoveIf(id, token)
      modifies this, store
      ensures Valid() && pc == Advance(old(pc), ChangeReply(r))
      ensures trace == old(trace) + [Exchange(RemoveIf(id, token), ChangeReply(r), store.records)]
    {
      ghost var before := store.records;
      r := store.RemoveIf(id, token);
      Note(Exchange(RemoveIf(id, token), ChangeReply(r), store.records), before);
    }

    method SaveRecordIf(record: PendingSpend) returns (r: Result<bool, StoreError>)
      requires Valid() && !pc.Done? && Request(pc) == SaveIf(record)
      modifies this, store
      ensures Valid() && pc == Advance(old(pc), ChangeReply(r))
      ensures trace == old(trace) + [Exchange(SaveIf(record), ChangeReply(r), store.records)]
    {
      ghost var before := store.records;
      r := store.SaveIf(record);
      Note(Exchange(SaveIf(record), ChangeReply(r), store.records), before);
    }

    /** Send a request. Any answer at all may come back, or none. */
    method Ask(request: Effect) returns (reply: Reply)
      requires Valid() && !pc.Done? && Request(pc) == request && !IsStoreEffect(request)
      modifies this
      ensures Answers(request, reply)
      ensures Valid() && pc == Advance(old(pc), reply)
      ensures trace == old(trace) + [Exchange(request, reply, store.records)]
    {
      reply := *;
      if !Answers(request, reply) {
        reply := Unanswered;
      }
      Note(Exchange(request, reply, store.records), store.records);
    }

    /** Put an exchange that has just happened on the trace. */
    ghost method Note(exchange: Exchange, before: Records)
      requires Follows(start, initial, trace, pc, before) && !pc.Done?
      requires exchange.effect == Request(pc) && Answers(exchange.effect, exchange.reply)
      requires Plausible(before, exchange.effect, exchange.reply, exchange.after)
      requires exchange.after == store.records
      modifies this
      ensures Valid() && pc == Advance(old(pc), exchange.reply)
      ensures trace == old(trace) + [exchange]
    {
      OneExchange(pc, before, exchange);
      FollowsCompose(start, initial, trace, pc, before, [exchange], Advance(pc, exchange.reply), exchange.after);
      trace := trace + [exchange];
      pc := Advance(pc, exchange.reply);
    }
  }

  lemma OneExchange(pc: Pc, before: Records, exchange: Exchange)
    requires !pc.Done? && exchange.effect == Request(pc) && Answers(exchange.effect, exchange.reply)
    requires Plausible(before, exchange.effect, exchange.reply, exchange.after)
    ensures Follows(pc, before, [exchange], Advance(pc, exchange.reply), exchange.after)
  {
  }

  // ---- Where a result leaves the program ----

  function Finished(r: Result<Txid, Failure>): Pc {
    match r case Ok(txid) => Done(Success(txid)) case Err(failure) => Done(Failed(failure))
  }

  function FinalizeEnds(pending: PendingSpend, unsaved: bool, r: Result<Txid, Failure>): Pc {
    match r case Ok(txid) => Done(Success(txid)) case Err(failure) => GiveUp(pending, unsaved, failure)
  }

  // ---- The methods: each runs the protocol from one point to another ----

  /** Finalize, then mark the record finalized. */
  method FinalizeAndRecord(world: World, pending: PendingSpend, txid: Txid, checkpoints: seq<Psbt>)
    returns (r: Result<Txid, Failure>)
    requires world.Valid() && world.pc.Finalizing?
    requires world.pc == Finalizing(pending, txid, checkpoints, world.pc.unsaved)
    modifies world, world.store
    ensures world.Valid() && old(world.trace) <= world.trace
    ensures world.pc == FinalizeEnds(pending, old(world.pc.unsaved), r)
  {
    var reply := world.Ask(Finalize(txid, checkpoints));
    if reply != Acknowledged {
      return Err(FinalizeFailed);
    }
    var written := world.SaveRecordIf(pending.(stage := Finalized));
    if written.Err? {
      return Err(RecordingFailed);
    }
    return Ok(txid);
  }

  /** Record the server's signatures, finalize, mark the record; if the first
      save and the rest both failed, save once more. */
  method UpgradeAndFinalize(world: World, pending: PendingSpend, txid: Txid, checkpoints: seq<Psbt>)
    returns (r: Result<Txid, Failure>)
    requires world.Valid() && world.pc == Upgrading(pending, txid, checkpoints)
    modifies world, world.store
    ensures world.Valid() && old(world.trace) <= world.trace
    ensures world.pc == Finished(r)
  {
    var saved := world.SaveRecord(pending);
    r := FinalizeAndRecord(world, pending, txid, checkpoints);
    if r.Err? && saved.Err? {
      var _ := world.SaveRecord(pending);
    }
  }

  /** Submit, then carry on with the server's signatures or clear a rejected record. */
  method SubmitAndFinalize(world: World, job: Job, firstAttempt: bool) returns (r: Result<Txid, Failure>)
    requires world.Valid() && world.pc == Sending(job, firstAttempt)
    modifies world, world.store
    ensures world.Valid() && old(world.trace) <= world.trace
    ensures world.pc == Finished(r)
  {
    var reply := world.Ask(Submit(job.arkTx, job.checkpoints));
    var checked := CheckSubmit(job, reply);
    if checked.Err? {
      if firstAttempt && DefinitiveRejection(reply) {
        var cleared := world.RemoveRecordIf(job.pending.id, job.pending.token);
        return Err(if cleared.Err? then ClearingFailed else Rejected(cleared.value));
      }
      return Err(checked.error);
    }
    var (cosigned, returned) := checked.value;
    var txid := job.arkTx.Txid();
    if job.pending.arkTxid != Encoded(txid) {
      return Err(TxidMismatch);
    }
    var merged := Signing.MergeAllCheckpointSigs(returned, job.parties);
    if merged.Err? {
      return Err(MergeFailed);
    }
    r := UpgradeAndFinalize(world, Upgraded(job.pending, cosigned, merged.value), txid, merged.value);
  }

  /** Drive a recorded spend from its persisted stage to completion. */
  method ResumeRecorded(world: World, pending: PendingSpend) returns (r: Result<Txid, Failure>)
    requires world.Valid() && world.pc == FromRecord(pending)
    modifies world, world.store
    ensures world.Valid() && old(world.trace) <= world.trace
    ensures world.pc == Finished(r)
  {
    if pending.arkTxid.Garbled? {
      return Err(BadRecord);
    }
    var txid := pending.arkTxid.value;
    match pending.stage {
      case Finalized =>
        r := Ok(txid);
      case Submitted =>
        if pending.serverSignedArkTx.None? || pending.serverSignedArkTx.value.Garbled? {
          return Err(NoEvidence);
        }
        var evidence := pending.serverSignedArkTx.value.value;
        if evidence.Txid() != txid {
          return Err(EvidenceMismatch);
        }
        if Signing.VerifyServerArkTxSig(evidence, evidence).Err? {
          return Err(EvidenceRefused);
        }
        var decoded := DecodeAll(pending.signedCheckpoints);
        if decoded.None? {
          return Err(BadRecord);
        }
        var spent := CheckAllInputs(evidence, decoded.value);
        if decoded.value == [] || !spent {
          return Err(StrayCheckpoints);
        }
        r := FinalizeAndRecord(world, pending, txid, decoded.value);
      case Submitting =>
        if pending.arkTx.None? || pending.arkTx.value.Garbled? {
          return Err(BadRecord);
        }
        var checkpoints := DecodeAll(pending.unsignedCheckpoints);
        if checkpoints.None? {
          return Err(BadRecord);
        }
        var parties := DecodeParties(pending.partySignedCheckpoints);
        if parties.None? {
          return Err(BadRecord);
        }
        var job := Job(pending, pending.arkTx.value.value, checkpoints.value, parties.value);
        r := SubmitAndFinalize(world, job, false);
    }
  }

  method CheckAllInputs(arkTx: Psbt, checkpoints: seq<Psbt>) returns (all: bool)
    ensures all <==> forall c :: c in checkpoints ==>
                                   exists i :: 0 <= i < |arkTx.tx.inputs|
                                               && arkTx.tx.inputs[i].previousOutput.txid == c.Txid()
    ensures all <==> AllInputs(arkTx, checkpoints)
  {
    for c := 0 to |checkpoints|
      invariant AllInputs(arkTx, checkpoints[..c])
    {
      var found := false;
      for i := 0 to |arkTx.tx.inputs|
        invariant found <==> exists k :: 0 <= k < i && arkTx.tx.inputs[k].previousOutput.txid == checkpoints[c].Txid()
      {
        if arkTx.tx.inputs[i].previousOutput.txid == checkpoints[c].Txid() {
          found := true;
        }
      }
      if !found {
        assert checkpoints[c] in checkpoints;
        return false;
      }
      assert checkpoints[..c + 1] == checkpoints[..c] + [checkpoints[c]];
    }
    assert checkpoints[..|checkpoints|] == checkpoints;
    return true;
  }

  method CheckCheckpoints(checkpoints: seq<Psbt>, parties: seq<seq<Psbt>>) returns (valid: bool)
    ensures valid <==> ValidCheckpoints(checkpoints, parties)
  {
    var expected := |checkpoints|;
    if expected == 0 {
      return false;
    }
    for p := 0 to |parties|
      invariant forall q :: 0 <= q < p ==> |parties[q]| == expected
      invariant forall q, j :: 0 <= q < p && 0 <= j < expected ==> Signing.Mergeable(parties[q][j], checkpoints[j])
    {
      if |parties[p]| != expected {
        return false;
      }
      for j := 0 to expected
        invariant forall k :: 0 <= k < j ==> Signing.Mergeable(parties[p][k], checkpoints[k])
      {
        if parties[p][j].tx != checkpoints[j].tx || |parties[p][j].inputs| != |checkpoints[j].inputs| {
          assert !Signing.Mergeable(parties[p][j], checkpoints[j]);
          return false;
        }
      }
    }
    return true;
  }

  /** Spend, resuming the recorded attempt for `id` if there is one. The
      random attempt token is a parameter. */
  method SpendEscrowOffchain(world: World, id: Id, arkTx: Psbt, checkpoints: seq<Psbt>, parties: seq<seq<Psbt>>,
                             token: string)
    returns (r: Result<Txid, Failure>)
    requires world.Begins(Loading(Spend(id, arkTx, checkpoints, parties, token)))
    modifies world, world.store
    ensures Follows(Loading(Spend(id, arkTx, checkpoints, parties, token)), old(world.store.records),
                    world.trace, Finished(r), world.store.records)
  {
    var loaded := world.LoadRecord(id);
    if loaded.Err? {
      return Err(LoadingFailed);
    }
    if loaded.value.Some? {
      var recorded := loaded.value.value;
      if recorded.arkTxid != Encoded(arkTx.Txid()) {
        return Err(BoundToAnotherTransaction);
      }
      r := ResumeRecorded(world, recorded);
      return;
    }
    var valid := CheckCheckpoints(checkpoints, parties);
    if !valid {
      return Err(InvalidCheckpoints);
    }
    var pending := PendingSpend(id, Encoded(arkTx.Txid()), [], Submitting, token, Some(Encoded(arkTx)),
                                EncodeAll(checkpoints), EncodeParties(parties), None);
    var persisted := world.SaveRecord(pending);
    if persisted.Err? {
      return Err(PersistingFailed);
    }
    r := SubmitAndFinalize(world, Job(pending, arkTx, checkpoints, parties), true);
  }

  function ResumeFinished(r: Result<Option<Txid>, Failure>): Pc {
    match r
    case Ok(None) => Done(NothingRecorded)
    case Ok(Some(txid)) => Done(Success(txid))
    case Err(failure) => Done(Failed(failure))
  }

  /** Resume the recorded spend for `id`, if any. */
  method ResumePendingSpend(world: World, id: Id) returns (r: Result<Option<Txid>, Failure>)
    requires world.Begins(Loading(Resume(id)))
    modifies world, world.store
    ensures Follows(Loading(Resume(id)), old(world.store.records), world.trace, ResumeFinished(r), world.store.records)
  {
    var loaded := world.LoadRecord(id);
    if loaded.Err? {
      return Err(LoadingFailed);
    }
    if loaded.value.None? {
      return Ok(None);
    }
    var resumed := ResumeRecorded(world, loaded.value.value);
    if resumed.Err? {
      return Err(resumed.error);
    }
    return Ok(Some(resumed.value));
  }
}
