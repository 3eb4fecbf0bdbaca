/**
 * The two-phase spend as a program over its effects (client.rs): every store
 * or network call is an effect it requests, and what it does next depends on
 * the reply alone. A crash is a program that is never resumed.
 */
module SpendProtocol {
  import opened Wrappers
  import opened Bitcoin
  import opened SpendStore
  import Signing

  // ---- Effects and replies ----

  datatype Code = InvalidArgument | FailedPrecondition | PermissionDenied | Unauthenticated | OtherCode(code: nat)

  /** A gRPC status; `duplicate` when its message reports a duplicated offchain tx. */
  datatype Status = Status(code: Code, duplicate: bool)

  datatype Effect =
    | Load(id: Id)
    | Save(record: PendingSpend)
    | RemoveIf(id: Id, token: string)
    | SaveIf(record: PendingSpend)
    | Submit(arkTx: Psbt, checkpoints: seq<Psbt>)
    | Finalize(txid: Txid, checkpoints: seq<Psbt>)

  datatype Reply =
    | Loaded(found: Option<PendingSpend>)
    | Written
    | Changed(matched: bool)
    | StoreFailed
    | Accepted(arkTx: Psbt, checkpoints: seq<Psbt>)
    | Refused(status: Status)
    | Acknowledged
    | Unanswered

  predicate IsStoreEffect(effect: Effect) {
    !effect.Submit? && !effect.Finalize?
  }

  predicate Answers(effect: Effect, reply: Reply) {
    match effect
    case Load(_) => reply.Loaded? || reply == StoreFailed
    case Save(_) => reply == Written || reply == StoreFailed
    case RemoveIf(_, _) => reply.Changed? || reply == StoreFailed
    case SaveIf(_) => reply.Changed? || reply == StoreFailed
    case Submit(_, _) => reply.Accepted? || reply.Refused? || reply == Unanswered
    case Finalize(_, _) => reply == Acknowledged || reply.Refused? || reply == Unanswered
  }

  /** The records a store effect may leave behind, given its reply. A failed
      write may or may not have taken effect. */
  predicate Plausible(before: Records, effect: Effect, reply: Reply, after: Records) {
    match effect
    case Load(id) =>
      after == before && (reply == StoreFailed || reply == Loaded(Lookup(before, id)))
    case Save(record) =>
      var written := before[record.id := record];
      (reply == Written && after == written) || (reply == StoreFailed && (after == before || after == written))
    case RemoveIf(id, token) =>
      var hit := id in before && TokenMatches(before[id], token);
      var removed := if hit then before - {id} else before;
      (reply == Changed(hit) && after == removed) || (reply == StoreFailed && (after == before || after == removed))
    case SaveIf(record) =>
      var hit := record.id in before && TokenMatches(before[record.id], record.token);
      var written := if hit then before[record.id := record] else before;
      (reply == Changed(hit) && after == written) || (reply == StoreFailed && (after == before || after == written))
    case Submit(_, _) =>
      after == before && Answers(effect, reply)
    case Finalize(_, _) =>
      after == before && Answers(effect, reply)
  }

  /** A status that proves the server turned the request down without acting on it. */
  predicate DefinitiveRejection(reply: Reply) {
    && reply.Refused?
    && !reply.status.code.OtherCode?
    && !reply.status.duplicate
  }

  // ---- Calls, and what becomes of them ----

  datatype Call =
    | Spend(id: Id, arkTx: Psbt, checkpoints: seq<Psbt>, parties: seq<seq<Psbt>>, token: string)
    | Resume(id: Id)

  datatype Failure =
    | LoadingFailed
    | BoundToAnotherTransaction
    | InvalidCheckpoints
    | PersistingFailed
    | BadRecord
    | NoEvidence
    | EvidenceMismatch
    | EvidenceRefused
    | StrayCheckpoints
    | SubmitFailed
    | ClearingFailed
    | Rejected(cleared: bool)
    | NotCosigned
    | Panicked
    | TxidMismatch
    | MergeFailed
    | FinalizeFailed
    | RecordingFailed

  datatype Outcome = Success(txid: Txid) | NothingRecorded | Failed(failure: Failure)

  /** What a submit needs, next to the record it was persisted in. */
  datatype Job = Job(pending: PendingSpend, arkTx: Psbt, checkpoints: seq<Psbt>, parties: seq<seq<Psbt>>)

  datatype Pc =
    | Loading(call: Call)
    | Persisting(job: Job)
    | Sending(job: Job, first: bool)
    | Clearing(pending: PendingSpend)
    | Upgrading(pending: PendingSpend, txid: Txid, checkpoints: seq<Psbt>)
    | Finalizing(pending: PendingSpend, txid: Txid, checkpoints: seq<Psbt>, unsaved: bool)
    | Marking(pending: PendingSpend, txid: Txid, unsaved: bool)
    | Rescuing(pending: PendingSpend, failure: Failure)
    | Done(outcome: Outcome)

  function Request(pc: Pc): Effect
    requires !pc.Done?
  {
    match pc
    case Loading(call) => Load(call.id)
    case Persisting(job) => Save(job.pending)
    case Sending(job, _) => Submit(job.arkTx, job.checkpoints)
    case Clearing(pending) => RemoveIf(pending.id, pending.token)
    case Upgrading(pending, _, _) => Save(pending)
    case Finalizing(_, txid, checkpoints, _) => Finalize(txid, checkpoints)
    case Marking(pending, _, _) => SaveIf(pending.(stage := Finalized))
    case Rescuing(pending, _) => Save(pending)
  }

  function Advance(pc: Pc, reply: Reply): Pc
    requires !pc.Done? && Answers(Request(pc), reply)
  {
    match pc
    case Loading(call) =>
      if reply == StoreFailed then Done(Failed(LoadingFailed)) else AfterLoad(call, reply.found)
    case Persisting(job) =>
      if reply == Written then Sending(job, true) else Done(Failed(PersistingFailed))
    case Sending(job, first) =>
      AfterSubmit(job, first, reply)
    case Clearing(pending) =>
      Done(Failed(if reply == StoreFailed then ClearingFailed else Rejected(reply.matched)))
    case Upgrading(pending, txid, checkpoints) =>
      Finalizing(pending, txid, checkpoints, reply != Written)
    case Finalizing(pending, txid, _, unsaved) =>
      if reply == Acknowledged then Marking(pending, txid, unsaved) else GiveUp(pending, unsaved, FinalizeFailed)
    case Marking(pending, txid, unsaved) =>
      if reply == StoreFailed then GiveUp(pending, unsaved, RecordingFailed) else Done(Success(txid))
    case Rescuing(_, failure) =>
      Done(Failed(failure))
  }

  /** A failure after the submitted stage could not be saved gets one more save. */
  function GiveUp(pending: PendingSpend, unsaved: bool, failure: Failure): Pc {
    if unsaved then Rescuing(pending, failure) else Done(Failed(failure))
  }

  // ---- Starting a spend ----

  predicate ValidCheckpoints(checkpoints: seq<Psbt>, parties: seq<seq<Psbt>>) {
    && |checkpoints| > 0
    && (forall p :: 0 <= p < |parties| ==> |parties[p]| == |checkpoints|)
    && (forall p, j :: 0 <= p < |parties| && 0 <= j < |checkpoints| ==>
                         Signing.Mergeable(parties[p][j], checkpoints[j]))
  }

  function EncodeParties(parties: seq<seq<Psbt>>): (r: seq<seq<Encoded<Psbt>>>)
    ensures |r| == |parties|
    ensures forall p :: 0 <= p < |r| ==> r[p] == EncodeAll(parties[p])
  {
    seq(|parties|, p requires 0 <= p < |parties| => EncodeAll(parties[p]))
  }

  function DecodeParties(parties: seq<seq<Encoded<Psbt>>>): (r: Option<seq<seq<Psbt>>>)
    ensures r.Some? ==> EncodeParties(r.value) == parties
    ensures r.None? <==> exists p :: 0 <= p < |parties| && DecodeAll(parties[p]).None?
  {
    if parties == [] then Some([])
    else
      match DecodeAll(parties[0])
      case None => None
      case Some(first) =>
        match DecodeParties(parties[1..])
        case None => None
        case Some(rest) => Some([first] + rest)
  }

  function NewRecord(call: Call): PendingSpend
    requires call.Spend?
  {
    PendingSpend(call.id, Encoded(call.arkTx.Txid()), [], Submitting, call.token, Some(Encoded(call.arkTx)),
                 EncodeAll(call.checkpoints), EncodeParties(call.parties), None)
  }

  function AfterLoad(call: Call, found: Option<PendingSpend>): Pc {
    match call
    case Resume(_) =>
      if found.None? then Done(NothingRecorded) else FromRecord(found.value)
    case Spend(id, arkTx, checkpoints, parties, token) =>
      if found.Some? then
        if found.value.arkTxid != Encoded(arkTx.Txid()) then Done(Failed(BoundToAnotherTransaction))
        else FromRecord(found.value)
      else if !ValidCheckpoints(checkpoints, parties) then
        Done(Failed(InvalidCheckpoints))
      else
        Persisting(Job(NewRecord(call), arkTx, checkpoints, parties))
  }

  // ---- Resuming a record ----

  /** Every checkpoint is spent by the ark transaction. */
  predicate AllInputs(arkTx: Psbt, checkpoints: seq<Psbt>) {
    forall c :: c in checkpoints ==>
                  exists i :: 0 <= i < |arkTx.tx.inputs| && arkTx.tx.inputs[i].previousOutput.txid == c.Txid()
  }

  function FromRecord(record: PendingSpend): Pc {
    if record.arkTxid.Garbled? then
      Done(Failed(BadRecord))
    else
      match record.stage
      case Finalized => Done(Success(record.arkTxid.value))
      case Submitted => FromSubmitted(record, record.arkTxid.value)
      case Submitting => FromSubmitting(record)
  }

  function FromSubmitted(record: PendingSpend, txid: Txid): Pc {
    match record.serverSignedArkTx
    case None => Done(Failed(NoEvidence))
    case Some(Garbled) => Done(Failed(NoEvidence))
    case Some(Encoded(evidence)) =>
      if evidence.Txid() != txid then Done(Failed(EvidenceMismatch))
      else if !Signing.Cosigned(evidence) then Done(Failed(EvidenceRefused))
      else
        match DecodeAll(record.signedCheckpoints)
        case None => Done(Failed(BadRecord))
        case Some(checkpoints) =>
          if checkpoints == [] || !AllInputs(evidence, checkpoints) then Done(Failed(StrayCheckpoints))
          else Finalizing(record, txid, checkpoints, false)
  }

  function FromSubmitting(record: PendingSpend): Pc {
    match record.arkTx
    case None => Done(Failed(BadRecord))
    case Some(Garbled) => Done(Failed(BadRecord))
    case Some(Encoded(arkTx)) =>
      match DecodeAll(record.unsignedCheckpoints)
      case None => Done(Failed(BadRecord))
      case Some(checkpoints) =>
        match DecodeParties(record.partySignedCheckpoints)
        case None => Done(Failed(BadRecord))
        case Some(parties) => Sending(Job(record, arkTx, checkpoints, parties), false)
  }

  // ---- The answer to a submit ----

  /** Witness scripts by checkpoint txid; looking one up needs an input 0. */
  function WitnessScripts(checkpoints: seq<Psbt>): Option<map<Txid, Option<Script>>> {
    if checkpoints == [] then
      Some(map[])
    else
      var last := checkpoints[|checkpoints| - 1];
      match WitnessScripts(checkpoints[..|checkpoints| - 1])
      case None => None
      case Some(scripts) =>
        if last.inputs == [] then None else Some(scripts[last.Txid() := last.inputs[0].witnessScript])
  }

  /** Put back the witness scripts the server may have stripped; `None` is an
      out-of-range panic on a checkpoint without inputs. */
  function RestoreScripts(returned: seq<Psbt>, scripts: map<Txid, Option<Script>>): (r: Option<seq<Psbt>>)
    ensures r.Some? ==> |r.value| == |returned|
    ensures r.Some? ==> forall i :: 0 <= i < |returned| ==> Signing.Mergeable(r.value[i], returned[i])
  {
    if returned == [] then
      Some([])
    else
      match RestoreScripts(returned[1..], scripts)
      case None => None
      case Some(rest) =>
        var first := returned[0];
        if first.Txid() !in scripts then Some([first] + rest)
        else if first.inputs == [] then None
        else
          var input := first.inputs[0].(witnessScript := scripts[first.Txid()]);
          Some([first.(inputs := first.inputs[0 := input])] + rest)
  }

  /** The record once the server's signatures are in hand. */
  function Upgraded(pending: PendingSpend, cosigned: Psbt, checkpoints: seq<Psbt>): PendingSpend {
    pending.(stage := Submitted,
             signedCheckpoints := EncodeAll(checkpoints),
             serverSignedArkTx := Some(Encoded(cosigned)),
             arkTx := None,
             unsignedCheckpoints := [],
             partySignedCheckpoints := [])
  }

  /** What `submit_internal` makes of a reply: the co-signed transaction and
      the server's checkpoints, or how the submit failed. */
  function CheckSubmit(job: Job, reply: Reply): Result<(Psbt, seq<Psbt>), Failure>
    requires reply.Accepted? || reply.Refused? || reply == Unanswered
  {
    if !reply.Accepted? then
      Err(SubmitFailed)
    else
      var cosigned := Signing.VerifyServerArkTxSig(job.arkTx, reply.arkTx);
      if cosigned.Err? then Err(NotCosigned)
      else
        var scripts := WitnessScripts(job.checkpoints);
        if scripts.None? then Err(Panicked)
        else
          var restored := RestoreScripts(reply.checkpoints, scripts.value);
          if restored.None? then Err(Panicked) else Ok((cosigned.value, restored.value))
  }

  function AfterSubmit(job: Job, first: bool, reply: Reply): Pc
    requires reply.Accepted? || reply.Refused? || reply == Unanswered
  {
    match CheckSubmit(job, reply)
    case Err(failure) =>
      if first && DefinitiveRejection(reply) then Clearing(job.pending) else Done(Failed(failure))
    case Ok((cosigned, returned)) =>
      if job.pending.arkTxid != Encoded(job.arkTx.Txid()) then
        Done(Failed(TxidMismatch))
      else
        match Signing.MergeAllCheckpointSigs(returned, job.parties)
        case Err(_) => Done(Failed(MergeFailed))
        case Ok(checkpoints) =>
          Upgrading(Upgraded(job.pending, cosigned, checkpoints), job.arkTx.Txid(), checkpoints)
  }

  // ---- Sequences of exchanges ----

  /** One effect, its reply and the records after it. */
  datatype Exchange = Exchange(effect: Effect, reply: Reply, after: Records)

  /** `journal` is a run of the program from `pc` to `end`, over a store that goes from `before` to `after`. */
  ghost predicate Follows(pc: Pc, before: Records, journal: seq<Exchange>, end: Pc, after: Records)
    decreases |journal|
  {
    if journal == [] then
      pc == end && before == after
    else
      && !pc.Done?
      && journal[0].effect == Request(pc)
      && Answers(journal[0].effect, journal[0].reply)
      && Plausible(before, journal[0].effect, journal[0].reply, journal[0].after)
      && Follows(Advance(pc, journal[0].reply), journal[0].after, journal[1..], end, after)
  }

  lemma {:induction false} FollowsCompose(pc: Pc, before: Records, first: seq<Exchange>, middle: Pc, between: Records,
                                          second: seq<Exchange>, end: Pc, after: Records)
    requires Follows(pc, before, first, middle, between) && Follows(middle, between, second, end, after)
    ensures Follows(pc, before, first + second, end, after)
    decreases |first|
  {
    if first == [] {
      assert first + second == second;
    } else {
      assert (first + second)[1..] == first[1..] + second;
      FollowsCompose(Advance(pc, first[0].reply), first[0].after, first[1..], middle, between, second, end, after);
    }
  }
}
