/** A run in which a stored stage goes back: failed writes that took effect. */
module SpendTornWrite {
  import opened Wrappers
  import opened Bitcoin
  import opened SpendStore
  import opened SpendProtocol
  import opened SpendRuns
  import opened SpendSafety
  import Contract
  import Signing

  /** Only the protocol writes records, and the server accepts exactly what it says it accepts. */
  predicate Honest(steps: seq<Step>) {
    Untampered(steps) && RejectsHonestly(steps) && forall i :: 0 <= i < |steps| ==> HonestStep(steps[i])
  }

  predicate HonestStep(step: Step) {
    && !step.Tamper?
    && (step.Handle? ==> (step.accepted <==> step.reply.Accepted?))
  }

  lemma Extend(steps: seq<Step>, step: Step)
    requires Legal(steps) && Honest(steps) && Enabled(State(steps), step) && HonestStep(step)
    ensures Legal(steps + [step]) && Honest(steps + [step]) && State(steps + [step]) == Apply(State(steps), step)
  {
    assert Front(steps + [step]) == steps;
  }

  /** The only call is one for `id`, at `pc`, over these records. */
  predicate Alone(s: System, call: Call, pc: Pc, records: Records) {
    s.calls == map[call.id := Active(call, pc, None)] && s.records == records && s.wire == {}
  }

  lemma StoreStep(steps: seq<Step>, call: Call, pc: Pc, reply: Reply, after: Records) returns (more: seq<Step>)
    requires Legal(steps) && Honest(steps) && Alone(State(steps), call, pc, State(steps).records)
    requires !pc.Done? && IsStoreEffect(Request(pc)) && Answers(Request(pc), reply)
    requires Plausible(State(steps).records, Request(pc), reply, after)
    ensures Legal(more) && more == steps + [StoreOp(call.id, reply, after)] && Honest(more)
    ensures Alone(State(more), call, Advance(pc, reply), after)
  {
    more := steps + [StoreOp(call.id, reply, after)];
    Extend(steps, StoreOp(call.id, reply, after));
  }

  /** Send the request, have it handled, receive the reply. */
  lemma NetworkSteps(steps: seq<Step>, call: Call, pc: Pc, reply: Reply) returns (more: seq<Step>)
    requires Legal(steps) && Honest(steps) && Alone(State(steps), call, pc, State(steps).records)
    requires !pc.Done? && !IsStoreEffect(Request(pc)) && Answers(Request(pc), reply)
    ensures Legal(more) && Honest(more)
    ensures Alone(State(more), call, Advance(pc, reply), State(steps).records)
  {
    var sent := steps + [Send(call.id)];
    Extend(steps, Send(call.id));
    more := Answered(sent, call, pc, reply, |State(steps).log|);
  }

  /** The same once the request is on the wire. */
  lemma Answered(steps: seq<Step>, call: Call, pc: Pc, reply: Reply, ticket: nat) returns (more: seq<Step>)
    requires Legal(steps) && Honest(steps) && !pc.Done? && !IsStoreEffect(Request(pc)) && Answers(Request(pc), reply)
    requires var s := State(steps);
             && s.calls == map[call.id := Active(call, pc, Some(ticket))] && s.wire == {ticket}
             && ticket < |s.log| && s.log[ticket] == Sent(call.id, pc)
    ensures Legal(more) && Honest(more)
    ensures Alone(State(more), call, Advance(pc, reply), State(steps).records)
  {
    var handled := steps + [Handle(ticket, reply, reply.Accepted?)];
    Extend(steps, Handle(ticket, reply, reply.Accepted?));
    more := handled + [Receive(call.id)];
    Extend(handled, Receive(call.id));
  }

  lemma Started(call: Call) returns (steps: seq<Step>)
    ensures Legal(steps) && Honest(steps) && Alone(State(steps), call, Loading(call), map[])
  {
    Extend([], Begin(call));
    steps := [] + [Begin(call)];
    assert State(steps) == Apply(INITIAL, Begin(call));
  }

  /** A first attempt up to the point where its submit is recorded. */
  lemma UpToUpgrade(call: Call, job: Job, reply: Reply) returns (steps: seq<Step>)
    requires call.Spend? && ValidCheckpoints(call.checkpoints, call.parties)
    requires job == Job(NewRecord(call), call.arkTx, call.checkpoints, call.parties)
    requires Answers(Submit(job.arkTx, job.checkpoints), reply)
    ensures Legal(steps) && Honest(steps)
    ensures Alone(State(steps), call, AfterSubmit(job, true, reply), map[call.id := job.pending])
  {
    var submitting: Records := map[call.id := job.pending];
    steps := Started(call);
    steps := StoreStep(steps, call, Loading(call), Loaded(None), map[]);
    steps := StoreStep(steps, call, Persisting(job), Written, submitting);
    steps := NetworkSteps(steps, call, Sending(job, true), reply);
  }

  /** The submitted record cannot be saved, but finalize is acknowledged. */
  lemma UpToMark(steps: seq<Step>, call: Call, p: PendingSpend, txid: Txid, checkpoints: seq<Psbt>, records: Records)
    returns (more: seq<Step>)
    requires Legal(steps) && Honest(steps)
    requires Alone(State(steps), call, Upgrading(p, txid, checkpoints), records)
    ensures Legal(more) && Honest(more)
    ensures Alone(State(more), call, Marking(p, txid, true), records)
  {
    more := StoreStep(steps, call, Upgrading(p, txid, checkpoints), StoreFailed, records);
    more := NetworkSteps(more, call, Finalizing(p, txid, checkpoints, true), Acknowledged);
  }

  /** If marking is reported as failed but took effect, the rescuing save
      turns the finalized record back. */
  lemma DropFromMark(steps: seq<Step>, call: Call, p: PendingSpend, txid: Txid, stored: PendingSpend)
    returns (more: seq<Step>, last: Step)
    requires Legal(steps) && Honest(steps)
    requires Alone(State(steps), call, Marking(p, txid, true), map[call.id := stored])
    requires p.id == call.id && p.stage == Submitted && stored.token == p.token
    ensures Legal(more) && Legal(more + [last]) && Honest(more + [last])
    ensures var before, after := State(more).records, State(more + [last]).records;
            && call.id in before && call.id in after
            && before[call.id].stage == Finalized && after[call.id].stage == Submitted
  {
    var finalized: Records := map[call.id := p.(stage := Finalized)];
    assert map[call.id := stored][call.id := p.(stage := Finalized)] == finalized;
    more := StoreStep(steps, call, Marking(p, txid, true), StoreFailed, finalized);
    last := StoreOp(call.id, Written, finalized[call.id := p]);
    var extended := StoreStep(more, call, Rescuing(p, RecordingFailed), Written, finalized[call.id := p]);
  }

  /** This can befall any spend the server accepts. */
  lemma StageDrops(call: Call, reply: Reply) returns (steps: seq<Step>, last: Step)
    requires call.Spend? && ValidCheckpoints(call.checkpoints, call.parties) && reply.Accepted?
    requires AfterSubmit(Job(NewRecord(call), call.arkTx, call.checkpoints, call.parties), true, reply).Upgrading?
    ensures Legal(steps) && Legal(steps + [last]) && Honest(steps + [last])
    ensures var before, after := State(steps).records, State(steps + [last]).records;
            && call.id in before && call.id in after
            && before[call.id].stage == Finalized && after[call.id].stage == Submitted
  {
    var job := Job(NewRecord(call), call.arkTx, call.checkpoints, call.parties);
    var upgraded := AfterSubmit(job, true, reply);
    steps := UpToUpgrade(call, job, reply);
    steps := UpToMark(steps, call, upgraded.pending, upgraded.txid, upgraded.checkpoints, map[call.id := job.pending]);
    steps, last := DropFromMark(steps, call, upgraded.pending, upgraded.txid, job.pending);
  }

  // ---- Such a spend exists ----

  const SERVER := Key(3)
  const LEAF := Contract.Collaborative3Of3(Key(1), Key(2), SERVER)
  const OUTPUT := TxOut(1000, P2tr(Tweaked(Key(0), LeafHash(TapScript, LEAF))))

  function Checkpoint(): Psbt {
    Psbt(Transaction(2, [TxIn(OutPoint(Foreign(0), 0), 0)], [OUTPUT], 0), [PsbtInput(None, [], map[], None)])
  }

  function ArkTx(sigs: SigMap): Psbt {
    Psbt(Transaction(2, [TxIn(OutPoint(Checkpoint().Txid(), 0), 0)], [], 0),
         [PsbtInput(Some(OUTPUT), [LeafEntry(ControlBlock(TapScript, Key(0), []), LEAF, TapScript)], sigs, None)])
  }

  function Cosignature(): TapSignature {
    var message := SpendMessage(ArkTx(map[]).tx, 0, [OUTPUT], LeafHash(TapScript, LEAF), DefaultType);
    TapSignature(SignedBy(SERVER, message, 0), DefaultType)
  }

  lemma SampleIsCosigned()
    ensures var signed := ArkTx(map[(SERVER, LeafHash(TapScript, LEAF)) := Cosignature()]);
            Signing.VerifyServerArkTxSig(ArkTx(map[]), signed).Ok?
  {
  }

  function SampleCall(): Call {
    Spend("trade", ArkTx(map[]), [Checkpoint()], [], "token")
  }

  function SampleReply(): Reply {
    Accepted(ArkTx(map[(SERVER, LeafHash(TapScript, LEAF)) := Cosignature()]), [Checkpoint()])
  }

  lemma SampleScripts()
    ensures WitnessScripts([Checkpoint()]) == Some(map[Checkpoint().Txid() := None])
    ensures RestoreScripts([Checkpoint()], map[Checkpoint().Txid() := None]).Some?
  {
  }

  lemma SampleUpgrades()
    ensures var call := SampleCall();
            var job := Job(NewRecord(call), call.arkTx, call.checkpoints, call.parties);
            AfterSubmit(job, true, SampleReply()).Upgrading?
  {
    SampleIsCosigned();
    SampleScripts();
    var restored := RestoreScripts([Checkpoint()], map[Checkpoint().Txid() := None]).value;
    Signing.MergeFromMerges(restored, [], 0);
  }

  /** So the stage of a record is not monotone in all runs, even with an honest
      server, only where failed writes leave no trace. */
  lemma StageNotMonotone()
    ensures exists steps: seq<Step>, last: Step, id: Id ::
              && Legal(steps) && Legal(steps + [last]) && Honest(steps + [last])
              && id in State(steps).records && id in State(steps + [last]).records
              && Rank(State(steps + [last]).records[id].stage) < Rank(State(steps).records[id].stage)
  {
    SampleUpgrades();
    var steps, last := StageDrops(SampleCall(), SampleReply());
    assert Legal(steps + [last]);
  }
}
