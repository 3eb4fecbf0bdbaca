/** No live transaction loses its record, and records only move forward. */
module SpendSafety {
  import opened Wrappers
  import opened Bitcoin
  import opened SpendStore
  import opened SpendProtocol
  import opened SpendRuns
  import opened SpendInvariants
  import opened SpendNetwork

  // ---- What one exchange does to a stored record ----

  /** A record survives every exchange of its call as the same spend, except
      that clearing a rejected submit removes it while it is still submitting. */
  lemma RecordKeeps(pc: Pc, records: Records, id: Id, reply: Reply, after: Records, quiet: bool)
    requires !pc.Done? && Answers(Request(pc), reply) && Plausible(records, Request(pc), reply, after)
    requires id in records && RecordOk(records[id], id) && PcOk(pc, Lookup(records, id), id, quiet)
    requires quiet && IsStoreEffect(Request(pc)) && reply == StoreFailed ==> after == records
    ensures if id in after
            then && SameSpend(after[id], records[id])
                 && (Rank(after[id].stage) < Rank(records[id].stage)
                     <==> pc.Rescuing? && records[id].stage == Finalized && after != records)
                 && (Rank(after[id].stage) < Rank(records[id].stage) ==> !quiet && after[id].stage == Submitted)
            else pc.Clearing? && records[id] == pc.pending && records[id].stage == Submitting
  {
  }

  // ---- Calls stay bound to what they were given ----

  predicate Bound(call: Call, pc: Pc) {
    match pc
    case Loading(c) => c == call
    case Persisting(job) => call.Spend? && job == Job(NewRecord(call), call.arkTx, call.checkpoints, call.parties)
    case Sending(job, first) =>
      && (first ==> call.Spend? && job == Job(NewRecord(call), call.arkTx, call.checkpoints, call.parties))
      && (call.Spend? ==> job.pending.arkTxid == Encoded(call.arkTx.Txid()))
    case Clearing(p) => call.Spend? && p == NewRecord(call)
    case Upgrading(p, txid, _) => p.arkTxid == Encoded(txid) && (call.Spend? ==> txid == call.arkTx.Txid())
    case Finalizing(p, txid, _, _) => p.arkTxid == Encoded(txid) && (call.Spend? ==> txid == call.arkTx.Txid())
    case Marking(p, txid, _) => p.arkTxid == Encoded(txid) && (call.Spend? ==> txid == call.arkTx.Txid())
    case Rescuing(_, _) => true
    case Done(Success(txid)) => call.Spend? ==> txid == call.arkTx.Txid()
    case Done(_) => true
  }

  lemma BoundLoad(call: Call, found: Option<PendingSpend>)
    ensures Bound(call, AfterLoad(call, found))
  {
  }

  lemma BoundSubmit(call: Call, job: Job, first: bool, reply: Reply)
    requires Bound(call, Sending(job, first)) && Answers(Submit(job.arkTx, job.checkpoints), reply)
    ensures Bound(call, AfterSubmit(job, first, reply))
  {
  }

  lemma BoundStep(call: Call, pc: Pc, reply: Reply)
    requires Bound(call, pc) && !pc.Done? && Answers(Request(pc), reply)
    ensures Bound(call, Advance(pc, reply))
  {
    match pc
    case Loading(_) =>
      if reply.Loaded? {
        BoundLoad(call, reply.found);
      }
    case Sending(job, first) => BoundSubmit(call, job, first, reply);
    case _ =>
  }

  ghost predicate AllBound(s: System) {
    forall id :: id in s.calls ==> Bound(s.calls[id].call, s.calls[id].pc) && s.calls[id].call.id == id
  }

  lemma {:induction false} BoundAlways(steps: seq<Step>)
    requires Legal(steps)
    ensures AllBound(State(steps))
    decreases |steps|
  {
    if steps != [] {
      BoundAlways(Front(steps));
      var s, step := State(Front(steps)), Last(steps);
      var moved := MovedBy(s, step);
      if moved.Some? {
        BoundStep(s.calls[moved.value.0].call, s.calls[moved.value.0].pc, moved.value.1);
      }
    }
  }

  // ---- Stage monotonicity and id binding ----

  /** What a step of an untampered run can do to the record of an id: keep the
      spend and its stage or raise it; or remove it, and then only while it is
      submitting and by the very call that wrote it. The one exception needs a
      failed write that took effect: a record marked finalized that way is put
      back to submitted when the call saves its signatures once more. */
  lemma StepKeepsRecord(steps: seq<Step>, step: Step, id: Id)
    requires Legal(steps + [step]) && Untampered(steps + [step])
    requires Legal(steps) && id in State(steps).records
    ensures var s, next := State(steps), State(steps + [step]);
            if id in next.records
            then && SameSpend(next.records[id], s.records[id])
                 && (Rank(next.records[id].stage) < Rank(s.records[id].stage)
                     <==> && step.StoreOp? && step.id == id && s.calls[id].pc.Rescuing?
                          && s.records[id].stage == Finalized && next.records != s.records)
                 && (Rank(next.records[id].stage) < Rank(s.records[id].stage)
                     ==> !Quiet(steps + [step]) && next.records[id].stage == Submitted)
            else && id in s.calls && s.calls[id].call.Spend?
                 && s.records[id] == NewRecord(s.calls[id].call) && s.records[id].stage == Submitting
  {
    var s, next := State(steps), State(steps + [step]);
    assert Front(steps + [step]) == steps;
    var quiet := Quiet(steps + [step]);
    assert Untampered(steps) by {
      assert forall i :: 0 <= i < |steps| ==> steps[i] == (steps + [step])[i];
    }
    assert !step.Tamper? by {
      assert (steps + [step])[|steps|] == step;
    }
    InvAlways(steps, quiet);
    BoundAlways(steps);
    if step.StoreOp? {
      var pc := s.calls[step.id].pc;
      if step.id == id {
        RecordKeeps(pc, s.records, id, step.reply, step.after, quiet);
      } else {
        LocalFrame(pc, s.records, step.id, step.reply, step.after, quiet);
        assert Lookup(step.after, id) == Lookup(s.records, id);
      }
    }
  }

  /** Over any stretch of a run with quiet failures in which a record exists
      throughout, its stage never drops and its txid and token never change. */
  lemma {:induction false} StageMonotone(steps: seq<Step>, from: nat, id: Id)
    requires Legal(steps) && Untampered(steps) && Quiet(steps) && from <= |steps|
    requires forall n :: from <= n <= |steps| ==> Legal(steps[..n]) && id in State(steps[..n]).records
    ensures id in State(steps).records
    ensures SameSpend(State(steps[..from]).records[id], State(steps).records[id])
    ensures Rank(State(steps[..from]).records[id].stage) <= Rank(State(steps).records[id].stage)
    decreases |steps|
  {
    assert steps[..|steps|] == steps;
    if from < |steps| {
      var front := Front(steps);
      assert steps == front + [Last(steps)];
      LegalPrefix(steps, |steps| - 1);
      forall n | from <= n <= |front|
        ensures Legal(front[..n]) && id in State(front[..n]).records
      {
        assert front[..n] == steps[..n];
      }
      assert front[..from] == steps[..from];
      assert front[..|front|] == front;
      StageMonotone(front, from, id);
      StepKeepsRecord(front, Last(steps), id);
    }
  }

  /** A submit leaves only while the stored record is at submitting, and for the recorded transaction. */
  lemma SubmitOnlyWhileSubmitting(steps: seq<Step>, id: Id)
    requires Legal(steps) && Untampered(steps) && Enabled(State(steps), Send(id))
    requires State(steps).calls[id].pc.Sending?
    ensures var s := State(steps);
            && id in s.records && s.records[id].stage == Submitting
            && s.records[id].arkTxid == Encoded(s.calls[id].pc.job.arkTx.Txid())
  {
    InvAlways(steps, false);
  }

  /** In every run, whoever else writes to the store: clearing and marking
      change nothing but the record of the attempt itself, and that only while
      it carries the token of this attempt, or none. */
  lemma OtherAttemptsKept(steps: seq<Step>, step: Step, k: Id)
    requires Legal(steps) && Enabled(State(steps), step) && step.StoreOp?
    requires State(steps).calls[step.id].pc.Clearing? || State(steps).calls[step.id].pc.Marking?
    requires Lookup(Apply(State(steps), step).records, k) != Lookup(State(steps).records, k)
    ensures var s := State(steps);
            var mine := s.calls[step.id].pc.pending;
            k == mine.id && k in s.records && (s.records[k].token == "" || s.records[k].token == mine.token)
  {
    assert Plausible(State(steps).records, Request(State(steps).calls[step.id].pc), step.reply, step.after);
  }

  // ---- No live transaction loses its record ----

  predicate IsSubmit(e: Event) {
    e.Sent? && e.pc.Sending?
  }

  ghost predicate AcceptedBy(log: seq<Event>, t: nat) {
    exists j :: 0 <= j < |log| && log[j].Handled? && log[j].ticket == t && log[j].accepted
  }

  /** A submit the server has accepted, or may yet accept. */
  ghost predicate Live(s: System, t: nat) {
    t < |s.log| && IsSubmit(s.log[t]) && (t in s.wire || AcceptedBy(s.log, t))
  }

  /** The server never turns down a submit it accepts. */
  predicate RejectsHonestly(steps: seq<Step>) {
    forall i :: 0 <= i < |steps| && steps[i].Handle? && steps[i].accepted ==> !TurnsDown(steps[i].reply)
  }

  ghost predicate HonestLog(log: seq<Event>) {
    forall j :: 0 <= j < |log| && log[j].Handled? && log[j].accepted ==> !TurnsDown(log[j].reply)
  }

  function SubmittedTxid(e: Event): Txid
    requires IsSubmit(e)
  {
    e.pc.job.arkTx.Txid()
  }

  ghost predicate RecordOf(s: System, t: nat)
    requires t < |s.log| && IsSubmit(s.log[t])
  {
    var id := s.log[t].id;
    id in s.records && s.records[id].arkTxid == Encoded(SubmittedTxid(s.log[t]))
  }

  /** A first attempt knows of no live submit but its own, and a call that
      clears its record leaves none behind. */
  ghost predicate CallAware(s: System, t: nat)
    requires t < |s.log| && IsSubmit(s.log[t])
  {
    var id := s.log[t].id;
    id in s.calls ==>
      && (s.calls[id].pc.Sending? && s.calls[id].pc.first ==> s.calls[id].ticket == Some(t))
      && !s.calls[id].pc.Clearing?
  }

  ghost predicate Kept(s: System) {
    forall t :: Live(s, t) ==> RecordOf(s, t) && CallAware(s, t)
  }

  lemma LiveBefore(s: System, step: Step, t: nat)
    requires Enabled(s, step) && Live(Apply(s, step), t) && t < |s.log|
    ensures Live(s, t) && s.log[t] == Apply(s, step).log[t]
  {
  }

  /** A submit that was turned down is dead. */
  lemma RejectedIsDead(s: System, t: nat)
    requires Net(s) && HonestLog(s.log) && t in s.replies && TurnsDown(s.replies[t])
    ensures !Live(s, t)
  {
  }

  lemma KeptStoreOp(s: System, step: Step, t: nat)
    requires Inv(s, false) && Kept(s) && Enabled(s, step) && step.StoreOp? && Live(s, t)
    ensures RecordOf(Apply(s, step), t) && CallAware(Apply(s, step), t)
  {
    var next, id := Apply(s, step), s.log[t].id;
    MovedPlausibly(s, step);
    assert RecordOf(s, t) && CallAware(s, t);
    assert PcOk(s.calls[step.id].pc, Lookup(s.records, step.id), step.id, false);
    if step.id == id {
      KeptStoreOwn(s.calls[id].pc, s.records, id, step.reply, next.records);
    } else {
      LocalFrame(s.calls[step.id].pc, s.records, step.id, step.reply, next.records, false);
      assert Lookup(next.records, id) == Lookup(s.records, id);
    }
  }

  lemma KeptStoreOwn(pc: Pc, records: Records, id: Id, reply: Reply, after: Records)
    requires !pc.Done? && IsStoreEffect(Request(pc)) && Answers(Request(pc), reply)
    requires Plausible(records, Request(pc), reply, after)
    requires id in records && RecordOk(records[id], id) && PcOk(pc, Lookup(records, id), id, false) && !pc.Clearing?
    ensures id in after && after[id].arkTxid == records[id].arkTxid
    ensures !(Advance(pc, reply).Sending? && Advance(pc, reply).first) && !Advance(pc, reply).Clearing?
  {
  }

  /** An answered submit turns to clearing its record exactly if it is a first
      attempt and the status is one of four codes and not about a duplicate. */
  lemma ClearsExactly(job: Job, first: bool, reply: Reply)
    requires Answers(Submit(job.arkTx, job.checkpoints), reply)
    ensures AfterSubmit(job, first, reply).Clearing?
            <==> && first && reply.Refused? && !reply.status.duplicate
                 && (|| reply.status.code == InvalidArgument || reply.status.code == FailedPrecondition
                     || reply.status.code == PermissionDenied || reply.status.code == Unauthenticated)
    ensures AfterSubmit(job, first, reply).Clearing? ==> AfterSubmit(job, first, reply) == Clearing(job.pending)
  {
  }

  /** In every run: a refused submit that is not turned down, or is not a first
      attempt, ends its call and leaves the stored record exactly as it was;
      a first attempt that is turned down goes on to clear its own record. */
  lemma RefusedSubmit(steps: seq<Step>, step: Step, id: Id, reply: Reply)
    requires Legal(steps) && Untampered(steps) && Enabled(State(steps), step)
    requires MovedBy(State(steps), step) == Some((id, reply))
    requires State(steps).calls[id].pc.Sending? && !reply.Accepted?
    ensures var s, next := State(steps), Apply(State(steps), step);
            var Sending(job, first) := s.calls[id].pc;
            && next.records == s.records && Lookup(s.records, id) == Some(job.pending)
            && job.pending.stage == Submitting
            && next.calls[id].pc == if first && TurnsDown(reply) then Clearing(job.pending)
                                    else Done(Failed(SubmitFailed))
  {
    InvAlways(steps, false);
    MovedPlausibly(State(steps), step);
    var Sending(job, first) := State(steps).calls[id].pc;
    ClearsExactly(job, first, reply);
  }

  /** Only a first attempt that was turned down goes on to clear its record,
      and no reply turns a call into a first attempt. */
  lemma ReplyLeadsTo(pc: Pc, reply: Reply)
    requires !pc.Done? && !IsStoreEffect(Request(pc)) && Answers(Request(pc), reply)
    ensures Advance(pc, reply).Clearing? ==> pc.Sending? && pc.first && TurnsDown(reply)
    ensures !Advance(pc, reply).Sending?
  {
  }

  lemma KeptCall(s: System, id: Id, reply: Reply, pc: Pc, t: nat)
    requires Net(s) && HonestLog(s.log) && Kept(s) && AtNetwork(s, id) && Live(s, t)
    requires TurnsDown(reply) ==>
               && s.calls[id].ticket.Some? && s.calls[id].ticket.value in s.replies
               && reply == s.replies[s.calls[id].ticket.value]
    requires pc.Clearing? ==> s.calls[id].pc.Sending? && s.calls[id].pc.first && TurnsDown(reply)
    ensures RecordOf(s, t) && CallAware(s, t)
    ensures s.log[t].id == id ==> !pc.Clearing?
  {
  }

  lemma ReplyKnown(s: System, step: Step)
    requires Enabled(s, step) && (step.Receive? || step.Abandon?)
    ensures var (id, reply) := MovedBy(s, step).value;
            && AtNetwork(s, id)
            && Apply(s, step).records == s.records && s.log <= Apply(s, step).log
            && (TurnsDown(reply) ==>
                  && s.calls[id].ticket.Some? && s.calls[id].ticket.value in s.replies
                  && reply == s.replies[s.calls[id].ticket.value])
  {
  }

  lemma KeptReply(s: System, step: Step, t: nat)
    requires Inv(s, false) && Net(s) && HonestLog(s.log) && Kept(s) && Enabled(s, step) && Live(s, t)
    requires step.Receive? || step.Abandon?
    ensures RecordOf(Apply(s, step), t) && CallAware(Apply(s, step), t)
  {
    var (id, reply) := MovedBy(s, step).value;
    ReplyKnown(s, step);
    MovedPlausibly(s, step);
    ReplyLeadsTo(s.calls[id].pc, reply);
    var pc := Advance(s.calls[id].pc, reply);
    KeptCall(s, id, reply, pc, t);
    KeptMoved(s, Apply(s, step), Active(s.calls[id].call, pc, None), id, t);
  }

  lemma KeptMoved(s: System, next: System, moved: Active, id: Id, t: nat)
    requires t < |s.log| && IsSubmit(s.log[t]) && RecordOf(s, t) && CallAware(s, t)
    requires next.records == s.records && s.log <= next.log && next.calls == s.calls[id := moved]
    requires !moved.pc.Sending? && (s.log[t].id == id ==> !moved.pc.Clearing?)
    ensures RecordOf(next, t) && CallAware(next, t)
  {
    assert next.log[t] == s.log[t];
  }

  lemma KeptOther(s: System, step: Step, t: nat)
    requires Inv(s, false) && Kept(s) && Enabled(s, step) && Live(s, t)
    requires step.Begin? || step.Send? || step.Handle? || step.Crash? || step.End?
    ensures RecordOf(Apply(s, step), t) && CallAware(Apply(s, step), t)
  {
  }

  lemma KeptNew(s: System, step: Step)
    requires Inv(s, false) && Enabled(s, step) && step.Send? && s.calls[step.id].pc.Sending?
    ensures RecordOf(Apply(s, step), |s.log|) && CallAware(Apply(s, step), |s.log|)
  {
  }

  lemma KeptStep(s: System, step: Step)
    requires Inv(s, false) && Net(s) && HonestLog(s.log) && Kept(s)
    requires Enabled(s, step) && !step.Tamper?
    ensures Kept(Apply(s, step))
  {
    forall t | Live(Apply(s, step), t)
      ensures RecordOf(Apply(s, step), t) && CallAware(Apply(s, step), t)
    {
      if t == |s.log| {
        KeptNew(s, step);
      } else {
        LiveBefore(s, step, t);
        if step.StoreOp? {
          KeptStoreOp(s, step, t);
        } else if step.Receive? || step.Abandon? {
          KeptReply(s, step, t);
        } else {
          KeptOther(s, step, t);
        }
      }
    }
  }

  lemma {:induction false} KeptAlways(steps: seq<Step>)
    requires Legal(steps) && Untampered(steps) && RejectsHonestly(steps)
    ensures HonestLog(State(steps).log) && Kept(State(steps))
    decreases |steps|
  {
    if steps != [] {
      LegalPrefix(steps, |steps| - 1);
      KeptAlways(Front(steps));
      InvAlways(Front(steps), false);
      NetAlways(Front(steps));
      KeptStep(State(Front(steps)), Last(steps));
    }
  }

  /** In every run in which only the protocol writes to the store, whatever
      crashes, is lost, delayed or half written: once the server has accepted
      a submit made for an id, that id has a record with its txid. */
  lemma NoLiveTransactionLost(steps: seq<Step>, t: nat)
    requires Legal(steps) && Untampered(steps) && RejectsHonestly(steps)
    requires t < |State(steps).log| && IsSubmit(State(steps).log[t]) && AcceptedBy(State(steps).log, t)
    ensures var s := State(steps);
            var id := s.log[t].id;
            id in s.records && s.records[id].arkTxid == Encoded(SubmittedTxid(s.log[t]))
  {
    KeptAlways(steps);
    assert Live(State(steps), t);
    assert RecordOf(State(steps), t);
  }
}
