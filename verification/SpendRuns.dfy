/**
 * All runs of the spend protocol: calls for any number of ids, at most one at
 * a time per id, over one store and an asynchronous network. A call may crash
 * at every effect, a request may arrive late or never, a reply may be lost,
 * and the server answers as it likes.
 */
module SpendRuns {
  import opened Wrappers
  import opened Bitcoin
  import opened SpendStore
  import opened SpendProtocol

  /** A call in progress; `ticket` is the log position of its outstanding request. */
  datatype Active = Active(call: Call, pc: Pc, ticket: Option<nat>)

  datatype Event =
    | Sent(id: Id, pc: Pc)
    | Handled(ticket: nat, reply: Reply, accepted: bool)
    | Received(id: Id, pc: Pc, reply: Reply)
    | Ended(id: Id, call: Call, outcome: Outcome)

  /** `wire` holds the tickets of requests the server has not handled. A
      request that stays there is lost. */
  datatype System = System(
    records: Records,
    calls: map<Id, Active>,
    wire: set<nat>,
    replies: map<nat, Reply>,
    log: seq<Event>)

  datatype Step =
    | Begin(call: Call)
    | StoreOp(id: Id, reply: Reply, after: Records)
    | Send(id: Id)
    | Handle(ticket: nat, reply: Reply, accepted: bool)
    | Receive(id: Id)
    | Abandon(id: Id, reply: Reply)
    | Crash(id: Id)
    | End(id: Id)
    | Tamper(id: Id, record: Option<PendingSpend>)

  const INITIAL := System(map[], map[], {}, map[], [])

  /** The statuses with which the server turns a request down without having
      acted on it: one of four codes, and no word of a duplicate. */
  predicate TurnsDown(reply: Reply) {
    && reply.Refused?
    && reply.status.code in {InvalidArgument, FailedPrecondition, PermissionDenied, Unauthenticated}
    && !reply.status.duplicate
  }

  /** What a client can be told without an answer from the server: a timeout or
      a locally produced status, none of which the server would turn a request down with. */
  predicate LocalFailure(reply: Reply) {
    reply == Unanswered || (reply.Refused? && !TurnsDown(reply))
  }

  predicate AtStore(s: System, id: Id) {
    id in s.calls && !s.calls[id].pc.Done? && IsStoreEffect(Request(s.calls[id].pc))
  }

  predicate AtNetwork(s: System, id: Id) {
    id in s.calls && !s.calls[id].pc.Done? && !IsStoreEffect(Request(s.calls[id].pc))
  }

  predicate Enabled(s: System, step: Step) {
    match step
    case Begin(call) => call.id !in s.calls
    case StoreOp(id, reply, after) =>
      && AtStore(s, id)
      && Answers(Request(s.calls[id].pc), reply)
      && Plausible(s.records, Request(s.calls[id].pc), reply, after)
    case Send(id) => AtNetwork(s, id) && s.calls[id].ticket.None?
    case Handle(ticket, reply, accepted) =>
      && ticket in s.wire && ticket < |s.log| && s.log[ticket].Sent? && !s.log[ticket].pc.Done?
      && Answers(Request(s.log[ticket].pc), reply)
      && (accepted ==> s.log[ticket].pc.Sending?)
    case Receive(id) =>
      && AtNetwork(s, id)
      && s.calls[id].ticket.Some? && s.calls[id].ticket.value in s.replies
      && Answers(Request(s.calls[id].pc), s.replies[s.calls[id].ticket.value])
    case Abandon(id, reply) =>
      AtNetwork(s, id) && Answers(Request(s.calls[id].pc), reply) && LocalFailure(reply)
    case Crash(id) => id in s.calls
    case End(id) => id in s.calls && s.calls[id].pc.Done?
    case Tamper(_, _) => true
  }

  function Move(s: System, id: Id, reply: Reply): map<Id, Active>
    requires id in s.calls && !s.calls[id].pc.Done? && Answers(Request(s.calls[id].pc), reply)
  {
    s.calls[id := Active(s.calls[id].call, Advance(s.calls[id].pc, reply), None)]
  }

  function Apply(s: System, step: Step): System
    requires Enabled(s, step)
  {
    match step
    case Begin(call) =>
      s.(calls := s.calls[call.id := Active(call, Loading(call), None)])
    case StoreOp(id, reply, after) =>
      s.(records := after, calls := Move(s, id, reply))
    case Send(id) =>
      s.(calls := s.calls[id := s.calls[id].(ticket := Some(|s.log|))],
         wire := s.wire + {|s.log|},
         log := s.log + [Sent(id, s.calls[id].pc)])
    case Handle(ticket, reply, accepted) =>
      s.(wire := s.wire - {ticket},
         replies := s.replies[ticket := reply],
         log := s.log + [Handled(ticket, reply, accepted)])
    case Receive(id) =>
      var reply := s.replies[s.calls[id].ticket.value];
      s.(calls := Move(s, id, reply), log := s.log + [Received(id, s.calls[id].pc, reply)])
    case Abandon(id, reply) =>
      s.(calls := Move(s, id, reply))
    case Crash(id) =>
      s.(calls := s.calls - {id})
    case End(id) =>
      s.(calls := s.calls - {id}, log := s.log + [Ended(id, s.calls[id].call, s.calls[id].pc.outcome)])
    case Tamper(id, record) =>
      s.(records := if record.Some? then s.records[id := record.value] else s.records - {id})
  }

  // ---- Runs ----

  predicate Legal(steps: seq<Step>)
    decreases |steps|, 0
  {
    steps == [] ||
    (Legal(Front(steps)) && Enabled(State(Front(steps)), Last(steps)))
  }

  function State(steps: seq<Step>): System
    requires Legal(steps)
    decreases |steps|, 1
  {
    if steps == [] then INITIAL else Apply(State(Front(steps)), Last(steps))
  }

  function Front(steps: seq<Step>): (r: seq<Step>)
    requires steps != []
    ensures |r| == |steps| - 1
  {
    steps[..|steps| - 1]
  }

  function Last(steps: seq<Step>): Step
    requires steps != []
  {
    steps[|steps| - 1]
  }

  /** Only the protocol writes to the store. */
  predicate Untampered(steps: seq<Step>) {
    forall i :: 0 <= i < |steps| ==> !steps[i].Tamper?
  }

  /** A failed write left the store as it was. */
  predicate QuietStep(s: System, step: Step) {
    step.StoreOp? && step.reply == StoreFailed ==> step.after == s.records
  }

  predicate Quiet(steps: seq<Step>)
    requires Legal(steps)
    decreases |steps|
  {
    steps == [] || (Quiet(Front(steps)) && QuietStep(State(Front(steps)), Last(steps)))
  }

  lemma {:induction false} LegalPrefix(steps: seq<Step>, n: nat)
    requires Legal(steps) && n <= |steps|
    ensures Legal(steps[..n])
    ensures Untampered(steps) ==> Untampered(steps[..n])
    ensures Quiet(steps) ==> Quiet(steps[..n])
    decreases |steps|
  {
    if n == |steps| {
      assert steps[..n] == steps;
    } else {
      assert Front(steps)[..n] == steps[..n];
      LegalPrefix(Front(steps), n);
    }
  }
}
