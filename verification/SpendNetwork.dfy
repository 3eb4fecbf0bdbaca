/** Tickets, requests and replies: what the network keeps in every run. */
module SpendNetwork {
  import opened Wrappers
  import opened SpendStore
  import opened SpendProtocol
  import opened SpendRuns

  /** Request `t` was handled, with this reply. */
  ghost predicate HandledAs(log: seq<Event>, t: nat, reply: Reply) {
    exists j :: t < j < |log| && log[j].Handled? && log[j].ticket == t && log[j].reply == reply
  }

  /** Requests on the wire were sent and are not answered yet. */
  ghost predicate WireOk(s: System) {
    forall t :: t in s.wire ==> t < |s.log| && s.log[t].Sent? && t !in s.replies
  }

  /** Every reply answers a request that was sent. */
  ghost predicate RepliesOk(s: System) {
    forall t :: t in s.replies ==> t < |s.log| && s.log[t].Sent? && HandledAs(s.log, t, s.replies[t])
  }

  /** A request is handled once, and its reply stands. */
  ghost predicate HandledOk(s: System) {
    forall j :: 0 <= j < |s.log| && s.log[j].Handled? ==>
                  && s.log[j].ticket in s.replies && s.log[j].ticket !in s.wire
                  && s.replies[s.log[j].ticket] == s.log[j].reply
  }

  /** No request is handled twice. */
  ghost predicate HandledOnce(s: System) {
    forall i, j :: 0 <= i < j < |s.log| && s.log[i].Handled? && s.log[j].Handled? ==>
                     s.log[i].ticket != s.log[j].ticket
  }

  /** The ticket of a call is the request it is waiting for. */
  ghost predicate TicketsOk(s: System) {
    forall id :: id in s.calls && s.calls[id].ticket.Some? ==>
                   && s.calls[id].ticket.value < |s.log|
                   && s.log[s.calls[id].ticket.value] == Sent(id, s.calls[id].pc)
  }

  ghost predicate Net(s: System) {
    WireOk(s) && RepliesOk(s) && HandledOk(s) && HandledOnce(s) && TicketsOk(s)
  }

  lemma HandledStays(log: seq<Event>, more: seq<Event>, t: nat, reply: Reply)
    requires HandledAs(log, t, reply)
    ensures HandledAs(log + more, t, reply)
  {
    var j :| t < j < |log| && log[j].Handled? && log[j].ticket == t && log[j].reply == reply;
    assert (log + more)[j] == log[j];
  }

  /** Every step extends the log. */
  lemma LogGrows(s: System, step: Step)
    requires Enabled(s, step)
    ensures s.log <= Apply(s, step).log
  {
  }

  lemma WireStep(s: System, step: Step)
    requires Net(s) && Enabled(s, step)
    ensures WireOk(Apply(s, step))
  {
  }

  lemma RepliesStep(s: System, step: Step)
    requires Net(s) && Enabled(s, step)
    ensures RepliesOk(Apply(s, step))
  {
    var next := Apply(s, step);
    LogGrows(s, step);
    var more := next.log[|s.log|..];
    assert next.log == s.log + more;
    forall t | t in next.replies
      ensures t < |next.log| && next.log[t].Sent? && HandledAs(next.log, t, next.replies[t])
    {
      if step.Handle? && t == step.ticket {
        assert next.log[|s.log|] == Handled(t, step.reply, step.accepted);
      } else {
        HandledStays(s.log, more, t, s.replies[t]);
      }
    }
  }

  lemma HandledStep(s: System, step: Step)
    requires Net(s) && Enabled(s, step)
    ensures HandledOk(Apply(s, step))
  {
  }

  lemma OnceStep(s: System, step: Step)
    requires HandledOk(s) && HandledOnce(s) && Enabled(s, step)
    ensures HandledOnce(Apply(s, step))
  {
    var next := Apply(s, step);
    LogGrows(s, step);
    forall i, j | 0 <= i < j < |next.log| && next.log[i].Handled? && next.log[j].Handled?
      ensures next.log[i].ticket != next.log[j].ticket
    {
      assert next.log[i] == s.log[i];
      if j < |s.log| {
        assert next.log[j] == s.log[j];
      }
    }
  }

  lemma TicketsStep(s: System, step: Step)
    requires TicketsOk(s) && Enabled(s, step)
    ensures TicketsOk(Apply(s, step))
  {
  }

  lemma NetStep(s: System, step: Step)
    requires Net(s) && Enabled(s, step)
    ensures Net(Apply(s, step))
  {
    WireStep(s, step);
    RepliesStep(s, step);
    HandledStep(s, step);
    OnceStep(s, step);
    TicketsStep(s, step);
  }

  lemma {:induction false} NetAlways(steps: seq<Step>)
    requires Legal(steps)
    ensures Net(State(steps))
    decreases |steps|
  {
    if steps != [] {
      NetAlways(Front(steps));
      NetStep(State(Front(steps)), Last(steps));
    }
  }
}
