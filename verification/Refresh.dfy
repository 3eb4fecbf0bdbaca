/** Refreshing an escrow: the ceremony, its one retry, and the withdrawal of
    what a failure may leave behind (refresh.rs, client.rs). */
module Refresh {
  import opened Wrappers
  import opened Bitcoin
  import Ceremony
  import CeremonySafety
  import Sorting

  const STALE_INTENT_DELETE_ATTEMPTS: nat := 6

  datatype Intent = Intent(proof: Psbt)

  datatype RefreshIntent = RefreshIntent(
    intent: Intent,
    forfeits: seq<Psbt>,
    cosigner: Ceremony.CosignerKey,
    deleteIntent: Option<Intent>)

  // ---- The inputs two proofs cover ----

  type OutPointOrder = (OutPoint, OutPoint) -> bool

  /** The outpoints of a proof, without the message commitment at input 0. */
  function CoveredOutpoints(intent: Intent): seq<OutPoint> {
    var inputs := intent.proof.tx.inputs;
    if inputs == [] then []
    else seq(|inputs| - 1, i requires 0 <= i < |inputs| - 1 => inputs[i + 1].previousOutput)
  }

  predicate SameInputs(le: OutPointOrder, register: Intent, delete: Intent) {
    Sorting.Sort(le, CoveredOutpoints(register)) == Sorting.Sort(le, CoveredOutpoints(delete))
  }

  /** What transaction inputs spend, in order. */
  function PreviousOutputs(inputs: seq<TxIn>): (r: seq<OutPoint>)
    ensures |r| == |inputs|
    ensures forall i :: 0 <= i < |r| ==> r[i] == inputs[i].previousOutput
  {
    seq(|inputs|, i requires 0 <= i < |inputs| => inputs[i].previousOutput)
  }

  /** The inputs of a proof but the first, which commits to its message. */
  function RealInputs(intent: Intent): seq<TxIn> {
    if intent.proof.tx.inputs == [] then [] else intent.proof.tx.inputs[1..]
  }

  /** Comparing the sorted lists compares what the real inputs spend, as multisets. */
  lemma SameInputsMeans(le: OutPointOrder, register: Intent, delete: Intent)
    requires Sorting.TotalPreorder(le) && Sorting.Antisymmetric(le)
    ensures SameInputs(le, register, delete)
            <==> multiset(PreviousOutputs(RealInputs(register))) == multiset(PreviousOutputs(RealInputs(delete)))
  {
    var r, d := CoveredOutpoints(register), CoveredOutpoints(delete);
    assert r == PreviousOutputs(RealInputs(register)) && d == PreviousOutputs(RealInputs(delete));
    Sorting.SortSorts(le, r);
    Sorting.SortSorts(le, d);
    if multiset(r) == multiset(d) {
      Sorting.SortedUnique(le, Sorting.Sort(le, r), Sorting.Sort(le, d));
    }
  }

  /** A delete proof, if there is one, spends what the register proof spends, each as often. */
  predicate DeleteProofFits(refresh: RefreshIntent) {
    refresh.deleteIntent.Some? ==>
      multiset(PreviousOutputs(RealInputs(refresh.intent)))
      == multiset(PreviousOutputs(RealInputs(refresh.deleteIntent.value)))
  }

  /** Whatever messages the two proofs commit to. */
  lemma FitsWhateverMessage(refresh: RefreshIntent, message: TxIn, inputs: seq<TxIn>,
                            message': TxIn, inputs': seq<TxIn>)
    requires refresh.deleteIntent.Some?
    requires refresh.intent.proof.tx.inputs == [message] + inputs
    requires refresh.deleteIntent.value.proof.tx.inputs == [message'] + inputs'
    ensures DeleteProofFits(refresh) <==> multiset(PreviousOutputs(inputs)) == multiset(PreviousOutputs(inputs'))
  {
    assert RealInputs(refresh.intent) == inputs && RealInputs(refresh.deleteIntent.value) == inputs';
  }

  /** The source's order of outpoints sorts both lists alike. */
  method EnsureSameInputs(le: OutPointOrder, refresh: RefreshIntent) returns (fits: bool)
    requires Sorting.TotalPreorder(le) && Sorting.Antisymmetric(le)
    ensures fits <==> DeleteProofFits(refresh)
  {
    if refresh.deleteIntent.None? {
      return true;
    }
    SameInputsMeans(le, refresh.intent, refresh.deleteIntent.value);
    return SameInputs(le, refresh.intent, refresh.deleteIntent.value);
  }

  // ---- The server, as the client sees it ----

  datatype Request =
    | Register
    | OpenStream(inputs: seq<OutPoint>, cosigner: Ceremony.CosignerKey)
    | InCeremony(call: Ceremony.Call)
    | Delete

  /** What an error message says, as far as the client looks at it. */
  datatype Text = Text(alreadyRegistered: bool, noMatchingIntents: bool)

  /** A registration is granted under an intent id, anything else as such; or not at all. */
  datatype Reply = Registered(intentId: nat) | Fine | Refused(text: Text) | Cancelled

  predicate Granted(reply: Reply) {
    reply.Registered? || reply == Fine
  }

  predicate Answers(request: Request, reply: Reply) {
    Granted(reply) ==> (reply.Registered? <==> request == Register)
  }

  datatype Exchange = Exchange(request: Request, reply: Reply)

  type Log = seq<Exchange>

  datatype RefreshError =
    | InputsDiffer
    | CosignerMismatch
    | ForfeitWithoutInput
    | CeremonyFailed(alreadyRegistered: bool)
    | DeleteFailed
    | TimedOut

  type Outcome = Result<Txid, RefreshError>

  function Count(request: Request, log: Log): nat {
    if log == [] then 0 else (if log[0].request == request then 1 else 0) + Count(request, log[1..])
  }

  lemma {:induction false} CountAppend(request: Request, a: Log, b: Log)
    ensures Count(request, a + b) == Count(request, a) + Count(request, b)
  {
    if a == [] {
      assert a + b == b;
    } else {
      assert (a + b)[1..] == a[1..] + b;
      CountAppend(request, a[1..], b);
    }
  }

  lemma {:induction false} CountNone(request: Request, log: Log)
    requires forall i :: 0 <= i < |log| ==> log[i].request != request
    ensures Count(request, log) == 0
  {
    if log != [] {
      CountNone(request, log[1..]);
    }
  }

  lemma {:induction false} CountAtMost(request: Request, log: Log)
    ensures Count(request, log) <= |log|
  {
    if log != [] {
      CountAtMost(request, log[1..]);
    }
  }

  lemma Associates<T>(a: seq<T>, b: seq<T>, c: seq<T>)
    ensures a + b + c == a + (b + c)
  {
  }

  function CeremonyExchanges(calls: seq<Ceremony.Call>, reply: Reply): (r: Log)
    ensures |r| == |calls|
    ensures forall i :: 0 <= i < |r| ==> r[i].request == InCeremony(calls[i])
  {
    seq(|calls|, i requires 0 <= i < |calls| =>
          Exchange(InCeremony(calls[i]), if i == |calls| - 1 then reply else Fine))
  }

  /** Requests and replies in the order they were issued, and the events
      received. The overall deadline may cancel the wait for any of them. */
  class Server {
    const events: Ceremony.Source
    var log: Log

    constructor ()
      ensures fresh(events) && events.heard == [] && log == []
    {
      events := new Ceremony.Source();
      log := [];
    }

    method Ask(request: Request) returns (reply: Reply)
      modifies this`log
      ensures Answers(request, reply)
      ensures log == old(log) + [Exchange(request, reply)]
    {
      reply := *;
      if !Answers(request, reply) {
        reply := Cancelled;
      }
      log := log + [Exchange(request, reply)];
    }

    method Record(calls: seq<Ceremony.Call>, reply: Reply)
      modifies this`log
      ensures log == old(log) + CeremonyExchanges(calls, reply)
    {
      log := log + CeremonyExchanges(calls, reply);
    }
  }

  /** What a stretch of a refresh sent, and the events it heard. */
  datatype Made = Made(log: Log, heard: Ceremony.Stream)

  const SILENCE := Made([], [])

  // ---- One settlement ----

  /** The previous output a forfeit spends first. */
  function FirstInputs(forfeits: seq<Psbt>): (r: seq<OutPoint>)
    requires forall i :: 0 <= i < |forfeits| ==> forfeits[i].tx.inputs != []
    ensures |r| == |forfeits|
    ensures forall i :: 0 <= i < |r| ==> r[i] == forfeits[i].tx.inputs[0].previousOutput
  {
    seq(|forfeits|, i requires 0 <= i < |forfeits| => forfeits[i].tx.inputs[0].previousOutput)
  }

  predicate EachHasInput(forfeits: seq<Psbt>) {
    forall i :: 0 <= i < |forfeits| ==> forfeits[i].tx.inputs != []
  }

  method ForfeitInputOutpoints(forfeits: seq<Psbt>) returns (r: Option<seq<OutPoint>>)
    ensures r == if EachHasInput(forfeits) then Some(FirstInputs(forfeits)) else None
  {
    var outpoints: seq<OutPoint> := [];
    for i := 0 to |forfeits|
      invariant |outpoints| == i
      invariant forall j :: 0 <= j < i ==>
                              && forfeits[j].tx.inputs != []
                              && outpoints[j] == forfeits[j].tx.inputs[0].previousOutput
    {
      if forfeits[i].tx.inputs == [] {
        return None;
      }
      outpoints := outpoints + [forfeits[i].tx.inputs[0].previousOutput];
    }
    assert outpoints == FirstInputs(forfeits);
    return Some(outpoints);
  }

  /** Nothing can be asked of the server with this key and these forfeits. */
  predicate Unusable(refresh: RefreshIntent, cosigner: Ceremony.CosignerKey) {
    cosigner != refresh.cosigner || !EachHasInput(refresh.forfeits)
  }

  /** How a request that was not granted is reported. */
  function NotDone(reply: Reply): RefreshError
    requires !Granted(reply)
  {
    if reply.Cancelled? then TimedOut else CeremonyFailed(reply.text.alreadyRegistered)
  }

  /** What one settlement sends: a registration, a request for the events about
      its own inputs, then whatever the ceremony under the granted intent id
      sends over the events heard. */
  ghost predicate OneSettlement(refresh: RefreshIntent, cosigner: Ceremony.CosignerKey, made: Made, r: Outcome) {
    if Unusable(refresh, cosigner) then
      made == SILENCE && r == Err(if cosigner != refresh.cosigner then CosignerMismatch else ForfeitWithoutInput)
    else
      && made.log != [] && made.log[0].request == Register
      && var reply := made.log[0].reply;
         if reply.Registered? then
           Streamed(FirstInputs(refresh.forfeits), Ceremony.Session(reply.intentId, cosigner),
                    Made(made.log[1..], made.heard), r)
         else
           !Granted(reply) && |made.log| == 1 && made.heard == [] && r == Err(NotDone(reply))
  }

  ghost predicate Streamed(inputs: seq<OutPoint>, own: Ceremony.Session, made: Made, r: Outcome) {
    && made.log != [] && made.log[0].request == OpenStream(inputs, own.cosigner)
    && if made.log[0].reply == Fine then
         Followed(own, Made(made.log[1..], made.heard), r)
       else
         && !Granted(made.log[0].reply) && |made.log| == 1 && made.heard == []
         && r == Err(NotDone(made.log[0].reply))
  }

  /** How the end of a ceremony is reported; a call cut short counts as the deadline. */
  function Reported(status: Ceremony.Status, last: Reply): Outcome {
    match status
    case Running => Err(TimedOut)
    case Settled(txid) => Ok(txid)
    case Failed(error) => Err(if last.Cancelled? then TimedOut else CeremonyFailed(error.External? && error.stale))
  }

  /** The calls of a ceremony over exactly the events heard, and its report. */
  ghost predicate Followed(own: Ceremony.Session, made: Made, r: Outcome) {
    exists last: Reply :: FollowedUpTo(own, made, last, r)
  }

  ghost predicate FollowedUpTo(own: Ceremony.Session, made: Made, last: Reply, r: Outcome) {
    var (locals, status) := Ceremony.Run(own, made.heard);
    && made.log == CeremonyExchanges(locals.calls, last)
    && (status.Settled? ==> last == Fine)
    && r == Reported(status, last)
  }

  lemma FollowedCalls(own: Ceremony.Session, made: Made, r: Outcome)
    requires Followed(own, made, r)
    ensures forall i :: 0 <= i < |made.log| ==> made.log[i].request.InCeremony?
  {
    var last :| FollowedUpTo(own, made, last, r);
  }

  lemma SettlementCounts(refresh: RefreshIntent, cosigner: Ceremony.CosignerKey, made: Made, r: Outcome)
    requires OneSettlement(refresh, cosigner, made, r)
    ensures Within(made.log, 1, 0)
  {
    var log := made.log;
    if log != [] {
      if |log| > 2 {
        var own := Ceremony.Session(log[0].reply.intentId, cosigner);
        FollowedCalls(own, Made(log[1..][1..], made.heard), r);
      }
      forall i | 0 < i < |log|
        ensures log[i].request.OpenStream? || log[i].request.InCeremony?
      {
        assert log[i] == log[1..][i - 1];
        if i >= 2 {
          assert log[i] == log[1..][1..][i - 2];
        }
      }
      CountNone(Delete, log);
      CountNone(Register, log[1..]);
    }
  }

  method SettleDelegate(server: Server, refresh: RefreshIntent, cosigner: Ceremony.CosignerKey)
    returns (r: Outcome, ghost made: Made)
    modifies server, server.events
    ensures server.log == old(server.log) + made.log
    ensures server.events.heard == old(server.events.heard) + made.heard
    ensures OneSettlement(refresh, cosigner, made, r)
  {
    if cosigner != refresh.cosigner {
      return Err(CosignerMismatch), SILENCE;
    }
    var outpoints := ForfeitInputOutpoints(refresh.forfeits);
    if outpoints.None? {
      return Err(ForfeitWithoutInput), SILENCE;
    }
    var reply := server.Ask(Register);
    ghost var opening := [Exchange(Register, reply)];
    if !reply.Registered? {
      return Err(NotDone(reply)), Made(opening, []);
    }
    ghost var rest;
    r, rest := OpenAndFollow(server, outpoints.value, Ceremony.Session(reply.intentId, cosigner));
    Associates(old(server.log), opening, rest.log);
    made := Made(opening + rest.log, rest.heard);
    assert made.log[1..] == rest.log;
  }

  /** The rest of a settlement, once registered. */
  method OpenAndFollow(server: Server, inputs: seq<OutPoint>, own: Ceremony.Session)
    returns (r: Outcome, ghost made: Made)
    modifies server, server.events
    ensures server.log == old(server.log) + made.log
    ensures server.events.heard == old(server.events.heard) + made.heard
    ensures Streamed(inputs, own, made, r)
  {
    var reply := server.Ask(OpenStream(inputs, own.cosigner));
    ghost var opening := [Exchange(OpenStream(inputs, own.cosigner), reply)];
    if reply != Fine {
      return Err(NotDone(reply)), Made(opening, []);
    }
    ghost var rest;
    r, rest := FollowStream(server, own);
    Associates(old(server.log), opening, rest.log);
    made := Made(opening + rest.log, rest.heard);
    assert made.log[1..] == rest.log;
  }

  /** Handle events up to the end of the ceremony, or to the deadline. */
  method FollowStream(server: Server, own: Ceremony.Session) returns (r: Outcome, ghost made: Made)
    modifies server, server.events
    ensures server.log == old(server.log) + made.log
    ensures server.events.heard == old(server.events.heard) + made.heard
    ensures Followed(own, made, r)
  {
    var patience: nat := *;
    var last: Reply := *;
    var settlement := new Ceremony.Settlement(own);
    ghost var heard;
    var status;
    status, heard := settlement.Settle(server.events, patience);
    if status.Settled? {
      last := Fine;
    }
    server.Record(settlement.calls, last);
    r := Reported(status, last);
    made := Made(CeremonyExchanges(settlement.calls, last), heard);
    IsFollowed(own, made, last, r);
  }

  lemma IsFollowed(own: Ceremony.Session, made: Made, last: Reply, r: Outcome)
    requires FollowedUpTo(own, made, last, r)
    ensures Followed(own, made, r)
  {
  }

  // ---- Deleting an intent ----

  predicate NoMatch(e: Exchange) {
    e.request == Delete && e.reply.Refused? && e.reply.text.noMatchingIntents
  }

  function AtLeastOne(n: nat): nat {
    if n == 0 then 1 else n
  }

  /** Deletes, each but the last finding nothing: `false` means that every one
      of the allowed attempts, and at least one, found nothing. */
  ghost predicate Deletion(made: Log, maxAttempts: nat, r: Result<bool, RefreshError>) {
    && 1 <= |made| <= AtLeastOne(maxAttempts)
    && (forall i :: 0 <= i < |made| ==> made[i].request == Delete)
    && (forall i :: 0 <= i < |made| - 1 ==> NoMatch(made[i]))
    && (r == Ok(false) <==> |made| == AtLeastOne(maxAttempts) && NoMatch(made[|made| - 1]))
    && (r == Ok(true) <==> made[|made| - 1].reply == Fine)
  }

  method DeleteIntent(server: Server, maxAttempts: nat) returns (r: Result<bool, RefreshError>, ghost made: Log)
    modifies server`log
    ensures server.log == old(server.log) + made
    ensures Deletion(made, maxAttempts, r)
  {
    made := [];
    var attempt := 1;
    while true
      invariant 1 <= attempt <= AtLeastOne(maxAttempts) && |made| == attempt - 1
      invariant server.log == old(server.log) + made
      invariant forall i :: 0 <= i < |made| ==> NoMatch(made[i])
      decreases AtLeastOne(maxAttempts) - attempt
    {
      var reply := server.Ask(Delete);
      made := made + [Exchange(Delete, reply)];
      if reply == Fine {
        return Ok(true), made;
      }
      if reply.Cancelled? {
        return Err(TimedOut), made;
      }
      if !reply.text.noMatchingIntents {
        return Err(DeleteFailed), made;
      }
      if attempt >= maxAttempts {
        return Ok(false), made;
      }
      attempt := attempt + 1;
      var cancelledWhileWaiting: bool := *;
      if cancelledWhileWaiting {
        return Err(TimedOut), made;
      }
    }
  }

  // ---- The retry, and the whole call ----

  /** At most so many registrations and deletes. */
  ghost predicate Within(made: Log, registers: nat, deletes: nat) {
    Count(Register, made) <= registers && Count(Delete, made) <= deletes
  }

  lemma WithinAppend(a: Log, b: Log, r: nat, d: nat, r': nat, d': nat)
    requires Within(a, r, d) && Within(b, r', d')
    ensures Within(a + b, r + r', d + d')
  {
    CountAppend(Register, a, b);
    CountAppend(Delete, a, b);
  }

  lemma DeletesOnly(made: Log)
    requires forall i :: 0 <= i < |made| ==> made[i].request == Delete
    ensures Within(made, 0, |made|)
  {
    CountAtMost(Delete, made);
    CountNone(Register, made);
  }

  function StaleIntent(r: Outcome): bool {
    r.Err? && r.error.CeremonyFailed? && r.error.alreadyRegistered
  }

  /** A deletion, whether or not it found anything but not if it failed, is
      followed by a settlement. */
  ghost predicate Retried(refresh: RefreshIntent, cosigner: Ceremony.CosignerKey,
                          deletes: Log, deleted: Result<bool, RefreshError>, second: Made, r: Outcome)
  {
    && Deletion(deletes, 6, deleted)
    && if deleted.Err? then second == SILENCE && r == Err(deleted.error)
       else OneSettlement(refresh, cosigner, second, r)
  }

  /** Delete the stale intent holding the inputs and settle again. */
  method RetryRefresh(server: Server, refresh: RefreshIntent, cosigner: Ceremony.CosignerKey)
    returns (r: Outcome, ghost deletes: Log, deleted: Result<bool, RefreshError>, ghost second: Made)
    modifies server, server.events
    ensures server.log == old(server.log) + (deletes + second.log)
    ensures server.events.heard == old(server.events.heard) + second.heard
    ensures Retried(refresh, cosigner, deletes, deleted, second, r)
  {
    second := SILENCE;
    deleted, deletes := DeleteIntent(server, STALE_INTENT_DELETE_ATTEMPTS);
    if deleted.Err? {
      r := Err(deleted.error);
    } else {
      r, second := SettleDelegate(server, refresh, cosigner);
    }
  }

  /** The stretches a refresh consists of: a settlement, the deletion of a
      stale intent, and a second settlement, with the results of the first two. */
  datatype Refreshing = Refreshing(
    first: Made,
    firstResult: Outcome,
    deletes: Log,
    deleted: Result<bool, RefreshError>,
    second: Made)
  {
    function All(): Log {
      first.log + (deletes + second.log)
    }

    function Heard(): Ceremony.Stream {
      first.heard + second.heard
    }

    /** The settlement whose result counts. */
    function Final(): Made {
      if deletes == [] then first else second
    }
  }

  const NOTHING := Refreshing(SILENCE, Err(InputsDiffer), [], Ok(false), SILENCE)

  /** The first settlement is the only one, unless it failed with an "already
      registered" message from anywhere and there is a proof at hand. */
  ghost predicate Refreshes(refresh: RefreshIntent, cosigner: Ceremony.CosignerKey, t: Refreshing, r: Outcome) {
    && OneSettlement(refresh, cosigner, t.first, t.firstResult)
    && if StaleIntent(t.firstResult) && refresh.deleteIntent.Some?
       then Retried(refresh, cosigner, t.deletes, t.deleted, t.second, r)
       else t.deletes == [] && t.second == SILENCE && r == t.firstResult
  }

  method ExecuteRefresh(server: Server, le: OutPointOrder, refresh: RefreshIntent, cosigner: Ceremony.CosignerKey)
    returns (r: Outcome, ghost t: Refreshing)
    requires Sorting.TotalPreorder(le) && Sorting.Antisymmetric(le)
    modifies server, server.events
    ensures server.log == old(server.log) + t.All()
    ensures server.events.heard == old(server.events.heard) + t.Heard()
    ensures if DeleteProofFits(refresh) then Refreshes(refresh, cosigner, t, r)
            else t == NOTHING && r == Err(InputsDiffer)
  {
    t := NOTHING;
    var fits := EnsureSameInputs(le, refresh);
    if !fits {
      return Err(InputsDiffer), t;
    }
    ghost var first;
    r, first := SettleDelegate(server, refresh, cosigner);
    t := Refreshing(first, r, [], Ok(false), SILENCE);
    if StaleIntent(r) && refresh.deleteIntent.Some? {
      ghost var deletes, second;
      var deleted;
      r, deletes, deleted, second := RetryRefresh(server, refresh, cosigner);
      t := t.(deletes := deletes, deleted := deleted, second := second);
      Associates(old(server.log), first.log, deletes + second.log);
      Associates(old(server.events.heard), first.heard, second.heard);
    }
  }

  /** The one retry happens exactly with a delete proof at hand and an
      "already registered" in the answer to the registration, in the answer to
      the request for events, or in an error that ended the ceremony itself. */
  lemma RetriesExactly(refresh: RefreshIntent, cosigner: Ceremony.CosignerKey, t: Refreshing, r: Outcome)
    requires Refreshes(refresh, cosigner, t, r)
    ensures t.deletes != []
            <==> && refresh.deleteIntent.Some? && !Unusable(refresh, cosigner)
                 && var log := t.first.log;
                    || (log[0].reply.Refused? && log[0].reply.text.alreadyRegistered)
                    || (|log| > 1 && log[1].reply.Refused? && log[1].reply.text.alreadyRegistered)
                    || (t.firstResult != Err(TimedOut) && HeardStale(cosigner, t.first))
    ensures t.second != SILENCE ==> t.deletes != []
  {
    if !Unusable(refresh, cosigner) {
      var log := t.first.log;
      if log[0].reply.Registered? {
        assert log[1] == log[1..][0];
        if log[1].reply == Fine {
          var own := Ceremony.Session(log[0].reply.intentId, cosigner);
          var last :| FollowedUpTo(own, Made(log[1..][1..], t.first.heard), last, t.firstResult);
        }
      }
    }
  }

  /** The ceremony under the granted intent id ended with an error whose text reads "already registered". */
  ghost predicate HeardStale(cosigner: Ceremony.CosignerKey, made: Made) {
    && |made.log| > 1 && made.log[0].reply.Registered? && made.log[1].reply == Fine
    && Ceremony.Run(Ceremony.Session(made.log[0].reply.intentId, cosigner), made.heard).1
       == Ceremony.Failed(Ceremony.External(true))
  }

  lemma RefreshBudget(refresh: RefreshIntent, cosigner: Ceremony.CosignerKey, t: Refreshing, r: Outcome)
    requires Refreshes(refresh, cosigner, t, r)
    ensures if refresh.deleteIntent.Some? then Within(t.All(), 2, 6)
            else Within(t.All(), 1, 0)
  {
    SettlementCounts(refresh, cosigner, t.first, t.firstResult);
    if StaleIntent(t.firstResult) && refresh.deleteIntent.Some? {
      RetryBudget(refresh, cosigner, t.deletes, t.deleted, t.second, r);
      WithinAppend(t.first.log, t.deletes + t.second.log, 1, 0, 1, STALE_INTENT_DELETE_ATTEMPTS);
    } else {
      assert t.All() == t.first.log;
    }
  }

  lemma RetryBudget(refresh: RefreshIntent, cosigner: Ceremony.CosignerKey,
                    deletes: Log, deleted: Result<bool, RefreshError>, second: Made, r: Outcome)
    requires Retried(refresh, cosigner, deletes, deleted, second, r)
    ensures Within(deletes + second.log, 1, 6)
  {
    DeletesOnly(deletes);
    if deleted.Ok? {
      SettlementCounts(refresh, cosigner, second, r);
    }
    WithinAppend(deletes, second.log, 0, STALE_INTENT_DELETE_ATTEMPTS, 1, 0);
  }

  /** The settlement `made` registered, and the events it heard then are a
      ceremony completed with `txid` under the intent id it was granted. */
  ghost predicate SettledUnderOwnId(cosigner: Ceremony.CosignerKey, made: Made, txid: Txid) {
    && made.log != [] && made.log[0].request == Register && made.log[0].reply.Registered?
    && CeremonySafety.Completed(Ceremony.Session(made.log[0].reply.intentId, cosigner), made.heard, txid)
  }

  /** A refresh that reports a txid heard, in the settlement it reports on, a
      batch with the very intent its own registration was granted start, its
      own key called to sign, a finalization, and that txid finalized. */
  lemma RefreshedMeans(refresh: RefreshIntent, cosigner: Ceremony.CosignerKey, t: Refreshing, r: Outcome)
    requires Refreshes(refresh, cosigner, t, r) && r.Ok?
    ensures SettledUnderOwnId(refresh.cosigner, t.Final(), r.value)
  {
    var made := t.Final();
    assert OneSettlement(refresh, cosigner, made, r);
    SettlementMeans(refresh, cosigner, made, r);
  }

  lemma SettlementMeans(refresh: RefreshIntent, cosigner: Ceremony.CosignerKey, made: Made, r: Outcome)
    requires OneSettlement(refresh, cosigner, made, r) && r.Ok?
    ensures cosigner == refresh.cosigner && SettledUnderOwnId(cosigner, made, r.value)
  {
    var own := Ceremony.Session(made.log[0].reply.intentId, cosigner);
    var last :| FollowedUpTo(own, Made(made.log[1..][1..], made.heard), last, r);
    CeremonySafety.SettledMeans(own, made.heard, r.value);
  }

  /** What one refresh may send, whatever the server answers and wherever the
      deadline strikes: at most two registrations and seven deletes, without a
      delete proof at most one registration and no delete. */
  ghost predicate InBudget(refresh: RefreshIntent, made: Log) {
    if refresh.deleteIntent.Some?
    then Within(made, 2, 7)
    else Within(made, 1, 0)
  }

  /** Refresh under the overall deadline. Nothing leaves if the delete proof
      covers other inputs; otherwise the intent is withdrawn, by exactly one
      request, if and only if the ceremony failed with a proof at hand. */
  method RefreshEscrow(server: Server, le: OutPointOrder, refresh: RefreshIntent, cosigner: Ceremony.CosignerKey)
    returns (r: Outcome, ghost t: Refreshing, ghost withdrawal: Log)
    requires Sorting.TotalPreorder(le) && Sorting.Antisymmetric(le)
    modifies server, server.events
    ensures server.log == old(server.log) + t.All() + withdrawal
    ensures server.events.heard == old(server.events.heard) + t.Heard()
    ensures if DeleteProofFits(refresh) then Refreshes(refresh, cosigner, t, r)
            else t == NOTHING && withdrawal == [] && r == Err(InputsDiffer)
    ensures withdrawal == [] || (|withdrawal| == 1 && withdrawal[0].request == Delete)
    ensures withdrawal != [] <==> r.Err? && refresh.deleteIntent.Some? && DeleteProofFits(refresh)
    ensures InBudget(refresh, t.All() + withdrawal)
    ensures r.Ok? ==> SettledUnderOwnId(refresh.cosigner, t.Final(), r.value)
  {
    withdrawal := [];
    var fits := EnsureSameInputs(le, refresh);
    if !fits {
      t := NOTHING;
      assert t.All() + withdrawal == [];
      return Err(InputsDiffer), t, withdrawal;
    }
    r, t := ExecuteRefresh(server, le, refresh, cosigner);
    RefreshBudget(refresh, cosigner, t, r);
    if r.Ok? {
      RefreshedMeans(refresh, cosigner, t, r);
    }
    withdrawal := WithdrawAfterFailure(server, refresh, r, t.All());
  }

  /** One attempt to delete the intent of a failed refresh. */
  method WithdrawAfterFailure(server: Server, refresh: RefreshIntent, r: Outcome, ghost made: Log)
    returns (ghost withdrawal: Log)
    requires if refresh.deleteIntent.Some? then Within(made, 2, 6) else Within(made, 1, 0)
    modifies server`log
    ensures server.log == old(server.log) + withdrawal
    ensures withdrawal == [] || (|withdrawal| == 1 && withdrawal[0].request == Delete)
    ensures withdrawal != [] <==> r.Err? && refresh.deleteIntent.Some?
    ensures InBudget(refresh, made + withdrawal)
  {
    withdrawal := [];
    if r.Err? && refresh.deleteIntent.Some? {
      var withdrawn;
      withdrawn, withdrawal := DeleteIntent(server, 1);
      DeletesOnly(withdrawal);
      WithinAppend(made, withdrawal, 2, STALE_INTENT_DELETE_ATTEMPTS, 0, 1);
    } else {
      assert made + withdrawal == made;
    }
  }
}
