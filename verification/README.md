# Escrow protocol: model and proofs

A Dafny model of the escrow library: two parties and an arbiter hold funds in
a taproot output together with a server, spend them offchain in two phases
(submit, then finalize), and refresh them in batch ceremonies. The model
follows the code branch by branch; the proofs cover every input, every event
stream and every run, with arbitrary server answers.

## What is modelled

**The two-phase spend** (`escrow/src/client.rs`, `spend_store.rs`).
`SpendStore` is the keyed durable store, a class whose operations may fail and
whose failed writes may still have taken effect. `SpendClient` holds the
client methods in their own imperative form. Their only way to the store and
to the network is a `World`, which carries out an operation only where
`SpendProtocol` asks for it and puts it on a trace; so each method is proved
to follow `SpendProtocol` in what it does and in what order.
`SpendProtocol` gives the program as a state machine: a program counter
(`Pc`), the effect it requests next, and how a reply moves it on.
`SpendRuns` puts any number of calls, one at a time per id, on one store and
an asynchronous network: a crash at any effect, requests that arrive late or
never, lost replies, a server that answers anything, and (where stated) a
store that somebody tampers with. The log of a run is its trace of messages
sent, handled and received and of finished calls. The results:

- `SpendInvariants`, `SpendNetwork`: what every step keeps.
- `SpendSafety`: no accepted transaction loses its record; stages, txids and tokens.
- `SpendCommitment`: checkpoint signatures leave only after a verified co-signature.
- `SpendProvenance`: what is submitted and finalized is what the caller supplied and the server returned, signature by signature.
- `SpendSuccess`: success means finalized, and stays so.
- `SpendRecovery`: a crash after the submitted stage changes nothing, and exactly when that holds.
- `SpendTornWrite`: the run in which a stored stage goes back.

**The batch ceremony** (`escrow/src/delegate.rs`). `Ceremony.Settlement` has the
locals of the event loop as fields and refines the functions `Handle` and
`Run`; `CeremonySafety` proves the phase invariant, the order of calls, and
what signatures and results mean, and `CeremonyCourse` reads every local,
every call and every end of a ceremony off the events alone. `Refresh` adds the stale-intent retry and
the withdrawal around it, with a log of every request and every event
received. `Rotation` finds escrow outputs across server keys, and
`Preparation` goes from the outpoints a caller names to what a refresh spends
and creates.

**The contract** (`escrow/src/contract.rs`). `Contract` and `Policy` hold the
options, the six leaves and a small tapscript interpreter's verdict on them
(`Tapscript`, after BIP 342 "Rules for signature opcodes", BIP 112 and BIP 68
"Specification"). `MergeTree` is the lightest-two merge for any number of
leaves; `Taproot` feeds the tree to a builder and states what the output
commits to (BIP 341, "Constructing and spending Taproot outputs" and "Script
validation rules"); `Escrow` is the contract made of these, and
`EscrowOutput` its exact script tree and who can spend its output, by the key
path or the script path.

**Signatures and money** (`escrow/src/spend.rs`, `escrow/src/lib.rs`).
`Signing` is the co-signature check and signature merging, `Cosigning` what
an accepted co-signature means for a contract, `ReleasePlan` the split of a
release.

## How it is modelled

- Cryptography is symbolic (`Bitcoin`): hashes are the terms they hash, a
  txid is the unsigned transaction, a signature verifies exactly for the key
  and message it was made for. Adversarial values have constructors of their
  own, and so has the key whose secret nobody knows; options may name it too.
- Hex and base64 fields are `Encoded(value)` or `Garbled`. The random attempt
  token is a parameter. Ordered maps of leaf entries are sequences in key order.
- Library code is taken at its documented behaviour: the checksig key
  extraction returns the keys pushed right before a signature opcode, the
  taproot builder keeps one slot per depth and refuses leaves below 128, the
  nodes of a transaction graph have distinct txids.
- `remove_if` and `save_if` are single effects; calls for one id do not
  overlap, as the repository asks of its users. That the store is written by
  nobody else is a premise (`Untampered`) only where a lemma says so.
- The server is arbitrary. `SpendSafety.NoLiveTransactionLost` rests on two
  premises about rejections: `RejectsHonestly` (the server never turns down a
  submit it has accepted) and, built into the runs, `SpendRuns.LocalFailure` (a
  call that gets no answer from the server is told of a timeout or another
  local failure). `SpendRuns.TurnsDown` spells out the statuses meant: four
  codes, without word of a duplicate.
- 64-bit sums of amounts wrap around, as they do where Rust's overflow checks
  are off; where they are on, the sums that wrap here panic instead.
- The ceremony's endless loop is a loop over an arbitrary finite stream of
  events; a deadline shows as a cancelled request or a stream that stops.

## What the proofs found

Properties one might expect of the code that do not hold of it, each with the
exact condition under which they do:

- A stored stage can go back from finalized to submitted, if marking the
  record is reported as failed but took effect and an earlier save had failed
  too, honest as the server may be (`SpendSafety.StepKeepsRecord`,
  `SpendTornWrite.StageNotMonotone`). It never goes back to submitting.
- The fresh path does not check what the resume path checks. A server that
  answers with no checkpoints gets them recorded and finalized, but the record
  can never be resumed (`SpendRecovery.EmptyAnswerStrands`,
  `SpendRecovery.RecordedCanResume`). A checkpoint without inputs passes the
  checks before sending and panics after the server has accepted
  (`SpendRecovery.ChecksMissEmptyCheckpoint`, `SpendRecovery.AcceptedSubmitRecorded`).
- The co-signature check takes the leaf version for the sighash from the leaf
  entry and for the commitment from the control block; the accepted signature
  is usable on chain exactly if the entry says tapscript
  (`Cosigning.CosignatureUsable`), and accepted ones that are not exist for
  every contract and leaf (`Cosigning.UnusableCosignatureAccepted`).
- A delay whose low 16 bits are zero passes validation and is no wait
  (`Policy.ExitMustWait`, `Policy.ValidDelayMayBeNoWait`).
- A fee list whose sum wraps around 64 bits overpays
  (`ReleasePlan.PlanConserves`, `ReleasePlan.WrappedFeesOverpay`).
- Two internal errors end a ceremony, and no others: a VTXO chunk that arrives
  while signing, and nonces that reach the number of nodes of the graph while
  some node has none, because some of them are for a foreign node
  (`CeremonySafety.InternalFailures`, `CeremonySafety.LateChunkReachable`,
  `CeremonySafety.ForeignNonceReachable`).

Where prose and code differ, the model follows the code: `README.md:39` says
a spend record is removed after finalize, while `finalize_and_record` keeps it
with stage finalized (as `README.md:245` says). The comment at
`escrow/src/client.rs:449-455` lets any recorded spend jump straight to
finalization, while the code does so from the submitted stage only.

## Model

| member | source | states |
|---|---|---|
| `SpendSafety.NoLiveTransactionLost` | escrow/src/client.rs:720-749 | in every run with crashes, losses, delays and torn writes, once the server has accepted a submit for an id, that id has a record with the txid of that transaction, as long as the server turns down no submit it accepts with one of the four codes and no word of a duplicate |
| `SpendSafety.RejectedIsDead` | escrow/src/client.rs:811-828 | a submit that was turned down was not accepted and will not be |
| `SpendSafety.ClearsExactly` | escrow/src/client.rs:720-828 | an answered submit leads to clearing the record exactly if it was a first attempt and the status is one of the four codes and not about a duplicate |
| `SpendSafety.RefusedSubmit` | escrow/src/client.rs:720-749 | in every run any other refusal, and any refusal of a later attempt, ends the call with the stored record exactly as it was |
| `SpendRecovery.TurnedDownIsCleared` | escrow/src/client.rs:720-749 | a first attempt that is turned down leaves no record, if the store works |
| `SpendSafety.OtherAttemptsKept` | escrow/src/spend_store.rs:136-177 | in every run, even with other writers, clearing and marking touch only the record of the own id, and only while it carries the own token or none |
| `SpendSafety.StepKeepsRecord` | escrow/src/client.rs:504-862 | one step keeps id, txid and token of a record; its stage drops if and only if a rescuing save overwrites a finalized record, which takes a torn write and goes back to submitted only; it is removed only while submitting, by the call that wrote it |
| `SpendSafety.StageMonotone` | escrow/src/spend_store.rs:31-44 | over any stretch of a run whose failed writes leave no trace, the stage of an existing record never drops and its txid and token never change |
| `SpendSafety.SubmitOnlyWhileSubmitting` | escrow/src/client.rs:711-749 | a submit is sent only while the stored record is at submitting and for the recorded transaction |
| `SpendSafety.RecordKeeps` | escrow/src/client.rs:759-862 | what one exchange of a call may do to the record of its own id |
| `SpendSafety.BoundAlways` | escrow/src/client.rs:504-577 | every call stays bound to the transaction its caller supplied, first attempts to exactly the caller's arguments |
| `SpendTornWrite.StageNotMonotone` | escrow/src/client.rs:787-799 | a concrete run, written by the protocol alone and with a server that accepts exactly what it says, in which a stored stage drops |
| `SpendTornWrite.StageDrops` | escrow/src/client.rs:787-799 | this can befall any spend whose submit an honest server accepts |
| `SpendCommitment.FinalizeNeedsEvidence` | escrow/src/client.rs:614-663 | in every run, even over tampered records, a finalize is sent only by a call holding a PSBT of that very transaction that passes the whole co-signature check on its own |
| `SpendCommitment.SignaturesOnlyAfterCommitment` | escrow/src/client.rs:711-785 | a message that carries a checkpoint signature is a finalize, and before it the client had received a validly co-signed answer to its own submit of that transaction |
| `SpendProvenance.FinalizeCarries` | escrow/src/client.rs:711-785 | in every run each finalize, resumed or not, carries exactly what the server returned for a spend begun for that id, with its witness scripts and, slot by slot, the signature of the server or else of the first party that has one |
| `SpendProvenance.SubmitCarries` | escrow/src/client.rs:524-577 | in every run each submit carries the transaction and the checkpoints of a spend begun for that id that passed the checks |
| `SpendProvenance.UpgradeMerges` | escrow/src/client.rs:757-785 | the checkpoints finalized and those recorded are the merged ones, and the recorded evidence is the checked co-signed transaction |
| `SpendProvenance.NewRecordHolds` | escrow/src/client.rs:546-560 | the new record holds all the caller supplied, so resuming it sends the same submit with the same parties |
| `SpendProvenance.ChecksAreMergeability` | escrow/src/client.rs:524-544 | the checks before sending accept exactly the non-empty lists onto which all party signatures can be merged |
| `SpendSuccess.SuccessMeansFinalized` | escrow/src/client.rs:838-862 | a call that returned a txid implies the server acknowledged a finalize of exactly that txid, and it is the supplied transaction's |
| `SpendSuccess.SuccessIsFinal` | escrow/src/client.rs:599-613 | after a success nothing is ever sent for the id again, every later call returns the same txid, fails to read the store, or is refused for another transaction, and the record stays finalized |
| `SpendRecovery.CrashTransparent` | escrow/src/client.rs:614-663 | going on after saving the submitted record and resuming that record after a crash are the same state if and only if the checkpoints are non-empty inputs of the ark transaction |
| `SpendRecovery.CrashChangesNothing` | escrow/src/client.rs:756-799 | crashed and resumed, or not crashed: the same finalize with the same checkpoints, the same final records, the same result |
| `SpendRecovery.UndisturbedResume` | escrow/src/client.rs:504-663 | an undisturbed retry of a reachable submitted record, by id or with its transaction, sends no submit and exactly one finalize, and ends with the finalized record |
| `SpendRecovery.UncrashedRun` | escrow/src/client.rs:759-862 | what the uncrashed call does from the submitted stage on, effect by effect |
| `SpendRecovery.AcknowledgedSucceeds` | escrow/src/client.rs:838-862 | after an acknowledged finalize the call succeeds unless the store fails, whether or not the record was its own to mark, and sends nothing more |
| `SpendRecovery.RescueAttempted` | escrow/src/client.rs:765-799 | if the submitted record could not be saved, a call that does not succeed ends with one more attempt to save it |
| `SpendRecovery.SubmittedReleases` | escrow/src/client.rs:614-663 | of any record at the submitted stage, checkpoints are released exactly if the evidence is a co-signed PSBT of the recorded txid and every checkpoint is one of its inputs, and then exactly these |
| `SpendRecovery.SubmittingResends` | escrow/src/client.rs:664-699 | of any record at the submitting stage, the submit is repeated exactly if it can be read, and exactly as recorded |
| `SpendRecovery.StoredSubmittedResumes` | escrow/src/client.rs:614-663 | the evidence of a reachable submitted record always passes again; only its checkpoints can make a resume fail |
| `SpendRecovery.AcceptedSubmitRecorded` | escrow/src/client.rs:1018-1062 | a co-signed answer leads to a submitted record if and only if no checkpoint lacks inputs and the returned ones fit the parties' |
| `SpendRecovery.RecordedCanResume` | escrow/src/client.rs:642-663 | with a signing party and valid checkpoints, the new record can be resumed if and only if the server returned any checkpoint |
| `SpendRecovery.EmptyAnswerStrands` | escrow/src/client.rs:750-785 | an answer without checkpoints is recorded as submitted but its record is refused on resume |
| `SpendRecovery.ChecksMissEmptyCheckpoint` | escrow/src/client.rs:524-556 | a checkpoint without inputs passes the checks, and the call panics after acceptance |
| `SpendRecovery.ScriptsComeBack` | escrow/src/client.rs:1018-1062 | the witness scripts of the submitted checkpoints come back on the returned ones, whatever their order, and nothing else changes |
| `SpendInvariants.InvAlways` | escrow/src/client.rs:504-862 | in every untampered run every record is well formed with checkable evidence, and every call fits the record of its id |
| `SpendInvariants.LocalStep` | escrow/src/client.rs:599-862 | one exchange keeps call and record together, whichever way a failed write went |
| `SpendInvariants.LocalFrame` | escrow/src/spend_store.rs:150-177 | a call touches the record of no other id |
| `SpendInvariants.UpgradeOk` | escrow/src/client.rs:750-785 | a successful submit makes a record of the same spend whose evidence checks on its own |
| `SpendNetwork.NetAlways` | escrow/src/client.rs:1081-1103 | in every run each reply answers one sent request, no request is handled twice, and a waiting call holds its own request |
| `SpendClient.SpendEscrowOffchain` | escrow/src/client.rs:504-577 | the operations made on store and network are a run of the protocol from loading to the returned result: saved before submitted, finalized after upgraded, nothing else |
| `SpendClient.ResumePendingSpend` | escrow/src/client.rs:587-596 | likewise for a resume by id, `None` exactly when nothing is recorded |
| `SpendClient.ResumeRecorded` | escrow/src/client.rs:599-701 | takes the protocol, operation by operation, from a loaded record at any stage to the returned result |
| `SpendClient.SubmitAndFinalize` | escrow/src/client.rs:711-800 | likewise from a submit on, clearing the record only after a definitive rejection of a first attempt |
| `SpendClient.UpgradeAndFinalize` | escrow/src/client.rs:759-799 | likewise from saving the submitted record on, with the rescuing save |
| `SpendClient.FinalizeAndRecord` | escrow/src/client.rs:838-862 | likewise from finalize on |
| `SpendClient.World.Ask` | escrow/src/client.rs:1065-1079 | a request goes out only where the protocol asks for it, is put on the trace with its reply, and the reply moves the protocol on |
| `SpendClient.World.SaveRecord` | escrow/src/spend_store.rs:120-122 | likewise for a save, with the records it leaves behind |
| `SpendClient.CheckCheckpoints` | escrow/src/client.rs:524-548 | accepts exactly the checkpoint lists a spend may start with |
| `SpendClient.CheckAllInputs` | escrow/src/client.rs:642-655 | true exactly if every checkpoint is spent by the ark transaction |
| `SpendStore.Store.Save` | escrow/src/spend_store.rs:222-243 | the record is written; on failure it is or it is not |
| `SpendStore.Store.Load` | escrow/src/spend_store.rs:245-256 | the record of the id, if there is one, or a failure |
| `SpendStore.Store.Remove` | escrow/src/spend_store.rs:258-268 | the record is gone; on failure it is or it is not |
| `SpendStore.Store.RemoveIf` | escrow/src/spend_store.rs:150-158 | removes exactly a record that carries the token, and reports whether it did |
| `SpendStore.Store.SaveIf` | escrow/src/spend_store.rs:169-177 | overwrites exactly a record that carries the same token, and reports whether it did |
| `SpendStore.DecodeEncode` | escrow/src/spend_store.rs:272-280 | decoding encoded fields gives them back |
| `CeremonySafety.CeremonyInvariant` | escrow/src/delegate.rs:197-444 | for every event stream each optional local is present exactly in its phases, and only two of the internal failures can be reported |
| `CeremonySafety.InternalFailures` | escrow/src/delegate.rs:243-388 | those two, exactly: a VTXO chunk while signing, and nonces that reach the number of nodes without covering them |
| `CeremonySafety.LateChunkReachable` | escrow/src/delegate.rs:249-254 | the first of them does happen |
| `CeremonySafety.ForeignNonceReachable` | escrow/src/delegate.rs:326-388 | and so does the second, by nonces for a node that is not in the graph |
| `CeremonySafety.CallOrder` | escrow/src/delegate.rs:217-444 | outgoing calls are a prefix of confirm, nonces, signatures, at most one set of forfeits; the phase never goes back |
| `CeremonySafety.SignaturesCoverGraph` | escrow/src/delegate.rs:326-388 | whenever partial signatures are submitted, the nonces aggregated and the nodes signed are exactly the nodes of the graph |
| `CeremonySafety.SettledMeans` | escrow/src/delegate.rs:390-429 | a result implies a start of a batch with our intent, a start of signing with our key, a finalization, and a finalized event with that txid, in this order |
| `CeremonyCourse.RunMatchesCourse` | escrow/src/delegate.rs:197-444 | while a ceremony runs, every local and the whole list of its calls are what its events, cut at the join, the start of signing and the finalization, add up to |
| `CeremonyCourse.CourseCuts` | escrow/src/delegate.rs:221-242 | the cuts are at the first batch start with our intent, the first start of signing after it and the first finalization after that |
| `CeremonyCourse.EndsExactly` | escrow/src/delegate.rs:217-444 | after every event the ceremony goes on, returns a txid, or fails, and with which error, exactly as its course says; a batch failure ends it exactly if it names the joined batch |
| `CeremonyCourse.ForfeitsExactly` | escrow/src/delegate.rs:399-415 | past its finalization, and so whenever it returns a txid, it has submitted forfeits if and only if a connector chunk was heard in time, and then once and last |
| `CeremonyCourse.SettledForfeited` | escrow/src/delegate.rs:419-429 | a txid is only returned past the finalization |
| `Ceremony.Settlement.OnEvent` | escrow/src/delegate.rs:217-444 | one event changes the locals and sends the calls the event function says |
| `Ceremony.Settlement.StartSigning` | escrow/src/delegate.rs:280-325 | likewise for the start of signing |
| `Ceremony.Settlement.SignWhenComplete` | escrow/src/delegate.rs:326-388 | likewise for aggregated nonces, signing node by node |
| `Ceremony.Settlement.Forfeit` | escrow/src/delegate.rs:390-418 | likewise for finalization, submitting forfeits if connectors arrived |
| `Ceremony.Settlement.Settle` | escrow/src/delegate.rs:217-444 | the loop handles the events received one by one, ends as their run does, at the first end and at no other event |
| `Ceremony.EndedStays` | escrow/src/delegate.rs:419-444 | once ended, further events change nothing |
| `Refresh.RefreshEscrow` | escrow/src/client.rs:357-404 | nothing leaves unless the outpoints of both proofs are equal as multisets; otherwise the requests are those of a refresh, within two registrations and seven deletes (one and none without a proof), plus exactly one withdrawal if and only if it failed with a proof at hand; a reported txid is one completed under the intent id of its own registration |
| `Refresh.ExecuteRefresh` | escrow/src/refresh.rs:301-343 | a second settlement if and only if the first failed as already registered with a proof at hand, and the deletion in between did not fail |
| `Refresh.RetriesExactly` | escrow/src/refresh.rs:138-142 | the deletion and the retry happen exactly with a proof at hand and an "already registered" in the answer to the registration or to the request for events, or in the error that ended the ceremony |
| `Refresh.RetryRefresh` | escrow/src/refresh.rs:321-340 | deletion, then settlement whether or not anything was deleted |
| `Refresh.RefreshBudget` | escrow/src/refresh.rs:301-343 | at most two registrations and six deletes, without a proof one and none |
| `Refresh.RefreshedMeans` | escrow/src/refresh.rs:301-343 | the txid of a refresh comes from the events received in the settlement it reports on: a batch started with the intent id its own registration was granted, its key was called to sign, the batch was finalized, and that txid with it |
| `Refresh.SettleDelegate` | escrow/src/delegate.rs:153-197 | one registration, one event stream about its own inputs, then the calls and the result of the ceremony over the events received under the granted intent id; nothing at all with a foreign key or an input-less forfeit |
| `Refresh.OpenAndFollow` | escrow/src/delegate.rs:178-197 | the event stream and what follows it, under the granted intent id |
| `Refresh.FollowStream` | escrow/src/delegate.rs:197-444 | the calls and the result are those of the ceremony over exactly the events received, or the deadline |
| `Refresh.DeleteIntent` | escrow/src/refresh.rs:268-292 | `false` only after every allowed attempt, and at least one, found nothing; no further attempt after any other answer |
| `Refresh.EnsureSameInputs` | escrow/src/refresh.rs:118-136 | accepts exactly a delete proof whose inputs but the first spend what those of the register proof spend, as multisets |
| `Refresh.FitsWhateverMessage` | escrow/src/refresh.rs:115-136 | proofs with inputs m, s and m', t fit exactly if s and t spend the same, whatever m and m' are |
| `Refresh.SameInputsMeans` | escrow/src/refresh.rs:118-136 | comparing the sorted outpoints compares as multisets what all inputs but the first of both proofs spend |
| `Refresh.ForfeitInputOutpoints` | escrow/src/delegate.rs:447-459 | the first outpoint of each forfeit, or a failure if one has no input |
| `Rotation.CandidateContracts` | escrow/src/client.rs:885-913 | the contract itself first, then one contract for each other known server key that can form one, none twice |
| `Rotation.CandidatesTellApart` | escrow/src/client.rs:885-913 | no two candidates pay to the same script |
| `Rotation.ResolveFaithful` | escrow/src/client.rs:969-1004 | requested order and outpoints are kept, each listed VTXO goes with the one candidate that owns its script, and it fails exactly if one is not listed or not owned |
| `Rotation.ContractForScript` | escrow/src/client.rs:934-943 | a candidate with that script, or none if there is none |
| `Rotation.BuildIntentInputs` | escrow/src/refresh.rs:345-371 | every input spends its VTXO by the chosen leaf of its own contract |
| `Rotation.PrepareRefreshResolved` | escrow/src/refresh.rs:184-215 | one output of the whole 64-bit amount at the contract of the active server, a delete proof over the same inputs, or a failure exactly if that key cannot form a contract |
| `Preparation.PrepareRefresh` | escrow/src/client.rs:323-349 | succeeds exactly if every outpoint is listed and pays to the escrow under a known server and the active server fits; then it spends the listed outputs in order, each by a leaf that output commits to, and creates one output of their listed 64-bit total at the active contract |
| `Preparation.ResolutionServes` | escrow/src/client.rs:969-1004 | resolution over the candidates succeeds exactly on refreshable outpoints and pairs each with a contract of the same parties that owns it |
| `Preparation.PreparedProofsFit` | escrow/src/refresh.rs:193-213 | proofs whose transaction inputs are a message commitment and then the prepared inputs pass the check against a delete proof for other inputs |
| `Policy.TwoOfThreeIsAPair` | escrow/src/contract.rs:37-45 | two of the three parties are present exactly if both members of some signer set are |
| `Policy.SpendingPolicy` | escrow/src/contract.rs:175-204 | some leaf is satisfiable exactly when two of the three parties sign and either the server signs or the delay is reached |
| `Policy.CollaborativeAccepts` | escrow/src/contract.rs:175-188 | the witnesses a collaborative leaf accepts, exactly |
| `Policy.UnilateralAccepts` | escrow/src/contract.rs:190-204 | the witnesses a unilateral leaf accepts, and when, exactly |
| `Policy.ExitMustWait` | escrow/src/contract.rs:59-65 | two parties without the server must wait exactly if the low 16 bits of the delay are non-zero |
| `Policy.ValidDelayMayBeNoWait` | escrow/src/contract.rs:59-65 | valid options with a delay that is no wait exist |
| `Contract.Validate` | escrow/src/contract.rs:49-68 | accepts exactly four pairwise different keys with a non-zero delay whose disable bit is clear, and reports which check failed |
| `Contract.LeavesDistinct` | escrow/src/contract.rs:154-163 | the six leaves differ pairwise |
| `Contract.LeavesFixServer` | escrow/src/contract.rs:73-102 | the leaves of the same parties with two different servers differ |
| `MergeTree.MergeTwoLightest` | escrow/src/contract.rs:255-264 | the loop computes the repeated merge of the two lightest nodes |
| `MergeTree.MergedLeaves` | escrow/src/contract.rs:230-264 | for any list of leaves, the tree holds each exactly as often as given |
| `MergeTree.MergedBalanced` | escrow/src/contract.rs:230-264 | for any number of leaves of weight one, all depths are the floor or the ceiling of its binary logarithm |
| `MergeTree.MergeKeepsLevel` | escrow/src/contract.rs:255-264 | the loop invariant: perfect nodes of two neighbouring sizes and at most one balanced node between them |
| `MergeTree.Kraft` | escrow/src/contract.rs:230-264 | the Kraft sum of a merged tree is one |
| `Taproot.BuilderRebuildsTree` | escrow/src/contract.rs:265-283 | traversal into the builder gives back exactly the tree, for trees of depth up to 128 and no others |
| `Taproot.AddSubtree` | escrow/src/contract.rs:273-283 | adding a subtree leaf by leaf is placing its finished node |
| `Taproot.PathsLeadToRoot` | escrow/src/contract.rs:166-170 | every listed merkle path folds to the root |
| `Taproot.CommitmentsExact` | escrow/src/spend.rs:284-313 | an output commits to a script by a control block exactly when it is a leaf of the tree with that path |
| `Escrow.BuildTaproot` | escrow/src/contract.rs:230-271 | building never fails and yields the tree of the six leaves |
| `Escrow.New` | escrow/src/contract.rs:114-122 | a contract exactly for valid options |
| `Escrow.WithServer` | escrow/src/contract.rs:132-136 | the contract of the same parties with another server, if valid |
| `Escrow.TreeIsShallow` | escrow/src/contract.rs:230-264 | the six leaves sit at depth two or three |
| `Escrow.ControlBlocksCommit` | escrow/src/contract.rs:166-170 | control blocks exist exactly for the six leaves, and the output commits to each by its own |
| `Escrow.OnlyLeavesCommitted` | escrow/src/spend.rs:284-313 | no control block makes the output commit to anything else |
| `EscrowOutput.OutputPolicy` | escrow/src/contract.rs:230-271 | the output of every contract can be spent, by whatever path, exactly if two of the three parties sign and either the server does or the delay is reached; nobody can use the internal key |
| `EscrowOutput.EscrowTreeIs` | escrow/src/contract.rs:235-264 | the exact tree of every contract, script by script and opcode by opcode |
| `Escrow.ScriptPubkeyFixesServer` | escrow/src/contract.rs:138-143 | contracts that differ only in the server pay to different scripts |
| `Signing.CosignatureSound` | escrow/src/spend.rs:241-277 | an accepted answer changes the local PSBT only at the server's slot, to a valid default-type signature |
| `Signing.CosignatureClosed` | escrow/src/spend.rs:241-277 | what the check returns it accepts again, unchanged |
| `Signing.MergeKeepsCosignature` | escrow/src/spend.rs:340-361 | merging further signatures keeps an accepted PSBT accepted |
| `Signing.MergeArkTxSigs` | escrow/src/spend.rs:340-361 | the in-place loops compute the base-biased union, or leave the base alone |
| `Signing.MergeIdempotent` | escrow/src/spend.rs:340-361 | merging a PSBT into itself changes nothing |
| `Signing.MergeAssociative` | escrow/src/spend.rs:340-361 | merging is associative |
| `Signing.ColumnSignatures` | escrow/src/client.rs:1105-1126 | each slot ends up with the server's signature, or else the first party's that has one, and with none if nobody signed |
| `Signing.PartyOrderIrrelevant` | escrow/src/client.rs:1105-1126 | the order of the parties changes neither the slots nor, where they agree, the signatures |
| `Signing.MergeFromMerges` | escrow/src/client.rs:1105-1126 | merging succeeds exactly when every position fits, and merges each on its own |
| `Cosigning.CosignedByEscrowServer` | escrow/src/spend.rs:241-332 | if input 0 pays from an escrow, an accepted co-signature is by its own server over one of its three collaborative leaves |
| `Cosigning.CosignatureAccepted` | escrow/src/spend.rs:188-277 | for a prepared PSBT exactly the answers for the same transaction with a valid default-type server signature are accepted |
| `Cosigning.AcceptsExactly` | escrow/src/spend.rs:188-332 | exactly which answers are accepted for any local PSBT: same transaction, all previous outputs known, first leaf committed to and naming three keys, valid default-type signature of the third |
| `Cosigning.CosignedIsSpendable` | escrow/src/spend.rs:241-277 | with the two parties' signatures an accepted co-signature is a complete witness |
| `Cosigning.CosignatureUsable` | escrow/src/spend.rs:188-224 | an accepted co-signature is valid on chain exactly if the recorded leaf version is the tapscript one |
| `Cosigning.UnusableCosignatureAccepted` | escrow/src/spend.rs:188-277 | for every contract, leaf and other leaf version some accepted co-signature is not |
| `Cosigning.LeafNamesServer` | escrow/src/spend.rs:316-332 | the key extracted from a collaborative leaf is the contract's server |
| `Cosigning.ExitLeafRefused` | escrow/src/spend.rs:316-332 | unilateral leaves are refused |
| `ReleasePlan.PlanConserves` | escrow/src/lib.rs:31-58 | a plan is for the whole escrow, the buyer gets what the 64-bit fee sum leaves, and it pays out exactly the total if and only if the fees fit in 64 bits |
| `ReleasePlan.PlanPartitions` | escrow/src/lib.rs:31-58 | paid and discarded fees are an order-preserving partition; buyer and paid delegate fees are at least dust |
| `ReleasePlan.DelegateBuyerGetsDiscarded` | escrow/src/lib.rs:31-58 | the delegate buyer gets the offchain amount plus the discarded fees, if and only if adding these to the wrapped fees paid does not wrap around |
| `ReleasePlan.PlanFails` | escrow/src/lib.rs:31-58 | a plan fails exactly when the fees, or the dust on top of them, exceed the total, if and only if the fees fit in 64 bits or exceed the total even when wrapped |
| `ReleasePlan.WrappedFeesOverpay` | escrow/src/lib.rs:31-58 | fees that wrap around are paid out on top of the total |

## Left out

- Overlapping calls for one id, and writers of the store other than this client: the repository asks its users to avoid them. Tampering is covered where `SpendCommitment.FinalizeNeedsEvidence` says so.
- File system detail of the file store (temporary file, sync, rename): a failed write is modelled as applied or not; a power loss that undoes a reported write is not.
- Server behaviour beyond its answers: whether the network really completes a finalized transaction.
- gRPC, TLS, timers, tracing, the server-info lock and the Ruby extension. The delay between delete attempts is a point where the deadline may strike.
- Key tweaking, sighash bytes, nonce generation and text encodings, which are library code.
- Building offchain transactions, intent and forfeit PSBTs: library code; their outputs are inputs here, and `Cosigning.CosignatureAccepted` states the shape it expects of them.
- The content of VTXO and connector graphs: building one succeeds or fails with an arbitrary graph, not tied to the chunks received.
- Numeric limits of the tree code (32-bit weights, 8-bit depth) are not modelled; six leaves stay far below them.
- Listing and classifying VTXOs, address encoding, and the `find_*` wrappers: thin filters over a library list.
- Overflow panics of amount sums, in builds with overflow checks: modelled as wrapping around.
