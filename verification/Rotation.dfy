/** Finding escrow outputs across server signer rotations (client.rs, refresh.rs). */
module Rotation {
  import opened Wrappers
  import opened Bitcoin
  import opened Contract
  import opened Escrow

  // ---- Candidate contracts ----

  ghost predicate Usable(contract: EscrowContract, key: Key) {
    Valid(contract.options.(server := key))
  }

  method PushUnique(keys: seq<Key>, key: Key) returns (r: seq<Key>)
    requires Distinct(keys)
    ensures Distinct(r) && keys <= r
    ensures forall k :: k in r <==> k in keys || k == key
  {
    r := if key in keys then keys else keys + [key];
  }

  /** One contract per usable key, in order. */
  function UsableContracts(contract: EscrowContract, keys: seq<Key>): seq<EscrowContract> {
    if keys == [] then []
    else
      var front, key := keys[..|keys| - 1], keys[|keys| - 1];
      var options := contract.options.(server := key);
      UsableContracts(contract, front) + if Valid(options) then [ContractOf(options, contract.network)] else []
  }

  ghost predicate Names(candidates: seq<EscrowContract>, key: Key) {
    exists i :: 0 <= i < |candidates| && candidates[i].options.server == key
  }

  lemma {:induction false} UsableNames(contract: EscrowContract, keys: seq<Key>, key: Key)
    ensures Names(UsableContracts(contract, keys), key) <==> key in keys && Usable(contract, key)
    decreases |keys|
  {
    if keys != [] {
      var front, last := keys[..|keys| - 1], keys[|keys| - 1];
      assert keys == front + [last];
      UsableNames(contract, front, key);
      var before, all := UsableContracts(contract, front), UsableContracts(contract, keys);
      assert before <= all;
      if i :| 0 <= i < |before| && before[i].options.server == key {
        assert all[i].options.server == key;
      } else if key == last && Usable(contract, key) {
        assert all[|before|].options.server == key;
      }
    }
  }

  /** The contract for the same parties with another, usable, server. */
  ghost predicate CandidateOf(contract: EscrowContract, c: EscrowContract) {
    && Usable(contract, c.options.server)
    && c == ContractOf(contract.options.(server := c.options.server), contract.network)
  }

  /** Candidates for a contract, no two with the same server. */
  ghost predicate Candidates(contract: EscrowContract, candidates: seq<EscrowContract>) {
    && (forall i :: 0 <= i < |candidates| ==> CandidateOf(contract, candidates[i]))
    && (forall i, j :: 0 <= i < j < |candidates| ==> candidates[i].options.server != candidates[j].options.server)
  }

  lemma CandidatesAppend(contract: EscrowContract, candidates: seq<EscrowContract>, added: EscrowContract)
    requires Candidates(contract, candidates) && CandidateOf(contract, added)
    requires !Names(candidates, added.options.server)
    ensures Candidates(contract, candidates + [added])
  {
  }

  lemma {:induction false} UsableCandidates(contract: EscrowContract, keys: seq<Key>)
    requires Distinct(keys)
    ensures Candidates(contract, UsableContracts(contract, keys))
    decreases |keys|
  {
    if keys != [] {
      var front, last := keys[..|keys| - 1], keys[|keys| - 1];
      assert keys == front + [last];
      UsableCandidates(contract, front);
      UsableNames(contract, front, last);
      assert last !in front;
      if Usable(contract, last) {
        var added := ContractOf(contract.options.(server := last), contract.network);
        assert CandidateOf(contract, added);
        CandidatesAppend(contract, UsableContracts(contract, front), added);
      }
    }
  }

  lemma {:induction false} UsableFirst(contract: EscrowContract, keys: seq<Key>)
    requires contract.WellFormed() && |keys| >= 1 && keys[0] == contract.options.server
    ensures |UsableContracts(contract, keys)| >= 1 && UsableContracts(contract, keys)[0] == contract
    decreases |keys|
  {
    var front := keys[..|keys| - 1];
    if front == [] {
      assert contract.options.(server := keys[0]) == contract.options;
      assert UsableContracts(contract, front) == [];
    } else {
      UsableFirst(contract, front);
    }
  }

  /** One candidate per distinct known server key that can form a valid
      contract; a colliding key is skipped. */
  method CandidateContracts(contract: EscrowContract, signer: Key, deprecated: seq<Key>)
    returns (candidates: seq<EscrowContract>)
    requires contract.WellFormed()
    ensures |candidates| >= 1 && candidates[0] == contract
    ensures Candidates(contract, candidates)
    ensures forall key :: Names(candidates, key)
                          <==> && (key == contract.options.server || key == signer || key in deprecated)
                               && Usable(contract, key)
  {
    var keys := [contract.options.server];
    keys := PushUnique(keys, signer);
    for d := 0 to |deprecated|
      invariant Distinct(keys) && |keys| >= 1 && keys[0] == contract.options.server
      invariant forall k :: k in keys <==> k == contract.options.server || k == signer || k in deprecated[..d]
    {
      keys := PushUnique(keys, deprecated[d]);
      assert deprecated[..d + 1] == deprecated[..d] + [deprecated[d]];
    }
    assert deprecated[..|deprecated|] == deprecated;
    candidates := FilterUsable(contract, keys);
    UsableFirst(contract, keys);
    UsableCandidates(contract, keys);
    forall key
      ensures Names(candidates, key)
              <==> && (key == contract.options.server || key == signer || key in deprecated)
                   && Usable(contract, key)
    {
      UsableNames(contract, keys, key);
    }
  }

  method FilterUsable(contract: EscrowContract, keys: seq<Key>) returns (candidates: seq<EscrowContract>)
    ensures candidates == UsableContracts(contract, keys)
  {
    candidates := [];
    for k := 0 to |keys|
      invariant candidates == UsableContracts(contract, keys[..k])
    {
      assert keys[..k + 1][..k] == keys[..k] && keys[..k + 1][k] == keys[k];
      var candidate := WithServer(contract, keys[k]);
      if candidate.Ok? {
        candidates := candidates + [candidate.value];
      }
    }
    assert keys[..|keys|] == keys;
  }

  /** No two candidates pay to the same script. */
  lemma CandidatesTellApart(contract: EscrowContract, candidates: seq<EscrowContract>, i: nat, j: nat)
    requires Candidates(contract, candidates) && i < |candidates| && j < |candidates|
    requires candidates[i].ScriptPubkey() == candidates[j].ScriptPubkey()
    ensures i == j
  {
    assert CandidateOf(contract, candidates[i]) && CandidateOf(contract, candidates[j]);
    assert candidates[j].options == candidates[i].options.(server := candidates[j].options.server);
    ScriptPubkeyFixesServer(candidates[i], candidates[j]);
  }

  // ---- Resolving outputs ----

  /** A VTXO as the server lists it. */
  datatype Vtxo = Vtxo(outpoint: OutPoint, amount: nat, script: ScriptPubkey, isSwept: bool)

  datatype Resolved = Resolved(contract: EscrowContract, vtxo: Vtxo)

  datatype ResolveError = VtxoNotFound(outpoint: OutPoint) | ContractNotFound(script: ScriptPubkey)

  function FindVtxo(listed: seq<Vtxo>, outpoint: OutPoint): (r: Option<Vtxo>)
    ensures r.Some? ==> r.value in listed && r.value.outpoint == outpoint
    ensures r.None? <==> forall i :: 0 <= i < |listed| ==> listed[i].outpoint != outpoint
  {
    if listed == [] then None
    else if listed[0].outpoint == outpoint then Some(listed[0])
    else FindVtxo(listed[1..], outpoint)
  }

  function ContractForScript(candidates: seq<EscrowContract>, script: ScriptPubkey): (r: Option<EscrowContract>)
    ensures r.Some? ==> r.value in candidates && r.value.ScriptPubkey() == script
    ensures r.None? <==> forall i :: 0 <= i < |candidates| ==> candidates[i].ScriptPubkey() != script
  {
    if candidates == [] then None
    else if candidates[0].ScriptPubkey() == script then Some(candidates[0])
    else ContractForScript(candidates[1..], script)
  }

  function Resolve(candidates: seq<EscrowContract>, listed: seq<Vtxo>, requested: seq<OutPoint>)
    : Result<seq<Resolved>, ResolveError>
  {
    if requested == [] then
      Ok([])
    else
      match FindVtxo(listed, requested[0])
      case None => Err(VtxoNotFound(requested[0]))
      case Some(vtxo) =>
        match ContractForScript(candidates, vtxo.script)
        case None => Err(ContractNotFound(vtxo.script))
        case Some(owner) =>
          var rest :- Resolve(candidates, listed, requested[1..]);
          Ok([Resolved(owner, vtxo)] + rest)
  }

  ghost predicate ScriptsTellApart(candidates: seq<EscrowContract>) {
    forall i, j :: 0 <= i < |candidates| && 0 <= j < |candidates|
                   && candidates[i].ScriptPubkey() == candidates[j].ScriptPubkey()
                   ==> i == j
  }

  /** The resolved contract is the one and only candidate that owns the listed script. */
  ghost predicate OnlyOwner(candidates: seq<EscrowContract>, r: Resolved) {
    && r.contract in candidates
    && r.contract.ScriptPubkey() == r.vtxo.script
    && forall j :: 0 <= j < |candidates| && candidates[j].ScriptPubkey() == r.vtxo.script ==>
                     candidates[j] == r.contract
  }

  predicate Resolvable(candidates: seq<EscrowContract>, listed: seq<Vtxo>, outpoint: OutPoint) {
    && FindVtxo(listed, outpoint).Some?
    && ContractForScript(candidates, FindVtxo(listed, outpoint).value.script).Some?
  }

  lemma {:induction false} ResolveKeeps(candidates: seq<EscrowContract>, listed: seq<Vtxo>, requested: seq<OutPoint>)
    requires ScriptsTellApart(candidates)
    ensures Resolve(candidates, listed, requested).Ok?
            <==> forall i :: 0 <= i < |requested| ==> Resolvable(candidates, listed, requested[i])
    ensures Resolve(candidates, listed, requested).Ok? ==>
              var resolved := Resolve(candidates, listed, requested).value;
              && |resolved| == |requested|
              && forall i :: 0 <= i < |resolved| ==>
                               && FindVtxo(listed, requested[i]) == Some(resolved[i].vtxo)
                               && OnlyOwner(candidates, resolved[i])
    decreases |requested|
  {
    if requested != [] {
      ResolveKeeps(candidates, listed, requested[1..]);
      assert forall i :: 0 < i < |requested| ==> requested[i] == requested[1..][i - 1];
    }
  }

  /** Resolution keeps the requested order, and pairs every listed VTXO with
      the one candidate whose script it pays to. It fails exactly if some
      outpoint is not listed or pays to no candidate. */
  lemma ResolveFaithful(contract: EscrowContract, candidates: seq<EscrowContract>, listed: seq<Vtxo>,
                        requested: seq<OutPoint>)
    requires Candidates(contract, candidates)
    ensures Resolve(candidates, listed, requested).Ok?
            <==> forall i :: 0 <= i < |requested| ==> Resolvable(candidates, listed, requested[i])
    ensures Resolve(candidates, listed, requested).Ok? ==>
              var resolved := Resolve(candidates, listed, requested).value;
              && |resolved| == |requested|
              && forall i :: 0 <= i < |resolved| ==>
                               && FindVtxo(listed, requested[i]) == Some(resolved[i].vtxo)
                               && OnlyOwner(candidates, resolved[i])
  {
    forall i, j | 0 <= i < |candidates| && 0 <= j < |candidates|
                  && candidates[i].ScriptPubkey() == candidates[j].ScriptPubkey()
      ensures i == j
    {
      CandidatesTellApart(contract, candidates, i, j);
    }
    ResolveKeeps(candidates, listed, requested);
  }

  // ---- The refreshed output ----

  function TotalAmount(inputs: seq<Resolved>): nat {
    if inputs == [] then 0 else inputs[0].vtxo.amount + TotalAmount(inputs[1..])
  }

  /** An intent input: the VTXO, all its leaves, and the leaf that spends it. */
  datatype IntentInput = IntentInput(
    outpoint: OutPoint,
    prevout: TxOut,
    tapscripts: seq<Script>,
    script: Script,
    control: ControlBlock,
    isSwept: bool)

  /** What a refresh spends and creates, and the inputs its delete proof is made over. */
  datatype Prepared = Prepared(inputs: seq<IntentInput>, output: TxOut, deleteInputs: seq<IntentInput>)

  /** The input spends the resolved VTXO by the chosen collaborative leaf of its own contract. */
  ghost predicate InputFor(resolved: Resolved, signers: SignerSet, input: IntentInput) {
    && input.outpoint == resolved.vtxo.outpoint
    && input.prevout == TxOut(resolved.vtxo.amount, resolved.contract.ScriptPubkey())
    && input.isSwept == resolved.vtxo.isSwept
    && input.tapscripts == Tapscripts(resolved.contract.options)
    && input.script == LeafScript(signers, resolved.contract.options)
    && resolved.contract.ControlBlock(input.script) == Some(input.control)
  }

  method BuildIntentInputs(inputs: seq<Resolved>, signers: SignerSet) returns (built: seq<IntentInput>)
    requires forall i :: 0 <= i < |inputs| ==>
                           inputs[i].contract.ControlBlock(LeafScript(signers, inputs[i].contract.options)).Some?
    ensures |built| == |inputs|
    ensures forall i :: 0 <= i < |inputs| ==> InputFor(inputs[i], signers, built[i])
  {
    built := [];
    for i := 0 to |inputs|
      invariant |built| == i
      invariant forall j :: 0 <= j < i ==> InputFor(inputs[j], signers, built[j])
    {
      var owner, vtxo := inputs[i].contract, inputs[i].vtxo;
      var script := LeafScript(signers, owner.options);
      var control := owner.ControlBlock(script);
      built := built + [IntentInput(vtxo.outpoint, TxOut(vtxo.amount, owner.ScriptPubkey()), Tapscripts(owner.options),
                                    script, control.value, vtxo.isSwept)];
    }
  }

  /** A refresh spends every resolved VTXO by its own contract and creates one
      output, of their whole amount, at the contract of the active server. */
  method PrepareRefreshResolved(template: EscrowContract, inputs: seq<Resolved>, signers: SignerSet, activeServer: Key)
    returns (r: Option<Prepared>)
    requires forall i :: 0 <= i < |inputs| ==> inputs[i].contract.WellFormed()
    ensures r.Some? <==> Valid(template.options.(server := activeServer))
    ensures r.Some? ==>
              && r.value.output.value == WrapU64(TotalAmount(inputs))
              && r.value.output.script
                 == ContractOf(template.options.(server := activeServer), template.network).ScriptPubkey()
              && |r.value.inputs| == |inputs| && r.value.deleteInputs == r.value.inputs
              && forall i :: 0 <= i < |inputs| ==> InputFor(inputs[i], signers, r.value.inputs[i])
  {
    forall i | 0 <= i < |inputs|
      ensures inputs[i].contract.ControlBlock(LeafScript(signers, inputs[i].contract.options)).Some?
    {
      LeafHasControlBlock(inputs[i].contract, signers);
    }
    var built := BuildIntentInputs(inputs, signers);
    var output := WithServer(template, activeServer);
    if output.Err? {
      return None;
    }
    return Some(Prepared(built, TxOut(WrapU64(TotalAmount(inputs)), output.value.ScriptPubkey()), built));
  }
}
