/** Preparing a refresh from the outpoints a caller names (client.rs, refresh.rs). */
module Preparation {
  import opened Wrappers
  import opened Bitcoin
  import opened Contract
  import opened Escrow
  import opened Rotation
  import Refresh
  import Taproot

  datatype PrepareError = Unresolved(error: ResolveError) | NoOutputContract

  /** Some known and usable server key gives the contract that pays to `script`. */
  ghost predicate Owned(contract: EscrowContract, signer: Key, deprecated: seq<Key>, script: ScriptPubkey) {
    exists key :: OwnedBy(contract, signer, deprecated, script, key)
  }

  ghost predicate OwnedBy(contract: EscrowContract, signer: Key, deprecated: seq<Key>, script: ScriptPubkey, key: Key) {
    && (key == contract.options.server || key == signer || key in deprecated)
    && Usable(contract, key)
    && ContractOf(contract.options.(server := key), contract.network).ScriptPubkey() == script
  }

  /** The outpoint is listed, and pays to the escrow under one of its servers. */
  ghost predicate Refreshable(contract: EscrowContract, signer: Key, deprecated: seq<Key>, listed: seq<Vtxo>,
                              outpoint: OutPoint)
  {
    var vtxo := FindVtxo(listed, outpoint);
    vtxo.Some? && Owned(contract, signer, deprecated, vtxo.value.script)
  }

  /** What the server lists for the outpoints, taken together. */
  function ListedTotal(listed: seq<Vtxo>, requested: seq<OutPoint>): nat
    requires forall i :: 0 <= i < |requested| ==> FindVtxo(listed, requested[i]).Some?
  {
    if requested == [] then 0
    else FindVtxo(listed, requested[0]).value.amount + ListedTotal(listed, requested[1..])
  }

  /** The input spends the listed output at `outpoint`: its amount and script
      are the listed ones, and the script it spends by is the chosen leaf for
      the owning server, committed to by that very output. */
  ghost predicate Spends(contract: EscrowContract, signers: SignerSet, listed: seq<Vtxo>, outpoint: OutPoint,
                         input: IntentInput)
  {
    var vtxo := FindVtxo(listed, outpoint);
    && vtxo.Some? && input.outpoint == outpoint && input.isSwept == vtxo.value.isSwept
    && input.prevout == TxOut(vtxo.value.amount, vtxo.value.script)
    && (exists key :: input.script == LeafScript(signers, contract.options.(server := key))
                      && input.tapscripts == Tapscripts(contract.options.(server := key)))
    && vtxo.value.script.P2tr? && Taproot.Commits(vtxo.value.script.output, input.control, input.script)
  }

  lemma CandidateWellFormed(contract: EscrowContract, c: EscrowContract)
    requires CandidateOf(contract, c)
    ensures c.WellFormed() && c.options == contract.options.(server := c.options.server)
  {
  }

  /** Owned by a known key means owned by a candidate. */
  lemma OwnedIsResolvable(contract: EscrowContract, signer: Key, deprecated: seq<Key>, candidates: seq<EscrowContract>,
                          script: ScriptPubkey)
    requires Candidates(contract, candidates)
    requires forall key :: Names(candidates, key)
                           <==> && (key == contract.options.server || key == signer || key in deprecated)
                                && Usable(contract, key)
    ensures Owned(contract, signer, deprecated, script) <==> ContractForScript(candidates, script).Some?
  {
    var found := ContractForScript(candidates, script);
    if found.Some? {
      var i :| 0 <= i < |candidates| && candidates[i] == found.value;
      assert CandidateOf(contract, candidates[i]) && Names(candidates, found.value.options.server);
      assert OwnedBy(contract, signer, deprecated, script, found.value.options.server);
    }
    if key :| OwnedBy(contract, signer, deprecated, script, key) {
      assert Names(candidates, key);
      var i :| 0 <= i < |candidates| && candidates[i].options.server == key;
      assert CandidateOf(contract, candidates[i]);
    }
  }

  lemma {:induction false} ResolvedTotal(candidates: seq<EscrowContract>, listed: seq<Vtxo>, requested: seq<OutPoint>)
    requires Resolve(candidates, listed, requested).Ok?
    ensures forall i :: 0 <= i < |requested| ==> FindVtxo(listed, requested[i]).Some?
    ensures TotalAmount(Resolve(candidates, listed, requested).value) == ListedTotal(listed, requested)
  {
    if requested != [] {
      ResolvedTotal(candidates, listed, requested[1..]);
      assert forall i :: 0 < i < |requested| ==> requested[i] == requested[1..][i - 1];
      var rest := Resolve(candidates, listed, requested[1..]).value;
      assert Resolve(candidates, listed, requested).value[1..] == rest;
    }
  }

  lemma InputSpends(contract: EscrowContract, signers: SignerSet, listed: seq<Vtxo>, outpoint: OutPoint,
                    resolved: Resolved, input: IntentInput)
    requires FindVtxo(listed, outpoint) == Some(resolved.vtxo) && CandidateOf(contract, resolved.contract)
    requires resolved.contract.ScriptPubkey() == resolved.vtxo.script && InputFor(resolved, signers, input)
    ensures Spends(contract, signers, listed, outpoint, input)
  {
    CandidateWellFormed(contract, resolved.contract);
    ControlBlocksCommit(resolved.contract, input.script);
    assert input.script == LeafScript(signers, contract.options.(server := resolved.contract.options.server));
  }

  /** Resolution over the candidates, as it serves the preparation. */
  lemma ResolutionServes(contract: EscrowContract, signer: Key, deprecated: seq<Key>, candidates: seq<EscrowContract>,
                         listed: seq<Vtxo>, requested: seq<OutPoint>)
    requires Candidates(contract, candidates)
    requires forall key :: Names(candidates, key)
                           <==> && (key == contract.options.server || key == signer || key in deprecated)
                                && Usable(contract, key)
    ensures Resolve(candidates, listed, requested).Ok?
            <==> forall i :: 0 <= i < |requested| ==> Refreshable(contract, signer, deprecated, listed, requested[i])
    ensures Resolve(candidates, listed, requested).Ok? ==>
              var resolved := Resolve(candidates, listed, requested).value;
              && |resolved| == |requested|
              && forall i :: 0 <= i < |resolved| ==>
                               && FindVtxo(listed, requested[i]) == Some(resolved[i].vtxo)
                               && CandidateOf(contract, resolved[i].contract)
                               && resolved[i].contract.ScriptPubkey() == resolved[i].vtxo.script
  {
    ResolveFaithful(contract, candidates, listed, requested);
    forall i | 0 <= i < |requested|
      ensures Resolvable(candidates, listed, requested[i])
              <==> Refreshable(contract, signer, deprecated, listed, requested[i])
    {
      var vtxo := FindVtxo(listed, requested[i]);
      if vtxo.Some? {
        OwnedIsResolvable(contract, signer, deprecated, candidates, vtxo.value.script);
      }
    }
    if Resolve(candidates, listed, requested).Ok? {
      var resolved := Resolve(candidates, listed, requested).value;
      forall i | 0 <= i < |resolved|
        ensures CandidateOf(contract, resolved[i].contract)
      {
        assert OnlyOwner(candidates, resolved[i]);
        var j :| 0 <= j < |candidates| && candidates[j] == resolved[i].contract;
      }
    }
  }

  /** A refresh can be prepared exactly if every outpoint is listed and pays to
      the escrow under a known server, and the active server can form a
      contract. It then spends these outputs, in this order, each by a leaf it
      commits to, and creates one output, of what was listed for them, at the
      contract of the active server. */
  method PrepareRefresh(contract: EscrowContract, signer: Key, deprecated: seq<Key>, listed: seq<Vtxo>,
                        requested: seq<OutPoint>, signers: SignerSet)
    returns (r: Result<Prepared, PrepareError>)
    requires contract.WellFormed()
    ensures r.Ok? <==>
              && (forall i :: 0 <= i < |requested| ==> Refreshable(contract, signer, deprecated, listed, requested[i]))
              && Valid(contract.options.(server := signer))
    ensures r.Ok? ==>
              && |r.value.inputs| == |requested| && r.value.deleteInputs == r.value.inputs
              && forall i :: 0 <= i < |requested| ==>
                               Spends(contract, signers, listed, requested[i], r.value.inputs[i])
    ensures r.Ok? ==>
              && (forall i :: 0 <= i < |requested| ==> FindVtxo(listed, requested[i]).Some?)
              && r.value.output
                 == TxOut(WrapU64(ListedTotal(listed, requested)),
                          ContractOf(contract.options.(server := signer), contract.network).ScriptPubkey())
  {
    var candidates := CandidateContracts(contract, signer, deprecated);
    ResolutionServes(contract, signer, deprecated, candidates, listed, requested);
    var resolved := Resolve(candidates, listed, requested);
    if resolved.Err? {
      return Err(Unresolved(resolved.error));
    }
    ResolvedTotal(candidates, listed, requested);
    forall i | 0 <= i < |resolved.value|
      ensures resolved.value[i].contract.WellFormed()
    {
      CandidateWellFormed(contract, resolved.value[i].contract);
    }
    var prepared := PrepareRefreshResolved(contract, resolved.value, signers, signer);
    if prepared.None? {
      return Err(NoOutputContract);
    }
    forall i | 0 <= i < |requested|
      ensures Spends(contract, signers, listed, requested[i], prepared.value.inputs[i])
    {
      InputSpends(contract, signers, listed, requested[i], resolved.value[i], prepared.value.inputs[i]);
    }
    return Ok(prepared.value);
  }

  // ---- The two proofs made from it ----

  /** The intent's proof lists these inputs, after its message commitment. */
  predicate MadeOver(intent: Refresh.Intent, inputs: seq<IntentInput>) {
    var all := intent.proof.tx.inputs;
    |all| == |inputs| + 1 && forall i :: 0 <= i < |inputs| ==> all[i + 1].previousOutput == inputs[i].outpoint
  }

  /** Proofs made over what was prepared pass the check that refuses a delete
      proof for other inputs. */
  lemma PreparedProofsFit(prepared: Prepared, refresh: Refresh.RefreshIntent)
    requires prepared.deleteInputs == prepared.inputs && MadeOver(refresh.intent, prepared.inputs)
    requires refresh.deleteIntent.Some? && MadeOver(refresh.deleteIntent.value, prepared.deleteInputs)
    ensures Refresh.DeleteProofFits(refresh)
  {
    var register, delete := Refresh.RealInputs(refresh.intent), Refresh.RealInputs(refresh.deleteIntent.value);
    assert |register| == |delete| == |prepared.inputs|;
    forall i | 0 <= i < |prepared.inputs|
      ensures register[i].previousOutput == prepared.inputs[i].outpoint == delete[i].previousOutput
    {
      assert register[i] == refresh.intent.proof.tx.inputs[i + 1];
      assert delete[i] == refresh.deleteIntent.value.proof.tx.inputs[i + 1];
    }
    assert Refresh.PreviousOutputs(register) == Refresh.PreviousOutputs(delete);
  }
}
