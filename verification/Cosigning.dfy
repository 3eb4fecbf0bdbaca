/** What an accepted co-signature means for an escrow contract (spend.rs against contract.rs). */
module Cosigning {
  import opened Wrappers
  import opened Bitcoin
  import opened Contract
  import opened Signing
  import Escrow
  import Policy
  import Taproot
  import Tapscript

  lemma ChecksigKeysOfLeaf(a: Key, b: Key, server: Key)
    ensures ChecksigKeys(Collaborative3Of3(a, b, server)) == [a, b, server]
  {
    var script := Collaborative3Of3(a, b, server);
    assert script[2..][2..] == script[4..];
    assert ChecksigKeys(script[4..]) == [server] + ChecksigKeys(script[4..][2..]);
    assert ChecksigKeys(script[2..]) == [b] + ChecksigKeys(script[4..]);
  }

  lemma ChecksigKeysOfExit(delay: nat, a: Key, b: Key)
    ensures ChecksigKeys(Unilateral2Of2(delay, a, b)) == [a, b]
  {
    var script := Unilateral2Of2(delay, a, b);
    assert script[1..][1..] == script[2..] && script[2..][1..] == script[3..];
    assert script[3..][2..] == script[5..];
    assert ChecksigKeys(script) == ChecksigKeys(script[1..]);
    assert ChecksigKeys(script[1..]) == ChecksigKeys(script[2..]);
    assert ChecksigKeys(script[2..]) == ChecksigKeys(script[3..]);
    assert ChecksigKeys(script[5..]) == [b] + ChecksigKeys(script[5..][2..]);
  }

  /** The key taken from a collaborative leaf is the contract's server key. */
  lemma LeafNamesServer(signers: SignerSet, o: EscrowOptions)
    ensures ChecksigKeys(LeafScript(signers, o)) == [Policy.Pair(signers, o).0, Policy.Pair(signers, o).1, o.server]
  {
    ChecksigKeysOfLeaf(Policy.Pair(signers, o).0, Policy.Pair(signers, o).1, o.server);
  }

  /** A unilateral leaf names no server and is refused. */
  lemma ExitLeafRefused(local: Psbt, serverSigned: Psbt, signers: SignerSet, o: EscrowOptions)
    requires |local.inputs| > 0 && local.inputs[0].tapScripts != []
    requires local.inputs[0].tapScripts[0].script == ExitScript(signers, o)
    ensures VerifyServerArkTxSig(local, serverSigned).Err?
  {
    ChecksigKeysOfExit(o.delay, Policy.Pair(signers, o).0, Policy.Pair(signers, o).1);
  }

  /** Exactly these answers are accepted, for whatever local PSBT: the same
      transaction, with every previous output known, where the first leaf
      recorded for input 0 names three keys and is committed to by the output
      spent, with a valid default-type signature of the third key over it. */
  lemma AcceptsExactly(local: Psbt, serverSigned: Psbt)
    ensures VerifyServerArkTxSig(local, serverSigned).Ok?
            <==> && serverSigned.tx == local.tx && serverSigned.inputs != []
                 && local.inputs != [] && |local.inputs| == |local.tx.inputs|
                 && (forall i :: 0 <= i < |local.inputs| ==> local.inputs[i].witnessUtxo.Some?)
                 && local.inputs[0].tapScripts != []
                 && var entry := local.inputs[0].tapScripts[0];
                    var output, keys := local.inputs[0].witnessUtxo.value.script, ChecksigKeys(entry.script);
                    var sigs, leaf := serverSigned.inputs[0].tapScriptSigs, LeafHash(entry.version, entry.script);
                    && |keys| == 3 && output.P2tr?
                    && Taproot.Commits(output.output, entry.control, entry.script)
                    && (keys[2], leaf) in sigs && sigs[(keys[2], leaf)].sighashType == DefaultType
                    && Verifies(keys[2], SpendMessage(local.tx, 0, Prevouts(local), leaf, DefaultType),
                                sigs[(keys[2], leaf)].signature)
  {
  }

  /** `psbt` spends `contract` on input 0. */
  predicate SpendsEscrow(psbt: Psbt, contract: Escrow.EscrowContract) {
    && |psbt.inputs| > 0
    && psbt.inputs[0].witnessUtxo.Some?
    && psbt.inputs[0].witnessUtxo.value.script == contract.ScriptPubkey()
  }

  /** A leaf of the tree is the collaborative or the unilateral leaf of some signer set. */
  lemma LeafKinds(o: EscrowOptions, script: Script) returns (signers: SignerSet)
    requires script in Tapscripts(o)
    ensures script == LeafScript(signers, o) || script == ExitScript(signers, o)
  {
    var i :| 0 <= i < 6 && Tapscripts(o)[i] == script;
    signers := if i % 3 == 0 then SellerArbiter else if i % 3 == 1 then BuyerArbiter else SellerBuyer;
  }

  /** If input 0 pays from the escrow, an accepted co-signature is by the
      escrow's own server, over one of its three collaborative leaves. The
      recorded leaf itself is not trusted for that: the commitment check
      leaves no other possibility. */
  lemma CosignedByEscrowServer(local: Psbt, serverSigned: Psbt, contract: Escrow.EscrowContract)
    requires contract.WellFormed() && SpendsEscrow(local, contract)
    requires VerifyServerArkTxSig(local, serverSigned).Ok?
    ensures CosignatureSlot(local).Ok? && CosignatureSlot(local).value.key == contract.options.server
    ensures local.inputs[0].tapScripts != []
    ensures exists signers: SignerSet ::
              local.inputs[0].tapScripts[0].script == LeafScript(signers, contract.options)
    ensures local.inputs[0].tapScripts[0].control.version == TapScript
  {
    var entry := FirstLeaf(local, 0).value;
    assert Taproot.Commits(contract.ScriptPubkey().output, entry.control, entry.script);
    Escrow.OnlyLeavesCommitted(contract, entry.control, entry.script);
    var signers := LeafKinds(contract.options, entry.script);
    if entry.script == ExitScript(signers, contract.options) {
      ExitLeafRefused(local, serverSigned, signers, contract.options);
    } else {
      LeafNamesServer(signers, contract.options);
    }
  }

  /** The input a co-signed PSBT spends. */
  function SpendOf(psbt: Psbt): Tapscript.Spend
    requires AllUtxosKnown(psbt)
  {
    Tapscript.Spend(psbt.tx, 0, Prevouts(psbt))
  }

  /** The co-signature satisfies the server's CHECKSIG on chain exactly when
      the recorded leaf version is the tapscript one: the check takes the
      version for the sighash from the leaf entry, and for the commitment from
      the control block, and does not compare the two. */
  lemma CosignatureUsable(local: Psbt, serverSigned: Psbt)
    requires VerifyServerArkTxSig(local, serverSigned).Ok?
    ensures CosignatureSlot(local).Ok? && AllUtxosKnown(local)
    ensures |local.inputs| > 0 && local.inputs[0].tapScripts != []
    ensures var slot := CosignatureSlot(local).value;
            var entry := local.inputs[0].tapScripts[0];
            var canonical := VerifyServerArkTxSig(local, serverSigned).value;
            && |canonical.inputs| > 0 && (slot.key, slot.leaf) in canonical.inputs[0].tapScriptSigs
            && (Tapscript.SignatureValid(SpendOf(local), entry.script, slot.key,
                                         Tapscript.Sig(canonical.inputs[0].tapScriptSigs[(slot.key, slot.leaf)]))
                <==> entry.version == TapScript)
  {
  }

  /** A spend of the escrow whose leaf entry gives another version than its control block. */
  function MislabelledSpend(contract: Escrow.EscrowContract, script: Script, bits: nat): Psbt
    requires contract.ControlBlock(script).Some?
  {
    Psbt(Transaction(2, [TxIn(OutPoint(Foreign(0), 0), 0)], [], 0),
         [PsbtInput(Some(TxOut(1000, contract.ScriptPubkey())),
                    [LeafEntry(contract.ControlBlock(script).value, script, OtherVersion(bits))], map[], None)])
  }

  /** The other case exists for every contract, leaf and version: a
      co-signature is accepted although it is of no use on chain. */
  lemma UnusableCosignatureAccepted(contract: Escrow.EscrowContract, signers: SignerSet, bits: nat)
    requires contract.WellFormed()
    ensures exists local: Psbt, serverSigned: Psbt ::
              && SpendsEscrow(local, contract) && VerifyServerArkTxSig(local, serverSigned).Ok?
              && local.inputs[0].tapScripts != []
              && local.inputs[0].tapScripts[0].script == LeafScript(signers, contract.options)
              && local.inputs[0].tapScripts[0].version == OtherVersion(bits)
  {
    var script := LeafScript(signers, contract.options);
    Escrow.LeafHasControlBlock(contract, signers);
    Escrow.ControlBlocksCommit(contract, script);
    LeafNamesServer(signers, contract.options);
    var local := MislabelledSpend(contract, script, bits);
    var leaf := LeafHash(OtherVersion(bits), script);
    var message := SpendMessage(local.tx, 0, Prevouts(local), leaf, DefaultType);
    assert VerifyLeafCommitment(local, 0) == Ok(());
    assert CosignatureSlot(local) == Ok(Slot(contract.options.server, leaf, message));
    var signature := TapSignature(SignedBy(contract.options.server, message, 0), DefaultType);
    var serverSigned := AddSignature(local, (contract.options.server, leaf), signature);
    assert VerifyServerArkTxSig(local, serverSigned).Ok?;
  }

  /** `local` records leaf `signers` of `contract` first, the way the transaction builders do. */
  ghost predicate Prepared(local: Psbt, contract: Escrow.EscrowContract, signers: SignerSet) {
    && contract.WellFormed() && SpendsEscrow(local, contract)
    && AllUtxosKnown(local) && |local.inputs| == |local.tx.inputs|
    && var script := LeafScript(signers, contract.options);
       && contract.ControlBlock(script).Some?
       && local.inputs[0].tapScripts != []
       && local.inputs[0].tapScripts[0] == LeafEntry(contract.ControlBlock(script).value, script, TapScript)
  }

  /** For a PSBT prepared from the contract the check accepts precisely the
      responses for the same transaction that carry a valid default-type
      signature of the escrow's server over the leaf. */
  lemma CosignatureAccepted(local: Psbt, serverSigned: Psbt, contract: Escrow.EscrowContract, signers: SignerSet)
    requires Prepared(local, contract, signers)
    ensures var script := LeafScript(signers, contract.options);
            var at := (contract.options.server, LeafHash(TapScript, script));
            VerifyServerArkTxSig(local, serverSigned).Ok?
            <==> && serverSigned.tx == local.tx
                 && serverSigned.inputs != []
                 && at in serverSigned.inputs[0].tapScriptSigs
                 && serverSigned.inputs[0].tapScriptSigs[at].sighashType == DefaultType
                 && Tapscript.SignatureValid(SpendOf(local), script, contract.options.server,
                                             Tapscript.Sig(serverSigned.inputs[0].tapScriptSigs[at]))
  {
    var script := LeafScript(signers, contract.options);
    Escrow.ControlBlocksCommit(contract, script);
    LeafNamesServer(signers, contract.options);
    var slot := CosignatureSlot(local);
    assert VerifyLeafCommitment(local, 0) == Ok(());
    assert EscrowLeafServerKey(local, 0) == Ok(contract.options.server);
    assert slot == Ok(Slot(contract.options.server, LeafHash(TapScript, script),
                           SpendOf(local).Message(script, DefaultType)));
  }

  /** With the two parties' signatures, an accepted co-signature is a complete
      witness: the parties can spend without asking the server again. */
  lemma CosignedIsSpendable(local: Psbt, serverSigned: Psbt, contract: Escrow.EscrowContract, signers: SignerSet,
                            first: TapSignature, second: TapSignature)
    requires Prepared(local, contract, signers) && VerifyServerArkTxSig(local, serverSigned).Ok?
    requires var script := LeafScript(signers, contract.options);
             var (a, b) := Policy.Pair(signers, contract.options);
             && Tapscript.SignatureValid(SpendOf(local), script, a, Tapscript.Sig(first))
             && Tapscript.SignatureValid(SpendOf(local), script, b, Tapscript.Sig(second))
    ensures var at := (contract.options.server, LeafHash(TapScript, LeafScript(signers, contract.options)));
            var canonical := VerifyServerArkTxSig(local, serverSigned).value;
            && |canonical.inputs| > 0 && at in canonical.inputs[0].tapScriptSigs
            && Tapscript.Accepts(LeafScript(signers, contract.options),
                                 [Tapscript.Sig(first), Tapscript.Sig(second),
                                  Tapscript.Sig(canonical.inputs[0].tapScriptSigs[at])],
                                 SpendOf(local))
  {
    var (a, b) := Policy.Pair(signers, contract.options);
    var at := (contract.options.server, LeafHash(TapScript, LeafScript(signers, contract.options)));
    CosignatureAccepted(local, serverSigned, contract, signers);
    CosignedByEscrowServer(local, serverSigned, contract);
    CosignatureSound(local, serverSigned);
    var canonical := VerifyServerArkTxSig(local, serverSigned).value;
    var items := [Tapscript.Sig(first), Tapscript.Sig(second), Tapscript.Sig(canonical.inputs[0].tapScriptSigs[at])];
    var script := LeafScript(signers, contract.options);
    assert Tapscript.SignatureValid(SpendOf(local), script, contract.options.server, items[2]);
    Policy.CollaborativeAccepts(a, b, contract.options.server, items, SpendOf(local));
  }
}
