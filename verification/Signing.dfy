/** Checking the server's co-signature and merging signatures (spend.rs). */
module Signing {
  import opened Wrappers
  import opened Bitcoin
  import Taproot

  datatype SigningError =
    | DifferentTransaction
    | NoInput
    | NoLeafEntry
    | NotThreeKeys
    | NoWitnessUtxo
    | NotTaproot
    | NotCommitted
    | NoSighash
    | NotCosigned
    | WrongSighashType
    | InvalidSignature
    | InputCountsDiffer
    | WrongCheckpointCount

  // ---- The leaf recorded for an input ----

  function FirstLeaf(psbt: Psbt, index: nat): Result<LeafEntry, SigningError> {
    if index >= |psbt.inputs| then Err(NoInput)
    else if psbt.inputs[index].tapScripts == [] then Err(NoLeafEntry)
    else Ok(psbt.inputs[index].tapScripts[0])
  }

  /** The keys pushed right before a signature opcode. */
  function ChecksigKeys(script: Script): seq<Key> {
    if |script| < 2 then []
    else if script[0].PushKey? && (script[1] == CheckSig || script[1] == CheckSigVerify) then
      [script[0].key] + ChecksigKeys(script[2..])
    else
      ChecksigKeys(script[1..])
  }

  function EscrowLeafServerKey(psbt: Psbt, index: nat): Result<Key, SigningError> {
    var entry :- FirstLeaf(psbt, index);
    var keys := ChecksigKeys(entry.script);
    if |keys| == 3 then Ok(keys[2]) else Err(NotThreeKeys)
  }

  function VerifyLeafCommitment(psbt: Psbt, index: nat): Result<(), SigningError> {
    var entry :- FirstLeaf(psbt, index);
    match psbt.inputs[index].witnessUtxo
    case None => Err(NoWitnessUtxo)
    case Some(utxo) =>
      if !utxo.script.P2tr? then Err(NotTaproot)
      else if !Taproot.Commits(utxo.script.output, entry.control, entry.script) then Err(NotCommitted)
      else Ok(())
  }

  // ---- The message a co-signature signs ----

  predicate AllUtxosKnown(psbt: Psbt) {
    forall i :: 0 <= i < |psbt.inputs| ==> psbt.inputs[i].witnessUtxo.Some?
  }

  function Prevouts(psbt: Psbt): (r: seq<TxOut>)
    requires AllUtxosKnown(psbt)
    ensures |r| == |psbt.inputs|
    ensures forall i :: 0 <= i < |r| ==> psbt.inputs[i].witnessUtxo == Some(r[i])
  {
    seq(|psbt.inputs|, i requires 0 <= i < |psbt.inputs| => psbt.inputs[i].witnessUtxo.value)
  }

  function ArkTxSighash(psbt: Psbt, index: nat): Result<(Message, NodeHash), SigningError> {
    if !AllUtxosKnown(psbt) then
      Err(NoWitnessUtxo)
    else
      var entry :- FirstLeaf(psbt, index);
      var leaf := LeafHash(entry.version, entry.script);
      // Every transaction input needs its previous output.
      if |psbt.inputs| != |psbt.tx.inputs| then Err(NoSighash)
      else Ok((SpendMessage(psbt.tx, index, Prevouts(psbt), leaf, DefaultType), leaf))
  }

  // ---- The co-signature check ----

  /** The slot the server's signature must fill, and the message it must sign. */
  datatype Slot = Slot(key: Key, leaf: NodeHash, message: Message)

  function CosignatureSlot(local: Psbt): Result<Slot, SigningError> {
    var key :- EscrowLeafServerKey(local, 0);
    var _ :- VerifyLeafCommitment(local, 0);
    var sighash :- ArkTxSighash(local, 0);
    Ok(Slot(key, sighash.1, sighash.0))
  }

  function AddSignature(psbt: Psbt, slot: (Key, NodeHash), sig: TapSignature): Psbt
    requires |psbt.inputs| > 0
  {
    var input := psbt.inputs[0];
    psbt.(inputs := psbt.inputs[0 := input.(tapScriptSigs := input.tapScriptSigs[slot := sig])])
  }

  /** `local` plus the verified server signature, or the reason there is none. */
  function VerifyServerArkTxSig(local: Psbt, serverSigned: Psbt): Result<Psbt, SigningError> {
    if serverSigned.tx != local.tx then
      Err(DifferentTransaction)
    else
      var slot :- CosignatureSlot(local);
      if serverSigned.inputs == [] then
        Err(NoInput)
      else
        var sigs := serverSigned.inputs[0].tapScriptSigs;
        if (slot.key, slot.leaf) !in sigs then
          Err(NotCosigned)
        else
          var sig := sigs[(slot.key, slot.leaf)];
          if sig.sighashType != DefaultType then Err(WrongSighashType)
          else if !Verifies(slot.key, slot.message, sig.signature) then Err(InvalidSignature)
          else Ok(AddSignature(local, (slot.key, slot.leaf), sig))
  }

  /** `psbt` itself carries a valid co-signature for its own leaf. */
  predicate Cosigned(psbt: Psbt) {
    VerifyServerArkTxSig(psbt, psbt).Ok?
  }

  /** The signatures on input 0 have no bearing on the slot. */
  lemma SlotIgnoresSignatures(psbt: Psbt, other: Psbt)
    requires psbt.tx == other.tx && |psbt.inputs| == |other.inputs|
    requires forall i :: 0 <= i < |psbt.inputs| ==>
                           && psbt.inputs[i].witnessUtxo == other.inputs[i].witnessUtxo
                           && psbt.inputs[i].tapScripts == other.inputs[i].tapScripts
    ensures CosignatureSlot(psbt) == CosignatureSlot(other)
  {
    assert FirstLeaf(psbt, 0) == FirstLeaf(other, 0);
    assert AllUtxosKnown(psbt) <==> AllUtxosKnown(other);
    if AllUtxosKnown(psbt) {
      assert Prevouts(psbt) == Prevouts(other);
    }
  }

  /** The result is `local` with nothing changed but one entry of input 0: a
      valid default-type signature by the leaf's server key. */
  lemma CosignatureSound(local: Psbt, serverSigned: Psbt)
    requires VerifyServerArkTxSig(local, serverSigned).Ok?
    ensures CosignatureSlot(local).Ok? && |local.inputs| > 0
    ensures var canonical := VerifyServerArkTxSig(local, serverSigned).value;
            var slot := CosignatureSlot(local).value;
            var at := (slot.key, slot.leaf);
            && canonical.tx == local.tx
            && canonical.inputs[1..] == local.inputs[1..]
            && at in canonical.inputs[0].tapScriptSigs
            && canonical.inputs[0] == local.inputs[0].(tapScriptSigs := canonical.inputs[0].tapScriptSigs)
            && canonical.inputs[0].tapScriptSigs - {at} == local.inputs[0].tapScriptSigs - {at}
            && canonical.inputs[0].tapScriptSigs[at].sighashType == DefaultType
            && Verifies(slot.key, slot.message, canonical.inputs[0].tapScriptSigs[at].signature)
  {
  }

  /** What the check accepts, it accepts again, unchanged. */
  lemma CosignatureClosed(local: Psbt, serverSigned: Psbt)
    requires VerifyServerArkTxSig(local, serverSigned).Ok?
    ensures var canonical := VerifyServerArkTxSig(local, serverSigned).value;
            VerifyServerArkTxSig(canonical, canonical) == Ok(canonical)
  {
    var canonical := VerifyServerArkTxSig(local, serverSigned).value;
    SlotIgnoresSignatures(local, canonical);
    var slot := CosignatureSlot(local).value;
    var at := (slot.key, slot.leaf);
    var sigs := canonical.inputs[0].tapScriptSigs;
    assert sigs[at := sigs[at]] == sigs;
    assert canonical.inputs[0 := canonical.inputs[0]] == canonical.inputs;
  }

  // ---- Merging ----

  /** The base wins where both have a signature. */
  function MergeInput(base: PsbtInput, other: PsbtInput): PsbtInput {
    base.(tapScriptSigs := other.tapScriptSigs + base.tapScriptSigs)
  }

  predicate Mergeable(base: Psbt, other: Psbt) {
    base.tx == other.tx && |base.inputs| == |other.inputs|
  }

  function Merge(base: Psbt, other: Psbt): (r: Result<Psbt, SigningError>)
    ensures r.Ok? <==> Mergeable(base, other)
    ensures r.Ok? ==>
              && Mergeable(base, r.value)
              && forall i :: 0 <= i < |base.inputs| ==> r.value.inputs[i] == MergeInput(base.inputs[i], other.inputs[i])
  {
    if base.tx != other.tx then Err(DifferentTransaction)
    else if |base.inputs| != |other.inputs| then Err(InputCountsDiffer)
    else Ok(base.(inputs := seq(|base.inputs|,
                                i requires 0 <= i < |base.inputs| => MergeInput(base.inputs[i], other.inputs[i]))))
  }

  /** Merging in place, entry by entry. */
  method MergeArkTxSigs(tx: Transaction, inputs: array<PsbtInput>, other: Psbt) returns (r: Result<(), SigningError>)
    modifies inputs
    ensures match Merge(Psbt(tx, old(inputs[..])), other)
            case Ok(merged) => r == Ok(()) && inputs[..] == merged.inputs
            case Err(error) => r == Err(error) && inputs[..] == old(inputs[..])
  {
    if tx != other.tx {
      return Err(DifferentTransaction);
    }
    if inputs.Length != |other.inputs| {
      return Err(InputCountsDiffer);
    }
    for i := 0 to inputs.Length
      invariant forall j :: 0 <= j < i ==> inputs[j] == MergeInput(old(inputs[j]), other.inputs[j])
      invariant forall j :: i <= j < inputs.Length ==> inputs[j] == old(inputs[j])
    {
      var keys := other.inputs[i].tapScriptSigs.Keys;
      ghost var done: set<(Key, NodeHash)> := {};
      while keys != {}
        invariant done + keys == other.inputs[i].tapScriptSigs.Keys && done !! keys
        invariant var sigs := Restrict(other.inputs[i].tapScriptSigs, done);
                  inputs[i] == MergeInput(old(inputs[i]), other.inputs[i].(tapScriptSigs := sigs))
        invariant forall j :: 0 <= j < i ==> inputs[j] == MergeInput(old(inputs[j]), other.inputs[j])
        invariant forall j :: i < j < inputs.Length ==> inputs[j] == old(inputs[j])
        decreases keys
      {
        var key :| key in keys;
        keys := keys - {key};
        done := done + {key};
        if key !in inputs[i].tapScriptSigs {
          inputs[i] := inputs[i].(tapScriptSigs := inputs[i].tapScriptSigs[key := other.inputs[i].tapScriptSigs[key]]);
        }
      }
      assert Restrict(other.inputs[i].tapScriptSigs, done) == other.inputs[i].tapScriptSigs;
    }
    assert inputs[..] == Merge(Psbt(tx, old(inputs[..])), other).value.inputs;
    return Ok(());
  }

  ghost function Restrict(sigs: SigMap, keys: set<(Key, NodeHash)>): SigMap {
    map k | k in sigs && k in keys :: sigs[k]
  }

  lemma MergeIdempotent(base: Psbt)
    ensures Merge(base, base) == Ok(base)
  {
    var merged := Merge(base, base).value;
    forall i | 0 <= i < |base.inputs|
      ensures merged.inputs[i] == base.inputs[i]
    {
      var sigs := base.inputs[i].tapScriptSigs;
      assert sigs + sigs == sigs;
    }
    assert merged.inputs == base.inputs;
  }

  lemma MergeAssociative(a: Psbt, b: Psbt, c: Psbt)
    requires Mergeable(a, b) && Mergeable(b, c)
    ensures Merge(Merge(a, b).value, c) == Merge(a, Merge(b, c).value)
  {
    var left := Merge(Merge(a, b).value, c).value;
    var right := Merge(a, Merge(b, c).value).value;
    forall i | 0 <= i < |a.inputs|
      ensures left.inputs[i] == right.inputs[i]
    {
      var x, y, z := a.inputs[i].tapScriptSigs, b.inputs[i].tapScriptSigs, c.inputs[i].tapScriptSigs;
      assert z + (y + x) == (z + y) + x;
    }
    assert left.inputs == right.inputs;
  }

  /** Merging further signatures into an accepted PSBT leaves it accepted. */
  lemma MergeKeepsCosignature(psbt: Psbt, other: Psbt)
    requires Cosigned(psbt) && Mergeable(psbt, other)
    ensures Cosigned(Merge(psbt, other).value)
  {
  }

  // ---- Checkpoints ----

  /** Merge the `index`-th checkpoint of every party into the server's copy. */
  function MergeColumn(base: Psbt, parties: seq<seq<Psbt>>, index: nat, expected: nat): Result<Psbt, SigningError>
    requires index < expected
    decreases |parties|
  {
    if parties == [] then
      Ok(base)
    else if |parties[0]| != expected then
      Err(WrongCheckpointCount)
    else
      var merged :- Merge(base, parties[0][index]);
      MergeColumn(merged, parties[1..], index, expected)
  }

  function MergeFrom(server: seq<Psbt>, parties: seq<seq<Psbt>>, index: nat): Result<seq<Psbt>, SigningError>
    requires index <= |server|
    decreases |server| - index
  {
    if index == |server| then
      Ok([])
    else
      var first :- MergeColumn(server[index], parties, index, |server|);
      var rest :- MergeFrom(server, parties, index + 1);
      Ok([first] + rest)
  }

  function MergeAllCheckpointSigs(server: seq<Psbt>, parties: seq<seq<Psbt>>): Result<seq<Psbt>, SigningError> {
    MergeFrom(server, parties, 0)
  }

  /** Every party brings `expected` checkpoints, and its `index`-th fits `base`. */
  predicate Fits(base: Psbt, parties: seq<seq<Psbt>>, index: nat, expected: nat) {
    forall p :: 0 <= p < |parties| ==>
                  |parties[p]| == expected && index < expected && Mergeable(base, parties[p][index])
  }

  /** The signature that ends up at `key`: the server's, or else the first party's that has one. */
  ghost function FirstSignature(base: Psbt, parties: seq<seq<Psbt>>, index: nat, i: nat, key: (Key, NodeHash))
    : Option<TapSignature>
    requires i < |base.inputs| && Fits(base, parties, index, if parties == [] then 0 else |parties[0]|)
  {
    if key in base.inputs[i].tapScriptSigs then Some(base.inputs[i].tapScriptSigs[key])
    else if parties == [] then None
    else if key in parties[0][index].inputs[i].tapScriptSigs then Some(parties[0][index].inputs[i].tapScriptSigs[key])
    else FirstSignature(base, parties[1..], index, i, key)
  }

  lemma {:induction false} ColumnMerged(base: Psbt, parties: seq<seq<Psbt>>, index: nat, expected: nat)
    requires index < expected
    ensures MergeColumn(base, parties, index, expected).Ok? <==> Fits(base, parties, index, expected)
    ensures MergeColumn(base, parties, index, expected).Ok? ==>
              var merged := MergeColumn(base, parties, index, expected).value;
              && Mergeable(base, merged)
              && forall i :: 0 <= i < |base.inputs| ==>
                               merged.inputs[i].(tapScriptSigs := map[]) == base.inputs[i].(tapScriptSigs := map[])
    decreases |parties|
  {
    if parties != [] && |parties[0]| == expected && Mergeable(base, parties[0][index]) {
      var next := Merge(base, parties[0][index]).value;
      ColumnMerged(next, parties[1..], index, expected);
      assert forall p :: 0 <= p < |parties| - 1 ==> parties[p + 1] == parties[1..][p];
      assert Fits(base, parties, index, expected) <==> Fits(next, parties[1..], index, expected);
    }
  }

  lemma {:induction false} ColumnSignatures(base: Psbt, parties: seq<seq<Psbt>>, index: nat, expected: nat, i: nat,
                                            key: (Key, NodeHash))
    requires index < expected && Fits(base, parties, index, expected) && i < |base.inputs|
    ensures MergeColumn(base, parties, index, expected).Ok?
    ensures var merged := MergeColumn(base, parties, index, expected).value;
            && Mergeable(base, merged)
            && (key in merged.inputs[i].tapScriptSigs <==> FirstSignature(base, parties, index, i, key).Some?)
            && (key in merged.inputs[i].tapScriptSigs ==>
                  FirstSignature(base, parties, index, i, key) == Some(merged.inputs[i].tapScriptSigs[key]))
    decreases |parties|
  {
    ColumnMerged(base, parties, index, expected);
    if parties != [] {
      var next := Merge(base, parties[0][index]).value;
      assert Fits(next, parties[1..], index, expected);
      ColumnSignatures(next, parties[1..], index, expected, i, key);
      SameFirstSignature(base, next, parties, index, expected, i, key);
    }
  }

  lemma {:induction false} SameFirstSignature(base: Psbt, next: Psbt, parties: seq<seq<Psbt>>, index: nat,
                                              expected: nat, i: nat, key: (Key, NodeHash))
    requires parties != [] && index < expected && Fits(base, parties, index, expected) && i < |base.inputs|
    requires Merge(base, parties[0][index]) == Ok(next) && Fits(next, parties[1..], index, expected)
    ensures FirstSignature(base, parties, index, i, key) == FirstSignature(next, parties[1..], index, i, key)
  {
    if key in next.inputs[i].tapScriptSigs {
    } else {
      SkipMissing(base, next, parties[1..], index, expected, i, key);
    }
  }

  lemma {:induction false} SkipMissing(base: Psbt, next: Psbt, parties: seq<seq<Psbt>>, index: nat, expected: nat,
                                       i: nat, key: (Key, NodeHash))
    requires index < expected && Fits(base, parties, index, expected) && Fits(next, parties, index, expected)
    requires i < |base.inputs| && i < |next.inputs|
    requires key !in base.inputs[i].tapScriptSigs && key !in next.inputs[i].tapScriptSigs
    ensures FirstSignature(base, parties, index, i, key) == FirstSignature(next, parties, index, i, key)
    decreases |parties|
  {
    if parties != [] {
      SkipMissing(base, next, parties[1..], index, expected, i, key);
    }
  }

  // ---- Which signature a slot ends up with ----

  ghost predicate PartySigned(party: seq<Psbt>, index: nat, i: nat, key: (Key, NodeHash)) {
    index < |party| && i < |party[index].inputs| && key in party[index].inputs[i].tapScriptSigs
  }

  ghost function PartySignature(party: seq<Psbt>, index: nat, i: nat, key: (Key, NodeHash)): TapSignature
    requires PartySigned(party, index, i, key)
  {
    party[index].inputs[i].tapScriptSigs[key]
  }

  lemma {:induction false} FirstSignatureExists(base: Psbt, parties: seq<seq<Psbt>>, index: nat, expected: nat, i: nat,
                                                key: (Key, NodeHash))
    requires index < expected && Fits(base, parties, index, expected) && i < |base.inputs|
    ensures FirstSignature(base, parties, index, i, key).Some?
            <==> || key in base.inputs[i].tapScriptSigs
                 || exists p :: 0 <= p < |parties| && PartySigned(parties[p], index, i, key)
    ensures var first := FirstSignature(base, parties, index, i, key);
            first.Some? && key !in base.inputs[i].tapScriptSigs ==>
              exists p :: && 0 <= p < |parties| && PartySigned(parties[p], index, i, key)
                          && PartySignature(parties[p], index, i, key) == first.value
    decreases |parties|
  {
    if parties != [] && key !in base.inputs[i].tapScriptSigs && !PartySigned(parties[0], index, i, key) {
      var rest := parties[1..];
      FirstSignatureExists(base, rest, index, expected, i, key);
      if p :| 0 <= p < |parties| && PartySigned(parties[p], index, i, key) {
        assert PartySigned(rest[p - 1], index, i, key);
      }
      if p :| && 0 <= p < |rest| && PartySigned(rest[p], index, i, key)
              && FirstSignature(base, rest, index, i, key) == Some(PartySignature(rest[p], index, i, key)) {
        assert PartySigned(parties[p + 1], index, i, key);
      }
    }
  }

  /** The first party to have signed a slot is the one whose signature it gets. */
  lemma {:induction false} FirstPartyWins(base: Psbt, parties: seq<seq<Psbt>>, index: nat, expected: nat, i: nat,
                                          key: (Key, NodeHash), p: nat)
    requires index < expected && Fits(base, parties, index, expected) && i < |base.inputs|
    requires key !in base.inputs[i].tapScriptSigs
    requires p < |parties| && PartySigned(parties[p], index, i, key)
    requires forall q :: 0 <= q < p ==> !PartySigned(parties[q], index, i, key)
    ensures FirstSignature(base, parties, index, i, key) == Some(PartySignature(parties[p], index, i, key))
    decreases p
  {
    if p > 0 {
      assert !PartySigned(parties[0], index, i, key);
      assert forall q :: 0 <= q < p - 1 ==> parties[1..][q] == parties[q + 1];
      FirstPartyWins(base, parties[1..], index, expected, i, key, p - 1);
    }
  }

  /** The slot holds the server's signature, or else that of the first party
      that has one, or none. */
  ghost predicate SlotMerged(server: Psbt, parties: seq<seq<Psbt>>, index: nat, final: Psbt, i: nat,
                             key: (Key, NodeHash))
    requires i < |server.inputs| && i < |final.inputs|
  {
    var sigs := final.inputs[i].tapScriptSigs;
    if key in server.inputs[i].tapScriptSigs then
      key in sigs && sigs[key] == server.inputs[i].tapScriptSigs[key]
    else
      && (key in sigs ==> exists p :: 0 <= p < |parties| && PartySigned(parties[p], index, i, key))
      && forall p :: && 0 <= p < |parties| && PartySigned(parties[p], index, i, key)
                     && (forall q :: 0 <= q < p ==> !PartySigned(parties[q], index, i, key))
                     ==> key in sigs && sigs[key] == PartySignature(parties[p], index, i, key)
  }

  lemma ColumnSlots(base: Psbt, parties: seq<seq<Psbt>>, index: nat, expected: nat, i: nat, key: (Key, NodeHash))
    requires index < expected && Fits(base, parties, index, expected) && i < |base.inputs|
    ensures MergeColumn(base, parties, index, expected).Ok?
    ensures var merged := MergeColumn(base, parties, index, expected).value;
            Mergeable(base, merged) && SlotMerged(base, parties, index, merged, i, key)
  {
    ColumnSignatures(base, parties, index, expected, i, key);
    FirstSignatureExists(base, parties, index, expected, i, key);
    if key !in base.inputs[i].tapScriptSigs {
      forall p | && 0 <= p < |parties| && PartySigned(parties[p], index, i, key)
                 && (forall q :: 0 <= q < p ==> !PartySigned(parties[q], index, i, key))
        ensures FirstSignature(base, parties, index, i, key) == Some(PartySignature(parties[p], index, i, key))
      {
        FirstPartyWins(base, parties, index, expected, i, key, p);
      }
    }
  }

  // ---- The order of the parties does not matter ----

  /** Where two parties signed the same slot, they gave the same signature. */
  ghost predicate PartiesAgree(parties: seq<seq<Psbt>>, index: nat, i: nat, key: (Key, NodeHash)) {
    forall a, b :: 0 <= a < |parties| && 0 <= b < |parties|
                   && PartySigned(parties[a], index, i, key) && PartySigned(parties[b], index, i, key)
                   ==> PartySignature(parties[a], index, i, key) == PartySignature(parties[b], index, i, key)
  }

  /** Reordering the parties changes neither which slots are signed nor, where
      they agree, the signatures. */
  lemma PartyOrderIrrelevant(base: Psbt, parties: seq<seq<Psbt>>, reordered: seq<seq<Psbt>>, index: nat, expected: nat,
                             i: nat, key: (Key, NodeHash))
    requires index < expected && multiset(parties) == multiset(reordered)
    requires Fits(base, parties, index, expected) && i < |base.inputs|
    ensures Fits(base, reordered, index, expected)
    ensures MergeColumn(base, parties, index, expected).Ok? && MergeColumn(base, reordered, index, expected).Ok?
    ensures var one := MergeColumn(base, parties, index, expected).value;
            var two := MergeColumn(base, reordered, index, expected).value;
            && Mergeable(base, one) && Mergeable(base, two)
            && (key in one.inputs[i].tapScriptSigs <==> key in two.inputs[i].tapScriptSigs)
            && (PartiesAgree(parties, index, i, key) && key in one.inputs[i].tapScriptSigs ==>
                  one.inputs[i].tapScriptSigs[key] == two.inputs[i].tapScriptSigs[key])
  {
    SameMembers(parties, reordered);
    ColumnSignatures(base, parties, index, expected, i, key);
    ColumnSignatures(base, reordered, index, expected, i, key);
    FirstSignatureExists(base, parties, index, expected, i, key);
    FirstSignatureExists(base, reordered, index, expected, i, key);
  }

  lemma SameMembers<T>(s: seq<T>, t: seq<T>)
    requires multiset(s) == multiset(t)
    ensures forall i :: 0 <= i < |s| ==> exists j :: 0 <= j < |t| && t[j] == s[i]
    ensures forall j :: 0 <= j < |t| ==> exists i :: 0 <= i < |s| && s[i] == t[j]
  {
    forall i | 0 <= i < |s|
      ensures exists j :: 0 <= j < |t| && t[j] == s[i]
    {
      assert s[i] in multiset(t);
    }
    forall j | 0 <= j < |t|
      ensures exists i :: 0 <= i < |s| && s[i] == t[j]
    {
      assert t[j] in multiset(s);
    }
  }

  /** Merging the server's checkpoints with the parties' succeeds exactly when
      every position fits, and then merges each position on its own. An empty
      answer from the server fits any parties. */
  lemma {:induction false} MergeFromMerges(server: seq<Psbt>, parties: seq<seq<Psbt>>, from: nat)
    requires from <= |server|
    ensures MergeFrom(server, parties, from).Ok?
            <==> forall i :: from <= i < |server| ==> Fits(server[i], parties, i, |server|)
    ensures MergeFrom(server, parties, from).Ok? ==>
              var merged := MergeFrom(server, parties, from).value;
              && |merged| == |server| - from
              && forall i :: from <= i < |server| ==>
                               && MergeColumn(server[i], parties, i, |server|) == Ok(merged[i - from])
                               && Mergeable(server[i], merged[i - from])
    decreases |server| - from
  {
    if from < |server| {
      ColumnMerged(server[from], parties, from, |server|);
      MergeFromMerges(server, parties, from + 1);
    }
  }
}
