/**
 * Transactions, scripts and PSBTs, with cryptography kept symbolic: a hash or
 * a signature is the term it was computed from, so hashing is injective and a
 * signature verifies exactly when the named key made it for that message.
 * `Opaque`, `Foreign`, `Bogus` and similar constructors are the values an
 * adversary or a stranger may supply.
 */
module Bitcoin {
  import opened Wrappers

  /** A key with its secret, or the point that has none anybody knows. */
  datatype Key = Key(secret: nat) | NothingUpMySleeve

  // ---- Scripts ----

  datatype Op =
    | PushKey(key: Key)
    | PushInt(value: nat)
    | CheckSig
    | CheckSigVerify
    | CheckSequenceVerify
    | Drop

  type Script = seq<Op>

  datatype LeafVersion = TapScript | OtherVersion(bits: nat)

  // ---- Script trees and outputs ----

  /** A node hash. BIP 341 sorts the two children of a branch before hashing,
      so a branch hash determines them only up to order. */
  datatype NodeHash =
    | LeafHash(version: LeafVersion, script: Script)
    | BranchHash(children: multiset<NodeHash>)
    | Opaque(bytes: nat)

  function Combine(a: NodeHash, b: NodeHash): NodeHash {
    BranchHash(multiset{a, b})
  }

  /** Tweaking an internal key by a script root, as BIP 341 does. */
  datatype OutputKey =
    | Tweaked(internal: Key, root: NodeHash)
    | Untweaked(key: Key)
    | OffCurve(bytes: nat)

  datatype ScriptPubkey = P2tr(output: OutputKey) | OtherScript(bytes: nat)

  datatype ControlBlock = ControlBlock(version: LeafVersion, internal: Key, path: seq<NodeHash>)

  // ---- Transactions ----

  datatype Txid = TxidOf(tx: Transaction) | Foreign(bytes: nat)

  datatype OutPoint = OutPoint(txid: Txid, vout: nat)

  datatype TxIn = TxIn(previousOutput: OutPoint, sequence: nat)

  /** Amounts are 64 bits wide; their sum wraps around where overflow checks are off. */
  const AMOUNT_LIMIT: nat := 0x1_0000_0000_0000_0000

  function WrapU64(sum: nat): nat {
    sum % AMOUNT_LIMIT
  }

  datatype TxOut = TxOut(value: nat, script: ScriptPubkey)

  datatype Transaction = Transaction(version: nat, inputs: seq<TxIn>, outputs: seq<TxOut>, lockTime: nat)

  // ---- Signatures ----

  /** What a taproot signature signs: by the script path with the leaf, by the key path without. */
  datatype Message =
    | SpendMessage(tx: Transaction, index: nat, prevouts: seq<TxOut>, leaf: NodeHash, hashType: SighashType)
    | KeySpendMessage(tx: Transaction, index: nat, prevouts: seq<TxOut>, hashType: SighashType)

  datatype Schnorr = SignedBy(key: Key, message: Message, nonce: nat) | Bogus(bytes: nat)

  predicate Verifies(key: Key, message: Message, sig: Schnorr) {
    sig.SignedBy? && sig.key == key && sig.message == message
  }

  datatype SighashType = DefaultType | OtherType(bits: nat)

  datatype TapSignature = TapSignature(signature: Schnorr, sighashType: SighashType)

  // ---- PSBTs ----

  /** Script-path signatures, by signing key and leaf hash. */
  type SigMap = map<(Key, NodeHash), TapSignature>

  datatype LeafEntry = LeafEntry(control: ControlBlock, script: Script, version: LeafVersion)

  /** `tapScripts` lists the entries in control-block order. */
  datatype PsbtInput = PsbtInput(
    witnessUtxo: Option<TxOut>,
    tapScripts: seq<LeafEntry>,
    tapScriptSigs: SigMap,
    witnessScript: Option<Script>)

  datatype Psbt = Psbt(tx: Transaction, inputs: seq<PsbtInput>) {
    function Txid(): Txid {
      TxidOf(tx)
    }
  }
}
