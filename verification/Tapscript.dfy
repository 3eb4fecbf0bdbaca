/**
 * The fragment of tapscript the escrow leaves use, after BIP 342 ("Rules for
 * signature opcodes") and BIP 112.
 */
module Tapscript {
  import opened Wrappers
  import opened Bitcoin

  /** A stack element. The empty vector, which is false, is `Num(0)`. */
  datatype Item = Num(value: nat) | Sig(sig: TapSignature) | PubKey(key: Key) | Junk(bytes: nat)

  /** The input being spent. */
  datatype Spend = Spend(tx: Transaction, index: nat, prevouts: seq<TxOut>) {
    predicate WellFormed() {
      index < |tx.inputs|
    }

    function Message(script: Script, hashType: SighashType): Message {
      SpendMessage(tx, index, prevouts, LeafHash(TapScript, script), hashType)
    }
  }

  predicate SignatureValid(spend: Spend, script: Script, key: Key, item: Item) {
    item.Sig? && Verifies(key, spend.Message(script, item.sig.sighashType), item.sig.signature)
  }

  // ---- Relative lock-times, BIP 68 ("Specification") ----

  const DISABLE_FLAG: nat := 0x8000_0000
  const TYPE_FLAG: nat := 0x40_0000
  const VALUE_LIMIT: nat := 0x1_0000

  predicate Disabled(sequence: nat) {
    (sequence / DISABLE_FLAG) % 2 == 1
  }

  predicate TimeBased(sequence: nat) {
    (sequence / TYPE_FLAG) % 2 == 1
  }

  function LockValue(sequence: nat): nat {
    sequence % VALUE_LIMIT
  }

  /** The comparison OP_CHECKSEQUENCEVERIFY makes for an enabled operand. */
  predicate SequenceReached(delay: nat, spend: Spend)
    requires spend.WellFormed()
  {
    var sequence := spend.tx.inputs[spend.index].sequence;
    && spend.tx.version >= 2
    && !Disabled(sequence)
    && TimeBased(delay) == TimeBased(sequence)
    && LockValue(delay) <= LockValue(sequence)
  }

  // ---- Execution; the top of the stack is element 0 ----

  function Step(op: Op, stack: seq<Item>, script: Script, spend: Spend): Option<seq<Item>>
    requires spend.WellFormed()
  {
    match op
    case PushKey(key) => Some([PubKey(key)] + stack)
    case PushInt(value) => Some([Num(value)] + stack)
    case Drop => if stack == [] then None else Some(stack[1..])
    case CheckSig => CheckSignature(stack, script, spend)
    case CheckSigVerify =>
      var checked := CheckSignature(stack, script, spend);
      if checked.Some? && checked.value[0] == Num(1) then Some(checked.value[1..]) else None
    case CheckSequenceVerify =>
      if stack == [] || !stack[0].Num? then None
      else if Disabled(stack[0].value) || SequenceReached(stack[0].value, spend) then Some(stack)
      else None
  }

  /** An empty signature yields false; any other signature that does not verify aborts the script. */
  function CheckSignature(stack: seq<Item>, script: Script, spend: Spend): (r: Option<seq<Item>>)
    ensures r.Some? ==> |r.value| >= 1
  {
    if |stack| < 2 || !stack[0].PubKey? then None
    else if stack[1] == Num(0) then Some([Num(0)] + stack[2..])
    else if SignatureValid(spend, script, stack[0].key, stack[1]) then Some([Num(1)] + stack[2..])
    else None
  }

  function Execute(script: Script, pc: nat, stack: seq<Item>, spend: Spend): Option<seq<Item>>
    requires pc <= |script| && spend.WellFormed()
    decreases |script| - pc
  {
    if pc == |script| then
      Some(stack)
    else
      match Step(script[pc], stack, script, spend)
      case None => None
      case Some(next) => Execute(script, pc + 1, next, spend)
  }

  function Truthy(item: Item): bool {
    item != Num(0)
  }

  /** Success leaves exactly one, true, element. */
  predicate Accepts(script: Script, items: seq<Item>, spend: Spend)
    requires spend.WellFormed()
  {
    var final := Execute(script, 0, items, spend);
    final.Some? && |final.value| == 1 && Truthy(final.value[0])
  }

  /** A witness the holders of `coalition`'s keys can put together. */
  ghost predicate Producible(coalition: set<Key>, items: seq<Item>) {
    forall i :: 0 <= i < |items| && items[i].Sig? && items[i].sig.signature.SignedBy?
                ==> items[i].sig.signature.key in coalition
  }
}
