/** Escrow options, the six leaf scripts and the contract built from them (contract.rs). */
module Contract {
  import opened Wrappers
  import opened Bitcoin
  import Tapscript

  datatype EscrowOptions = EscrowOptions(seller: Key, buyer: Key, arbiter: Key, server: Key, delay: nat)

  datatype SignerSet = BuyerArbiter | SellerArbiter | SellerBuyer

  datatype OptionsError = KeysNotDistinct | ZeroDelay | NotRelativeLockTime

  // ---- Script builders ----

  function Collaborative3Of3(a: Key, b: Key, server: Key): Script {
    [PushKey(a), CheckSigVerify, PushKey(b), CheckSigVerify, PushKey(server), CheckSig]
  }

  function Unilateral2Of2(delay: nat, a: Key, b: Key): Script {
    [PushInt(delay), CheckSequenceVerify, Drop, PushKey(a), CheckSigVerify, PushKey(b), CheckSig]
  }

  function LeafScript(signers: SignerSet, o: EscrowOptions): Script {
    match signers
    case BuyerArbiter => Collaborative3Of3(o.buyer, o.arbiter, o.server)
    case SellerArbiter => Collaborative3Of3(o.seller, o.arbiter, o.server)
    case SellerBuyer => Collaborative3Of3(o.seller, o.buyer, o.server)
  }

  function ExitScript(signers: SignerSet, o: EscrowOptions): Script {
    match signers
    case BuyerArbiter => Unilateral2Of2(o.delay, o.buyer, o.arbiter)
    case SellerArbiter => Unilateral2Of2(o.delay, o.seller, o.arbiter)
    case SellerBuyer => Unilateral2Of2(o.delay, o.seller, o.buyer)
  }

  /** The six leaves in tree order, collaborative then unilateral. */
  function Tapscripts(o: EscrowOptions): (r: seq<Script>)
    ensures |r| == 6
  {
    [LeafScript(SellerArbiter, o), LeafScript(BuyerArbiter, o), LeafScript(SellerBuyer, o),
     ExitScript(SellerArbiter, o), ExitScript(BuyerArbiter, o), ExitScript(SellerBuyer, o)]
  }

  // ---- Validation ----

  predicate Distinct(keys: seq<Key>) {
    forall i, j :: 0 <= i < j < |keys| ==> keys[i] != keys[j]
  }

  function Keys(o: EscrowOptions): seq<Key> {
    [o.seller, o.buyer, o.arbiter, o.server]
  }

  predicate Valid(o: EscrowOptions) {
    Distinct(Keys(o)) && o.delay != 0 && !Tapscript.Disabled(o.delay)
  }

  lemma DistinctKeys(o: EscrowOptions)
    ensures Distinct(Keys(o)) <==>
              && o.seller != o.buyer && o.seller != o.arbiter && o.seller != o.server
              && o.buyer != o.arbiter && o.buyer != o.server && o.arbiter != o.server
  {
    var keys := Keys(o);
    if Distinct(keys) {
      assert keys[0] != keys[1] && keys[0] != keys[2] && keys[0] != keys[3];
      assert keys[1] != keys[2] && keys[1] != keys[3] && keys[2] != keys[3];
    }
  }

  method Validate(o: EscrowOptions) returns (r: Result<(), OptionsError>)
    ensures r.Ok? <==>
              && o.seller != o.buyer && o.seller != o.arbiter && o.seller != o.server
              && o.buyer != o.arbiter && o.buyer != o.server && o.arbiter != o.server
              && o.delay != 0 && (o.delay / 0x8000_0000) % 2 == 0
    ensures r.Ok? <==> Valid(o)
    ensures r == Err(KeysNotDistinct) <==> !Distinct(Keys(o))
    ensures r == Err(ZeroDelay) <==> Distinct(Keys(o)) && o.delay == 0
  {
    DistinctKeys(o);
    var keys := Keys(o);
    for i := 0 to |keys|
      invariant forall p, q :: 0 <= p < i && p < q < |keys| ==> keys[p] != keys[q]
    {
      for j := i + 1 to |keys|
        invariant forall q :: i < q < j ==> keys[i] != keys[q]
      {
        if keys[i] == keys[j] {
          return Err(KeysNotDistinct);
        }
      }
    }
    if o.delay == 0 {
      return Err(ZeroDelay);
    }
    if Tapscript.Disabled(o.delay) {
      return Err(NotRelativeLockTime);
    }
    return Ok(());
  }

  // ---- The leaves tell their options apart ----

  lemma LeavesDistinct(o: EscrowOptions)
    requires Distinct(Keys(o))
    ensures forall i, j :: 0 <= i < j < 6 ==> Tapscripts(o)[i] != Tapscripts(o)[j]
  {
    var keys := Keys(o);
    assert keys[0] != keys[1] && keys[0] != keys[2] && keys[1] != keys[2];
    var t := Tapscripts(o);
    assert t[0][0] == PushKey(o.seller) && t[1][0] == PushKey(o.buyer) && t[2][0] == PushKey(o.seller);
    assert t[0][2] == PushKey(o.arbiter) && t[2][2] == PushKey(o.buyer);
    assert t[3][3] == PushKey(o.seller) && t[4][3] == PushKey(o.buyer) && t[5][3] == PushKey(o.seller);
    assert t[3][5] == PushKey(o.arbiter) && t[5][5] == PushKey(o.buyer);
    assert forall i, j :: 0 <= i < 3 <= j < 6 ==> |t[i]| != |t[j]|;
  }

  /** Same parties, same leaves: then same server. */
  lemma LeavesFixServer(o: EscrowOptions, server: Key)
    requires Distinct(Keys(o))
    requires LeafScript(SellerArbiter, o) in Tapscripts(o.(server := server))
    ensures server == o.server
  {
  }
}
