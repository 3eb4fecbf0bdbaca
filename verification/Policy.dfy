/** Who can spend an escrow: the complete two-of-three policy of the six leaves. */
module Policy {
  import opened Wrappers
  import opened Bitcoin
  import opened Tapscript
  import opened Contract
  import Sets

  /** The witnesses a collaborative leaf accepts: one valid signature per key, first key on top. */
  lemma CollaborativeAccepts(a: Key, b: Key, server: Key, items: seq<Item>, spend: Spend)
    requires spend.WellFormed()
    ensures var script := Collaborative3Of3(a, b, server);
            Accepts(script, items, spend)
            <==> && |items| == 3
                 && SignatureValid(spend, script, a, items[0])
                 && SignatureValid(spend, script, b, items[1])
                 && SignatureValid(spend, script, server, items[2])
  {
    var script := Collaborative3Of3(a, b, server);
    var first := VerifyOne(script, 0, a, items, spend);
    if first {
      var second := VerifyOne(script, 2, b, items[1..], spend);
      if second {
        FinalCheck(script, 4, server, items[2..], spend);
        assert items[1..][1..] == items[2..];
      }
    }
  }

  /** The witnesses a unilateral leaf accepts, and when. */
  lemma UnilateralAccepts(delay: nat, a: Key, b: Key, items: seq<Item>, spend: Spend)
    requires spend.WellFormed() && !Disabled(delay)
    ensures var script := Unilateral2Of2(delay, a, b);
            Accepts(script, items, spend)
            <==> && SequenceReached(delay, spend)
                 && |items| == 2
                 && SignatureValid(spend, script, a, items[0])
                 && SignatureValid(spend, script, b, items[1])
  {
    var script := Unilateral2Of2(delay, a, b);
    var pushed := [Num(delay)] + items;
    assert Execute(script, 0, items, spend) == Execute(script, 1, pushed, spend);
    if SequenceReached(delay, spend) {
      assert Execute(script, 1, pushed, spend) == Execute(script, 2, pushed, spend);
      assert pushed[1..] == items;
      assert Execute(script, 2, pushed, spend) == Execute(script, 3, items, spend);
      var first := VerifyOne(script, 3, a, items, spend);
      if first {
        FinalCheck(script, 5, b, items[1..], spend);
      }
    }
  }

  /** `<key> OP_CHECKSIGVERIFY` consumes one valid signature or aborts. */
  lemma VerifyOne(script: Script, pc: nat, key: Key, stack: seq<Item>, spend: Spend) returns (passes: bool)
    requires spend.WellFormed()
    requires pc + 1 < |script| && script[pc] == PushKey(key) && script[pc + 1] == CheckSigVerify
    ensures passes <==> |stack| >= 1 && SignatureValid(spend, script, key, stack[0])
    ensures Execute(script, pc, stack, spend)
            == if passes then Execute(script, pc + 2, stack[1..], spend) else None
  {
    var pushed := [PubKey(key)] + stack;
    assert Execute(script, pc, stack, spend) == Execute(script, pc + 1, pushed, spend);
    passes := |stack| >= 1 && SignatureValid(spend, script, key, stack[0]);
    if |stack| >= 1 {
      assert pushed[1] == stack[0] && pushed[2..] == stack[1..];
      if passes {
        assert ([Num(1)] + pushed[2..])[1..] == stack[1..];
      }
    }
  }

  /** A closing `<key> OP_CHECKSIG` succeeds exactly on one valid signature and nothing else. */
  lemma FinalCheck(script: Script, pc: nat, key: Key, stack: seq<Item>, spend: Spend)
    requires spend.WellFormed()
    requires pc + 2 == |script| && script[pc] == PushKey(key) && script[pc + 1] == CheckSig
    ensures var final := Execute(script, pc, stack, spend);
            (final.Some? && |final.value| == 1 && Truthy(final.value[0]))
            <==> |stack| == 1 && SignatureValid(spend, script, key, stack[0])
  {
    var pushed := [PubKey(key)] + stack;
    assert Execute(script, pc, stack, spend) == Execute(script, pc + 1, pushed, spend);
    var checked := CheckSignature(pushed, script, spend);
    if checked.Some? {
      assert pushed[1] == stack[0] && pushed[2..] == stack[1..];
      assert Execute(script, pc + 1, pushed, spend) == Execute(script, pc + 2, checked.value, spend);
    }
  }

  // ---- The policy ----

  ghost predicate Spendable(o: EscrowOptions, coalition: set<Key>, spend: Spend)
    requires spend.WellFormed()
  {
    exists i, items ::
      0 <= i < 6 && Producible(coalition, items) && Accepts(Tapscripts(o)[i], items, spend)
  }

  ghost predicate TwoOfThree(o: EscrowOptions, coalition: set<Key>) {
    |coalition * {o.seller, o.buyer, o.arbiter}| >= 2
  }

  function Signed(spend: Spend, script: Script, key: Key): (item: Item)
    ensures SignatureValid(spend, script, key, item)
  {
    Sig(TapSignature(SignedBy(key, spend.Message(script, DefaultType), 0), DefaultType))
  }

  /** The pair of parties a signer set stands for. */
  function Pair(signers: SignerSet, o: EscrowOptions): (Key, Key) {
    match signers
    case BuyerArbiter => (o.buyer, o.arbiter)
    case SellerArbiter => (o.seller, o.arbiter)
    case SellerBuyer => (o.seller, o.buyer)
  }

  function LeafIndex(signers: SignerSet): nat {
    match signers case SellerArbiter => 0 case BuyerArbiter => 1 case SellerBuyer => 2
  }

  lemma PairIsTwo(o: EscrowOptions, coalition: set<Key>, s: SignerSet)
    requires Distinct(Keys(o)) && Pair(s, o).0 in coalition && Pair(s, o).1 in coalition
    ensures TwoOfThree(o, coalition)
  {
    var keys := Keys(o);
    assert keys[0] != keys[1] && keys[0] != keys[2] && keys[1] != keys[2];
    var pair := {Pair(s, o).0, Pair(s, o).1};
    assert |pair| == 2;
    Sets.SubsetSize(pair, coalition * {o.seller, o.buyer, o.arbiter});
  }

  lemma PairAmongTwo(o: EscrowOptions, coalition: set<Key>) returns (s: SignerSet)
    requires TwoOfThree(o, coalition)
    ensures Pair(s, o).0 in coalition && Pair(s, o).1 in coalition
  {
    var present := coalition * {o.seller, o.buyer, o.arbiter};
    var a :| a in present;
    assert |present - {a}| >= 1;
    var b :| b in present - {a};
    assert a in {o.seller, o.buyer, o.arbiter} && b in {o.seller, o.buyer, o.arbiter};
    s := if o.seller !in coalition then BuyerArbiter else if o.buyer !in coalition then SellerArbiter else SellerBuyer;
  }

  /** With distinct keys, two of three parties means some signer set is present. */
  lemma TwoOfThreeIsAPair(o: EscrowOptions, coalition: set<Key>)
    requires Distinct(Keys(o))
    ensures TwoOfThree(o, coalition)
            <==> exists s: SignerSet :: Pair(s, o).0 in coalition && Pair(s, o).1 in coalition
  {
    if s: SignerSet :| Pair(s, o).0 in coalition && Pair(s, o).1 in coalition {
      PairIsTwo(o, coalition, s);
    }
    if TwoOfThree(o, coalition) {
      var s := PairAmongTwo(o, coalition);
      assert Pair(s, o).0 in coalition;
    }
  }

  /** Some leaf can be satisfied exactly when two parties sign, and either the
      server signs too or the delay has been reached. */
  lemma SpendingPolicy(o: EscrowOptions, coalition: set<Key>, spend: Spend)
    requires Valid(o) && spend.WellFormed()
    ensures Spendable(o, coalition, spend)
            <==> TwoOfThree(o, coalition) && (o.server in coalition || SequenceReached(o.delay, spend))
  {
    TwoOfThreeIsAPair(o, coalition);
    if i, items :| 0 <= i < 6 && Producible(coalition, items) && Accepts(Tapscripts(o)[i], items, spend) {
      PolicyNecessary(o, coalition, spend, i, items);
    }
    if TwoOfThree(o, coalition) && (o.server in coalition || SequenceReached(o.delay, spend)) {
      var s: SignerSet :| Pair(s, o).0 in coalition && Pair(s, o).1 in coalition;
      PolicySufficient(o, coalition, spend, s);
    }
  }

  lemma PolicyNecessary(o: EscrowOptions, coalition: set<Key>, spend: Spend, i: nat, items: seq<Item>)
    requires Valid(o) && spend.WellFormed() && i < 6
    requires Producible(coalition, items) && Accepts(Tapscripts(o)[i], items, spend)
    ensures exists s: SignerSet :: Pair(s, o).0 in coalition && Pair(s, o).1 in coalition
    ensures o.server in coalition || SequenceReached(o.delay, spend)
  {
    var s := if i % 3 == 0 then SellerArbiter else if i % 3 == 1 then BuyerArbiter else SellerBuyer;
    if i < 3 {
      assert Tapscripts(o)[i] == Collaborative3Of3(Pair(s, o).0, Pair(s, o).1, o.server);
      CollaborativeAccepts(Pair(s, o).0, Pair(s, o).1, o.server, items, spend);
      assert items[0].sig.signature.key in coalition;
      assert items[1].sig.signature.key in coalition;
      assert items[2].sig.signature.key in coalition;
    } else {
      assert Tapscripts(o)[i] == Unilateral2Of2(o.delay, Pair(s, o).0, Pair(s, o).1);
      UnilateralAccepts(o.delay, Pair(s, o).0, Pair(s, o).1, items, spend);
      assert items[0].sig.signature.key in coalition;
      assert items[1].sig.signature.key in coalition;
    }
    assert Pair(s, o).0 in coalition && Pair(s, o).1 in coalition;
  }

  lemma PolicySufficient(o: EscrowOptions, coalition: set<Key>, spend: Spend, s: SignerSet)
    requires Valid(o) && spend.WellFormed()
    requires Pair(s, o).0 in coalition && Pair(s, o).1 in coalition
    requires o.server in coalition || SequenceReached(o.delay, spend)
    ensures Spendable(o, coalition, spend)
  {
    var (a, b) := Pair(s, o);
    if o.server in coalition {
      var script := LeafScript(s, o);
      var items := [Signed(spend, script, a), Signed(spend, script, b), Signed(spend, script, o.server)];
      CollaborativeAccepts(a, b, o.server, items, spend);
      assert Producible(coalition, items);
      assert Accepts(Tapscripts(o)[LeafIndex(s)], items, spend);
    } else {
      var script := ExitScript(s, o);
      var items := [Signed(spend, script, a), Signed(spend, script, b)];
      UnilateralAccepts(o.delay, a, b, items, spend);
      assert Producible(coalition, items);
      assert Accepts(Tapscripts(o)[3 + LeafIndex(s)], items, spend);
    }
  }

  // ---- What the non-zero check on the delay does not rule out ----

  /** An input sequence that asks for no waiting at all. */
  predicate NoWait(spend: Spend)
    requires spend.WellFormed()
  {
    LockValue(spend.tx.inputs[spend.index].sequence) == 0
  }

  /** Validation looks at the raw sequence, the lock-time only at its low 16
      bits: a valid escrow keeps two parties waiting exactly when those are
      non-zero. */
  lemma ExitMustWait(o: EscrowOptions, coalition: set<Key>)
    requires Valid(o) && TwoOfThree(o, coalition) && o.server !in coalition
    ensures (forall spend: Spend :: spend.WellFormed() && NoWait(spend) ==> !Spendable(o, coalition, spend))
            <==> LockValue(o.delay) != 0
  {
    if LockValue(o.delay) != 0 {
      forall spend: Spend | spend.WellFormed() && NoWait(spend)
        ensures !Spendable(o, coalition, spend)
      {
        SpendingPolicy(o, coalition, spend);
      }
    } else {
      var sequence: nat := if TimeBased(o.delay) then TYPE_FLAG else 0;
      var spend := Spend(Transaction(2, [TxIn(OutPoint(Foreign(0), 0), sequence)], [], 0), 0, []);
      assert spend.WellFormed() && NoWait(spend) && SequenceReached(o.delay, spend);
      SpendingPolicy(o, coalition, spend);
    }
  }

  /** Options that pass validation although their delay is no wait. */
  lemma ValidDelayMayBeNoWait()
    ensures exists o: EscrowOptions :: Valid(o) && LockValue(o.delay) == 0
  {
    var o := EscrowOptions(Key(0), Key(1), Key(2), Key(3), TYPE_FLAG);
    assert Valid(o) && LockValue(o.delay) == 0;
  }
}
