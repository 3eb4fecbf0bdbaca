/** The escrow output as a whole: its exact script tree, and who can spend it (contract.rs). */
module EscrowOutput {
  import opened Wrappers
  import opened Bitcoin
  import opened Contract
  import opened Escrow
  import opened MergeTree
  import opened Policy
  import Sorting
  import Taproot
  import Tapscript

  // ---- The exact tree ----

  /** One round on a list that is sorted but for its last node. */
  lemma Round(nodes: seq<TreeNode>, s: seq<TreeNode>, x: TreeNode, front: seq<TreeNode>, a: TreeNode, b: TreeNode,
              next: seq<TreeNode>)
    requires nodes == s + [x] && |nodes| >= 2 && Sorting.Sorted(HeavierFirst, s)
    requires Sorting.Place(HeavierFirst, s, x) == front + [a, b]
    requires next == front + [Branch(a, b, a.weight + b.weight)]
    ensures MergeLightest(nodes) == next
  {
    HeavierFirstIsTotal();
    Sorting.SortAppended(HeavierFirst, s, x);
    var sorted := front + [a, b];
    assert sorted[..|front|] == front && sorted[|front|] == a && sorted[|front| + 1] == b;
  }

  /** Among nodes of one weight the last stays last. */
  lemma {:induction false} PlaceLast(s: seq<TreeNode>, x: TreeNode)
    requires forall i :: 0 <= i < |s| ==> s[i].weight >= x.weight
    ensures Sorting.Place(HeavierFirst, s, x) == s + [x]
  {
    if s == [] {
      assert s + [x] == [x] + s;
    } else {
      PlaceLast(s[1..], x);
      assert [s[0]] + (s[1..] + [x]) == s + [x];
    }
  }

  /** A node heavier than all of the list comes first. */
  lemma PlaceFirst(s: seq<TreeNode>, x: TreeNode)
    requires s != [] ==> s[0].weight < x.weight
    ensures Sorting.Place(HeavierFirst, s, x) == [x] + s
  {
  }

  lemma RoundOfSix(l: seq<TreeNode>, next: seq<TreeNode>)
    requires |l| == 6 && forall i :: 0 <= i < 6 ==> l[i].weight == 1
    requires next == l[..4] + [Branch(l[4], l[5], 2)]
    ensures MergeLightest(l) == next
  {
    PlaceLast(l[..5], l[5]);
    assert l == l[..5] + [l[5]] && l[..5] + [l[5]] == l[..4] + [l[4], l[5]];
    Round(l, l[..5], l[5], l[..4], l[4], l[5], next);
  }

  /** Four light nodes and a heavier last one. */
  lemma RoundOfFive(l: seq<TreeNode>, x: TreeNode, next: seq<TreeNode>)
    requires |l| == 4 && (forall i :: 0 <= i < 4 ==> l[i].weight == 1) && x.weight == 2
    requires next == [x] + l[..2] + [Branch(l[2], l[3], 2)]
    ensures MergeLightest(l + [x]) == next
  {
    PlaceFirst(l, x);
    assert [x] + l == [x] + l[..2] + [l[2], l[3]];
    Round(l + [x], l, x, [x] + l[..2], l[2], l[3], next);
  }

  /** Two light nodes between two heavier ones. */
  lemma RoundOfFour(nodes: seq<TreeNode>, x: TreeNode, a: TreeNode, b: TreeNode, y: TreeNode, next: seq<TreeNode>)
    requires a.weight == b.weight == 1 && x.weight == y.weight == 2
    requires nodes == [x, a, b] + [y] && next == [x, y] + [Branch(a, b, 2)]
    ensures MergeLightest(nodes) == next
  {
    var s := [x, a, b];
    assert s[1..] == [a, b];
    PlaceFirst([a, b], y);
    assert [x] + ([y] + [a, b]) == [x, y] + [a, b];
    Round(nodes, s, y, [x, y], a, b, next);
  }

  lemma RoundOfThree(nodes: seq<TreeNode>, x: TreeNode, y: TreeNode, z: TreeNode, next: seq<TreeNode>)
    requires x.weight == y.weight == z.weight == 2
    requires nodes == [x, y] + [z] && next == [x] + [Branch(y, z, 4)]
    ensures MergeLightest(nodes) == next
  {
    PlaceLast([x, y], z);
    assert [x, y] + [z] == [x] + [y, z];
    Round(nodes, [x, y], z, [x], y, z, next);
  }

  lemma RoundOfTwo(nodes: seq<TreeNode>, x: TreeNode, p: TreeNode, next: seq<TreeNode>)
    requires x.weight == 2 && p.weight == 4
    requires nodes == [x] + [p] && next == [Branch(p, x, 6)]
    ensures MergeLightest(nodes) == next
  {
    PlaceFirst([x], p);
    assert [p] + [x] == [] + [p, x] && next == [] + next;
    Round(nodes, [x], p, [], p, x, next);
  }

  /** Merging six leaves of weight one, whatever their scripts. */
  lemma SixLeaves(s: seq<Script>)
    requires |s| == 6
    ensures MergeAll(UnitLeaves(s))
            == Branch(Branch(Branch(Leaf(s[2], 1), Leaf(s[3], 1), 2), Branch(Leaf(s[0], 1), Leaf(s[1], 1), 2), 4),
                      Branch(Leaf(s[4], 1), Leaf(s[5], 1), 2), 6)
  {
    var l := UnitLeaves(s);
    var p45, p23 := Branch(l[4], l[5], 2), Branch(l[2], l[3], 2);
    RoundOfSix(l, l[..4] + [p45]);
    Then(l, l[..4] + [p45]);
    var next := [p45] + l[..4][..2] + [p23];
    RoundOfFive(l[..4], p45, next);
    Then(l[..4] + [p45], next);
    assert next == [p45, l[0], l[1]] + [p23];
    LastThreeRounds(next, p45, l[0], l[1], p23);
  }

  lemma LastThreeRounds(nodes: seq<TreeNode>, x: TreeNode, a: TreeNode, b: TreeNode, y: TreeNode)
    requires a.weight == b.weight == 1 && x.weight == y.weight == 2 && nodes == [x, a, b] + [y]
    ensures MergeAll(nodes) == Branch(Branch(y, Branch(a, b, 2), 4), x, 6)
  {
    var z := Branch(a, b, 2);
    var three, two := [x, y] + [z], [x] + [Branch(y, z, 4)];
    var one := [Branch(Branch(y, z, 4), x, 6)];
    RoundOfFour(nodes, x, a, b, y, three);
    Then(nodes, three);
    RoundOfThree(three, x, y, z, two);
    Then(three, two);
    RoundOfTwo(two, x, Branch(y, z, 4), one);
    Then(two, one);
  }

  lemma Then(nodes: seq<TreeNode>, next: seq<TreeNode>)
    requires |nodes| >= 2 && MergeLightest(nodes) == next
    ensures MergeAll(nodes) == MergeAll(next)
  {
  }

  /** The tree of every escrow, script by script: it fixes the address. */
  lemma EscrowTreeIs(o: EscrowOptions)
    ensures EscrowTree(o)
            == Branch(
                 Branch(
                   Branch(Leaf([PushKey(o.seller), CheckSigVerify, PushKey(o.buyer), CheckSigVerify,
                                PushKey(o.server), CheckSig], 1),
                          Leaf([PushInt(o.delay), CheckSequenceVerify, Drop,
                                PushKey(o.seller), CheckSigVerify, PushKey(o.arbiter), CheckSig], 1), 2),
                   Branch(Leaf([PushKey(o.seller), CheckSigVerify, PushKey(o.arbiter), CheckSigVerify,
                                PushKey(o.server), CheckSig], 1),
                          Leaf([PushKey(o.buyer), CheckSigVerify, PushKey(o.arbiter), CheckSigVerify,
                                PushKey(o.server), CheckSig], 1), 2), 4),
                 Branch(Leaf([PushInt(o.delay), CheckSequenceVerify, Drop,
                              PushKey(o.buyer), CheckSigVerify, PushKey(o.arbiter), CheckSig], 1),
                        Leaf([PushInt(o.delay), CheckSequenceVerify, Drop,
                              PushKey(o.seller), CheckSigVerify, PushKey(o.buyer), CheckSig], 1), 2), 6)
  {
    SixLeaves(Tapscripts(o));
  }

  // ---- Spending the output, after BIP 341 ("Script validation rules") ----

  datatype Witness =
    | KeyPath(sig: TapSignature)
    | ScriptPath(control: ControlBlock, script: Script, items: seq<Tapscript.Item>)

  /** The key path takes a signature for the internal key (its tweak is
      public); the script path a committed leaf, which only has to accept if it
      is a tapscript leaf. */
  predicate Unlocks(output: ScriptPubkey, w: Witness, spend: Tapscript.Spend)
    requires spend.WellFormed()
  {
    && output.P2tr?
    && match w
       case KeyPath(sig) =>
         var message := KeySpendMessage(spend.tx, spend.index, spend.prevouts, sig.sighashType);
         || (output.output.Tweaked? && Verifies(output.output.internal, message, sig.signature))
         || (output.output.Untweaked? && Verifies(output.output.key, message, sig.signature))
       case ScriptPath(control, script, items) =>
         && Taproot.Commits(output.output, control, script)
         && (control.version == TapScript ==> Tapscript.Accepts(script, items, spend))
  }

  /** The keys somebody can sign for: the others have no known secret. */
  function Held(secrets: set<nat>): set<Key> {
    set s | s in secrets :: Key(s)
  }

  ghost predicate MadeBy(keys: set<Key>, w: Witness) {
    match w
    case KeyPath(sig) => sig.signature.SignedBy? ==> sig.signature.key in keys
    case ScriptPath(_, _, items) => Tapscript.Producible(keys, items)
  }

  ghost predicate OutputSpendable(output: ScriptPubkey, keys: set<Key>, spend: Tapscript.Spend)
    requires spend.WellFormed()
  {
    exists w :: MadeBy(keys, w) && Unlocks(output, w, spend)
  }

  /** The output of every escrow contract, by whatever path: those who hold
      these secrets can spend it exactly if two of the three parties are among
      them, and the server is too or the delay has been reached. Nobody can by
      the internal key, whatever keys the options name. */
  lemma OutputPolicy(contract: EscrowContract, secrets: set<nat>, spend: Tapscript.Spend)
    requires contract.WellFormed() && spend.WellFormed()
    ensures var o, keys := contract.options, Held(secrets);
            OutputSpendable(contract.ScriptPubkey(), keys, spend)
            <==> && |keys * {o.seller, o.buyer, o.arbiter}| >= 2
                 && (o.server in keys || Tapscript.SequenceReached(o.delay, spend))
  {
    var o, keys := contract.options, Held(secrets);
    SpendingPolicy(o, keys, spend);
    if w :| MadeBy(keys, w) && Unlocks(contract.ScriptPubkey(), w, spend) {
      WitnessIsLeaf(contract, secrets, spend, w);
    }
    if i, items :| 0 <= i < 6 && Tapscript.Producible(keys, items)
                   && Tapscript.Accepts(Tapscripts(o)[i], items, spend) {
      var script := Tapscripts(o)[i];
      ControlBlocksCommit(contract, script);
      var control := contract.ControlBlock(script).value;
      assert MadeBy(keys, ScriptPath(control, script, items));
      assert Unlocks(contract.ScriptPubkey(), ScriptPath(control, script, items), spend);
    }
  }

  /** Whatever unlocks the output satisfies one of its leaves. */
  lemma WitnessIsLeaf(contract: EscrowContract, secrets: set<nat>, spend: Tapscript.Spend, w: Witness)
    requires contract.WellFormed() && spend.WellFormed()
    requires MadeBy(Held(secrets), w) && Unlocks(contract.ScriptPubkey(), w, spend)
    ensures Spendable(contract.options, Held(secrets), spend)
  {
    match w
    case KeyPath(sig) =>
      assert false;
    case ScriptPath(control, script, items) =>
      OnlyLeavesCommitted(contract, control, script);
      var i :| 0 <= i < 6 && Tapscripts(contract.options)[i] == script;
      assert Tapscript.Producible(Held(secrets), items);
      assert Tapscript.Accepts(Tapscripts(contract.options)[i], items, spend);
  }
}
