/** The escrow contract: validated options together with their taproot output (contract.rs). */
module Escrow {
  import opened Wrappers
  import opened Bitcoin
  import opened Contract
  import MergeTree
  import Taproot

  /** The internal key nobody can sign for. */
  const UNSPENDABLE := NothingUpMySleeve

  datatype SpendInfo = SpendInfo(internal: Key, node: Taproot.NodeInfo)

  datatype EscrowContract = EscrowContract(options: EscrowOptions, spendInfo: SpendInfo, network: nat) {
    function ScriptPubkey(): ScriptPubkey {
      P2tr(Tweaked(spendInfo.internal, spendInfo.node.hash))
    }

    function ControlBlock(script: Script): Option<ControlBlock> {
      match ShortestPath(spendInfo.node.leaves, script)
      case None => None
      case Some(path) => Some(Bitcoin.ControlBlock(TapScript, spendInfo.internal, path))
    }

    /** Contracts are only made by `New`. */
    ghost predicate WellFormed() {
      Valid(options) && this == ContractOf(options, network)
    }
  }

  /** The shortest path listed for `script`. */
  function ShortestPath(leaves: seq<Taproot.LeafInfo>, script: Script): (r: Option<seq<NodeHash>>)
    ensures r.Some? <==> exists i :: 0 <= i < |leaves| && leaves[i].script == script
    ensures r.Some? ==> Taproot.LeafInfo(script, r.value) in leaves
    ensures r.Some? ==> forall i :: 0 <= i < |leaves| && leaves[i].script == script ==> |r.value| <= |leaves[i].path|
  {
    if leaves == [] then
      None
    else
      var rest := ShortestPath(leaves[1..], script);
      if leaves[0].script != script || (rest.Some? && |rest.value| < |leaves[0].path|) then
        rest
      else
        Some(leaves[0].path)
  }

  function EscrowTree(o: EscrowOptions): MergeTree.TreeNode {
    MergeTree.MergeAll(MergeTree.UnitLeaves(Tapscripts(o)))
  }

  function ContractOf(o: EscrowOptions, network: nat): EscrowContract {
    EscrowContract(o, SpendInfo(UNSPENDABLE, Taproot.NodeOf(EscrowTree(o))), network)
  }

  method BuildTaproot(o: EscrowOptions) returns (r: Option<SpendInfo>)
    ensures r == Some(ContractOf(o, 0).spendInfo)
  {
    var root := MergeTree.MergeTwoLightest(MergeTree.UnitLeaves(Tapscripts(o)));
    TreeIsShallow(o);
    Taproot.BuilderRebuildsTree(root);
    var built := Taproot.AddToBuilder([], root, 0);
    if built == None {
      return None;
    }
    var node := Taproot.Finalize(built.value);
    if node == None {
      return None;
    }
    return Some(SpendInfo(UNSPENDABLE, node.value));
  }

  datatype ContractError = BadOptions(error: OptionsError) | NoTree

  /** Valid options always yield a contract; invalid ones never do. */
  method New(o: EscrowOptions, network: nat) returns (r: Result<EscrowContract, ContractError>)
    ensures r.Ok? <==> Valid(o)
    ensures r.Ok? ==> r.value.WellFormed() && r.value.options == o && r.value.network == network
  {
    var valid := Validate(o);
    if valid.Err? {
      return Err(BadOptions(valid.error));
    }
    var spendInfo := BuildTaproot(o);
    if spendInfo == None {
      return Err(NoTree);
    }
    return Ok(EscrowContract(o, spendInfo.value, network));
  }

  method WithServer(contract: EscrowContract, server: Key) returns (r: Result<EscrowContract, ContractError>)
    ensures r.Ok? <==> Valid(contract.options.(server := server))
    ensures r.Ok? ==> r.value == ContractOf(contract.options.(server := server), contract.network)
  {
    r := New(contract.options.(server := server), contract.network);
  }

  /** The six leaves sit at depth two or three. */
  lemma TreeIsShallow(o: EscrowOptions)
    ensures MergeTree.DepthsWithin(EscrowTree(o), 2, 3)
    ensures MergeTree.Height(EscrowTree(o)) <= 3
  {
    MergeTree.MergedBalanced(Tapscripts(o));
    assert MergeTree.FloorLog2(6) == 2 by {
      assert MergeTree.FloorLog2(3) == 1;
    }
    assert MergeTree.CeilLog2(6) == 3 by {
      assert MergeTree.CeilLog2(2) == 1;
      assert MergeTree.CeilLog2(3) == 2;
    }
    MergeTree.HeightWithin(EscrowTree(o), 2, 3);
  }

  lemma ListedScripts(o: EscrowOptions, script: Script)
    ensures Taproot.Lists(ContractOf(o, 0).spendInfo.node, script) <==> script in Tapscripts(o)
  {
    var leaves := MergeTree.Leaves(EscrowTree(o));
    MergeTree.MergedLeaves(Tapscripts(o));
    Taproot.SameScripts(EscrowTree(o), script);
    assert script in leaves <==> script in multiset(leaves);
    assert script in Tapscripts(o) <==> script in multiset(Tapscripts(o));
  }

  lemma ListedByPath(info: Taproot.NodeInfo, script: Script)
    ensures Taproot.Lists(info, script) <==> ShortestPath(info.leaves, script).Some?
  {
    var found := ShortestPath(info.leaves, script);
    if found.Some? {
      assert Taproot.HasLeaf(info, script, found.value);
    }
    if path :| Taproot.HasLeaf(info, script, path) {
      var i :| 0 <= i < |info.leaves| && info.leaves[i] == Taproot.LeafInfo(script, path);
    }
  }

  /** A contract hands out a control block for exactly its own leaves, and the
      output commits to each of them by it. */
  lemma ControlBlocksCommit(contract: EscrowContract, script: Script)
    requires contract.WellFormed()
    ensures contract.ControlBlock(script).Some? <==> script in Tapscripts(contract.options)
    ensures contract.ControlBlock(script).Some?
            ==> Taproot.Commits(contract.ScriptPubkey().output, contract.ControlBlock(script).value, script)
  {
    var node := contract.spendInfo.node;
    ListedScripts(contract.options, script);
    ListedByPath(node, script);
    if contract.ControlBlock(script).Some? {
      var control := contract.ControlBlock(script).value;
      assert Taproot.HasLeaf(node, script, control.path);
      Taproot.CommitmentsExact(EscrowTree(contract.options), UNSPENDABLE, control, script);
    }
  }

  /** In particular for the collaborative leaf of every signer set. */
  lemma LeafHasControlBlock(contract: EscrowContract, signers: SignerSet)
    requires contract.WellFormed()
    ensures contract.ControlBlock(LeafScript(signers, contract.options)).Some?
  {
    var scripts := Tapscripts(contract.options);
    assert scripts[0] == LeafScript(SellerArbiter, contract.options);
    assert scripts[1] == LeafScript(BuyerArbiter, contract.options);
    assert scripts[2] == LeafScript(SellerBuyer, contract.options);
    ControlBlocksCommit(contract, LeafScript(signers, contract.options));
  }

  /** Whatever control block is offered, the output commits to nothing but the six leaves. */
  lemma OnlyLeavesCommitted(contract: EscrowContract, control: ControlBlock, script: Script)
    requires contract.WellFormed()
    requires Taproot.Commits(contract.ScriptPubkey().output, control, script)
    ensures script in Tapscripts(contract.options) && control.version == TapScript
  {
    Taproot.CommitmentsExact(EscrowTree(contract.options), UNSPENDABLE, control, script);
    assert Taproot.Lists(contract.spendInfo.node, script);
    ListedScripts(contract.options, script);
  }

  /** Contracts that differ only in their server pay to different scripts. */
  lemma ScriptPubkeyFixesServer(contract: EscrowContract, other: EscrowContract)
    requires contract.WellFormed() && other.WellFormed()
    requires other.options == contract.options.(server := other.options.server)
    requires contract.ScriptPubkey() == other.ScriptPubkey()
    ensures contract.options.server == other.options.server
  {
    var leaf := LeafScript(SellerArbiter, contract.options);
    assert leaf == Tapscripts(contract.options)[0];
    ControlBlocksCommit(contract, leaf);
    OnlyLeavesCommitted(other, contract.ControlBlock(leaf).value, leaf);
    LeavesFixServer(contract.options, other.options.server);
  }
}
