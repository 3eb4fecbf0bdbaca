/**
 * Feeding a script tree to a taproot builder, and what the resulting output
 * commits to, after BIP 341 ("Constructing and spending Taproot outputs" and
 * "Script validation rules").
 */
module Taproot {
  import opened Wrappers
  import opened Bitcoin
  import opened MergeTree

  const MAX_DEPTH: nat := 128

  /** A leaf with its merkle path, sibling nearest to the leaf first. */
  datatype LeafInfo = LeafInfo(script: Script, path: seq<NodeHash>)

  datatype NodeInfo = NodeInfo(hash: NodeHash, leaves: seq<LeafInfo>)

  function LeafNode(script: Script): NodeInfo {
    NodeInfo(LeafHash(TapScript, script), [LeafInfo(script, [])])
  }

  function Extend(leaves: seq<LeafInfo>, sibling: NodeHash): (r: seq<LeafInfo>)
    ensures |r| == |leaves|
    ensures forall i :: 0 <= i < |r| ==> r[i] == LeafInfo(leaves[i].script, leaves[i].path + [sibling])
  {
    seq(|leaves|, i requires 0 <= i < |leaves| => LeafInfo(leaves[i].script, leaves[i].path + [sibling]))
  }

  function Join(a: NodeInfo, b: NodeInfo): NodeInfo {
    NodeInfo(Combine(a.hash, b.hash), Extend(a.leaves, b.hash) + Extend(b.leaves, a.hash))
  }

  // ---- The builder: one slot per depth on the path to the next leaf ----

  type Branches = seq<Option<NodeInfo>>

  function Pad(branches: Branches, n: nat): (r: Branches)
    ensures |r| >= n && branches <= r
    ensures forall i :: |branches| <= i < |r| ==> r[i] == None
  {
    if |branches| >= n then branches else branches + seq(n - |branches|, _ => None)
  }

  /** Place a node at `depth`, joining it with a waiting sibling at every level that has one. */
  function Climb(branches: Branches, node: NodeInfo, depth: nat): Option<Branches>
    requires |branches| <= depth + 1
    decreases depth
  {
    if |branches| == depth + 1 && branches[depth].Some? then
      if depth == 0 then
        None
      else
        Climb(branches[..depth], Join(node, branches[depth].value), depth - 1)
    else
      Some(Pad(branches, depth + 1)[depth := Some(node)])
  }

  function AddLeaf(branches: Branches, depth: nat, script: Script): Option<Branches> {
    if depth > MAX_DEPTH || depth + 1 < |branches| then
      None
    else
      Climb(branches, LeafNode(script), depth)
  }

  function Finalize(branches: Branches): Option<NodeInfo> {
    if |branches| == 1 then branches[0] else None
  }

  /** Depth-first traversal into the builder. */
  function AddToBuilder(branches: Branches, node: TreeNode, depth: nat): Option<Branches>
    decreases node
  {
    match node
    case Leaf(script, _) => AddLeaf(branches, depth, script)
    case Branch(left, right, _) =>
      match AddToBuilder(branches, left, depth + 1)
      case None => None
      case Some(next) => AddToBuilder(next, right, depth + 1)
  }

  // ---- The tree the builder arrives at ----

  function NodeOf(node: TreeNode): NodeInfo {
    match node
    case Leaf(script, _) => LeafNode(script)
    case Branch(left, right, _) => Join(NodeOf(right), NodeOf(left))
  }

  /** Adding a whole subtree amounts to placing its finished node. */
  lemma {:induction false} AddSubtree(branches: Branches, node: TreeNode, depth: nat)
    requires |branches| <= depth + 1 && depth + Height(node) <= MAX_DEPTH
    ensures AddToBuilder(branches, node, depth) == Climb(branches, NodeOf(node), depth)
    decreases node
  {
    match node
    case Leaf(_, _) =>
    case Branch(left, right, _) =>
      AddSubtree(branches, left, depth + 1);
      var next := Pad(branches, depth + 2)[depth + 1 := Some(NodeOf(left))];
      assert AddToBuilder(branches, left, depth + 1) == Some(next);
      AddSubtree(next, right, depth + 1);
      var padded := Pad(branches, depth + 1);
      assert next[..depth + 1] == padded;
      assert Climb(next, NodeOf(right), depth + 1) == Climb(padded, NodeOf(node), depth);
      if |branches| <= depth {
        assert Pad(padded, depth + 1) == padded;
      } else {
        assert padded == branches;
      }
  }

  /** A leaf below the depth limit is refused, wherever it sits. */
  lemma {:induction false} AddTooDeep(branches: Branches, node: TreeNode, depth: nat)
    requires |branches| <= depth + 1 && depth + Height(node) > MAX_DEPTH
    ensures AddToBuilder(branches, node, depth) == None
    decreases node
  {
    match node
    case Leaf(_, _) =>
    case Branch(left, right, _) =>
      if depth + 1 + Height(left) > MAX_DEPTH {
        AddTooDeep(branches, left, depth + 1);
      } else {
        AddSubtree(branches, left, depth + 1);
        AddTooDeep(AddToBuilder(branches, left, depth + 1).value, right, depth + 1);
      }
  }

  /** Traversal followed by the builder gives back exactly the tree, for trees
      within the depth limit and no others. */
  lemma BuilderRebuildsTree(root: TreeNode)
    ensures var built := AddToBuilder([], root, 0);
            if Height(root) <= 128
            then built.Some? && Finalize(built.value) == Some(NodeOf(root))
            else built == None
  {
    if Height(root) <= MAX_DEPTH {
      AddSubtree([], root, 0);
    } else {
      AddTooDeep([], root, 0);
    }
  }

  // ---- Commitments ----

  /** The root a merkle path leads to. */
  function Fold(hash: NodeHash, path: seq<NodeHash>): NodeHash
    decreases |path|
  {
    if path == [] then hash else Fold(Combine(hash, path[0]), path[1..])
  }

  lemma {:induction false} FoldAppend(hash: NodeHash, path: seq<NodeHash>, last: NodeHash)
    ensures Fold(hash, path + [last]) == Combine(Fold(hash, path), last)
    decreases |path|
  {
    if path == [] {
      assert (path + [last])[1..] == [];
    } else {
      assert (path + [last])[1..] == path[1..] + [last];
      FoldAppend(Combine(hash, path[0]), path[1..], last);
    }
  }

  predicate Commits(output: OutputKey, control: ControlBlock, script: Script) {
    output == Tweaked(control.internal, Fold(LeafHash(control.version, script), control.path))
  }

  lemma CombineInjective(a: NodeHash, b: NodeHash, c: NodeHash, d: NodeHash)
    requires Combine(a, b) == Combine(c, d)
    ensures (a == c && b == d) || (a == d && b == c)
  {
  }

  predicate LeadsTo(leaf: LeafInfo, root: NodeHash) {
    Fold(LeafHash(TapScript, leaf.script), leaf.path) == root
  }

  lemma JoinLeadsToRoot(a: NodeInfo, b: NodeInfo, i: nat)
    requires i < |Join(a, b).leaves|
    requires if i < |a.leaves| then LeadsTo(a.leaves[i], a.hash) else LeadsTo(b.leaves[i - |a.leaves|], b.hash)
    ensures LeadsTo(Join(a, b).leaves[i], Join(a, b).hash)
  {
    var leaf := Join(a, b).leaves[i];
    if i < |a.leaves| {
      assert leaf == Extend(a.leaves, b.hash)[i];
      FoldAppend(LeafHash(TapScript, leaf.script), a.leaves[i].path, b.hash);
    } else {
      var j := i - |a.leaves|;
      assert leaf == Extend(b.leaves, a.hash)[j];
      FoldAppend(LeafHash(TapScript, leaf.script), b.leaves[j].path, a.hash);
      CombineSymmetric(b.hash, a.hash);
    }
  }

  /** The path of every leaf folds to the root. */
  lemma {:induction false} PathsLeadToRoot(node: TreeNode, i: nat)
    requires i < |NodeOf(node).leaves|
    ensures LeadsTo(NodeOf(node).leaves[i], NodeOf(node).hash)
  {
    match node
    case Leaf(_, _) =>
    case Branch(left, right, _) =>
      var r, l := NodeOf(right), NodeOf(left);
      assert NodeOf(node) == Join(r, l) && |Join(r, l).leaves| == |r.leaves| + |l.leaves|;
      if i < |r.leaves| {
        PathsLeadToRoot(right, i);
        JoinLeadsToRoot(r, l, i);
      } else {
        PathsLeadToRoot(left, i - |r.leaves|);
        JoinLeadsToRoot(r, l, i);
      }
  }

  lemma CombineSymmetric(a: NodeHash, b: NodeHash)
    ensures Combine(a, b) == Combine(b, a)
  {
  }

  ghost predicate HasLeaf(info: NodeInfo, script: Script, path: seq<NodeHash>) {
    LeafInfo(script, path) in info.leaves
  }

  /** The leaves of a joined node are those of its parts, one sibling further down. */
  lemma JoinLeaves(a: NodeInfo, b: NodeInfo, script: Script, front: seq<NodeHash>, last: NodeHash)
    ensures HasLeaf(Join(a, b), script, front + [last])
            <==> (last == b.hash && HasLeaf(a, script, front)) || (last == a.hash && HasLeaf(b, script, front))
  {
    var path := front + [last];
    var left, right := Extend(a.leaves, b.hash), Extend(b.leaves, a.hash);
    if LeafInfo(script, path) in left {
      var k :| 0 <= k < |left| && left[k] == LeafInfo(script, path);
      SameEnds(a.leaves[k].path, b.hash, front, last);
      assert a.leaves[k] == LeafInfo(script, front);
    }
    if LeafInfo(script, path) in right {
      var k :| 0 <= k < |right| && right[k] == LeafInfo(script, path);
      SameEnds(b.leaves[k].path, a.hash, front, last);
      assert b.leaves[k] == LeafInfo(script, front);
    }
    if last == b.hash && HasLeaf(a, script, front) {
      var k :| 0 <= k < |a.leaves| && a.leaves[k] == LeafInfo(script, front);
      assert left[k] == LeafInfo(script, path);
    }
    if last == a.hash && HasLeaf(b, script, front) {
      var k :| 0 <= k < |b.leaves| && b.leaves[k] == LeafInfo(script, front);
      assert right[k] == LeafInfo(script, path);
    }
  }

  lemma SameEnds(p: seq<NodeHash>, x: NodeHash, q: seq<NodeHash>, y: NodeHash)
    requires p + [x] == q + [y]
    ensures p == q && x == y
  {
    assert |p| == |q| by {
      assert |p + [x]| == |p| + 1;
    }
    assert (p + [x])[|p|] == (q + [y])[|q|];
    assert p == (p + [x])[..|p|];
    assert q == (q + [y])[..|q|];
  }

  /** Any path to the root starts at a leaf of the tree and is that leaf's own path. */
  lemma {:induction false} PathsComeFromLeaves(node: TreeNode, version: LeafVersion, script: Script,
                                               path: seq<NodeHash>)
    requires Fold(LeafHash(version, script), path) == NodeOf(node).hash
    ensures version == TapScript && HasLeaf(NodeOf(node), script, path)
    decreases |path|
  {
    if path == [] {
      assert node.Leaf?;
      assert NodeOf(node).leaves[0] == LeafInfo(script, path);
    } else {
      var front, last := path[..|path| - 1], path[|path| - 1];
      assert path == front + [last];
      FoldAppend(LeafHash(version, script), front, last);
      assert node.Branch?;
      var l, r := NodeOf(node.left), NodeOf(node.right);
      CombineInjective(Fold(LeafHash(version, script), front), last, r.hash, l.hash);
      JoinLeaves(r, l, script, front, last);
      if last == l.hash && Fold(LeafHash(version, script), front) == r.hash {
        PathsComeFromLeaves(node.right, version, script, front);
      } else {
        PathsComeFromLeaves(node.left, version, script, front);
      }
    }
  }

  /** The output of a tree commits to a script by a control block exactly when
      that script is one of its leaves, with that path. */
  lemma CommitmentsExact(root: TreeNode, internal: Key, control: ControlBlock, script: Script)
    ensures Commits(Tweaked(internal, NodeOf(root).hash), control, script)
            <==> && control.internal == internal
                 && control.version == TapScript
                 && HasLeaf(NodeOf(root), script, control.path)
  {
    if Fold(LeafHash(control.version, script), control.path) == NodeOf(root).hash {
      PathsComeFromLeaves(root, control.version, script, control.path);
    }
    if control.version == TapScript && HasLeaf(NodeOf(root), script, control.path) {
      var i :| 0 <= i < |NodeOf(root).leaves| && NodeOf(root).leaves[i] == LeafInfo(script, control.path);
      PathsLeadToRoot(root, i);
    }
  }

  ghost predicate Lists(info: NodeInfo, script: Script) {
    exists path :: HasLeaf(info, script, path)
  }

  lemma JoinLists(a: NodeInfo, b: NodeInfo, script: Script)
    ensures Lists(Join(a, b), script) <==> Lists(a, script) || Lists(b, script)
  {
    if path :| HasLeaf(a, script, path) {
      JoinLeaves(a, b, script, path, b.hash);
    }
    if path :| HasLeaf(b, script, path) {
      JoinLeaves(a, b, script, path, a.hash);
    }
    if path :| HasLeaf(Join(a, b), script, path) {
      LeafPathNonEmpty(a, b, script, path);
      var front, last := path[..|path| - 1], path[|path| - 1];
      assert path == front + [last];
      JoinLeaves(a, b, script, front, last);
    }
  }

  lemma LeafPathNonEmpty(a: NodeInfo, b: NodeInfo, script: Script, path: seq<NodeHash>)
    requires HasLeaf(Join(a, b), script, path)
    ensures path != []
  {
  }

  /** The builder lists the scripts of the tree, no more and no fewer. */
  lemma {:induction false} SameScripts(node: TreeNode, script: Script)
    ensures script in Leaves(node) <==> Lists(NodeOf(node), script)
  {
    match node
    case Leaf(own, _) =>
      assert NodeOf(node).leaves == [LeafInfo(own, [])];
      assert script == own ==> HasLeaf(NodeOf(node), script, []);
    case Branch(left, right, _) =>
      SameScripts(left, script);
      SameScripts(right, script);
      JoinLists(NodeOf(right), NodeOf(left), script);
  }
}
