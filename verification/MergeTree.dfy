/** The weight-based script tree: repeatedly merge the two lightest nodes (contract.rs). */
module MergeTree {
  import opened Bitcoin
  import Sorting

  datatype TreeNode =
    | Leaf(script: Script, weight: nat)
    | Branch(left: TreeNode, right: TreeNode, weight: nat)

  predicate HeavierFirst(x: TreeNode, y: TreeNode) {
    x.weight >= y.weight
  }

  /** Replace the last two nodes by their branch. */
  function JoinLast(sorted: seq<TreeNode>): (r: seq<TreeNode>)
    requires |sorted| >= 2
    ensures |r| == |sorted| - 1
  {
    var n := |sorted|;
    var a, b := sorted[n - 2], sorted[n - 1];
    sorted[..n - 2] + [Branch(a, b, a.weight + b.weight)]
  }

  /** One round: sort heaviest first, then join the last two. */
  function MergeLightest(nodes: seq<TreeNode>): (r: seq<TreeNode>)
    requires |nodes| >= 2
    ensures |r| == |nodes| - 1
  {
    JoinLast(Sorting.Sort(HeavierFirst, nodes))
  }

  method PopTwoPushBranch(nodes: seq<TreeNode>) returns (r: seq<TreeNode>)
    requires |nodes| >= 2
    ensures r == JoinLast(nodes)
  {
    var b := nodes[|nodes| - 1];
    var rest := nodes[..|nodes| - 1];
    var a := rest[|rest| - 1];
    rest := rest[..|rest| - 1];
    assert rest == nodes[..|nodes| - 2];
    r := rest + [Branch(a, b, a.weight + b.weight)];
  }

  function MergeAll(nodes: seq<TreeNode>): TreeNode
    requires |nodes| >= 1
    decreases |nodes|
  {
    if |nodes| == 1 then nodes[0] else MergeAll(MergeLightest(nodes))
  }

  method MergeTwoLightest(leaves: seq<TreeNode>) returns (root: TreeNode)
    requires |leaves| >= 1
    ensures root == MergeAll(leaves)
  {
    var nodes := leaves;
    while |nodes| >= 2
      invariant |nodes| >= 1
      invariant MergeAll(nodes) == MergeAll(leaves)
      decreases |nodes|
    {
      ghost var before := nodes;
      nodes := Sorting.Sort(HeavierFirst, nodes);
      nodes := PopTwoPushBranch(nodes);
      assert nodes == MergeLightest(before);
    }
    root := nodes[0];
  }

  function Leaves(node: TreeNode): seq<Script> {
    match node
    case Leaf(script, _) => [script]
    case Branch(left, right, _) => Leaves(left) + Leaves(right)
  }

  function UnitLeaves(scripts: seq<Script>): (r: seq<TreeNode>)
    ensures |r| == |scripts|
    ensures forall i :: 0 <= i < |r| ==> r[i] == Leaf(scripts[i], 1)
  {
    seq(|scripts|, i requires 0 <= i < |scripts| => Leaf(scripts[i], 1))
  }

  // ---- No leaf is lost or duplicated ----

  function Occurrences(script: Script): TreeNode -> nat {
    (node: TreeNode) => multiset(Leaves(node))[script]
  }

  ghost predicate AddsUp(f: TreeNode -> nat, a: TreeNode, b: TreeNode) {
    f(Branch(a, b, a.weight + b.weight)) == f(a) + f(b)
  }

  ghost predicate Additive(f: TreeNode -> nat) {
    forall a, b :: AddsUp(f, a, b)
  }

  lemma JoinKeepsTotal(f: TreeNode -> nat, front: seq<TreeNode>, a: TreeNode, b: TreeNode)
    requires AddsUp(f, a, b)
    ensures Sorting.Total(f, front + [Branch(a, b, a.weight + b.weight)]) == Sorting.Total(f, front + [a, b])
  {
    var joined := Branch(a, b, a.weight + b.weight);
    Sorting.TotalAppend(f, front, [a, b]);
    Sorting.TotalAppend(f, front, [joined]);
    Sorting.TotalPair(f, a, b);
    Sorting.TotalSingle(f, joined);
  }

  lemma LastTwo(sorted: seq<TreeNode>) returns (front: seq<TreeNode>, a: TreeNode, b: TreeNode)
    requires |sorted| >= 2
    ensures sorted == front + [a, b] && a == sorted[|sorted| - 2] && b == sorted[|sorted| - 1]
    ensures JoinLast(sorted) == front + [Branch(a, b, a.weight + b.weight)]
  {
    var n := |sorted|;
    front, a, b := sorted[..n - 2], sorted[n - 2], sorted[n - 1];
  }

  /** A round keeps every additive sum. */
  lemma MergeKeepsTotal(f: TreeNode -> nat, nodes: seq<TreeNode>)
    requires |nodes| >= 2 && Additive(f)
    ensures Sorting.Total(f, MergeLightest(nodes)) == Sorting.Total(f, nodes)
  {
    var sorted := Sorting.Sort(HeavierFirst, nodes);
    Sorting.TotalSort(HeavierFirst, f, nodes);
    var front, a, b := LastTwo(sorted);
    assert AddsUp(f, a, b);
    JoinKeepsTotal(f, front, a, b);
  }

  lemma {:induction false} MergeAllTotal(f: TreeNode -> nat, nodes: seq<TreeNode>)
    requires |nodes| >= 1
    requires Additive(f)
    ensures f(MergeAll(nodes)) == Sorting.Total(f, nodes)
    decreases |nodes|
  {
    if |nodes| == 1 {
      assert nodes[1..] == [];
    } else {
      MergeKeepsTotal(f, nodes);
      MergeAllTotal(f, MergeLightest(nodes));
    }
  }

  lemma {:induction false} UnitOccurrences(scripts: seq<Script>, script: Script)
    ensures Sorting.Total(Occurrences(script), UnitLeaves(scripts)) == multiset(scripts)[script]
  {
    if scripts != [] {
      var rest := scripts[1..];
      assert UnitLeaves(scripts)[1..] == UnitLeaves(rest);
      assert scripts == [scripts[0]] + rest;
      UnitOccurrences(rest, script);
    }
  }

  /** The merged tree holds each leaf exactly as often as it was given. */
  lemma MergedLeaves(scripts: seq<Script>)
    requires |scripts| >= 1
    ensures multiset(Leaves(MergeAll(UnitLeaves(scripts)))) == multiset(scripts)
  {
    forall script: Script
      ensures multiset(Leaves(MergeAll(UnitLeaves(scripts))))[script] == multiset(scripts)[script]
    {
      MergeAllTotal(Occurrences(script), UnitLeaves(scripts));
      UnitOccurrences(scripts, script);
    }
  }

  // ---- Balance ----

  function Pow2(k: nat): nat
    ensures Pow2(k) >= 1
  {
    if k == 0 then 1 else 2 * Pow2(k - 1)
  }

  /** Every leaf of `node` lies at a depth from `lo` to `hi`. */
  ghost predicate DepthsWithin(node: TreeNode, lo: int, hi: int) {
    match node
    case Leaf(_, _) => lo <= 0 <= hi
    case Branch(left, right, _) => DepthsWithin(left, lo - 1, hi - 1) && DepthsWithin(right, lo - 1, hi - 1)
  }

  lemma {:induction false} DepthsWiden(node: TreeNode, lo: int, hi: int, lower: int, higher: int)
    requires DepthsWithin(node, lo, hi) && lower <= lo && hi <= higher
    ensures DepthsWithin(node, lower, higher)
  {
    match node
    case Leaf(_, _) =>
    case Branch(left, right, _) =>
      DepthsWiden(left, lo - 1, hi - 1, lower - 1, higher - 1);
      DepthsWiden(right, lo - 1, hi - 1, lower - 1, higher - 1);
  }

  /** A perfect subtree of 2^k leaves. */
  ghost predicate Full(node: TreeNode, k: nat) {
    node.weight == Pow2(k) && DepthsWithin(node, k, k)
  }

  /** A balanced subtree strictly between two perfect ones. */
  ghost predicate Middling(node: TreeNode, k: nat) {
    Pow2(k) < node.weight < Pow2(k + 1) && DepthsWithin(node, k, k + 1)
  }

  ghost predicate Shaped(node: TreeNode, k: nat) {
    Full(node, k) || Full(node, k + 1) || Middling(node, k)
  }

  ghost function CountMiddling(k: nat): TreeNode -> nat {
    (node: TreeNode) => if Middling(node, k) then 1 else 0
  }

  /** The loop invariant: perfect nodes of two neighbouring sizes, and at most one node in between. */
  ghost predicate Level(nodes: seq<TreeNode>, k: nat) {
    && (forall i :: 0 <= i < |nodes| ==> Shaped(nodes[i], k))
    && Sorting.Total(CountMiddling(k), nodes) <= 1
  }

  lemma HeavierFirstIsTotal()
    ensures Sorting.TotalPreorder(HeavierFirst)
  {
  }

  lemma LevelSorted(nodes: seq<TreeNode>, k: nat)
    requires Level(nodes, k)
    ensures Level(Sorting.Sort(HeavierFirst, nodes), k)
    ensures Sorting.Sorted(HeavierFirst, Sorting.Sort(HeavierFirst, nodes))
  {
    var sorted := Sorting.Sort(HeavierFirst, nodes);
    HeavierFirstIsTotal();
    Sorting.SortSorts(HeavierFirst, nodes);
    Sorting.TotalSort(HeavierFirst, CountMiddling(k), nodes);
    forall i | 0 <= i < |sorted|
      ensures Shaped(sorted[i], k)
    {
      assert sorted[i] in multiset(sorted);
      assert sorted[i] in nodes;
    }
  }

  /** Merging two perfect nodes of the smaller size stays on the level. */
  lemma MergeFullPair(front: seq<TreeNode>, a: TreeNode, b: TreeNode, joined: TreeNode, k: nat)
    requires Level(front + [a, b], k) && Full(a, k) && Full(b, k)
    requires joined == Branch(a, b, a.weight + b.weight)
    ensures Level(front + [joined], k)
  {
    var f := CountMiddling(k);
    Sorting.TotalAppend(f, front, [a, b]);
    Sorting.TotalAppend(f, front, [joined]);
    Sorting.TotalSingle(f, joined);
    assert Full(joined, k + 1);
    var next := front + [joined];
    forall i | 0 <= i < |next|
      ensures Shaped(next[i], k)
    {
      if i < |front| {
        assert next[i] == (front + [a, b])[i];
      }
    }
  }

  /** Otherwise everything else is perfect of the larger size, and the level rises. */
  lemma MergeAcross(front: seq<TreeNode>, a: TreeNode, b: TreeNode, joined: TreeNode, k: nat)
    requires forall i :: 0 <= i < |front| ==> Full(front[i], k + 1)
    requires Shaped(a, k) && Shaped(b, k) && b.weight <= a.weight
    requires !(Full(a, k) && Full(b, k)) && !(Middling(a, k) && Middling(b, k))
    requires joined == Branch(a, b, a.weight + b.weight)
    ensures Level(front + [joined], k + 1)
  {
    var next := front + [joined];
    assert Pow2(k + 1) == 2 * Pow2(k) && Pow2(k + 2) == 2 * Pow2(k + 1);
    if Full(b, k + 1) {
      assert Full(a, k + 1) && Full(joined, k + 2);
    } else {
      DepthsOf(a, k);
      DepthsOf(b, k);
      assert Middling(joined, k + 1);
    }
    var f := CountMiddling(k + 1);
    Sorting.TotalZero(f, front);
    Sorting.TotalAppend(f, front, [joined]);
    Sorting.TotalSingle(f, joined);
    forall i | 0 <= i < |next|
      ensures Shaped(next[i], k + 1)
    {
      if i < |front| {
        assert next[i] == front[i];
      }
    }
  }

  lemma DepthsOf(node: TreeNode, k: nat)
    requires Shaped(node, k)
    ensures DepthsWithin(node, k, k + 1)
  {
    if Full(node, k) {
      DepthsWiden(node, k, k, k, k + 1);
    } else if Full(node, k + 1) {
      DepthsWiden(node, k + 1, k + 1, k, k + 1);
    }
  }

  /** Two nodes of a level are not both in between. */
  lemma OneMiddling(nodes: seq<TreeNode>, k: nat, i: nat, j: nat)
    requires Level(nodes, k) && i < j < |nodes| && Middling(nodes[j], k)
    ensures !Middling(nodes[i], k)
  {
    var f := CountMiddling(k);
    assert nodes == nodes[..j] + nodes[j..];
    Sorting.TotalAppend(f, nodes[..j], nodes[j..]);
    Sorting.TotalAtLeast(f, nodes[..j], i);
    Sorting.TotalAtLeast(f, nodes[j..], 0);
  }

  /** In a sorted level whose two lightest nodes are not both of the smaller
      size, all others are of the larger size. */
  lemma FrontIsFull(sorted: seq<TreeNode>, k: nat, i: nat)
    requires Level(sorted, k) && Sorting.Sorted(HeavierFirst, sorted) && i + 2 < |sorted|
    requires !(Full(sorted[|sorted| - 2], k) && Full(sorted[|sorted| - 1], k))
    ensures Full(sorted[i], k + 1)
  {
    var n := |sorted|;
    var a, b := sorted[n - 2], sorted[n - 1];
    assert Pow2(k + 1) == 2 * Pow2(k);
    assert HeavierFirst(sorted[i], a) && HeavierFirst(a, b);
    assert Shaped(sorted[i], k) && Shaped(a, k) && Shaped(b, k);
    if Middling(a, k) {
      OneMiddling(sorted, k, i, n - 2);
    } else if Middling(b, k) {
      OneMiddling(sorted, k, i, n - 1);
    }
  }

  /** The invariant survives a round. */
  lemma MergeKeepsLevel(nodes: seq<TreeNode>, k: nat) returns (next: nat)
    requires |nodes| >= 2 && Level(nodes, k)
    ensures Level(MergeLightest(nodes), next)
  {
    LevelSorted(nodes, k);
    next := JoinKeepsLevel(Sorting.Sort(HeavierFirst, nodes), k);
  }

  lemma JoinKeepsLevel(sorted: seq<TreeNode>, k: nat) returns (next: nat)
    requires |sorted| >= 2 && Level(sorted, k) && Sorting.Sorted(HeavierFirst, sorted)
    ensures Level(JoinLast(sorted), next)
  {
    var n := |sorted|;
    var front, a, b := LastTwo(sorted);
    var joined := Branch(a, b, a.weight + b.weight);
    assert HeavierFirst(a, b);
    if Full(a, k) && Full(b, k) {
      MergeFullPair(front, a, b, joined, k);
      next := k;
    } else {
      if Middling(b, k) {
        OneMiddling(sorted, k, n - 2, n - 1);
      }
      forall i | 0 <= i < |front|
        ensures Full(front[i], k + 1)
      {
        FrontIsFull(sorted, k, i);
      }
      MergeAcross(front, a, b, joined, k);
      next := k + 1;
    }
  }

  lemma {:induction false} MergeAllLevel(nodes: seq<TreeNode>, k: nat) returns (final: nat)
    requires |nodes| >= 1 && Level(nodes, k)
    ensures Shaped(MergeAll(nodes), final)
    decreases |nodes|
  {
    if |nodes| == 1 {
      final := k;
    } else {
      var next := MergeKeepsLevel(nodes, k);
      final := MergeAllLevel(MergeLightest(nodes), next);
    }
  }

  function FloorLog2(n: nat): nat {
    if n < 2 then 0 else 1 + FloorLog2(n / 2)
  }

  function CeilLog2(n: nat): nat {
    if n < 2 then 0 else 1 + CeilLog2((n + 1) / 2)
  }

  lemma {:induction false} FloorBetween(n: nat, k: nat)
    requires Pow2(k) <= n < Pow2(k + 1)
    ensures FloorLog2(n) == k
  {
    if k > 0 {
      FloorBetween(n / 2, k - 1);
    }
  }

  lemma {:induction false} CeilBetween(n: nat, k: nat)
    requires Pow2(k) < n <= Pow2(k + 1)
    ensures CeilLog2(n) == k + 1
  {
    if k > 0 {
      CeilBetween((n + 1) / 2, k - 1);
    }
  }

  lemma {:induction false} CeilPow2(k: nat)
    ensures CeilLog2(Pow2(k)) == k
  {
    if k > 0 {
      assert (Pow2(k) + 1) / 2 == Pow2(k - 1);
      CeilPow2(k - 1);
    }
  }

  lemma ShapedDepths(node: TreeNode, k: nat)
    requires Shaped(node, k)
    ensures DepthsWithin(node, FloorLog2(node.weight), CeilLog2(node.weight))
  {
    assert Pow2(k + 2) == 2 * Pow2(k + 1);
    if Middling(node, k) {
      FloorBetween(node.weight, k);
      CeilBetween(node.weight, k);
    } else {
      var j := if Full(node, k) then k else k + 1;
      FloorBetween(node.weight, j);
      CeilPow2(j);
    }
  }

  function Weight(node: TreeNode): nat {
    node.weight
  }

  lemma {:induction false} UnitWeight(scripts: seq<Script>)
    ensures Sorting.Total(Weight, UnitLeaves(scripts)) == |scripts|
  {
    if scripts != [] {
      assert UnitLeaves(scripts)[1..] == UnitLeaves(scripts[1..]);
      UnitWeight(scripts[1..]);
    }
  }

  /** However many leaves of weight one are merged, every one ends at depth
      floor or ceiling of log2 of their number. */
  lemma MergedBalanced(scripts: seq<Script>)
    requires |scripts| >= 1
    ensures DepthsWithin(MergeAll(UnitLeaves(scripts)), FloorLog2(|scripts|), CeilLog2(|scripts|))
  {
    var leaves := UnitLeaves(scripts);
    assert Pow2(1) == 2;
    Sorting.TotalZero(CountMiddling(0), leaves);
    assert Level(leaves, 0);
    var k := MergeAllLevel(leaves, 0);
    MergeAllTotal(Weight, leaves);
    UnitWeight(scripts);
    ShapedDepths(MergeAll(leaves), k);
  }

  // ---- Kraft equality ----

  /** The sum of 2^(bound - depth) over the leaves below a node at depth `at`. */
  ghost function KraftSum(node: TreeNode, at: nat, bound: nat): nat
    requires at + Height(node) <= bound
  {
    match node
    case Leaf(_, _) => Pow2(bound - at)
    case Branch(left, right, _) => KraftSum(left, at + 1, bound) + KraftSum(right, at + 1, bound)
  }

  function Height(node: TreeNode): nat {
    match node
    case Leaf(_, _) => 0
    case Branch(left, right, _) => 1 + if Height(left) >= Height(right) then Height(left) else Height(right)
  }

  lemma {:induction false} Kraft(node: TreeNode, at: nat, bound: nat)
    requires at + Height(node) <= bound
    ensures KraftSum(node, at, bound) == Pow2(bound - at)
  {
    match node
    case Leaf(_, _) =>
    case Branch(left, right, _) =>
      Kraft(left, at + 1, bound);
      Kraft(right, at + 1, bound);
  }

  lemma {:induction false} HeightWithin(node: TreeNode, lo: int, hi: int)
    requires DepthsWithin(node, lo, hi)
    ensures Height(node) <= hi
  {
    match node
    case Leaf(_, _) =>
    case Branch(left, right, _) =>
      HeightWithin(left, lo - 1, hi - 1);
      HeightWithin(right, lo - 1, hi - 1);
  }
}
