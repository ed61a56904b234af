/** The two whole-tree operations of the editor: marking the user's own
    position (a tree-wide single selection) and adding a new parent above
    the root. Both return a new tree and leave their argument untouched. */
module OrgTree {
  import opened Types

  /** Number of nodes in a tree. */
  function Size(n: OrgNode): nat
    decreases n
  {
    1 + ForestSize(n.children)
  }

  function ForestSize(cs: seq<OrgNode>): nat
    decreases cs
  {
    if |cs| == 0 then 0 else Size(cs[0]) + ForestSize(cs[1..])
  }

  /** Number of levels in a tree; a lone node has depth 1. */
  function Depth(n: OrgNode): nat
    decreases n
  {
    1 + ForestDepth(n.children)
  }

  function ForestDepth(cs: seq<OrgNode>): nat
    decreases cs
  {
    if |cs| == 0 then 0
    else
      var d := Depth(cs[0]);
      var rest := ForestDepth(cs[1..]);
      if d < rest then rest else d
  }

  /** Number of nodes whose id is `x`. */
  function IdCount(n: OrgNode, x: string): nat
    decreases n
  {
    (if n.id == x then 1 else 0) + ForestIdCount(n.children, x)
  }

  function ForestIdCount(cs: seq<OrgNode>, x: string): nat
    decreases cs
  {
    if |cs| == 0 then 0 else IdCount(cs[0], x) + ForestIdCount(cs[1..], x)
  }

  /** Number of nodes marked as the user's position. */
  function MarkedCount(n: OrgNode): nat
    decreases n
  {
    (if n.isUserPosition == Some(true) then 1 else 0) + ForestMarkedCount(n.children)
  }

  function ForestMarkedCount(cs: seq<OrgNode>): nat
    decreases cs
  {
    if |cs| == 0 then 0 else MarkedCount(cs[0]) + ForestMarkedCount(cs[1..])
  }

  /** No id occurs twice in the tree. */
  ghost predicate UniqueIds(n: OrgNode) {
    forall x :: IdCount(n, x) <= 1
  }

  /** Every node of the tree carries `isUserPosition` set, and set to true
      exactly when its id is `target`. */
  predicate MarkedExactly(n: OrgNode, target: string)
    decreases n, 1
  {
    n.isUserPosition == Some(n.id == target) && ForestMarkedExactly(n.children, target)
  }

  predicate ForestMarkedExactly(cs: seq<OrgNode>, target: string)
    decreases cs, 0
  {
    forall c :: c in cs ==> MarkedExactly(c, target)
  }

  /** The two trees agree on everything except the `isUserPosition` marks:
      the same ids, names, roles, functions and KPIs, and the same children
      in the same order. */
  predicate SameShape(a: OrgNode, b: OrgNode)
    decreases a, 1
  {
    && a.id == b.id
    && a.name == b.name
    && a.role == b.role
    && a.functions == b.functions
    && a.kpis == b.kpis
    && ForestSameShape(a.children, b.children)
  }

  predicate ForestSameShape(xs: seq<OrgNode>, ys: seq<OrgNode>)
    decreases xs, 0
  {
    && |xs| == |ys|
    && forall i :: 0 <= i < |xs| ==> SameShape(xs[i], ys[i])
  }

  /** Marks the node with id `target` as the user's position and clears the
      mark everywhere else, rebuilding the tree node by node. */
  function SetUserPosition(n: OrgNode, target: string): (r: OrgNode)
    ensures MarkedExactly(r, target)
    ensures SameShape(r, n)
    decreases n
  {
    n.(isUserPosition := Some(n.id == target),
       children := seq(|n.children|, i requires 0 <= i < |n.children| => SetUserPosition(n.children[i], target)))
  }

  /** The name, role and functions the new parent node is given. */
  const ParentName := "Superior"
  const ParentRole := "CONSELHO"
  const ParentFunctions := "Governança macro."

  /** Puts a new node with id `newId` above `root`; the old root becomes its
      only child and is kept as it was. */
  function AddParent(root: OrgNode, newId: string): (r: OrgNode)
    ensures r.children == [root]
    ensures r.id == newId && r.name == ParentName && r.role == ParentRole && r.functions == ParentFunctions
    ensures r.kpis == [] && r.isUserPosition == Some(false)
    ensures Size(r) == Size(root) + 1
    ensures Depth(r) == Depth(root) + 1
    ensures MarkedCount(r) == MarkedCount(root)
    ensures forall x :: IdCount(r, x) == IdCount(root, x) + (if x == newId then 1 else 0)
  {
    SingletonForest(root);
    OrgNode(newId, ParentName, ParentRole, ParentFunctions, [], [root], Some(false))
  }

  /** A forest of one tree measures as that tree. */
  lemma SingletonForest(n: OrgNode)
    ensures ForestSize([n]) == Size(n)
    ensures ForestDepth([n]) == Depth(n)
    ensures ForestMarkedCount([n]) == MarkedCount(n)
    ensures forall x :: ForestIdCount([n], x) == IdCount(n, x)
  {
    assert [n][1..] == [];
  }

  // ---------------------------------------------------------------------
  // Lemmas

  /** Trees of the same shape have the same size, depth and ids. */
  lemma {:induction false} SameShapeMeasures(a: OrgNode, b: OrgNode)
    requires SameShape(a, b)
    ensures Size(a) == Size(b)
    ensures Depth(a) == Depth(b)
    ensures forall x :: IdCount(a, x) == IdCount(b, x)
    decreases a, 1
  {
    ForestSameShapeMeasures(a.children, b.children);
  }

  lemma {:induction false} ForestSameShapeMeasures(xs: seq<OrgNode>, ys: seq<OrgNode>)
    requires ForestSameShape(xs, ys)
    ensures ForestSize(xs) == ForestSize(ys)
    ensures ForestDepth(xs) == ForestDepth(ys)
    ensures forall x :: ForestIdCount(xs, x) == ForestIdCount(ys, x)
    decreases xs, 0
  {
    if |xs| > 0 {
      SameShapeMeasures(xs[0], ys[0]);
      ForestSameShapeMeasures(xs[1..], ys[1..]);
    }
  }

  /** In a tree whose marks all follow `target`, the marked nodes are
      exactly the nodes with id `target`. */
  lemma {:induction false} MarkedExactlyCount(n: OrgNode, target: string)
    requires MarkedExactly(n, target)
    ensures MarkedCount(n) == IdCount(n, target)
    decreases n, 1
  {
    ForestMarkedExactlyCount(n.children, target);
  }

  lemma {:induction false} ForestMarkedExactlyCount(cs: seq<OrgNode>, target: string)
    requires ForestMarkedExactly(cs, target)
    ensures ForestMarkedCount(cs) == ForestIdCount(cs, target)
    decreases cs, 0
  {
    if |cs| > 0 {
      MarkedExactlyCount(cs[0], target);
      ForestMarkedExactlyCount(cs[1..], target);
    }
  }

  /** After marking `target`, as many nodes are marked as the original tree
      has nodes with id `target`: with unique ids that is exactly one node
      when `target` occurs and none when it does not. The result keeps the
      size, depth and ids of the original tree. */
  lemma SetUserPositionSingleSelection(n: OrgNode, target: string)
    ensures MarkedCount(SetUserPosition(n, target)) == IdCount(n, target)
    ensures UniqueIds(n) && IdCount(n, target) > 0 ==> MarkedCount(SetUserPosition(n, target)) == 1
    ensures IdCount(n, target) == 0 ==> MarkedCount(SetUserPosition(n, target)) == 0
    ensures Size(SetUserPosition(n, target)) == Size(n)
    ensures Depth(SetUserPosition(n, target)) == Depth(n)
    ensures UniqueIds(SetUserPosition(n, target)) == UniqueIds(n)
  {
    var r := SetUserPosition(n, target);
    MarkedExactlyCount(r, target);
    SameShapeMeasures(r, n);
    if UniqueIds(n) && IdCount(n, target) > 0 {
      assert IdCount(n, target) <= 1;
    }
  }

  /** A tree whose marks already follow `target` is left unchanged. */
  lemma {:induction false} SetUserPositionFixpoint(n: OrgNode, target: string)
    requires MarkedExactly(n, target)
    ensures SetUserPosition(n, target) == n
    decreases n
  {
    var r := SetUserPosition(n, target);
    forall i | 0 <= i < |n.children|
      ensures r.children[i] == n.children[i]
    {
      SetUserPositionFixpoint(n.children[i], target);
    }
    assert r.children == n.children;
  }

  /** Marking the same target twice is the same as marking it once. */
  lemma SetUserPositionIdempotent(n: OrgNode, target: string)
    ensures SetUserPosition(SetUserPosition(n, target), target) == SetUserPosition(n, target)
  {
    SetUserPositionFixpoint(SetUserPosition(n, target), target);
  }

  /** SetUserPosition is the only way to mark `target` without changing
      anything else: any tree with the original's shape whose marks follow
      `target` is its result. */
  lemma {:induction false} SetUserPositionCharacterised(n: OrgNode, a: OrgNode, target: string)
    requires SameShape(a, n) && MarkedExactly(a, target)
    ensures a == SetUserPosition(n, target)
    decreases a
  {
    var r := SetUserPosition(n, target);
    forall i | 0 <= i < |a.children|
      ensures a.children[i] == r.children[i]
    {
      SetUserPositionCharacterised(n.children[i], a.children[i], target);
    }
    assert a.children == r.children;
  }

  /** The new parent keeps ids unique exactly when the old tree had unique
      ids and the fresh id does not already occur in it. */
  lemma AddParentUniqueIds(root: OrgNode, newId: string)
    ensures UniqueIds(AddParent(root, newId)) <==> UniqueIds(root) && IdCount(root, newId) == 0
  {
    var r := AddParent(root, newId);
    if UniqueIds(r) {
      assert IdCount(r, newId) <= 1;
      forall x ensures IdCount(root, x) <= 1 {
        assert IdCount(r, x) <= 1;
      }
    }
  }

  /** Marking a position below a new parent, with the fresh id different
      from the target, marks the same nodes of the old tree as marking the
      old tree directly. */
  lemma AddParentThenSetUserPosition(root: OrgNode, newId: string, target: string)
    requires newId != target
    ensures SetUserPosition(AddParent(root, newId), target).children == [SetUserPosition(root, target)]
    ensures SetUserPosition(AddParent(root, newId), target).isUserPosition == Some(false)
  {
  }
}
