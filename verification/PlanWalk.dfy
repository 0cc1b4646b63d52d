/** Walking a plan tree: every node once, with a path that leads back to it, and its self cost. */
module PlanWalk {
  import opened Common
  import opened PlanTree

  type Path = seq<nat>

  /** What the walk shows of a node: where it is, and the node above it. */
  datatype Visit = Visit(path: Path, node: Node, parent: Option<Node>)

  // ----- the walk

  /** Depth first, the node before its children. */
  function Visits(n: Node, path: Path, parent: Option<Node>): (r: seq<Visit>)
    ensures r != [] && r[0] == Visit(path, n, parent)
    decreases n, |n.children| + 1
  {
    [Visit(path, n, parent)] + ChildVisits(n, path, |n.children|)
  }

  function ChildVisits(n: Node, path: Path, k: nat): seq<Visit>
    requires k <= |n.children|
    decreases n, k
  {
    if k == 0 then [] else ChildVisits(n, path, k - 1) + Visits(n.children[k - 1], path + [k - 1], Some(n))
  }

  /** All nodes of a plan. */
  function AllVisits(root: Node): seq<Visit> {
    Visits(root, [], None)
  }

  function NodeAt(n: Node, path: Path): Option<Node>
    decreases |path|
  {
    if path == [] then Some(n)
    else if path[0] >= |n.children| then None
    else NodeAt(n.children[path[0]], path[1..])
  }

  /** The node above the one at path, parent when that is the node itself. */
  function Above(n: Node, path: Path, parent: Option<Node>): Option<Node> {
    if path == [] then parent else NodeAt(n, path[..|path| - 1])
  }

  lemma {:induction false} NodeAtAppend(n: Node, p: Path, q: Path)
    ensures NodeAt(n, p + q) == if NodeAt(n, p).Some? then NodeAt(NodeAt(n, p).value, q) else None
    decreases |p|
  {
    if p == [] {
      assert p + q == q;
    } else {
      assert (p + q)[1..] == p[1..] + q;
      if p[0] < |n.children| {
        NodeAtAppend(n.children[p[0]], p[1..], q);
      }
    }
  }

  predicate Starts(prefix: Path, p: Path) {
    |prefix| <= |p| && p[..|prefix|] == prefix
  }

  /** A visit below the node at path: its own path goes on from there to the visited node. */
  predicate Resolves(n: Node, path: Path, parent: Option<Node>, v: Visit) {
    && Starts(path, v.path)
    && var q := v.path[|path|..];
    NodeAt(n, q) == Some(v.node) && v.parent == Above(n, q, parent)
  }

  lemma {:induction false} VisitsResolve(n: Node, path: Path, parent: Option<Node>, v: Visit)
    requires v in Visits(n, path, parent)
    ensures Resolves(n, path, parent, v)
    decreases n, |n.children| + 1
  {
    if v == Visit(path, n, parent) {
      assert path[|path|..] == [];
    } else {
      var i := ChildVisitsResolve(n, path, parent, |n.children|, v);
    }
  }

  lemma {:induction false} ChildVisitsResolve(n: Node, path: Path, parent: Option<Node>, k: nat, v: Visit) returns (i: nat)
    requires k <= |n.children| && v in ChildVisits(n, path, k)
    ensures i < k && |v.path| > |path| && v.path[|path|] == i && v in Visits(n.children[i], path + [i], Some(n))
    ensures Resolves(n, path, parent, v)
    decreases n, k
  {
    if v in Visits(n.children[k - 1], path + [k - 1], Some(n)) {
      i := k - 1;
      VisitsResolve(n.children[i], path + [i], Some(n), v);
      ResolvesAbove(n, path, parent, i, v);
    } else {
      i := ChildVisitsResolve(n, path, parent, k - 1, v);
    }
  }

  /** What a child's path leads to, its parent's longer path leads to. */
  lemma ResolvesAbove(n: Node, path: Path, parent: Option<Node>, i: nat, v: Visit)
    requires i < |n.children| && Resolves(n.children[i], path + [i], Some(n), v)
    ensures Resolves(n, path, parent, v) && |v.path| > |path| && v.path[|path|] == i
  {
    var child := path + [i];
    var q, r := v.path[|path|..], v.path[|child|..];
    assert v.path[|path|] == child[|path|];
    assert v.path[..|path|] == child[..|path|] == path;
    assert q == [i] + r && q[1..] == r;
    if r != [] {
      assert q[..|q| - 1] == [i] + r[..|r| - 1] && q[..|q| - 1][1..] == r[..|r| - 1];
    } else {
      assert q[..|q| - 1] == [];
    }
  }

  /** Every path that resolves is walked. */
  lemma {:induction false} EveryPathVisited(n: Node, path: Path, parent: Option<Node>, q: Path)
    requires NodeAt(n, q).Some?
    ensures Visit(path + q, NodeAt(n, q).value, Above(n, q, parent)) in Visits(n, path, parent)
    decreases n
  {
    if q == [] {
      assert path + q == path;
    } else {
      var i := q[0];
      var v := Visit(path + q, NodeAt(n, q).value, Above(n, q, parent));
      EveryPathVisited(n.children[i], path + [i], Some(n), q[1..]);
      assert path + [i] + q[1..] == path + q;
      AboveChild(n, q, parent);
      ChildVisited(n, path, i, |n.children|, v);
    }
  }

  lemma AboveChild(n: Node, q: Path, parent: Option<Node>)
    requires q != [] && q[0] < |n.children|
    ensures Above(n, q, parent) == Above(n.children[q[0]], q[1..], Some(n))
  {
    if |q| > 1 {
      assert q[..|q| - 1][1..] == q[1..][..|q| - 2];
    } else {
      assert q[..|q| - 1] == [];
    }
  }

  lemma {:induction false} ChildVisited(n: Node, path: Path, i: nat, k: nat, v: Visit)
    requires i < k <= |n.children| && v in Visits(n.children[i], path + [i], Some(n))
    ensures v in ChildVisits(n, path, k)
    decreases k
  {
    if i < k - 1 {
      ChildVisited(n, path, i, k - 1, v);
    }
  }

  predicate DistinctPaths(vs: seq<Visit>) {
    forall i, j :: 0 <= i < j < |vs| ==> vs[i].path != vs[j].path
  }

  lemma {:induction false} VisitsDistinct(n: Node, path: Path, parent: Option<Node>)
    ensures DistinctPaths(Visits(n, path, parent))
    decreases n, |n.children| + 1
  {
    ChildVisitsDistinct(n, path, |n.children|);
    var rest := ChildVisits(n, path, |n.children|);
    forall j | 0 <= j < |rest|
      ensures rest[j].path != path
    {
      var i := ChildVisitsResolve(n, path, parent, |n.children|, rest[j]);
    }
  }

  lemma {:induction false} ChildVisitsDistinct(n: Node, path: Path, k: nat)
    requires k <= |n.children|
    ensures DistinctPaths(ChildVisits(n, path, k))
    decreases n, k
  {
    if k > 0 {
      var child := path + [k - 1];
      var a, b := ChildVisits(n, path, k - 1), Visits(n.children[k - 1], child, Some(n));
      ChildVisitsDistinct(n, path, k - 1);
      VisitsDistinct(n.children[k - 1], child, Some(n));
      forall i, j | 0 <= i < |a| && 0 <= j < |b|
        ensures a[i].path != b[j].path
      {
        var c := ChildVisitsResolve(n, path, None, k - 1, a[i]);
        VisitsResolve(n.children[k - 1], child, Some(n), b[j]);
        ResolvesAbove(n, path, None, k - 1, b[j]);
      }
      assert DistinctPaths(a + b);
    }
  }

  /** The walk shows every node of the plan once, with a path of its own that leads back to it and the node above it. */
  lemma WalkIsExact(root: Node, v: Visit)
    ensures v in AllVisits(root) <==> NodeAt(root, v.path) == Some(v.node) && v.parent == Above(root, v.path, None)
    ensures DistinctPaths(AllVisits(root))
  {
    VisitsDistinct(root, [], None);
    if v in AllVisits(root) {
      VisitsResolve(root, [], None, v);
      assert v.path[0..] == v.path;
    }
    if NodeAt(root, v.path) == Some(v.node) && v.parent == Above(root, v.path, None) {
      EveryPathVisited(root, [], None, v.path);
      assert [] + v.path == v.path;
    }
  }

  /** The walk with a visitor that keeps what it is given. */
  method EachNode(n: Node, path: Path, parent: Option<Node>) returns (out: seq<Visit>)
    ensures out == Visits(n, path, parent)
    decreases n
  {
    out := [Visit(path, n, parent)];
    for k := 0 to |n.children|
      invariant out == [Visit(path, n, parent)] + ChildVisits(n, path, k)
    {
      var below := EachNode(n.children[k], path + [k], Some(n));
      out := out + below;
    }
  }

  /** Follows a path one child at a time. */
  method FollowPath(root: Node, path: Path) returns (n: Option<Node>)
    ensures n == NodeAt(root, path)
  {
    var at := root;
    for i := 0 to |path|
      invariant NodeAt(root, path) == NodeAt(at, path[i..])
    {
      assert path[i..][1..] == path[i + 1..];
      if path[i] >= |at.children| {
        return None;
      }
      at := at.children[path[i]];
    }
    return Some(at);
  }

  // ----- costs

  function ChildrenCost(n: Node, k: nat): real
    requires k <= |n.children|
  {
    if k == 0 then 0.0 else ChildrenCost(n, k - 1) + n.children[k - 1].info.totalCost
  }

  /** What a node costs beyond its children, never negative. */
  function SelfCost(n: Node): (r: real)
    ensures r >= 0.0 && r >= n.info.totalCost - ChildrenCost(n, |n.children|)
    ensures r == 0.0 || r + ChildrenCost(n, |n.children|) == n.info.totalCost
  {
    var self := n.info.totalCost - ChildrenCost(n, |n.children|);
    if self < 0.0 then 0.0 else self
  }

  method ComputeSelfCost(n: Node) returns (self: real)
    ensures self == SelfCost(n)
  {
    self := n.info.totalCost;
    for i := 0 to |n.children|
      invariant self == n.info.totalCost - ChildrenCost(n, i)
    {
      self := self - n.children[i].info.totalCost;
    }
    if self < 0.0 {
      return 0.0;
    }
  }

  function SumSelfCosts(vs: seq<Visit>): real {
    if vs == [] then 0.0 else SumSelfCosts(vs[..|vs| - 1]) + SelfCost(vs[|vs| - 1].node)
  }

  lemma {:induction false} SumAppend(a: seq<Visit>, b: seq<Visit>)
    ensures SumSelfCosts(a + b) == SumSelfCosts(a) + SumSelfCosts(b)
  {
    if b == [] {
      assert a + b == a;
    } else {
      SumAppend(a, b[..|b| - 1]);
      assert (a + b)[..|a + b| - 1] == a + b[..|b| - 1];
    }
  }

  /** Clamped or not, the self costs account for the whole plan. */
  lemma {:induction false} SelfCostsCoverTotal(n: Node, path: Path, parent: Option<Node>)
    ensures SumSelfCosts(Visits(n, path, parent)) >= n.info.totalCost
    decreases n, |n.children| + 1
  {
    var k := |n.children|;
    ChildrenCover(n, path, k);
    SumAppend([Visit(path, n, parent)], ChildVisits(n, path, k));
    assert SumSelfCosts([Visit(path, n, parent)]) == SelfCost(n) by {
      assert [Visit(path, n, parent)][..0] == [];
    }
  }

  lemma {:induction false} ChildrenCover(n: Node, path: Path, k: nat)
    requires k <= |n.children|
    ensures SumSelfCosts(ChildVisits(n, path, k)) >= ChildrenCost(n, k)
    decreases n, k
  {
    if k > 0 {
      ChildrenCover(n, path, k - 1);
      SelfCostsCoverTotal(n.children[k - 1], path + [k - 1], Some(n));
      SumAppend(ChildVisits(n, path, k - 1), Visits(n.children[k - 1], path + [k - 1], Some(n)));
    }
  }
}
