/**
 RemapPeerTopologyConfig: a topology that resolves still resolves after nodes are
 removed and renumbered, and for most kinds its edges are exactly the kept edges.
 */
module TopologyRemap {
  import opened Wrappers
  import opened TopologyEdges
  import opened TopologyResolve

  /** Where each old node goes. */
  type Renaming = seq<Option<nat>>

  /** Distinct new indexes that are exactly 0, ..., m - 1. */
  ghost predicate Compact(f: Renaming, m: nat) {
    && (forall i | 0 <= i < |f| && f[i].Some? :: f[i].value < m)
    && (forall i, j | 0 <= i < |f| && 0 <= j < |f| && f[i].Some? && f[i] == f[j] :: i == j)
    && (forall v: nat | v < m :: Some(v) in f)
  }

  predicate Kept(f: Renaming, node: nat) {
    node < |f| && f[node].Some?
  }

  function New(f: Renaming, node: nat): nat {
    if Kept(f, node) then f[node].value else 0
  }

  /** The kept edges under their new names. */
  ghost function Image(f: Renaming, edges: set<Edge>): set<Edge> {
    set e | e in edges && Kept(f, e.from) && Kept(f, e.target) :: Edge(New(f, e.from), New(f, e.target), e.attributes)
  }

  lemma NewIsInjective(f: Renaming, m: nat, a: nat, b: nat)
    requires Compact(f, m) && Kept(f, a) && Kept(f, b)
    ensures New(f, a) == New(f, b) <==> a == b
  {}

  lemma OldOf(f: Renaming, m: nat, node: nat) returns (old_: nat)
    requires Compact(f, m) && node < m
    ensures Kept(f, old_) && New(f, old_) == node
  {
    assert Some(node) in f;
    old_ :| 0 <= old_ < |f| && f[old_] == Some(node);
  }

  /** Renaming neither breaks an edge nor makes two edges clash. */
  lemma ImageCollectable(f: Renaming, m: nat, n: nat, edges: set<Edge>)
    requires Compact(f, m) && Collectable(n, edges)
    ensures Collectable(m, Image(f, edges))
  {
    forall e | e in Image(f, edges) ensures Acceptable(m, e) {
      var x :| x in edges && Kept(f, x.from) && Kept(f, x.target) &&
               e == Edge(New(f, x.from), New(f, x.target), x.attributes);
    }
    forall a, b | a in Image(f, edges) && b in Image(f, edges) ensures !Clashes(a, b) {
      var x :| x in edges && Kept(f, x.from) && Kept(f, x.target) &&
               a == Edge(New(f, x.from), New(f, x.target), x.attributes);
      var y :| y in edges && Kept(f, y.from) && Kept(f, y.target) &&
               b == Edge(New(f, y.from), New(f, y.target), y.attributes);
      assert !Clashes(x, y);
    }
  }

  // ----- lists of nodes and groups -----

  function KeptNodes(nodes: seq<nat>, f: Renaming): seq<nat> {
    if nodes == [] then []
    else
      var node := nodes[|nodes| - 1];
      KeptNodes(nodes[..|nodes| - 1], f) + (if Kept(f, node) then [New(f, node)] else [])
  }

  function KeptGroups(groups: seq<seq<nat>>, f: Renaming): seq<seq<nat>> {
    if groups == [] then []
    else
      var members := KeptNodes(groups[|groups| - 1], f);
      KeptGroups(groups[..|groups| - 1], f) + (if members != [] then [members] else [])
  }

  lemma {:induction false} KeptNodesConcat(a: seq<nat>, b: seq<nat>, f: Renaming)
    ensures KeptNodes(a + b, f) == KeptNodes(a, f) + KeptNodes(b, f)
    decreases |b|
  {
    if b == [] {
      assert a + b == a;
    } else {
      assert (a + b)[..|a + b| - 1] == a + b[..|b| - 1];
      KeptNodesConcat(a, b[..|b| - 1], f);
    }
  }

  lemma {:induction false} KeptNodesAre(nodes: seq<nat>, f: Renaming, v: nat)
    ensures v in KeptNodes(nodes, f) <==> exists node :: node in nodes && Kept(f, node) && New(f, node) == v
    decreases |nodes|
  {
    if nodes != [] {
      var n := |nodes| - 1;
      KeptNodesAre(nodes[..n], f, v);
      assert nodes == nodes[..n] + [nodes[n]];
      if v in KeptNodes(nodes, f) {
        if Kept(f, nodes[n]) && New(f, nodes[n]) == v {
          assert nodes[n] in nodes;
        } else {
          var node :| node in nodes[..n] && Kept(f, node) && New(f, node) == v;
          assert node in nodes;
        }
      }
    }
  }

  lemma {:induction false} KeptNodesDistinct(nodes: seq<nat>, f: Renaming, m: nat)
    requires Compact(f, m) && Distinct(nodes)
    ensures Distinct(KeptNodes(nodes, f))
    decreases |nodes|
  {
    if nodes != [] {
      var n := |nodes| - 1;
      var front, last := KeptNodes(nodes[..n], f), nodes[n];
      KeptNodesDistinct(nodes[..n], f, m);
      if Kept(f, last) {
        KeptNodesAre(nodes[..n], f, New(f, last));
        forall node | node in nodes[..n] && Kept(f, node) ensures New(f, node) != New(f, last) {
          NewIsInjective(f, m, node, last);
        }
        assert New(f, last) !in front;
      }
    }
  }

  lemma {:induction false} FlatKept(groups: seq<seq<nat>>, f: Renaming)
    ensures Flat(KeptGroups(groups, f)) == KeptNodes(Flat(groups), f)
    decreases |groups|
  {
    if groups != [] {
      var n := |groups| - 1;
      FlatKept(groups[..n], f);
      KeptNodesConcat(Flat(groups[..n]), groups[n], f);
      var kept, members := KeptGroups(groups[..n], f), KeptNodes(groups[n], f);
      if members != [] {
        assert (kept + [members])[..|kept|] == kept;
      } else {
        assert KeptGroups(groups, f) == kept;
      }
    }
  }

  lemma {:induction false} KeptGroupsInhabited(groups: seq<seq<nat>>, f: Renaming)
    ensures forall i | 0 <= i < |KeptGroups(groups, f)| :: KeptGroups(groups, f)[i] != []
    decreases |groups|
  {
    if groups != [] { KeptGroupsInhabited(groups[..|groups| - 1], f); }
  }

  lemma KeptNodesCover(nodes: seq<nat>, f: Renaming, m: nat, v: nat)
    requires Compact(f, m) && (forall node: nat :: node in nodes <==> node < |f|)
    ensures v in KeptNodes(nodes, f) <==> v < m
  {
    hide KeptNodes;
    KeptNodesAre(nodes, f, v);
    if v < m {
      var node := OldOf(f, m, v);
      assert node in nodes;
    }
  }

  /** Dropping and renaming nodes leaves a partition of the new nodes. */
  lemma KeptPartition(groups: seq<seq<nat>>, f: Renaming, m: nat)
    requires Compact(f, m) && m > 0 && Partition(groups, |f|)
    ensures Partition(KeptGroups(groups, f), m)
  {
    hide KeptNodes, KeptGroups, Flat, Distinct, Compact;
    FlatKept(groups, f);
    KeptGroupsInhabited(groups, f);
    KeptNodesDistinct(Flat(groups), f, m);
    forall v: nat ensures v in KeptNodes(Flat(groups), f) <==> v < m { KeptNodesCover(Flat(groups), f, m, v); }
    NothingFlat();
    assert 0 in Flat(KeptGroups(groups, f));
  }

  lemma NothingFlat()
    ensures Flat([]) == []
  {}

  lemma MeshImage(nodes: seq<nat>, f: Renaming, m: nat)
    requires Compact(f, m)
    ensures Mesh(KeptNodes(nodes, f)) == Image(f, Mesh(nodes))
  {
    var kept := KeptNodes(nodes, f);
    forall e | e in Mesh(kept) ensures e in Image(f, Mesh(nodes)) {
      KeptNodesAre(nodes, f, e.from);
      KeptNodesAre(nodes, f, e.target);
      var a :| a in nodes && Kept(f, a) && New(f, a) == e.from;
      var b :| b in nodes && Kept(f, b) && New(f, b) == e.target;
      assert Edge(a, b, NONE) in Mesh(nodes);
    }
    forall e | e in Image(f, Mesh(nodes)) ensures e in Mesh(kept) {
      var x :| x in Mesh(nodes) && Kept(f, x.from) && Kept(f, x.target) &&
               e == Edge(New(f, x.from), New(f, x.target), x.attributes);
      KeptNodesAre(nodes, f, e.from);
      KeptNodesAre(nodes, f, e.target);
    }
  }

  lemma ImageUnion(f: Renaming, a: set<Edge>, b: set<Edge>)
    ensures Image(f, a + b) == Image(f, a) + Image(f, b)
  {}

  lemma {:induction false} GroupsImage(groups: seq<seq<nat>>, f: Renaming, m: nat)
    requires Compact(f, m)
    ensures GroupEdges(KeptGroups(groups, f)) == Image(f, GroupEdges(groups))
    decreases |groups|
  {
    hide Mesh, Image;
    if groups == [] {
      NoGroups(groups);
      NothingImage(f);
    } else {
      var n := |groups| - 1;
      var kept, members := KeptGroups(groups[..n], f), KeptNodes(groups[n], f);
      GroupsImage(groups[..n], f, m);
      GroupStep(groups, n);
      assert groups[..n + 1] == groups;
      MeshImage(groups[n], f, m);
      ImageUnion(f, GroupEdges(groups[..n]), Mesh(groups[n]));
      if members != [] {
        GroupStep(kept + [members], |kept|);
        assert (kept + [members])[..|kept|] == kept && (kept + [members])[..|kept| + 1] == kept + [members];
      } else {
        EmptyMesh();
        assert KeptGroups(groups, f) == kept;
      }
    }
  }

  lemma EmptyMesh()
    ensures Mesh([]) == {}
  {}

  lemma NothingImage(f: Renaming)
    ensures Image(f, {}) == {} && GroupEdges([]) == {}
  {}

  // ----- configured edges -----

  function Renamed(e: ConfiguredEdge, f: Renaming): ConfiguredEdge {
    e.(from := New(f, e.from), target := New(f, e.target))
  }

  function KeptEdges(edges: seq<ConfiguredEdge>, f: Renaming): seq<ConfiguredEdge> {
    if edges == [] then []
    else
      var e := edges[|edges| - 1];
      KeptEdges(edges[..|edges| - 1], f) + (if Kept(f, e.from) && Kept(f, e.target) then [Renamed(e, f)] else [])
  }

  lemma {:induction false} KeptEdgesInRange(edges: seq<ConfiguredEdge>, f: Renaming, m: nat)
    requires Compact(f, m) && InRange(edges, |f|)
    ensures InRange(KeptEdges(edges, f), m)
    decreases |edges|
  {
    if edges != [] {
      var n := |edges| - 1;
      KeptEdgesInRange(edges[..n], f, m);
      assert edges[n].from != edges[n].target;
    }
  }

  lemma {:induction false} ConfiguredImage(edges: seq<ConfiguredEdge>, f: Renaming)
    ensures Configured(KeptEdges(edges, f)) == Image(f, Configured(edges))
    decreases |edges|
  {
    hide Image, Configured;
    if edges == [] {
      NothingConfigured(edges);
      assert edges[..0] == [] == KeptEdges(edges, f);
      NothingImage(f);
    } else {
      var n := |edges| - 1;
      var e, kept := edges[n], KeptEdges(edges[..n], f);
      ConfiguredImage(edges[..n], f);
      ConfiguredStep(edges, n);
      assert edges[..n + 1] == edges;
      ImageUnion(f, Configured(edges[..n]), Adds(e));
      AddsImage(e, f);
      if Kept(f, e.from) && Kept(f, e.target) {
        var more := kept + [Renamed(e, f)];
        ConfiguredStep(more, |kept|);
        assert more[..|kept|] == kept && more[..|kept| + 1] == more;
      } else {
        assert KeptEdges(edges, f) == kept;
      }
    }
  }

  lemma AddsImage(e: ConfiguredEdge, f: Renaming)
    ensures Image(f, Adds(e)) == if Kept(f, e.from) && Kept(f, e.target) then Adds(Renamed(e, f)) else {}
  {
    var image := Image(f, Adds(e));
    if Kept(f, e.from) && Kept(f, e.target) {
      forall x | x in Adds(Renamed(e, f)) ensures x in image {
        if x == Forward(Renamed(e, f)) { assert Forward(e) in Adds(e); } else { assert Reverse(Forward(e)) in Adds(e); }
      }
    }
  }

  // ----- the whole mesh, a star, a matrix -----

  lemma FullMeshImage(f: Renaming, m: nat)
    requires Compact(f, m)
    ensures Mesh(All(m)) == Image(f, Mesh(All(|f|)))
  {
    forall e | e in Mesh(All(m)) ensures e in Image(f, Mesh(All(|f|))) {
      var a := OldOf(f, m, e.from);
      var b := OldOf(f, m, e.target);
      assert All(|f|)[a] == a && All(|f|)[b] == b;
      assert Edge(a, b, NONE) in Mesh(All(|f|));
    }
    forall e | e in Image(f, Mesh(All(|f|))) ensures e in Mesh(All(m)) {
      var x :| x in Mesh(All(|f|)) && Kept(f, x.from) && Kept(f, x.target) &&
               e == Edge(New(f, x.from), New(f, x.target), x.attributes);
      NewIsInjective(f, m, x.from, x.target);
      assert All(m)[e.from] == e.from && All(m)[e.target] == e.target;
    }
  }

  lemma StarImage(f: Renaming, m: nat, center: nat)
    requires Compact(f, m) && Kept(f, center)
    ensures StarEdges(New(f, center), m) == Image(f, StarEdges(center, |f|))
  {
    var star, image := StarEdges(New(f, center), m), Image(f, StarEdges(center, |f|));
    forall e | e in star ensures e in image {
      var i := if e.from == New(f, center) then e.target else e.from;
      var x := OldOf(f, m, i);
      if e.from == New(f, center) {
        assert Edge(center, x, NONE) in StarEdges(center, |f|);
      } else {
        assert Edge(x, center, NONE) in StarEdges(center, |f|);
      }
    }
    forall e | e in image ensures e in star {
      var x :| x in StarEdges(center, |f|) && Kept(f, x.from) && Kept(f, x.target) &&
               e == Edge(New(f, x.from), New(f, x.target), x.attributes);
      NewIsInjective(f, m, x.from, x.target);
    }
  }

  predicate HasCell(matrix: seq<seq<Option<nat>>>, a: nat, b: nat) {
    a < |matrix| && b < |matrix[a]|
  }

  /** The matrix read through the old names. */
  ghost predicate MatrixKept(matrix: seq<seq<Option<nat>>>, f: Renaming, m: nat, kept: seq<seq<Option<nat>>>) {
    && Square(kept, m)
    && forall a: nat, b: nat | Kept(f, a) && Kept(f, b) && New(f, a) < m && New(f, b) < m ::
         HasCell(matrix, a, b) && kept[New(f, a)][New(f, b)] == matrix[a][b]
  }

  lemma MatrixImage(matrix: seq<seq<Option<nat>>>, f: Renaming, m: nat, kept: seq<seq<Option<nat>>>)
    requires Compact(f, m) && Square(matrix, |f|) && MatrixKept(matrix, f, m, kept)
    ensures MatrixEdges(kept, m) == Image(f, MatrixEdges(matrix, |f|))
    ensures (forall i | 0 <= i < |f| :: matrix[i][i].Some? ==> matrix[i][i].value == 0) ==>
              forall i | 0 <= i < m :: kept[i][i].Some? ==> kept[i][i].value == 0
  {
    forall e | e in MatrixEdges(kept, m) ensures e in Image(f, MatrixEdges(matrix, |f|)) {
      var a := OldOf(f, m, e.from);
      var b := OldOf(f, m, e.target);
      assert kept[New(f, a)][New(f, b)] == matrix[a][b];
      assert Delayed(a, b, matrix[a][b].value) in MatrixEdges(matrix, |f|);
    }
    forall e | e in Image(f, MatrixEdges(matrix, |f|)) ensures e in MatrixEdges(kept, m) {
      var x :| x in MatrixEdges(matrix, |f|) && Kept(f, x.from) && Kept(f, x.target) &&
               e == Edge(New(f, x.from), New(f, x.target), x.attributes);
      NewIsInjective(f, m, x.from, x.target);
      assert kept[New(f, x.from)][New(f, x.target)] == matrix[x.from][x.target];
    }
    forall i | 0 <= i < m
      ensures (forall k | 0 <= k < |f| :: matrix[k][k].Some? ==> matrix[k][k].value == 0) ==>
                kept[i][i].Some? ==> kept[i][i].value == 0
    {
      var a := OldOf(f, m, i);
      assert kept[New(f, a)][New(f, a)] == matrix[a][a];
    }
  }

  // ----- regions -----

  /** Where each region goes: regions without a kept node disappear. */
  function RegionRenaming(regions: seq<seq<nat>>, f: Renaming): Renaming {
    seq(|regions|, r requires 0 <= r < |regions| =>
      if KeptNodes(regions[r], f) != [] then Some(|KeptGroups(regions[..r], f)|) else None)
  }

  lemma {:induction false} RegionsKept(regions: seq<seq<nat>>, f: Renaming, r: nat)
    requires r < |regions| && KeptNodes(regions[r], f) != []
    ensures var at := |KeptGroups(regions[..r], f)|;
            at < |KeptGroups(regions, f)| && KeptGroups(regions, f)[at] == KeptNodes(regions[r], f)
    decreases |regions|
  {
    var n := |regions| - 1;
    if r < n {
      RegionsKept(regions[..n], f, r);
      assert regions[..n][..r] == regions[..r];
    }
  }

  lemma {:induction false} KeptGroupsGrow(regions: seq<seq<nat>>, f: Renaming, a: nat, b: nat)
    requires a <= b <= |regions|
    ensures |KeptGroups(regions[..a], f)| <= |KeptGroups(regions[..b], f)|
    decreases b
  {
    if a < b {
      KeptGroupsGrow(regions, f, a, b - 1);
      assert regions[..b][..b - 1] == regions[..b - 1];
    }
  }

  lemma RegionsStayApart(regions: seq<seq<nat>>, f: Renaming, a: nat, b: nat)
    requires a < b < |regions| && KeptNodes(regions[a], f) != []
    ensures |KeptGroups(regions[..a], f)| < |KeptGroups(regions[..b], f)|
  {
    assert regions[..a + 1][..a] == regions[..a];
    KeptGroupsGrow(regions, f, a + 1, b);
  }

  lemma {:induction false} RegionsCovered(regions: seq<seq<nat>>, f: Renaming, v: nat)
    requires v < |KeptGroups(regions, f)|
    ensures exists r :: 0 <= r < |regions| && RegionRenaming(regions, f)[r] == Some(v)
    decreases |regions|
  {
    var n := |regions| - 1;
    if v < |KeptGroups(regions[..n], f)| {
      RegionsCovered(regions[..n], f, v);
      var r :| 0 <= r < n && RegionRenaming(regions[..n], f)[r] == Some(v);
      assert regions[..n][..r] == regions[..r];
      assert RegionRenaming(regions, f)[r] == Some(v);
    } else {
      assert RegionRenaming(regions, f)[n] == Some(v);
    }
  }

  lemma RegionsCompact(regions: seq<seq<nat>>, f: Renaming)
    ensures Compact(RegionRenaming(regions, f), |KeptGroups(regions, f)|)
  {
    var g := RegionRenaming(regions, f);
    forall i | 0 <= i < |g| && g[i].Some? ensures g[i].value < |KeptGroups(regions, f)| { RegionsKept(regions, f, i); }
    forall i, j | 0 <= i < |g| && 0 <= j < |g| && g[i].Some? && g[i] == g[j] ensures i == j {
      if i < j { RegionsStayApart(regions, f, i, j); }
      if j < i { RegionsStayApart(regions, f, j, i); }
    }
    forall v: nat | v < |KeptGroups(regions, f)| ensures Some(v) in g {
      RegionsCovered(regions, f, v);
    }
  }

  /** A node lies in one group only. */
  lemma OneGroup(groups: seq<seq<nat>>, n: nat, a: nat, b: nat, node: nat)
    requires Partition(groups, n) && a < b < |groups| && node in groups[b]
    ensures node !in groups[a]
  {
    forall k | 0 <= k < |groups[a]| ensures groups[a][k] != node {
      FlatHolds(groups[..b], a, k);
      assert groups[..b][a] == groups[a];
      FlatStep(groups, b);
      FlatPrefix(groups, b + 1);
      var before := Flat(groups[..b]);
      var x :| 0 <= x < |before| && before[x] == groups[a][k];
      var l :| 0 <= l < |groups[b]| && groups[b][l] == node;
      assert Flat(groups)[x] == groups[a][k] && Flat(groups)[|before| + l] == node;
    }
  }

  lemma {:induction false} KeptEdgeOrigin(edges: seq<ConfiguredEdge>, f: Renaming, e: ConfiguredEdge)
    returns (was: ConfiguredEdge)
    requires e in KeptEdges(edges, f)
    ensures was in edges && Kept(f, was.from) && Kept(f, was.target) && e == Renamed(was, f)
    decreases |edges|
  {
    var n := |edges| - 1;
    if e in KeptEdges(edges[..n], f) {
      was := KeptEdgeOrigin(edges[..n], f, e);
    } else {
      was := edges[n];
    }
  }

  /** `x` links the fronts of the regions `i` and `j`. */
  predicate LinkOf(regions: seq<seq<nat>>, i: nat, j: nat, x: Edge) {
    && i < |regions| && j < |regions| && regions[i] != [] && regions[j] != []
    && x.from == regions[i][0] && x.target == regions[j][0]
  }

  /** Every link of the remapped regions comes from a link of the old ones. */
  lemma LinkOrigin(regions: seq<seq<nat>>, f: Renaming, edges: seq<ConfiguredEdge>, x: Edge)
    returns (i: nat, j: nat, was: Edge)
    requires (forall r | 0 <= r < |regions| :: regions[r] != []) && InRange(edges, |regions|)
    requires x in Configured(FrontedAll(KeptGroups(regions, f), KeptEdges(edges, RegionRenaming(regions, f))))
    ensures i != j && LinkOf(regions, i, j, was) && was.attributes == x.attributes
    ensures was in Configured(FrontedAll(regions, edges))
    ensures var g := RegionRenaming(regions, f);
            Kept(g, i) && Kept(g, j) && LinkOf(KeptGroups(regions, f), New(g, i), New(g, j), x)
  {
    var g, kept := RegionRenaming(regions, f), KeptGroups(regions, f);
    var links := KeptEdges(edges, g);
    var fronted := FrontedAll(kept, links);
    var e :| e in fronted && x in Adds(e);
    var k :| 0 <= k < |fronted| && fronted[k] == e;
    var old_ := KeptEdgeOrigin(edges, g, links[k]);
    KeptGroupsInhabited(regions, f);
    RegionsCompact(regions, f);
    var l :| 0 <= l < |edges| && edges[l] == old_;
    i, j := old_.from, old_.target;
    was := Edge(regions[i][0], regions[j][0], x.attributes);
    if x != Forward(e) {
      i, j := j, i;
      was := Edge(regions[i][0], regions[j][0], x.attributes);
    }
    assert FrontedAll(regions, edges)[l] == Fronted(regions, old_);
    assert was in Adds(Fronted(regions, old_));
  }

  lemma LinkIsNoMesh(groups: seq<seq<nat>>, n: nat, a: nat, b: nat, link: Edge, mesh: Edge)
    requires Partition(groups, n) && a != b && LinkOf(groups, a, b, link) && mesh in GroupEdges(groups)
    ensures link.from != mesh.from || link.target != mesh.target
  {
    var g :| g in groups && mesh in Mesh(g);
    var h :| 0 <= h < |groups| && groups[h] == g;
    if h < a { OneGroup(groups, n, h, a, link.from); } else if a < h { OneGroup(groups, n, a, h, mesh.from); }
    if h < b { OneGroup(groups, n, h, b, link.target); } else if b < h { OneGroup(groups, n, b, h, mesh.target); }
  }

  lemma FrontsTell(groups: seq<seq<nat>>, n: nat, a: nat, b: nat)
    requires Partition(groups, n) && a < |groups| && b < |groups|
    ensures groups[a][0] == groups[b][0] <==> a == b
    ensures groups[a][0] < n
  {
    FlatHolds(groups, a, 0);
    if a < b { FrontsDiffer(groups, n, a, b); }
    if b < a { FrontsDiffer(groups, n, b, a); }
  }

  lemma LinksCollectable(regions: seq<seq<nat>>, f: Renaming, m: nat, edges: seq<ConfiguredEdge>)
    requires Compact(f, m) && m > 0 && Partition(regions, |f|) && InRange(edges, |regions|)
    requires Collectable(|f|, Configured(FrontedAll(regions, edges)))
    ensures Collectable(m, Configured(FrontedAll(KeptGroups(regions, f), KeptEdges(edges, RegionRenaming(regions, f)))))
  {
    hide Configured, Partition, KeptGroups, KeptEdges, FrontedAll, RegionRenaming;
    var g, kept := RegionRenaming(regions, f), KeptGroups(regions, f);
    var links := Configured(FrontedAll(kept, KeptEdges(edges, g)));
    RegionsInUse(regions, |f|);
    KeptPartition(regions, f, m);
    RegionsCompact(regions, f);
    forall x | x in links ensures Acceptable(m, x) {
      var i, j, was := LinkOrigin(regions, f, edges, x);
      NewIsInjective(g, |kept|, i, j);
      FrontsTell(kept, m, New(g, i), New(g, j));
      FrontsTell(kept, m, New(g, j), New(g, i));
      assert Acceptable(|f|, was);
    }
    forall x, y | x in links && y in links ensures !Clashes(x, y) {
      LinksAgree(regions, f, m, edges, x, y);
    }
  }

  lemma LinksAgree(regions: seq<seq<nat>>, f: Renaming, m: nat, edges: seq<ConfiguredEdge>, x: Edge, y: Edge)
    requires Compact(f, m) && m > 0 && Partition(regions, |f|) && InRange(edges, |regions|)
    requires Collectable(|f|, Configured(FrontedAll(regions, edges)))
    requires var links := Configured(FrontedAll(KeptGroups(regions, f), KeptEdges(edges, RegionRenaming(regions, f))));
             x in links && y in links
    ensures !Clashes(x, y)
  {
    hide Configured, Partition, KeptGroups, KeptEdges, FrontedAll, RegionRenaming;
    var g, kept := RegionRenaming(regions, f), KeptGroups(regions, f);
    RegionsInUse(regions, |f|);
    KeptPartition(regions, f, m);
    RegionsCompact(regions, f);
    var i, j, was := LinkOrigin(regions, f, edges, x);
    var k, l, were := LinkOrigin(regions, f, edges, y);
    FrontsTell(kept, m, New(g, i), New(g, k));
    FrontsTell(kept, m, New(g, j), New(g, l));
    NewIsInjective(g, |kept|, i, k);
    NewIsInjective(g, |kept|, j, l);
    assert !Clashes(was, were);
  }

  /** Regions still resolve; without kept region edges the default links take over. */
  lemma RegionsResolve(regions: seq<seq<nat>>, f: Renaming, m: nat, edges: seq<ConfiguredEdge>)
    requires Compact(f, m) && m > 0 && Partition(regions, |f|) && InRange(edges, |regions|)
    requires Collectable(|f|, GroupEdges(regions) + RegionLinks(regions, edges))
    ensures var kept, links := KeptGroups(regions, f), KeptEdges(edges, RegionRenaming(regions, f));
            && Partition(kept, m) && InRange(links, |kept|)
            && Collectable(m, GroupEdges(kept) + RegionLinks(kept, links))
  {
    hide Configured, Partition, KeptGroups, KeptEdges, FrontedAll, RegionRenaming, GroupEdges, RegionLinks;
    var g, kept := RegionRenaming(regions, f), KeptGroups(regions, f);
    var links := KeptEdges(edges, g);
    KeptPartition(regions, f, m);
    RegionsInUse(regions, |f|);
    RegionsInUse(kept, m);
    RegionsCompact(regions, f);
    RenamingSize(regions, f);
    KeptEdgesInRange(edges, g, |kept|);
    GroupsPlain(kept, m);
    if links == [] {
      DefaultPlain(kept, m);
      PlainCollectable(m, GroupEdges(kept) + RegionLinks(kept, links));
    } else {
      NoEdgesKept(edges, g);
      ConfiguredLinks(regions, edges);
      ConfiguredLinks(kept, links);
      SubsetCollectable(|f|, RegionLinks(regions, edges), GroupEdges(regions) + RegionLinks(regions, edges));
      LinksCollectable(regions, f, m, edges);
      forall x, y | x in GroupEdges(kept) && y in RegionLinks(kept, links) ensures !Clashes(x, y) && !Clashes(y, x) {
        var i, j, _ := LinkOrigin(regions, f, edges, y);
        NewIsInjective(g, |kept|, i, j);
        LinkIsNoMesh(kept, m, New(g, i), New(g, j), y, x);
      }
      PlainCollectable(m, GroupEdges(kept));
    }
  }

  lemma RenamingSize(regions: seq<seq<nat>>, f: Renaming)
    ensures |RegionRenaming(regions, f)| == |regions|
  {}

  lemma NoEdgesKept(edges: seq<ConfiguredEdge>, f: Renaming)
    ensures edges == [] ==> KeptEdges(edges, f) == []
  {}

  lemma GroupsPlain(groups: seq<seq<nat>>, n: nat)
    requires Partition(groups, n)
    ensures forall e | e in GroupEdges(groups) ::
              e.attributes == NONE && e.from < n && e.target < n && e.from != e.target
  {
    forall e | e in GroupEdges(groups)
      ensures e.attributes == NONE && e.from < n && e.target < n && e.from != e.target
    {
      var g :| g in groups && e in Mesh(g);
      var i :| 0 <= i < |groups| && groups[i] == g;
      var k :| 0 <= k < |g| && g[k] == e.from;
      var l :| 0 <= l < |g| && g[l] == e.target;
      FlatHolds(groups, i, k);
      FlatHolds(groups, i, l);
    }
  }

  lemma DefaultPlain(groups: seq<seq<nat>>, n: nat)
    requires Partition(groups, n) && forall r | 0 <= r < |groups| :: groups[r] != []
    ensures forall e | e in RegionLinks(groups, []) ::
              e.attributes == NONE && e.from < n && e.target < n && e.from != e.target
  {
    forall e | e in RegionLinks(groups, [])
      ensures e.attributes == NONE && e.from < n && e.target < n && e.from != e.target
    {
      var i, j :| 0 <= i < |groups| && 0 <= j < |groups| && i != j && e == Edge(groups[i][0], groups[j][0], NONE);
      FrontsTell(groups, n, i, j);
      FrontsTell(groups, n, j, i);
    }
  }

  // ----- the remapped topology -----

  /** Every node and region the topology of its kind mentions exists. */
  ghost predicate InDomain(t: Topology, f: Renaming) {
    match t.kind
    case Star => t.center < |f|
    case CustomEdges => EdgesBelow(t.edges, |f|)
    case Groups => NodesBelow(t.groups, |f|)
    case Regions => NodesBelow(t.regions, |f|) && EdgesBelow(t.regionEdges, |t.regions|)
    case LatencyMatrix => forall a: nat, b: nat | Kept(f, a) && Kept(f, b) :: HasCell(t.matrix, a, b)
    case _ => true
  }

  ghost predicate EdgesBelow(edges: seq<ConfiguredEdge>, n: nat) {
    forall i | 0 <= i < |edges| :: edges[i].from < n && edges[i].target < n
  }

  ghost predicate NodesBelow(groups: seq<seq<nat>>, n: nat) {
    forall i, k | 0 <= i < |groups| && 0 <= k < |groups[i]| :: groups[i][k] < n
  }

  /** `r` is the topology of the `m` kept nodes. */
  ghost predicate RemapOf(t: Topology, f: Renaming, m: nat, r: Topology)
    requires m > 0
  {
    match t.kind
    case Star => r == t.(center := New(f, t.center))
    case RandomGraph => r == t.(averageDegree := Least(t.averageDegree, m - 1))
    case ScaleFree =>
      r == if m == 1 then t
           else t.(averageDegree := Least(t.averageDegree, m - 1), attachments := Least(t.attachments, m - 1))
    case CustomEdges => r == t.(edges := KeptEdges(t.edges, f))
    case Groups => r == t.(groups := KeptGroups(t.groups, f))
    case LatencyMatrix => r == t.(matrix := r.matrix) && MatrixKept(t.matrix, f, m, r.matrix)
    case Regions =>
      r == t.(regions := KeptGroups(t.regions, f),
              regionEdges := KeptEdges(t.regionEdges, RegionRenaming(t.regions, f)))
    case _ => r == t
  }

  lemma ResolvingIsInDomain(t: Topology, f: Renaming)
    requires Resolves(t, |f|)
    ensures InDomain(t, f)
  {
    var groups := if t.kind.Groups? then t.groups else t.regions;
    if t.kind.Groups? || t.kind.Regions? {
      forall i, k | 0 <= i < |groups| && 0 <= k < |groups[i]| ensures groups[i][k] < |f| { FlatHolds(groups, i, k); }
    }
  }

  /** The kinds whose remapped edges are exactly the kept ones: a star only while its centre stays. */
  predicate Exact(t: Topology, f: Renaming) {
    match t.kind
    case FullMesh => true
    case CustomEdges => true
    case LatencyMatrix => true
    case Groups => true
    case Star => Kept(f, t.center)
    case _ => false
  }

  lemma RemapKeepsEdges(t: Topology, f: Renaming, m: nat, r: Topology)
    requires Resolves(t, |f|) && Compact(f, m) && m > 0 && RemapOf(t, f, m, r) && Exact(t, f)
    ensures Shaped(r, m) && Wanted(r, m) == Image(f, Wanted(t, |f|))
  {
    hide Mesh, Configured, GroupEdges, MatrixEdges, StarEdges, Image, Partition, KeptGroups, KeptEdges;
    match t.kind
    case FullMesh => FullMeshImage(f, m);
    case CustomEdges =>
      KeptEdgesInRange(t.edges, f, m);
      ConfiguredImage(t.edges, f);
    case LatencyMatrix => MatrixImage(t.matrix, f, m, r.matrix);
    case Groups =>
      KeptPartition(t.groups, f, m);
      GroupsImage(t.groups, f, m);
    case Star => StarImage(f, m, t.center);
  }

  /** Whatever the kind, a topology that resolves still resolves after nodes are removed and renumbered. */
  lemma RemapResolves(t: Topology, f: Renaming, m: nat, r: Topology)
    requires Resolves(t, |f|) && Compact(f, m) && m > 0 && RemapOf(t, f, m, r)
    ensures Resolves(r, m)
  {
    hide Mesh, Configured, GroupEdges, MatrixEdges, Image, Partition, KeptGroups, KeptEdges, RegionLinks,
      RegionRenaming;
    if Exact(t, f) {
      hide StarEdges, RingEdges;
      RemapKeepsEdges(t, f, m, r);
      ImageCollectable(f, m, |f|, Wanted(t, |f|));
    } else {
      match t.kind
      case Star => StarPlain(0, m);
      case Ring => RingPlain(m);
      case Regions => RegionsResolve(t.regions, f, m, t.regionEdges);
      case RandomGraph =>
      case ScaleFree => SingleNode(f, m);
    }
  }

  lemma SingleNode(f: Renaming, m: nat)
    requires Compact(f, m)
    ensures |f| == 1 ==> m <= 1
  {
    assert m > 1 ==> Some(0) in f && Some(1) in f;
  }

  lemma StarPlain(center: nat, n: nat)
    requires center < n
    ensures Collectable(n, StarEdges(center, n))
  {}

  lemma RingPlain(n: nat)
    requires n > 0
    ensures Collectable(n, RingEdges(n))
  {
    if n > 1 {
      forall i: nat | i < n ensures RingEdge(i, n).target < n && RingEdge(i, n).target != i { RingNeighbour(i, n); }
      PlainCollectable(n, RingEdges(n));
    }
  }

  // ----- the loops -----

  /** The check that a renaming is injective and compact, and the number of kept nodes. */
  method CheckRenaming(f: Renaming) returns (ok: bool, m: nat)
    ensures ok ==> Compact(f, m)
    ensures !ok ==> forall k :: !Compact(f, k)
  {
    hide SeenBy, Compact;
    var seen := new bool[|f|](_ => false);
    m := 0;
    NothingSeen(f, seen[..]);
    var i := 0;
    while i < |f|
      invariant 0 <= i <= |f|
      invariant SeenBy(f, i, m, seen[..])
    {
      if f[i].Some? {
        var v := f[i].value;
        if v >= |f| || seen[v] {
          forall k ensures !Compact(f, k) { BadValue(f, i, m, k, seen[..]); }
          return false, m;
        }
        SeeValue(f, i, m, seen[..]);
        seen[v] := true;
        m := if v + 1 > m then v + 1 else m;
      } else {
        SeeNothing(f, i, m, seen[..]);
      }
      i := i + 1;
    }
    AllSeen(f, m, seen[..]);
    var j := 0;
    while j < m
      invariant 0 <= j <= m
      invariant forall x | 0 <= x < j :: seen[x]
    {
      if !seen[j] {
        forall k ensures !Compact(f, k) { Gap(f, j, m, k, seen[..]); }
        return false, m;
      }
      j := j + 1;
    }
    return true, m;
  }

  /** `seen` marks the values of the first `i` entries, which are distinct and below `m`; `m - 1` is one of them. */
  ghost predicate SeenBy(f: Renaming, i: nat, m: nat, seen: seq<bool>) {
    && i <= |f| && |seen| == |f| && m <= |f|
    && (forall k | 0 <= k < i && f[k].Some? :: f[k].value < m && seen[f[k].value])
    && (forall k, l | 0 <= k < l < i && f[k].Some? :: f[k] != f[l])
    && (forall v: nat | v < |f| && seen[v] :: Some(v) in f[..i])
    && (m > 0 ==> seen[m - 1])
  }

  lemma NothingSeen(f: Renaming, seen: seq<bool>)
    requires |seen| == |f| && forall v | 0 <= v < |f| :: !seen[v]
    ensures SeenBy(f, 0, 0, seen)
  {}

  lemma SeeNothing(f: Renaming, i: nat, m: nat, seen: seq<bool>)
    requires i < |f| && SeenBy(f, i, m, seen) && f[i].None?
    ensures SeenBy(f, i + 1, m, seen)
  {
    assert f[..i + 1] == f[..i] + [f[i]];
  }

  lemma SeeValue(f: Renaming, i: nat, m: nat, seen: seq<bool>)
    requires i < |f| && SeenBy(f, i, m, seen) && f[i].Some? && f[i].value < |f| && !seen[f[i].value]
    ensures SeenBy(f, i + 1, if f[i].value + 1 > m then f[i].value + 1 else m, seen[f[i].value := true])
  {
    assert f[..i + 1] == f[..i] + [f[i]];
  }

  lemma AllSeen(f: Renaming, m: nat, seen: seq<bool>)
    requires SeenBy(f, |f|, m, seen)
    ensures m <= |f| && ((forall v | 0 <= v < m :: seen[v]) ==> Compact(f, m))
  {
    assert f[..|f|] == f;
  }

  /** A value out of range or seen before cannot be part of any compact renaming. */
  lemma BadValue(f: Renaming, i: nat, m: nat, k: nat, seen: seq<bool>)
    requires i < |f| && SeenBy(f, i, m, seen) && f[i].Some? && (f[i].value >= |f| || seen[f[i].value])
    ensures !Compact(f, k)
  {
    if f[i].value < |f| {
      var l :| 0 <= l < i && f[..i][l] == f[i];
      assert f[l] == f[i];
    } else {
      assert Compact(f, k) ==> |f| < k;
      CompactSize(f, k);
    }
  }

  lemma Gap(f: Renaming, v: nat, m: nat, k: nat, seen: seq<bool>)
    requires SeenBy(f, |f|, m, seen) && v < m && !seen[v]
    ensures !Compact(f, k)
  {
    assert f[..|f|] == f;
    var top :| 0 <= top < |f| && f[top] == Some(m - 1);
    assert Compact(f, k) ==> v < k;
    assert Some(v) !in f;
  }

  lemma CompactSize(f: Renaming, m: nat)
    ensures Compact(f, m) ==> m <= |f|
  {
    if Compact(f, m) {
      var at := map v | v in Upto(m) :: Index(f, v);
      forall v | v in Upto(m) ensures at[v] in Upto(|f|) && f[at[v]] == Some(v) { assert Some(v) in f; }
      Injected(Upto(m), Upto(|f|), at);
    }
  }

  ghost function Index(f: Renaming, v: nat): (i: nat)
    ensures Some(v) in f ==> i < |f| && f[i] == Some(v)
  {
    if Some(v) in f then var i: nat :| i < |f| && f[i] == Some(v); i else 0
  }

  ghost function Upto(n: nat): (r: set<nat>)
    ensures |r| == n && forall i: nat :: i in r <==> i < n
  {
    if n == 0 then {} else Upto(n - 1) + {n - 1}
  }

  lemma {:induction false} Injected(a: set<nat>, b: set<nat>, g: map<nat, nat>)
    requires a <= g.Keys && (forall x | x in a :: g[x] in b)
    requires forall x, y | x in a && y in a && g[x] == g[y] :: x == y
    ensures |a| <= |b|
    decreases |a|
  {
    if a != {} {
      var x :| x in a;
      Injected(a - {x}, b - {g[x]}, g);
    }
  }

  method RemapNodes(nodes: seq<nat>, f: Renaming) returns (ok: bool, members: seq<nat>)
    ensures ok <==> forall k | 0 <= k < |nodes| :: nodes[k] < |f|
    ensures ok ==> members == KeptNodes(nodes, f)
  {
    members := [];
    var k := 0;
    while k < |nodes|
      invariant 0 <= k <= |nodes|
      invariant forall i | 0 <= i < k :: nodes[i] < |f|
      invariant members == KeptNodes(nodes[..k], f)
    {
      if nodes[k] >= |f| { return false, members; }
      assert nodes[..k + 1][..k] == nodes[..k];
      if f[nodes[k]].Some? { members := members + [f[nodes[k]].value]; }
      k := k + 1;
    }
    assert nodes[..|nodes|] == nodes;
    ok := true;
  }

  method RemapGroups(groups: seq<seq<nat>>, f: Renaming) returns (ok: bool, kept: seq<seq<nat>>, renaming: Renaming)
    ensures ok <==> NodesBelow(groups, |f|)
    ensures ok ==> kept == KeptGroups(groups, f) && renaming == RegionRenaming(groups, f)
  {
    kept, renaming := [], [];
    var i := 0;
    while i < |groups|
      invariant 0 <= i <= |groups|
      invariant NodesBelow(groups[..i], |f|)
      invariant kept == KeptGroups(groups[..i], f) && renaming == RegionRenaming(groups, f)[..i]
    {
      var fine, members := RemapNodes(groups[i], f);
      if !fine { return false, kept, renaming; }
      assert groups[..i + 1][..i] == groups[..i];
      renaming := renaming + [if members != [] then Some(|kept|) else None];
      if members != [] { kept := kept + [members]; }
      i := i + 1;
    }
    assert groups[..|groups|] == groups;
    ok := true;
  }

  method RemapEdges(edges: seq<ConfiguredEdge>, f: Renaming) returns (ok: bool, kept: seq<ConfiguredEdge>)
    ensures ok <==> EdgesBelow(edges, |f|)
    ensures ok ==> kept == KeptEdges(edges, f)
  {
    kept := [];
    var i := 0;
    while i < |edges|
      invariant 0 <= i <= |edges|
      invariant EdgesBelow(edges[..i], |f|)
      invariant kept == KeptEdges(edges[..i], f)
    {
      var e := edges[i];
      assert edges[..i + 1][..i] == edges[..i];
      if e.from >= |f| || e.target >= |f| { return false, kept; }
      if f[e.from].Some? && f[e.target].Some? {
        kept := kept + [e.(from := f[e.from].value, target := f[e.target].value)];
      }
      i := i + 1;
    }
    assert edges[..|edges|] == edges;
    ok := true;
  }

  /** retained_old_nodes: the inverse of the renaming. */
  method Retained(f: Renaming, m: nat) returns (back: seq<nat>)
    requires Compact(f, m)
    ensures |back| == m && forall i | 0 <= i < m :: Kept(f, back[i]) && New(f, back[i]) == i
  {
    var a := new nat[m](_ => 0);
    var i := 0;
    while i < |f|
      invariant 0 <= i <= |f|
      invariant forall k | 0 <= k < i && f[k].Some? :: a[f[k].value] == k
    {
      if f[i].Some? { a[f[i].value] := i; }
      i := i + 1;
    }
    forall v: nat | v < m ensures Kept(f, a[v]) && New(f, a[v]) == v {
      var k := OldOf(f, m, v);
      assert f[k].value == v;
    }
    back := a[..];
  }

  method RemapRow(row: seq<Option<nat>>, back: seq<nat>) returns (ok: bool, kept: seq<Option<nat>>)
    ensures ok <==> forall j | 0 <= j < |back| :: back[j] < |row|
    ensures ok ==> |kept| == |back| && forall j | 0 <= j < |back| :: kept[j] == row[back[j]]
  {
    kept := [];
    var j := 0;
    while j < |back|
      invariant 0 <= j <= |back| && |kept| == j
      invariant forall k | 0 <= k < j :: back[k] < |row| && kept[k] == row[back[k]]
    {
      if back[j] >= |row| { return false, kept; }
      kept := kept + [row[back[j]]];
      j := j + 1;
    }
    ok := true;
  }

  method RemapMatrix(matrix: seq<seq<Option<nat>>>, f: Renaming, m: nat) returns (ok: bool, kept: seq<seq<Option<nat>>>)
    requires Compact(f, m) && m > 0
    ensures ok <==> forall a: nat, b: nat | Kept(f, a) && Kept(f, b) :: HasCell(matrix, a, b)
    ensures ok ==> MatrixKept(matrix, f, m, kept)
  {
    hide Compact, MatrixKept, New;
    var back := Retained(f, m);
    kept := [];
    var i := 0;
    while i < m
      invariant 0 <= i <= m && |kept| == i
      invariant forall k | 0 <= k < i :: RowKept(matrix, back, m, k, kept[k])
    {
      if back[i] >= |matrix| {
        assert !HasCell(matrix, back[i], back[0]);
        return false, kept;
      }
      var fine, row := RemapRow(matrix[back[i]], back);
      if !fine {
        var j :| 0 <= j < m && back[j] >= |matrix[back[i]]|;
        assert !HasCell(matrix, back[i], back[j]);
        return false, kept;
      }
      kept := kept + [row];
      i := i + 1;
    }
    RowsKept(matrix, f, m, back, kept);
    ok := true;
  }

  ghost predicate RowKept(matrix: seq<seq<Option<nat>>>, back: seq<nat>, m: nat, k: nat, row: seq<Option<nat>>)
    requires k < |back| == m
  {
    && |row| == m && back[k] < |matrix|
    && forall l | 0 <= l < m :: back[l] < |matrix[back[k]]| && row[l] == matrix[back[k]][back[l]]
  }

  lemma RowsKept(matrix: seq<seq<Option<nat>>>, f: Renaming, m: nat, back: seq<nat>, kept: seq<seq<Option<nat>>>)
    requires Compact(f, m) && m > 0 && |back| == |kept| == m
    requires forall i | 0 <= i < m :: Kept(f, back[i]) && New(f, back[i]) == i
    requires forall k | 0 <= k < m :: RowKept(matrix, back, m, k, kept[k])
    ensures MatrixKept(matrix, f, m, kept)
    ensures forall a: nat, b: nat | Kept(f, a) && Kept(f, b) :: HasCell(matrix, a, b)
  {
    hide RowKept;
    forall i | 0 <= i < m ensures |kept[i]| == m { RowSize(matrix, back, m, i, kept[i]); }
    forall a: nat, b: nat | Kept(f, a) && Kept(f, b)
      ensures New(f, a) < m && New(f, b) < m
      ensures HasCell(matrix, a, b) && kept[New(f, a)][New(f, b)] == matrix[a][b]
    {
      NewIsInjective(f, m, a, back[New(f, a)]);
      NewIsInjective(f, m, b, back[New(f, b)]);
      CellKept(matrix, back, m, New(f, a), kept[New(f, a)], New(f, b));
    }
  }

  lemma RowSize(matrix: seq<seq<Option<nat>>>, back: seq<nat>, m: nat, k: nat, row: seq<Option<nat>>)
    requires k < |back| == m && RowKept(matrix, back, m, k, row)
    ensures |row| == m
  {}

  lemma CellKept(matrix: seq<seq<Option<nat>>>, back: seq<nat>, m: nat, k: nat, row: seq<Option<nat>>, l: nat)
    requires k < |back| == m && l < m && RowKept(matrix, back, m, k, row)
    ensures HasCell(matrix, back[k], back[l]) && |row| == m && row[l] == matrix[back[k]][back[l]]
  {}

  lemma CompactIsOne(f: Renaming, a: nat, b: nat)
    requires Compact(f, a) && Compact(f, b)
    ensures a == b
  {
    assert a < b ==> Some(a) in f;
    assert b < a ==> Some(b) in f;
  }

  const DEFAULT: Topology := Topology(FullMesh, 0, 0, 0, [], [], [], [], [])

  /**
   RemapPeerTopologyConfig: refused exactly when the renaming is not injective and compact
   or the topology mentions a node it does not cover.
   */
  method RemapTopology(t: Topology, f: Renaming) returns (r: Option<Topology>)
    ensures r.Some? <==> Compact(f, 0) || exists m: nat :: m > 0 && Compact(f, m) && InDomain(t, f)
    ensures r.Some? ==> forall m | Compact(f, m) :: if m == 0 then r.value == DEFAULT else RemapOf(t, f, m, r.value)
  {
    hide Compact, KeptGroups, KeptEdges, RegionRenaming, MatrixKept, NodesBelow, EdgesBelow;
    var ok, count := CheckRenaming(f);
    if !ok { return None; }
    forall m | Compact(f, m) ensures m == count { CompactIsOne(f, m, count); }
    if count == 0 { return Some(DEFAULT); }
    match t.kind {
      case Star =>
        if t.center >= |f| { return None; }
        r := Some(t.(center := if f[t.center].Some? then f[t.center].value else 0));
      case RandomGraph =>
        r := Some(t.(averageDegree := Least(t.averageDegree, count - 1)));
      case ScaleFree =>
        r := Some(t);
        if count > 1 {
          var degree := if t.averageDegree != 0 then Least(t.averageDegree, count - 1) else 0;
          var attachments := if t.attachments != 0 then Least(t.attachments, count - 1) else 0;
          r := Some(t.(averageDegree := degree, attachments := attachments));
        }
      case CustomEdges =>
        var fine, edges := RemapEdges(t.edges, f);
        if !fine { return None; }
        r := Some(t.(edges := edges));
      case Groups =>
        var fine, groups, _ := RemapGroups(t.groups, f);
        if !fine { return None; }
        r := Some(t.(groups := groups));
      case LatencyMatrix =>
        var fine, matrix := RemapMatrix(t.matrix, f, count);
        if !fine { return None; }
        r := Some(t.(matrix := matrix));
      case Regions =>
        var fine, regions, renaming := RemapGroups(t.regions, f);
        if !fine { return None; }
        var edges;
        fine, edges := RemapEdges(t.regionEdges, renaming);
        RenamingSize(t.regions, f);
        if !fine { return None; }
        r := Some(t.(regions := regions, regionEdges := edges));
      case FullMesh => r := Some(t);
      case Ring => r := Some(t);
    }
  }
}
