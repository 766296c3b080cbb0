/**
 When the edges of a remapped topology are exactly the kept edges of the old one: for every
 kind that needs no random draws, if and only if a condition on what was removed holds.
 */
module TopologyExact {
  import opened Wrappers
  import opened TopologyEdges
  import opened TopologyResolve
  import opened TopologyRemap

  /** A kept edge stands for one old edge. */
  lemma InImage(f: Renaming, m: nat, edges: set<Edge>, a: nat, b: nat, attributes: Attributes)
    requires Compact(f, m) && Kept(f, a) && Kept(f, b)
    ensures Edge(New(f, a), New(f, b), attributes) in Image(f, edges) <==> Edge(a, b, attributes) in edges
  {
    var e := Edge(New(f, a), New(f, b), attributes);
    if e in Image(f, edges) {
      var x := ImageOrigin(f, edges, e);
      NewIsInjective(f, m, a, x.from);
      NewIsInjective(f, m, b, x.target);
    } else {
      assert Edge(a, b, attributes) !in edges;
    }
  }

  lemma ImageOrigin(f: Renaming, edges: set<Edge>, e: Edge) returns (x: Edge)
    requires e in Image(f, edges)
    ensures x in edges && Kept(f, x.from) && Kept(f, x.target)
    ensures e == Edge(New(f, x.from), New(f, x.target), x.attributes)
  {
    x :| x in edges && Kept(f, x.from) && Kept(f, x.target) &&
         e == Edge(New(f, x.from), New(f, x.target), x.attributes);
  }

  // ----- stars -----

  /** A star keeps its edges exactly while its centre stays; a single node has none to lose. */
  lemma StarExactly(f: Renaming, m: nat, center: nat)
    requires Compact(f, m) && m > 0 && center < |f|
    ensures StarEdges(New(f, center), m) == Image(f, StarEdges(center, |f|)) <==> Kept(f, center) || m == 1
  {
    if Kept(f, center) {
      StarImage(f, m, center);
    } else {
      var image := Image(f, StarEdges(center, |f|));
      forall e | e in image ensures false { var _ := ImageOrigin(f, StarEdges(center, |f|), e); }
      assert image == {};
      if m > 1 { assert Edge(0, 1, NONE) in StarEdges(0, m); }
    }
  }

  // ----- rings -----

  function Succ(n: nat, a: nat): nat {
    if a + 1 == n then 0 else a + 1
  }

  predicate Beside(n: nat, a: nat, b: nat) {
    n > 1 && a < n && b < n && (b == Succ(n, a) || a == Succ(n, b))
  }

  lemma RingIs(n: nat, e: Edge)
    ensures e in RingEdges(n) <==> e.attributes == NONE && Beside(n, e.from, e.target)
  {
    if n > 1 {
      forall i: nat | i < n ensures RingEdge(i, n) == Edge(i, Succ(n, i), NONE) {
        if i + 1 < n { assert (i + 1) % n == i + 1; }
      }
      if e.attributes == NONE && Beside(n, e.from, e.target) {
        if e.target == Succ(n, e.from) {
          assert e == RingEdge(e.from, n);
        } else {
          assert e == Reverse(RingEdge(e.target, n));
        }
      }
    }
  }

  /** The renaming keeps neighbours neighbours, both ways. */
  ghost predicate SameNeighbours(f: Renaming, m: nat) {
    forall a: nat, b: nat | Kept(f, a) && Kept(f, b) :: Beside(|f|, a, b) <==> Beside(m, New(f, a), New(f, b))
  }

  lemma RingImageMeans(f: Renaming, m: nat)
    requires Compact(f, m)
    ensures RingEdges(m) == Image(f, RingEdges(|f|)) <==> SameNeighbours(f, m)
  {
    hide RingEdges, Image, Beside;
    var ring, image := RingEdges(m), Image(f, RingEdges(|f|));
    forall a: nat, b: nat, x | Kept(f, a) && Kept(f, b)
      ensures Edge(New(f, a), New(f, b), x) in ring <==> x == NONE && Beside(m, New(f, a), New(f, b))
      ensures Edge(New(f, a), New(f, b), x) in image <==> x == NONE && Beside(|f|, a, b)
    {
      RingIs(m, Edge(New(f, a), New(f, b), x));
      RingIs(|f|, Edge(a, b, x));
      InImage(f, m, RingEdges(|f|), a, b, x);
    }
    if SameNeighbours(f, m) {
      forall e ensures e in ring <==> e in image { RingEdgeStays(f, m, e); }
    } else {
      var a: nat, b: nat :| Kept(f, a) && Kept(f, b) && !(Beside(|f|, a, b) <==> Beside(m, New(f, a), New(f, b)));
      assert Edge(New(f, a), New(f, b), NONE) in ring <==> Edge(New(f, a), New(f, b), NONE) !in image;
    }
  }

  lemma RingEdgeStays(f: Renaming, m: nat, e: Edge)
    requires Compact(f, m) && SameNeighbours(f, m)
    ensures e in RingEdges(m) <==> e in Image(f, RingEdges(|f|))
  {
    hide RingEdges, Image;
    RingIs(m, e);
    if e in RingEdges(m) {
      var a := OldOf(f, m, e.from);
      var b := OldOf(f, m, e.target);
      RingIs(|f|, Edge(a, b, NONE));
      InImage(f, m, RingEdges(|f|), a, b, NONE);
    }
    if e in Image(f, RingEdges(|f|)) {
      var x := ImageOrigin(f, RingEdges(|f|), e);
      RingIs(|f|, x);
    }
  }

  /**
   One node is left, or two neighbours are, or nothing was removed and neighbours got
   neighbouring names.
   */
  predicate RingStays(f: Renaming, m: nat) {
    || m == 1
    || (m == 2 && exists i | 0 <= i < |f| :: Kept(f, i) && Kept(f, Succ(|f|, i)) && |f| > 1)
    || (m > 2 && forall i | 0 <= i < |f| :: Kept(f, i) && Beside(m, New(f, i), New(f, Succ(|f|, i))))
  }

  /** Going round, a kept node comes right before a removed one. */
  lemma Border(f: Renaming, kept: nat, removed: nat) returns (i: nat)
    requires Kept(f, kept) && removed < |f| && !Kept(f, removed)
    ensures Kept(f, i) && !Kept(f, Succ(|f|, i))
    decreases if kept < removed then removed - kept else removed - kept + |f|
  {
    if Kept(f, Succ(|f|, kept)) {
      i := Border(f, Succ(|f|, kept), removed);
    } else {
      i := kept;
    }
  }

  /** Removing a node opens the ring, and a ring of three or more nodes is closed. */
  lemma NothingRemoved(f: Renaming, m: nat, removed: nat)
    requires Compact(f, m) && m > 2 && SameNeighbours(f, m) && removed < |f|
    ensures Kept(f, removed)
  {
    if !Kept(f, removed) {
      var some := OldOf(f, m, 0);
      var i := Border(f, some, removed);
      var u := New(f, i);
      var before := if u == 0 then m - 1 else u - 1;
      var a := OldOf(f, m, Succ(m, u));
      var b := OldOf(f, m, before);
      assert Beside(m, u, New(f, a)) && Beside(m, u, New(f, b));
      assert Beside(|f|, i, a) && Beside(|f|, i, b);
    }
  }

  lemma AllNeighbours(f: Renaming, m: nat, a: nat, b: nat)
    requires Compact(f, m) && m > 2 && RingStays(f, m) && Kept(f, a) && Kept(f, b)
    ensures Beside(|f|, a, b) <==> Beside(m, New(f, a), New(f, b))
  {
    CompactSize(f, m);
    var n := |f|;
    var after, before := Succ(n, a), if a == 0 then n - 1 else a - 1;
    assert Succ(n, before) == a;
    assert Beside(m, New(f, before), New(f, Succ(n, before))) && Beside(m, New(f, a), New(f, after));
    NewIsInjective(f, m, before, after);
    NewIsInjective(f, m, b, after);
    NewIsInjective(f, m, b, before);
    assert Beside(m, New(f, b), New(f, Succ(n, b)));
  }

  /** A ring keeps its edges in exactly these cases. */
  lemma RingExactly(f: Renaming, m: nat)
    requires Compact(f, m) && m > 0
    ensures RingEdges(m) == Image(f, RingEdges(|f|)) <==> RingStays(f, m)
  {
    hide RingEdges, Image;
    RingImageMeans(f, m);
    if m == 1 {
      forall a: nat, b: nat | Kept(f, a) && Kept(f, b) ensures !Beside(|f|, a, b) { NewIsInjective(f, m, a, b); }
    } else if m == 2 {
      TwoStay(f);
    } else {
      if RingStays(f, m) {
        forall a: nat, b: nat | Kept(f, a) && Kept(f, b)
          ensures Beside(|f|, a, b) <==> Beside(m, New(f, a), New(f, b))
        {
          AllNeighbours(f, m, a, b);
        }
      }
      if SameNeighbours(f, m) { NeighboursStay(f, m); }
    }
  }

  lemma NeighboursStay(f: Renaming, m: nat)
    requires Compact(f, m) && m > 2 && SameNeighbours(f, m)
    ensures RingStays(f, m)
  {
    CompactSize(f, m);
    forall i | 0 <= i < |f| ensures Kept(f, i) && Beside(m, New(f, i), New(f, Succ(|f|, i))) {
      NothingRemoved(f, m, i);
      NothingRemoved(f, m, Succ(|f|, i));
      assert Beside(|f|, i, Succ(|f|, i));
    }
  }

  lemma TwoStay(f: Renaming)
    requires Compact(f, 2)
    ensures SameNeighbours(f, 2) <==> RingStays(f, 2)
  {
    CompactSize(f, 2);
    var x := OldOf(f, 2, 0);
    var y := OldOf(f, 2, 1);
    forall a: nat | Kept(f, a) ensures a == x || a == y {
      NewIsInjective(f, 2, a, x);
      NewIsInjective(f, 2, a, y);
    }
    if RingStays(f, 2) { assert Beside(|f|, x, y) && Beside(|f|, y, x); }
    if SameNeighbours(f, 2) { assert Beside(2, New(f, x), New(f, y)); }
  }

  // ----- regions -----

  /** `e` links the regions `i` and `j`, in this direction. */
  predicate Joins(e: ConfiguredEdge, i: nat, j: nat) {
    e.active && ((e.from == i && e.target == j) || (e.both && e.from == j && e.target == i))
  }

  /** Regions `i` and `j` of `count` are linked with these attributes; without region edges all are. */
  ghost predicate Linked(edges: seq<ConfiguredEdge>, count: nat, i: nat, j: nat, attributes: Attributes) {
    && i < count && j < count && i != j
    && if edges == [] then attributes == NONE
       else exists e :: e in edges && Joins(e, i, j) && e.attributes == attributes
  }

  lemma LinksAre(regions: seq<seq<nat>>, edges: seq<ConfiguredEdge>, x: Edge)
    requires (forall r | 0 <= r < |regions| :: regions[r] != []) && InRange(edges, |regions|)
    ensures x in RegionLinks(regions, edges) <==>
            exists i: nat, j: nat :: LinkOf(regions, i, j, x) && Linked(edges, |regions|, i, j, x.attributes)
  {
    if edges == [] {
      if exists i: nat, j: nat :: LinkOf(regions, i, j, x) && Linked(edges, |regions|, i, j, x.attributes) {
        var i: nat, j: nat :| LinkOf(regions, i, j, x) && Linked(edges, |regions|, i, j, x.attributes);
        assert x == Edge(regions[i][0], regions[j][0], NONE);
      }
      if x in RegionLinks(regions, edges) {
        var i, j :| 0 <= i < |regions| && 0 <= j < |regions| && i != j && x == Edge(regions[i][0], regions[j][0], NONE);
        assert LinkOf(regions, i, j, x);
      }
    } else {
      if exists i: nat, j: nat :: LinkOf(regions, i, j, x) && Linked(edges, |regions|, i, j, x.attributes) {
        var i: nat, j: nat :| LinkOf(regions, i, j, x) && Linked(edges, |regions|, i, j, x.attributes);
        LinkIsConfigured(regions, edges, i, j, x);
      }
      if x in RegionLinks(regions, edges) {
        var i, j := ConfiguredIsLink(regions, edges, x);
      }
    }
  }

  lemma LinkIsConfigured(regions: seq<seq<nat>>, edges: seq<ConfiguredEdge>, i: nat, j: nat, x: Edge)
    requires InRange(edges, |regions|) && edges != []
    requires LinkOf(regions, i, j, x) && Linked(edges, |regions|, i, j, x.attributes)
    ensures x in Configured(FrontedAll(regions, edges))
  {
    var e :| e in edges && Joins(e, i, j) && e.attributes == x.attributes;
    var k :| 0 <= k < |edges| && edges[k] == e;
    assert FrontedAll(regions, edges)[k] == Fronted(regions, e);
    assert x in Adds(Fronted(regions, e));
  }

  lemma ConfiguredIsLink(regions: seq<seq<nat>>, edges: seq<ConfiguredEdge>, x: Edge) returns (i: nat, j: nat)
    requires (forall r | 0 <= r < |regions| :: regions[r] != []) && InRange(edges, |regions|) && edges != []
    requires x in Configured(FrontedAll(regions, edges))
    ensures LinkOf(regions, i, j, x) && Linked(edges, |regions|, i, j, x.attributes)
  {
    var fronted := FrontedAll(regions, edges);
    var e :| e in fronted && x in Adds(e);
    var k :| 0 <= k < |fronted| && fronted[k] == e;
    var was := edges[k];
    assert was in edges;
    if x == Forward(e) { i, j := was.from, was.target; } else { i, j := was.target, was.from; }
    assert Joins(was, i, j);
  }

  /** Region `i` keeps some node. */
  predicate InUse(regions: seq<seq<nat>>, f: Renaming, i: nat) {
    i < |regions| && KeptNodes(regions[i], f) != []
  }

  /** Region `i` keeps its first node, which then is the first of the kept ones. */
  predicate FrontStays(regions: seq<seq<nat>>, f: Renaming, i: nat) {
    i < |regions| && regions[i] != [] && Kept(f, regions[i][0])
  }

  lemma {:induction false} FirstKept(nodes: seq<nat>, f: Renaming)
    requires nodes != [] && Kept(f, nodes[0])
    ensures KeptNodes(nodes, f) != [] && KeptNodes(nodes, f)[0] == New(f, nodes[0])
    decreases |nodes|
  {
    if |nodes| > 1 { FirstKept(nodes[..|nodes| - 1], f); }
  }

  /** The kept region `i` under its new number, and its new front. */
  lemma NewFront(regions: seq<seq<nat>>, f: Renaming, i: nat)
    requires InUse(regions, f, i)
    ensures var g, kept := RegionRenaming(regions, f), KeptGroups(regions, f);
            && Kept(g, i) && New(g, i) < |kept| && kept[New(g, i)] == KeptNodes(regions[i], f)
            && (FrontStays(regions, f, i) ==> kept[New(g, i)][0] == New(f, regions[i][0]))
  {
    RegionsKept(regions, f, i);
    if FrontStays(regions, f, i) { FirstKept(regions[i], f); }
  }

  lemma {:induction false} KeptEdgeStays(edges: seq<ConfiguredEdge>, g: Renaming, e: ConfiguredEdge)
    requires e in edges && Kept(g, e.from) && Kept(g, e.target)
    ensures Renamed(e, g) in KeptEdges(edges, g)
    decreases |edges|
  {
    if e != edges[|edges| - 1] {
      assert e in edges[..|edges| - 1];
      KeptEdgeStays(edges[..|edges| - 1], g, e);
    }
  }

  /** Renaming the regions leaves them linked as they were, unless every region edge is gone. */
  lemma LinkedStays(edges: seq<ConfiguredEdge>, g: Renaming, count: nat, i: nat, j: nat, attributes: Attributes)
    requires Compact(g, count) && Kept(g, i) && Kept(g, j) && (edges == [] || KeptEdges(edges, g) != [])
    ensures Linked(KeptEdges(edges, g), count, New(g, i), New(g, j), attributes) <==>
              Linked(edges, |g|, i, j, attributes)
  {
    NewIsInjective(g, count, i, j);
    if edges != [] {
      var kept := KeptEdges(edges, g);
      if exists e :: e in kept && Joins(e, New(g, i), New(g, j)) && e.attributes == attributes {
        var e :| e in kept && Joins(e, New(g, i), New(g, j)) && e.attributes == attributes;
        var was := KeptEdgeOrigin(edges, g, e);
        JoinsStays(was, g, count, i, j);
      }
      if exists e :: e in edges && Joins(e, i, j) && e.attributes == attributes {
        var e :| e in edges && Joins(e, i, j) && e.attributes == attributes;
        KeptEdgeStays(edges, g, e);
        JoinsStays(e, g, count, i, j);
      }
    }
  }

  lemma JoinsStays(e: ConfiguredEdge, g: Renaming, count: nat, i: nat, j: nat)
    requires Compact(g, count) && Kept(g, i) && Kept(g, j) && Kept(g, e.from) && Kept(g, e.target)
    ensures Joins(Renamed(e, g), New(g, i), New(g, j)) <==> Joins(e, i, j)
  {
    NewIsInjective(g, count, i, e.from);
    NewIsInjective(g, count, i, e.target);
    NewIsInjective(g, count, j, e.from);
    NewIsInjective(g, count, j, e.target);
  }

  /** Once every region edge is gone, no two kept regions were linked. */
  lemma NoneLinked(edges: seq<ConfiguredEdge>, g: Renaming, i: nat, j: nat, attributes: Attributes)
    requires edges != [] && KeptEdges(edges, g) == [] && Kept(g, i) && Kept(g, j)
    ensures !Linked(edges, |g|, i, j, attributes)
  {
    if Linked(edges, |g|, i, j, attributes) {
      var e :| e in edges && Joins(e, i, j) && e.attributes == attributes;
      KeptEdgeStays(edges, g, e);
    }
  }

  /**
   Wherever two regions stay, the nodes their link joins stay, and configured region edges
   do not all disappear, which would join the regions by default.
   */
  ghost predicate RegionsStay(regions: seq<seq<nat>>, edges: seq<ConfiguredEdge>, f: Renaming) {
    forall i: nat, j: nat | i != j && InUse(regions, f, i) && InUse(regions, f, j) ::
      PairStays(regions, edges, f, i, j)
  }

  ghost predicate PairStays(regions: seq<seq<nat>>, edges: seq<ConfiguredEdge>, f: Renaming, i: nat, j: nat) {
    && (edges != [] ==> KeptEdges(edges, RegionRenaming(regions, f)) != [])
    && ((edges == [] || exists e :: e in edges && Joins(e, i, j)) ==>
          FrontStays(regions, f, i) && FrontStays(regions, f, j))
  }

  /** The links between two kept regions are the same before and after. */
  ghost predicate SameLinks(regions: seq<seq<nat>>, edges: seq<ConfiguredEdge>, f: Renaming, i: nat, j: nat) {
    var g, kept := RegionRenaming(regions, f), KeptGroups(regions, f);
    forall a :: Linked(KeptEdges(edges, g), |kept|, New(g, i), New(g, j), a) <==>
                Linked(edges, |g|, i, j, a) && FrontStays(regions, f, i) && FrontStays(regions, f, j)
  }

  lemma PairExactly(regions: seq<seq<nat>>, edges: seq<ConfiguredEdge>, f: Renaming, i: nat, j: nat)
    requires i != j && InUse(regions, f, i) && InUse(regions, f, j)
    ensures SameLinks(regions, edges, f, i, j) <==> PairStays(regions, edges, f, i, j)
  {
    hide KeptEdges, KeptGroups, RegionRenaming, FrontStays;
    var g, count := RegionRenaming(regions, f), |KeptGroups(regions, f)|;
    RegionsCompact(regions, f);
    RenamingSize(regions, f);
    NewFront(regions, f, i);
    NewFront(regions, f, j);
    NewIsInjective(g, count, i, j);
    NoEdgesKept(edges, g);
    if edges == [] || KeptEdges(edges, g) != [] {
      forall a ensures Linked(KeptEdges(edges, g), count, New(g, i), New(g, j), a) <==> Linked(edges, |g|, i, j, a) {
        LinkedStays(edges, g, count, i, j, a);
      }
      SomeLink(edges, |g|, i, j);
    } else {
      NoneLinked(edges, g, i, j, NONE);
      assert Linked(KeptEdges(edges, g), count, New(g, i), New(g, j), NONE);
    }
  }

  lemma SomeLink(edges: seq<ConfiguredEdge>, count: nat, i: nat, j: nat)
    requires i < count && j < count && i != j
    ensures (exists a :: Linked(edges, count, i, j, a)) <==> edges == [] || exists e :: e in edges && Joins(e, i, j)
  {
    if edges == [] {
      assert Linked(edges, count, i, j, NONE);
    } else if exists e :: e in edges && Joins(e, i, j) {
      var e :| e in edges && Joins(e, i, j);
      assert Linked(edges, count, i, j, e.attributes);
    }
  }

  /** The edge that links two kept regions, if they are linked at all. */
  function NewLink(regions: seq<seq<nat>>, f: Renaming, i: nat, j: nat, attributes: Attributes): Edge
    requires InUse(regions, f, i) && InUse(regions, f, j)
  {
    Edge(KeptNodes(regions[i], f)[0], KeptNodes(regions[j], f)[0], attributes)
  }

  /** A partition's fronts identify its regions, so its links are told apart by the regions they join. */
  lemma LinkTells(regions: seq<seq<nat>>, n: nat, edges: seq<ConfiguredEdge>, i: nat, j: nat, attributes: Attributes)
    requires Partition(regions, n) && InRange(edges, |regions|) && i < |regions| && j < |regions|
    ensures Edge(regions[i][0], regions[j][0], attributes) in RegionLinks(regions, edges) <==>
            Linked(edges, |regions|, i, j, attributes)
  {
    hide Partition, RegionLinks, Linked;
    RegionsInUse(regions, n);
    var x := Edge(regions[i][0], regions[j][0], attributes);
    LinksAre(regions, edges, x);
    assert LinkOf(regions, i, j, x);
    if x in RegionLinks(regions, edges) {
      var k: nat, l: nat :| LinkOf(regions, k, l, x) && Linked(edges, |regions|, k, l, attributes);
      FrontsTell(regions, n, i, k);
      FrontsTell(regions, n, j, l);
    }
  }

  lemma NewLinks(regions: seq<seq<nat>>, edges: seq<ConfiguredEdge>, f: Renaming, m: nat, i: nat, j: nat, a: Attributes)
    requires Compact(f, m) && m > 0 && Partition(regions, |f|) && InRange(edges, |regions|)
    requires i != j && InUse(regions, f, i) && InUse(regions, f, j)
    ensures var g, kept := RegionRenaming(regions, f), KeptGroups(regions, f);
            var links, x := KeptEdges(edges, g), NewLink(regions, f, i, j, a);
            && Partition(kept, m) && (forall r | 0 <= r < |kept| :: kept[r] != [])
            && (x in RegionLinks(kept, links) <==> Linked(links, |kept|, New(g, i), New(g, j), a))
            && x !in GroupEdges(kept)
  {
    hide Partition, RegionLinks, Linked, KeptGroups, KeptEdges, RegionRenaming, GroupEdges, KeptNodes;
    var g, kept := RegionRenaming(regions, f), KeptGroups(regions, f);
    var links, x := KeptEdges(edges, g), NewLink(regions, f, i, j, a);
    KeptPartition(regions, f, m);
    RegionsInUse(kept, m);
    RegionsCompact(regions, f);
    RenamingSize(regions, f);
    KeptEdgesInRange(edges, g, |kept|);
    NewFront(regions, f, i);
    NewFront(regions, f, j);
    NewIsInjective(g, |kept|, i, j);
    LinkTells(kept, m, links, New(g, i), New(g, j), a);
    if x in GroupEdges(kept) { LinkIsNoMesh(kept, m, New(g, i), New(g, j), x, x); }
  }

  /** An old link whose ends stay is the link of its regions afterwards. */
  lemma OldLink(regions: seq<seq<nat>>, edges: seq<ConfiguredEdge>, f: Renaming, m: nat, e: Edge)
      returns (i: nat, j: nat)
    requires Compact(f, m) && Partition(regions, |f|) && InRange(edges, |regions|)
    requires (forall r | 0 <= r < |regions| :: regions[r] != []) && e in Image(f, RegionLinks(regions, edges))
    ensures i != j && InUse(regions, f, i) && InUse(regions, f, j) && e == NewLink(regions, f, i, j, e.attributes)
    ensures Linked(edges, |regions|, i, j, e.attributes) && FrontStays(regions, f, i) && FrontStays(regions, f, j)
  {
    hide Partition, RegionLinks, KeptNodes, Image;
    var y := ImageOrigin(f, RegionLinks(regions, edges), e);
    LinksAre(regions, edges, y);
    i, j :| LinkOf(regions, i, j, y) && Linked(edges, |regions|, i, j, y.attributes);
    FirstKept(regions[i], f);
    FirstKept(regions[j], f);
  }

  lemma OldLinks(regions: seq<seq<nat>>, edges: seq<ConfiguredEdge>, f: Renaming, m: nat, i: nat, j: nat, a: Attributes)
    requires Compact(f, m) && m > 0 && Partition(regions, |f|) && InRange(edges, |regions|)
    requires i != j && InUse(regions, f, i) && InUse(regions, f, j)
    ensures forall r | 0 <= r < |regions| :: regions[r] != []
    ensures NewLink(regions, f, i, j, a) in Image(f, RegionLinks(regions, edges)) <==>
            Linked(edges, |regions|, i, j, a) && FrontStays(regions, f, i) && FrontStays(regions, f, j)
  {
    hide Partition, RegionLinks, Linked, KeptNodes, Image;
    RegionsInUse(regions, |f|);
    var x, old_ := NewLink(regions, f, i, j, a), RegionLinks(regions, edges);
    if FrontStays(regions, f, i) && FrontStays(regions, f, j) {
      FirstKept(regions[i], f);
      FirstKept(regions[j], f);
      InImage(f, m, old_, regions[i][0], regions[j][0], a);
      LinkTells(regions, |f|, edges, i, j, a);
    } else if x in Image(f, old_) {
      var k, l := OldLink(regions, edges, f, m, x);
      SameFront(regions, f, m, i, k);
      SameFront(regions, f, m, j, l);
    }
  }

  lemma SameFront(regions: seq<seq<nat>>, f: Renaming, m: nat, i: nat, k: nat)
    requires Compact(f, m) && m > 0 && Partition(regions, |f|) && InUse(regions, f, i) && InUse(regions, f, k)
    ensures KeptNodes(regions[i], f)[0] == KeptNodes(regions[k], f)[0] <==> i == k
  {
    hide Partition, KeptGroups, RegionRenaming, KeptNodes;
    KeptPartition(regions, f, m);
    RegionsCompact(regions, f);
    NewFront(regions, f, i);
    NewFront(regions, f, k);
    var g := RegionRenaming(regions, f);
    FrontsTell(KeptGroups(regions, f), m, New(g, i), New(g, k));
    NewIsInjective(g, |KeptGroups(regions, f)|, i, k);
  }

  /** A region graph keeps its edges exactly while every link between kept regions keeps both its ends. */
  lemma RegionsExactly(regions: seq<seq<nat>>, edges: seq<ConfiguredEdge>, f: Renaming, m: nat)
    requires Compact(f, m) && m > 0 && Partition(regions, |f|) && InRange(edges, |regions|)
    ensures var kept, links := KeptGroups(regions, f), KeptEdges(edges, RegionRenaming(regions, f));
            && Partition(kept, m)
            && ((GroupEdges(kept) + RegionLinks(kept, links)
                 == Image(f, GroupEdges(regions) + RegionLinks(regions, edges)))
                <==> RegionsStay(regions, edges, f))
  {
    hide Partition, RegionLinks, Linked, KeptGroups, KeptEdges, RegionRenaming, GroupEdges, KeptNodes, Image, PairStays,
      SameLinks, InUse;
    var kept, links := KeptGroups(regions, f), KeptEdges(edges, RegionRenaming(regions, f));
    KeptPartition(regions, f, m);
    RegionsInUse(kept, m);
    RegionsInUse(regions, |f|);
    GroupsImage(regions, f, m);
    ImageUnion(f, GroupEdges(regions), RegionLinks(regions, edges));
    var before, after := Image(f, RegionLinks(regions, edges)), RegionLinks(kept, links);
    if RegionsStay(regions, edges, f) {
      forall e | e in after ensures e in before { LinkWasThere(regions, edges, f, m, e); }
      forall e | e in before ensures e in after { LinkIsThere(regions, edges, f, m, e); }
    }
    if GroupEdges(kept) + after == GroupEdges(kept) + before {
      forall i: nat, j: nat | i != j && InUse(regions, f, i) && InUse(regions, f, j)
        ensures PairStays(regions, edges, f, i, j)
      {
        EqualMeansStays(regions, edges, f, m, i, j);
      }
    }
  }

  lemma PairLinks(regions: seq<seq<nat>>, edges: seq<ConfiguredEdge>, f: Renaming, m: nat, i: nat, j: nat,
                  a: Attributes)
    requires Compact(f, m) && m > 0 && Partition(regions, |f|) && InRange(edges, |regions|)
    requires i != j && InUse(regions, f, i) && InUse(regions, f, j) && PairStays(regions, edges, f, i, j)
    ensures (forall r | 0 <= r < |regions| :: regions[r] != [])
    ensures var kept, links := KeptGroups(regions, f), KeptEdges(edges, RegionRenaming(regions, f));
            && (forall r | 0 <= r < |kept| :: kept[r] != [])
            && (NewLink(regions, f, i, j, a) in RegionLinks(kept, links) <==>
                NewLink(regions, f, i, j, a) in Image(f, RegionLinks(regions, edges)))
  {
    hide Partition, RegionLinks, Linked, KeptGroups, KeptEdges, RegionRenaming, GroupEdges, KeptNodes, Image, PairStays,
      InUse;
    PairExactly(regions, edges, f, i, j);
    NewLinks(regions, edges, f, m, i, j, a);
    OldLinks(regions, edges, f, m, i, j, a);
    RenamingSize(regions, f);
  }

  lemma LinkIsThere(regions: seq<seq<nat>>, edges: seq<ConfiguredEdge>, f: Renaming, m: nat, e: Edge)
    requires Compact(f, m) && m > 0 && Partition(regions, |f|) && InRange(edges, |regions|)
    requires (forall r | 0 <= r < |regions| :: regions[r] != []) && RegionsStay(regions, edges, f)
    requires e in Image(f, RegionLinks(regions, edges))
    ensures var kept, links := KeptGroups(regions, f), KeptEdges(edges, RegionRenaming(regions, f));
            (forall r | 0 <= r < |kept| :: kept[r] != []) && e in RegionLinks(kept, links)
  {
    hide Partition, RegionLinks, Linked, KeptGroups, KeptEdges, RegionRenaming, KeptNodes, Image, PairStays, InUse,
      NewLink;
    var i, j := OldLink(regions, edges, f, m, e);
    assert PairStays(regions, edges, f, i, j);
    PairLinks(regions, edges, f, m, i, j, e.attributes);
  }

  lemma LinkWasThere(regions: seq<seq<nat>>, edges: seq<ConfiguredEdge>, f: Renaming, m: nat, e: Edge)
    requires Compact(f, m) && m > 0 && Partition(regions, |f|) && InRange(edges, |regions|)
    requires (forall r | 0 <= r < |regions| :: regions[r] != []) && RegionsStay(regions, edges, f)
    requires var kept, links := KeptGroups(regions, f), KeptEdges(edges, RegionRenaming(regions, f));
             (forall r | 0 <= r < |kept| :: kept[r] != []) && e in RegionLinks(kept, links)
    ensures e in Image(f, RegionLinks(regions, edges))
  {
    hide Partition, RegionLinks, Linked, KeptGroups, KeptEdges, RegionRenaming, KeptNodes, Image, PairStays, InUse;
    var i, j := NewLinkOrigin(regions, edges, f, e);
    assert PairStays(regions, edges, f, i, j);
    PairLinks(regions, edges, f, m, i, j, e.attributes);
  }

  lemma NewLinkOrigin(regions: seq<seq<nat>>, edges: seq<ConfiguredEdge>, f: Renaming, e: Edge) returns (i: nat, j: nat)
    requires InRange(edges, |regions|)
    requires var kept, links := KeptGroups(regions, f), KeptEdges(edges, RegionRenaming(regions, f));
             (forall r | 0 <= r < |kept| :: kept[r] != []) && e in RegionLinks(kept, links)
    ensures i != j && InUse(regions, f, i) && InUse(regions, f, j) && e == NewLink(regions, f, i, j, e.attributes)
  {
    hide RegionLinks, KeptGroups, KeptEdges, KeptNodes;
    var g, kept := RegionRenaming(regions, f), KeptGroups(regions, f);
    var links := KeptEdges(edges, g);
    RegionsCompact(regions, f);
    RenamingSize(regions, f);
    KeptEdgesInRange(edges, g, |kept|);
    LinksAre(kept, links, e);
    var p: nat, q: nat :| LinkOf(kept, p, q, e) && Linked(links, |kept|, p, q, e.attributes);
    i := OldOf(g, |kept|, p);
    j := OldOf(g, |kept|, q);
    NewFront(regions, f, i);
    NewFront(regions, f, j);
  }

  lemma EqualMeansStays(regions: seq<seq<nat>>, edges: seq<ConfiguredEdge>, f: Renaming, m: nat, i: nat, j: nat)
    requires Compact(f, m) && m > 0 && Partition(regions, |f|) && InRange(edges, |regions|)
    requires (forall r | 0 <= r < |regions| :: regions[r] != [])
    requires i != j && InUse(regions, f, i) && InUse(regions, f, j)
    requires var kept, links := KeptGroups(regions, f), KeptEdges(edges, RegionRenaming(regions, f));
             && (forall r | 0 <= r < |kept| :: kept[r] != [])
             && GroupEdges(kept) + RegionLinks(kept, links) == GroupEdges(kept) + Image(f, RegionLinks(regions, edges))
    ensures PairStays(regions, edges, f, i, j)
  {
    hide Partition, RegionLinks, Linked, KeptGroups, KeptEdges, RegionRenaming, GroupEdges, KeptNodes, Image, PairStays,
      InUse, NewLink;
    PairExactly(regions, edges, f, i, j);
    RenamingSize(regions, f);
    var g, kept := RegionRenaming(regions, f), KeptGroups(regions, f);
    forall a ensures Linked(KeptEdges(edges, g), |kept|, New(g, i), New(g, j), a) <==>
                     Linked(edges, |g|, i, j, a) && FrontStays(regions, f, i) && FrontStays(regions, f, j)
    {
      NewLinks(regions, edges, f, m, i, j, a);
      OldLinks(regions, edges, f, m, i, j, a);
      var x := NewLink(regions, f, i, j, a);
      assert x in GroupEdges(kept) + RegionLinks(kept, KeptEdges(edges, g)) <==>
             x in GroupEdges(kept) + Image(f, RegionLinks(regions, edges));
    }
  }

  // ----- every kind -----

  /** What may be removed without a kind losing or gaining an edge between kept nodes. */
  ghost predicate Stays(t: Topology, f: Renaming, m: nat) {
    match t.kind
    case Star => Kept(f, t.center) || m == 1
    case Ring => RingStays(f, m)
    case Regions => RegionsStay(t.regions, t.regionEdges, f)
    case _ => true
  }

  /** The remapped edges are exactly the kept ones, under the new names, if and only if nothing of this is removed. */
  lemma RemapExactly(t: Topology, f: Renaming, m: nat, r: Topology)
    requires Resolves(t, |f|) && Compact(f, m) && m > 0 && RemapOf(t, f, m, r) && !Random(t)
    ensures Shaped(r, m) && !Random(r)
    ensures Wanted(r, m) == Image(f, Wanted(t, |f|)) <==> Stays(t, f, m)
  {
    hide Collectable, Compact, Image, StarEdges, RingEdges, RingStays, RegionsStay, Partition, KeptGroups, KeptEdges,
      RegionRenaming, GroupEdges, RegionLinks, Mesh, Configured, MatrixEdges, MatrixKept;
    RemapResolves(t, f, m, r);
    match t.kind
    case Star => StarExactly(f, m, t.center);
    case Ring => RingExactly(f, m);
    case Regions => RegionsExactly(t.regions, t.regionEdges, f, m);
    case _ => RemapKeepsEdges(t, f, m, r);
  }
}
