/**
 ResolvePeerTopologyEdges for the kinds that need no random draws: the edge set each
 kind stands for, when a topology resolves, and the loops that compute it.
 */
module TopologyResolve {
  import opened Wrappers
  import opened TopologyEdges

  // ----- what each kind stands for -----

  ghost function Mesh(nodes: seq<nat>): set<Edge> {
    set a, b | a in nodes && b in nodes && a != b :: Edge(a, b, NONE)
  }

  function All(n: nat): seq<nat> {
    seq(n, i requires 0 <= i => i)
  }

  function RingEdge(i: nat, n: nat): Edge
    requires n > 0
  {
    Edge(i, (i + 1) % n, NONE)
  }

  /** The first `k` nodes with their successors, both ways. */
  ghost function RingPart(k: nat, n: nat): set<Edge>
    requires n > 0
  {
    (set i: nat | 0 <= i < k :: RingEdge(i, n)) + (set i: nat | 0 <= i < k :: Reverse(RingEdge(i, n)))
  }

  ghost function RingEdges(n: nat): set<Edge> {
    if n <= 1 then {} else RingPart(n, n)
  }

  ghost function StarEdges(center: nat, n: nat): set<Edge> {
    (set i | 0 <= i < n && i != center :: Edge(center, i, NONE))
    + (set i | 0 <= i < n && i != center :: Edge(i, center, NONE))
  }

  predicate Square(matrix: seq<seq<Option<nat>>>, n: nat) {
    |matrix| == n && forall i | 0 <= i < n :: |matrix[i]| == n
  }

  function Delayed(from: nat, target: nat, ms: nat): Edge {
    Edge(from, target, Attributes(Some(ms), Some(Delay(ms))))
  }

  ghost function MatrixEdges(matrix: seq<seq<Option<nat>>>, n: nat): set<Edge>
    requires Square(matrix, n)
  {
    set i, j | 0 <= i < n && 0 <= j < n && i != j && matrix[i][j].Some? :: Delayed(i, j, matrix[i][j].value)
  }

  function Forward(e: ConfiguredEdge): Edge {
    Edge(e.from, e.target, e.attributes)
  }

  /** What one configured edge adds. */
  function Adds(e: ConfiguredEdge): set<Edge> {
    if !e.active then {} else if e.both then {Forward(e), Reverse(Forward(e))} else {Forward(e)}
  }

  ghost function Configured(edges: seq<ConfiguredEdge>): set<Edge> {
    set e, x | e in edges && x in Adds(e) :: x
  }

  predicate InRange(edges: seq<ConfiguredEdge>, n: nat) {
    forall i | 0 <= i < |edges| :: edges[i].from < n && edges[i].target < n && edges[i].from != edges[i].target
  }

  function Flat(groups: seq<seq<nat>>): seq<nat> {
    if groups == [] then [] else Flat(groups[..|groups| - 1]) + groups[|groups| - 1]
  }

  ghost predicate Distinct(s: seq<nat>) {
    forall i, j | 0 <= i < j < |s| :: s[i] != s[j]
  }

  /** Non-empty groups that hold every node below `n` exactly once. */
  ghost predicate Partition(groups: seq<seq<nat>>, n: nat) {
    && groups != []
    && (forall i | 0 <= i < |groups| :: groups[i] != [])
    && Distinct(Flat(groups))
    && (forall node: nat :: node in Flat(groups) <==> node < n)
  }

  ghost function GroupEdges(groups: seq<seq<nat>>): set<Edge> {
    set g, e | g in groups && e in Mesh(g) :: e
  }

  /** Region edges join the first nodes of their regions. */
  function Fronted(regions: seq<seq<nat>>, e: ConfiguredEdge): ConfiguredEdge {
    if e.from < |regions| && e.target < |regions| && regions[e.from] != [] && regions[e.target] != []
    then e.(from := regions[e.from][0], target := regions[e.target][0]) else e
  }

  function FrontedAll(regions: seq<seq<nat>>, edges: seq<ConfiguredEdge>): seq<ConfiguredEdge> {
    seq(|edges|, i requires 0 <= i < |edges| => Fronted(regions, edges[i]))
  }

  /** Without region edges, the first nodes of all regions are joined. */
  ghost function RegionLinks(regions: seq<seq<nat>>, edges: seq<ConfiguredEdge>): set<Edge>
    requires forall i | 0 <= i < |regions| :: regions[i] != []
  {
    if edges == [] then
      set i, j | 0 <= i < |regions| && 0 <= j < |regions| && i != j :: Edge(regions[i][0], regions[j][0], NONE)
    else Configured(FrontedAll(regions, edges))
  }

  /** The shape checks made before or while edges are added. */
  ghost predicate Shaped(t: Topology, n: nat) {
    && n > 0
    && match t.kind
       case Star => t.center < n
       case LatencyMatrix =>
         Square(t.matrix, n) && forall i | 0 <= i < n :: t.matrix[i][i].Some? ==> t.matrix[i][i].value == 0
       case CustomEdges => InRange(t.edges, n)
       case Groups => Partition(t.groups, n)
       case Regions => Partition(t.regions, n) && InRange(t.regionEdges, |t.regions|)
       case RandomGraph => t.averageDegree < n
       case ScaleFree => n == 1 || (t.averageDegree < n && 1 <= Attachments(t) < n)
       case _ => true
  }

  /** The attachment count of a scale-free graph, zero when none is given. */
  function Attachments(t: Topology): nat {
    if t.attachments != 0 then t.attachments
    else if t.averageDegree == 0 then 0
    else if t.averageDegree / 2 < 1 then 1 else t.averageDegree / 2
  }

  predicate Random(t: Topology) {
    t.kind.RandomGraph? || t.kind.ScaleFree?
  }

  ghost function Wanted(t: Topology, n: nat): set<Edge>
    requires Shaped(t, n) && !Random(t)
  {
    match t.kind
    case FullMesh => Mesh(All(n))
    case Ring => RingEdges(n)
    case Star => StarEdges(t.center, n)
    case LatencyMatrix => MatrixEdges(t.matrix, n)
    case CustomEdges => Configured(t.edges)
    case Groups => GroupEdges(t.groups)
    case Regions => GroupEdges(t.regions) + RegionLinks(t.regions, t.regionEdges)
  }

  ghost predicate Resolves(t: Topology, n: nat) {
    Shaped(t, n) && (!Random(t) ==> Collectable(n, Wanted(t, n)))
  }

  // ----- the loops -----

  lemma SubsetCollectable(n: nat, part: set<Edge>, whole: set<Edge>)
    requires part <= whole && Collectable(n, whole)
    ensures Collectable(n, part)
  {}

  ghost predicate Plain(edges: set<Edge>) {
    forall e | e in edges :: e.attributes == NONE
  }

  method AddFullMesh(c: EdgeCollector, nodes: seq<nat>)
    requires Collectable(c.nodes, c.Graph()) && Plain(c.Graph()) && forall k | 0 <= k < |nodes| :: nodes[k] < c.nodes
    modifies c
    ensures Collectable(c.nodes, c.Graph()) && Plain(c.Graph())
    ensures c.Graph() == old(c.Graph()) + Mesh(nodes)
  {
    hide Rows, Row, Mesh;
    ghost var before := c.Graph();
    var i := 0;
    NoRows(nodes);
    while i < |nodes|
      invariant 0 <= i <= |nodes|
      invariant Collectable(c.nodes, c.Graph()) && Plain(c.Graph())
      invariant c.Graph() == before + Rows(nodes, i)
    {
      AddRow(c, nodes, nodes[i]);
      RowsStep(nodes, i);
      i := i + 1;
    }
    AllRows(nodes);
  }

  method AddRow(c: EdgeCollector, nodes: seq<nat>, from: nat)
    requires Collectable(c.nodes, c.Graph()) && Plain(c.Graph()) && from < c.nodes
    requires forall k | 0 <= k < |nodes| :: nodes[k] < c.nodes
    modifies c
    ensures Collectable(c.nodes, c.Graph()) && Plain(c.Graph())
    ensures c.Graph() == old(c.Graph()) + Row(nodes, from, |nodes|)
  {
    hide Row;
    ghost var before := c.Graph();
    var j := 0;
    NoRow(nodes, from);
    while j < |nodes|
      invariant 0 <= j <= |nodes|
      invariant Collectable(c.nodes, c.Graph()) && Plain(c.Graph())
      invariant c.Graph() == before + Row(nodes, from, j)
    {
      if from != nodes[j] {
        PlainCollectable(c.nodes, c.Graph() + {Edge(from, nodes[j], NONE)});
        var ok := c.Add(Edge(from, nodes[j], NONE));
      }
      RowStep(nodes, from, j);
      j := j + 1;
    }
  }

  lemma NoRow(nodes: seq<nat>, from: nat)
    ensures Row(nodes, from, 0) == {}
  {}

  lemma NoRows(nodes: seq<nat>)
    ensures Rows(nodes, 0) == {}
  {}

  ghost function Row(nodes: seq<nat>, from: nat, j: nat): set<Edge>
    requires j <= |nodes|
  {
    set k | 0 <= k < j && from != nodes[k] :: Edge(from, nodes[k], NONE)
  }

  ghost function Rows(nodes: seq<nat>, i: nat): set<Edge>
    requires i <= |nodes|
  {
    set k, l | 0 <= k < i && 0 <= l < |nodes| && nodes[k] != nodes[l] :: Edge(nodes[k], nodes[l], NONE)
  }

  lemma RowStep(nodes: seq<nat>, from: nat, j: nat)
    requires j < |nodes|
    ensures Row(nodes, from, j + 1)
         == Row(nodes, from, j) + (if from != nodes[j] then {Edge(from, nodes[j], NONE)} else {})
  {}

  lemma RowsStep(nodes: seq<nat>, i: nat)
    requires i < |nodes|
    ensures Rows(nodes, i + 1) == Rows(nodes, i) + Row(nodes, nodes[i], |nodes|)
  {}

  lemma AllRows(nodes: seq<nat>)
    ensures Rows(nodes, |nodes|) == Mesh(nodes)
  {
    forall e | e in Mesh(nodes) ensures e in Rows(nodes, |nodes|) {
      var k :| 0 <= k < |nodes| && nodes[k] == e.from;
      var l :| 0 <= l < |nodes| && nodes[l] == e.target;
    }
  }

  method AddRing(c: EdgeCollector)
    requires c.nodes > 0 && c.Graph() == {}
    modifies c
    ensures Collectable(c.nodes, c.Graph()) && c.Graph() == RingEdges(c.nodes)
  {
    var n := c.nodes;
    if n <= 1 { return; }
    var node := 0;
    while node < n
      invariant 0 <= node <= n
      invariant Collectable(n, c.Graph()) && Plain(c.Graph())
      invariant c.Graph() == RingPart(node, n)
    {
      RingNeighbour(node, n);
      RingStep(node, n);
      c.AddBoth(node, (node + 1) % n);
      node := node + 1;
    }
  }

  lemma RingStep(k: nat, n: nat)
    requires n > 0
    ensures RingPart(k + 1, n) == RingPart(k, n) + {RingEdge(k, n), Reverse(RingEdge(k, n))}
  {}

  lemma RingNeighbour(i: nat, n: nat)
    requires i < n && n > 1
    ensures (i + 1) % n < n && (i + 1) % n != i
  {
    if i + 1 < n { assert (i + 1) % n == i + 1; } else { assert (i + 1) % n == 0; }
  }

  method AddStar(c: EdgeCollector, center: nat) returns (ok: bool)
    requires c.nodes > 0 && c.Graph() == {}
    modifies c
    ensures ok <==> center < c.nodes
    ensures ok ==> Collectable(c.nodes, c.Graph()) && c.Graph() == StarEdges(center, c.nodes)
  {
    if center >= c.nodes { return false; }
    var node := 0;
    while node < c.nodes
      invariant 0 <= node <= c.nodes
      invariant Collectable(c.nodes, c.Graph()) && Plain(c.Graph())
      invariant c.Graph() == StarEdges(center, node)
    {
      if node != center {
        c.AddBoth(center, node);
      }
      node := node + 1;
    }
    return true;
  }

  /** The edges of one configured edge; it is in range. */
  method AddOne(c: EdgeCollector, e: ConfiguredEdge) returns (ok: bool)
    requires Collectable(c.nodes, c.Graph())
    modifies c
    ensures ok <==> Collectable(c.nodes, old(c.Graph()) + Adds(e))
    ensures ok ==> c.Graph() == old(c.Graph()) + Adds(e)
  {
    if !e.active {
      assert c.Graph() + Adds(e) == c.Graph();
      return true;
    }
    ghost var whole := c.Graph() + Adds(e);
    ok := c.Add(Forward(e));
    if !ok {
      if Collectable(c.nodes, whole) { SubsetCollectable(c.nodes, c.Graph() + {Forward(e)}, whole); }
      return;
    }
    if e.both {
      assert c.Graph() + {Reverse(Forward(e))} == whole;
      ok := c.Add(Reverse(Forward(e)));
    }
  }

  /** AddConfiguredEdge over a list: an inactive edge is checked but not added. */
  method AddConfigured(c: EdgeCollector, edges: seq<ConfiguredEdge>) returns (ok: bool)
    requires Collectable(c.nodes, c.Graph())
    modifies c
    ensures ok <==> InRange(edges, c.nodes) && Collectable(c.nodes, old(c.Graph()) + Configured(edges))
    ensures ok ==> c.Graph() == old(c.Graph()) + Configured(edges) && Collectable(c.nodes, c.Graph())
  {
    hide Configured;
    ghost var before := c.Graph();
    var i := 0;
    NothingConfigured(edges);
    while i < |edges|
      invariant 0 <= i <= |edges|
      invariant InRange(edges[..i], c.nodes)
      invariant Collectable(c.nodes, c.Graph()) && c.Graph() == before + Configured(edges[..i])
    {
      var e := edges[i];
      ConfiguredStep(edges, i);
      if e.from >= c.nodes || e.target >= c.nodes || e.from == e.target { return false; }
      var added := AddOne(c, e);
      if !added {
        if Collectable(c.nodes, before + Configured(edges)) {
          SubsetCollectable(c.nodes, before + Configured(edges[..i + 1]), before + Configured(edges));
        }
        assert before + Configured(edges[..i]) + Adds(e) == before + Configured(edges[..i + 1]);
        return false;
      }
      i := i + 1;
    }
    assert edges[..|edges|] == edges;
    return true;
  }

  lemma NothingConfigured(edges: seq<ConfiguredEdge>)
    ensures Configured(edges[..0]) == {}
  {}

  method AddRegionEdges(c: EdgeCollector, regions: seq<seq<nat>>, edges: seq<ConfiguredEdge>) returns (ok: bool)
    requires Collectable(c.nodes, c.Graph()) && forall i | 0 <= i < |regions| :: regions[i] != []
    modifies c
    ensures ok <==>
              && InRange(edges, |regions|)
              && Collectable(c.nodes, old(c.Graph()) + Configured(FrontedAll(regions, edges)))
    ensures ok ==>
              c.Graph() == old(c.Graph()) + Configured(FrontedAll(regions, edges)) && Collectable(c.nodes, c.Graph())
  {
    hide Configured;
    ghost var before := c.Graph();
    ghost var fronted := FrontedAll(regions, edges);
    var i := 0;
    NothingConfigured(fronted);
    while i < |edges|
      invariant 0 <= i <= |edges|
      invariant InRange(edges[..i], |regions|)
      invariant Collectable(c.nodes, c.Graph()) && c.Graph() == before + Configured(fronted[..i])
    {
      var e := edges[i];
      ConfiguredStep(fronted, i);
      if e.from >= |regions| || e.target >= |regions| || e.from == e.target { return false; }
      var added := AddOne(c, e.(from := regions[e.from][0], target := regions[e.target][0]));
      if !added {
        if Collectable(c.nodes, before + Configured(fronted)) {
          SubsetCollectable(c.nodes, before + Configured(fronted[..i + 1]), before + Configured(fronted));
        }
        assert before + Configured(fronted[..i]) + Adds(fronted[i]) == before + Configured(fronted[..i + 1]);
        return false;
      }
      i := i + 1;
    }
    assert fronted[..|fronted|] == fronted;
    return true;
  }

  lemma ConfiguredStep(edges: seq<ConfiguredEdge>, i: nat)
    requires i < |edges|
    ensures Configured(edges[..i + 1]) == Configured(edges[..i]) + Adds(edges[i])
    ensures Configured(edges[..i + 1]) <= Configured(edges)
  {
    assert edges[..i + 1] == edges[..i] + [edges[i]];
    forall x | x in Configured(edges[..i + 1]) ensures x in Configured(edges) {
      var e :| e in edges[..i + 1] && x in Adds(e);
      assert e in edges;
    }
  }

  method AddMatrix(c: EdgeCollector, matrix: seq<seq<Option<nat>>>) returns (ok: bool)
    requires c.Graph() == {}
    modifies c
    ensures ok <==> && Square(matrix, c.nodes)
                    && (forall i | 0 <= i < c.nodes :: matrix[i][i].Some? ==> matrix[i][i].value == 0)
                    && Collectable(c.nodes, MatrixEdges(matrix, c.nodes))
    ensures ok ==> c.Graph() == MatrixEdges(matrix, c.nodes)
  {
    var n := c.nodes;
    if |matrix| != n { return false; }
    var from := 0;
    while from < n
      invariant 0 <= from <= n
      invariant forall i | 0 <= i < from :: |matrix[i]| == n && (matrix[i][i].Some? ==> matrix[i][i].value == 0)
      invariant Collectable(n, c.Graph()) && c.Graph() == MatrixRows(matrix, from, n)
    {
      if |matrix[from]| != n { return false; }
      var fine := AddMatrixRow(c, matrix[from], from);
      if !fine {
        if Square(matrix, n) && Collectable(n, MatrixEdges(matrix, n)) {
          SubsetCollectable(n, MatrixRows(matrix, from, n) + MatrixRow(matrix[from], from, n), MatrixEdges(matrix, n));
        }
        return false;
      }
      from := from + 1;
    }
    return true;
  }

  ghost function MatrixRow(row: seq<Option<nat>>, from: nat, k: nat): set<Edge>
    requires k <= |row|
  {
    set j: nat | j < k && from != j && row[j].Some? :: Delayed(from, j, row[j].value)
  }

  ghost function MatrixRows(matrix: seq<seq<Option<nat>>>, rows: nat, n: nat): set<Edge>
    requires rows <= |matrix| && forall i | 0 <= i < rows :: |matrix[i]| == n
  {
    set i: nat, j: nat | i < rows && j < n && i != j && matrix[i][j].Some? :: Delayed(i, j, matrix[i][j].value)
  }

  method AddMatrixRow(c: EdgeCollector, row: seq<Option<nat>>, from: nat) returns (ok: bool)
    requires Collectable(c.nodes, c.Graph()) && |row| == c.nodes && from < c.nodes
    modifies c
    ensures ok <==> (row[from].Some? ==> row[from].value == 0)
                    && Collectable(c.nodes, old(c.Graph()) + MatrixRow(row, from, c.nodes))
    ensures ok ==> c.Graph() == old(c.Graph()) + MatrixRow(row, from, c.nodes) && Collectable(c.nodes, c.Graph())
  {
    ghost var before := c.Graph();
    var target := 0;
    while target < c.nodes
      invariant 0 <= target <= c.nodes
      invariant from < target ==> row[from].Some? ==> row[from].value == 0
      invariant Collectable(c.nodes, c.Graph()) && c.Graph() == before + MatrixRow(row, from, target)
    {
      if from == target {
        if row[target].Some? && row[target].value != 0 { return false; }
      } else if row[target].Some? {
        ghost var whole := before + MatrixRow(row, from, c.nodes);
        var edge := Delayed(from, target, row[target].value);
        assert edge in MatrixRow(row, from, c.nodes);
        var added := c.Add(edge);
        if !added {
          if Collectable(c.nodes, whole) { SubsetCollectable(c.nodes, c.Graph() + {edge}, whole); }
          return false;
        }
      }
      target := target + 1;
    }
    return true;
  }

  // ----- partitions -----

  lemma FlatStep(groups: seq<seq<nat>>, i: nat)
    requires i < |groups|
    ensures Flat(groups[..i + 1]) == Flat(groups[..i]) + groups[i]
  {
    assert groups[..i + 1][..i] == groups[..i];
  }

  lemma {:induction false} FlatPrefix(groups: seq<seq<nat>>, i: nat)
    requires i <= |groups|
    ensures Flat(groups[..i]) <= Flat(groups)
    decreases |groups| - i
  {
    if i < |groups| {
      FlatStep(groups, i);
      FlatPrefix(groups, i + 1);
    } else {
      assert groups[..i] == groups;
    }
  }

  lemma FlatHolds(groups: seq<seq<nat>>, i: nat, k: nat)
    requires i < |groups| && k < |groups[i]|
    ensures groups[i][k] in Flat(groups[..i + 1]) && groups[i][k] in Flat(groups)
  {
    FlatStep(groups, i);
    FlatPrefix(groups, i + 1);
    var part := Flat(groups[..i + 1]);
    assert part[|Flat(groups[..i])| + k] == groups[i][k];
    assert Flat(groups)[|Flat(groups[..i])| + k] == groups[i][k];
  }

  /** Different regions of a partition have different first nodes. */
  lemma FrontsDiffer(groups: seq<seq<nat>>, n: nat, a: nat, b: nat)
    requires Partition(groups, n) && a < b < |groups|
    ensures groups[a][0] != groups[b][0] && groups[a][0] < n && groups[b][0] < n
  {
    FlatHolds(groups, a, 0);
    FlatHolds(groups, b, 0);
    FlatHolds(groups[..b], a, 0);
    assert groups[..b][..a + 1] == groups[..a + 1];
    FlatStep(groups, b);
    FlatPrefix(groups, b + 1);
    var before := Flat(groups[..b]);
    var x :| 0 <= x < |before| && before[x] == groups[a][0];
    assert Flat(groups)[x] == groups[a][0] && Flat(groups)[|before|] == groups[b][0];
  }

  /** What the scan has passed before group `i`, position `k`. */
  function Passed(groups: seq<seq<nat>>, i: nat, k: nat): seq<nat>
    requires i < |groups| ==> k <= |groups[i]|
  {
    if i < |groups| then Flat(groups[..i]) + groups[i][..k] else Flat(groups)
  }

  ghost predicate Marked(passed: seq<nat>, n: nat, seen: seq<bool>) {
    && |seen| == n && Distinct(passed)
    && (forall node: nat | node in passed :: node < n)
    && (forall node: nat | node < n :: seen[node] <==> node in passed)
  }

  lemma MarkNode(passed: seq<nat>, n: nat, seen: seq<bool>, node: nat)
    requires Marked(passed, n, seen) && node < n && !seen[node]
    ensures Marked(passed + [node], n, seen[node := true])
  {}

  /** A node that is seen again, or out of range, spoils every longer list. */
  lemma Spoiled(passed: seq<nat>, n: nat, seen: seq<bool>, node: nat, whole: seq<nat>)
    requires Marked(passed, n, seen) && passed + [node] <= whole && (node >= n || seen[node])
    ensures !Distinct(whole) || !(forall x: nat :: x in whole <==> x < n)
  {
    assert whole[|passed|] == node;
    assert node in whole;
    if node < n {
      var x :| 0 <= x < |passed| && passed[x] == node;
      assert whole[x] == node;
    }
  }

  lemma PassedStep(groups: seq<seq<nat>>, i: nat, k: nat)
    requires i < |groups| && k < |groups[i]|
    ensures Passed(groups, i, k + 1) == Passed(groups, i, k) + [groups[i][k]]
    ensures Passed(groups, i, k + 1) <= Flat(groups)
  {
    FlatStep(groups, i);
    FlatPrefix(groups, i + 1);
    assert groups[i][..k + 1] == groups[i][..k] + [groups[i][k]];
    assert Passed(groups, i, k + 1) <= Flat(groups[..i + 1]);
  }

  lemma PassedGroup(groups: seq<seq<nat>>, i: nat)
    requires i < |groups|
    ensures Passed(groups, i, |groups[i]|) == Passed(groups, i + 1, 0)
  {
    FlatStep(groups, i);
    assert groups[i][..|groups[i]|] == groups[i];
    if i + 1 < |groups| { assert groups[i + 1][..0] == []; } else { assert groups[..i + 1] == groups; }
  }

  method RequireExactNodePartition(groups: seq<seq<nat>>, n: nat) returns (ok: bool)
    ensures ok <==> Partition(groups, n)
  {
    hide Passed, Flat;
    if groups == [] { return false; }
    var seen := new bool[n](_ => false);
    NothingPassed(groups);
    var i := 0;
    while i < |groups|
      invariant 0 <= i <= |groups|
      invariant forall g | 0 <= g < i :: groups[g] != []
      invariant Marked(Passed(groups, i, 0), n, seen[..])
    {
      if groups[i] == [] { return false; }
      var k := 0;
      while k < |groups[i]|
        invariant 0 <= k <= |groups[i]|
        invariant Marked(Passed(groups, i, k), n, seen[..])
      {
        var node := groups[i][k];
        PassedStep(groups, i, k);
        if node >= n || seen[node] {
          Spoiled(Passed(groups, i, k), n, seen[..], node, Flat(groups));
          return false;
        }
        MarkNode(Passed(groups, i, k), n, seen[..], node);
        seen[node] := true;
        k := k + 1;
      }
      PassedGroup(groups, i);
      i := i + 1;
    }
    AllPassed(groups);
    var node := 0;
    while node < n
      invariant 0 <= node <= n
      invariant forall x: nat | x < node :: seen[x]
    {
      if !seen[node] { return false; }
      node := node + 1;
    }
    return true;
  }

  lemma NothingPassed(groups: seq<seq<nat>>)
    requires groups != []
    ensures Passed(groups, 0, 0) == []
  {}

  lemma AllPassed(groups: seq<seq<nat>>)
    ensures Passed(groups, |groups|, 0) == Flat(groups)
  {}

  // ----- groups and regions -----

  lemma GroupStep(groups: seq<seq<nat>>, i: nat)
    requires i < |groups|
    ensures GroupEdges(groups[..i + 1]) == GroupEdges(groups[..i]) + Mesh(groups[i])
  {
    hide Mesh;
    assert groups[..i + 1] == groups[..i] + [groups[i]];
  }

  method AddGroups(c: EdgeCollector, groups: seq<seq<nat>>)
    requires c.Graph() == {} && Partition(groups, c.nodes)
    modifies c
    ensures Collectable(c.nodes, c.Graph()) && Plain(c.Graph()) && c.Graph() == GroupEdges(groups)
  {
    hide GroupEdges, Mesh, Flat;
    var i := 0;
    NoGroups(groups);
    while i < |groups|
      invariant 0 <= i <= |groups|
      invariant Collectable(c.nodes, c.Graph()) && Plain(c.Graph())
      invariant c.Graph() == GroupEdges(groups[..i])
    {
      forall k | 0 <= k < |groups[i]| ensures groups[i][k] < c.nodes { FlatHolds(groups, i, k); }
      AddFullMesh(c, groups[i]);
      GroupStep(groups, i);
      i := i + 1;
    }
    assert groups[..|groups|] == groups;
  }

  lemma NoGroups(groups: seq<seq<nat>>)
    ensures GroupEdges(groups[..0]) == {}
  {}

  /** Pairs of region fronts whose first region is below `i`, or is `i` and whose second is below `j`. */
  ghost function Links(regions: seq<seq<nat>>, i: nat, j: nat): set<Edge>
    requires forall r | 0 <= r < |regions| :: regions[r] != []
  {
    set a: nat, b: nat | a < |regions| && b < |regions| && a != b && (Before(a, b, i, j) || Before(b, a, i, j)) ::
      Edge(regions[a][0], regions[b][0], NONE)
  }

  predicate Before(a: nat, b: nat, i: nat, j: nat) {
    a < b && (a < i || (a == i && b < j))
  }

  method AddDefaultLinks(c: EdgeCollector, regions: seq<seq<nat>>)
    requires Collectable(c.nodes, c.Graph()) && Plain(c.Graph()) && Partition(regions, c.nodes)
    modifies c
    ensures Collectable(c.nodes, c.Graph()) && c.Graph() == old(c.Graph()) + RegionLinks(regions, [])
  {
    hide Links;
    ghost var before := c.Graph();
    NoLinks(regions);
    var left := 0;
    while left < |regions|
      invariant 0 <= left <= |regions|
      invariant Collectable(c.nodes, c.Graph()) && Plain(c.Graph())
      invariant c.Graph() == before + Links(regions, left, left + 1)
    {
      var right := left + 1;
      while right < |regions|
        invariant left < right <= |regions|
        invariant Collectable(c.nodes, c.Graph()) && Plain(c.Graph())
        invariant c.Graph() == before + Links(regions, left, right)
      {
        FrontsDiffer(regions, c.nodes, left, right);
        c.AddBoth(regions[left][0], regions[right][0]);
        LinkStep(regions, left, right);
        right := right + 1;
      }
      LinkRow(regions, left);
      left := left + 1;
    }
    AllLinks(regions);
  }

  lemma NoLinks(regions: seq<seq<nat>>)
    requires forall r | 0 <= r < |regions| :: regions[r] != []
    ensures Links(regions, 0, 1) == {}
  {}

  lemma LinkStep(regions: seq<seq<nat>>, i: nat, j: nat)
    requires i < j < |regions| && forall r | 0 <= r < |regions| :: regions[r] != []
    ensures Links(regions, i, j + 1)
         == Links(regions, i, j) + {Edge(regions[i][0], regions[j][0], NONE), Edge(regions[j][0], regions[i][0], NONE)}
  {
    assert Before(i, j, i, j + 1);
  }

  lemma LinkRow(regions: seq<seq<nat>>, i: nat)
    requires i < |regions| && forall r | 0 <= r < |regions| :: regions[r] != []
    ensures Links(regions, i, |regions|) == Links(regions, i + 1, i + 2)
  {}

  lemma AllLinks(regions: seq<seq<nat>>)
    requires forall r | 0 <= r < |regions| :: regions[r] != []
    ensures Links(regions, |regions|, |regions| + 1) == RegionLinks(regions, [])
  {
    var all := RegionLinks(regions, []);
    forall e | e in all ensures e in Links(regions, |regions|, |regions| + 1) {
      var a: nat, b: nat :| a < |regions| && b < |regions| && a != b && e == Edge(regions[a][0], regions[b][0], NONE);
      assert Before(a, b, |regions|, |regions| + 1) || Before(b, a, |regions|, |regions| + 1);
    }
  }

  /** ResolvePeerTopologyEdges for the kinds without random draws: exactly the edges wanted, or refused. */
  method ResolveEdges(t: Topology, n: nat) returns (ok: bool, c: EdgeCollector)
    requires !Random(t)
    ensures fresh(c) && c.nodes == n
    ensures ok <==> Resolves(t, n)
    ensures ok ==> c.Graph() == Wanted(t, n)
  {
    hide Mesh, GroupEdges, RegionLinks, Configured, MatrixEdges, StarEdges, RingEdges, Partition;
    c := new EdgeCollector(n);
    if n == 0 { return false, c; }
    ok := true;
    match t.kind
    case FullMesh =>
      AddFullMesh(c, All(n));
      assert {} + Mesh(All(n)) == Mesh(All(n));
    case Ring => AddRing(c);
    case Star => ok := AddStar(c, t.center);
    case LatencyMatrix => ok := AddMatrix(c, t.matrix);
    case CustomEdges =>
      ok := AddConfigured(c, t.edges);
      assert {} + Configured(t.edges) == Configured(t.edges);
    case Groups =>
      ok := RequireExactNodePartition(t.groups, n);
      if ok { AddGroups(c, t.groups); }
    case Regions =>
      ok := RequireExactNodePartition(t.regions, n);
      if ok {
        AddGroups(c, t.regions);
        RegionsInUse(t.regions, n);
        if t.regionEdges == [] {
          AddDefaultLinks(c, t.regions);
        } else {
          ok := AddRegionEdges(c, t.regions, t.regionEdges);
          ConfiguredLinks(t.regions, t.regionEdges);
        }
      }
  }

  lemma RegionsInUse(regions: seq<seq<nat>>, n: nat)
    requires Partition(regions, n)
    ensures forall r | 0 <= r < |regions| :: regions[r] != []
  {}

  lemma ConfiguredLinks(regions: seq<seq<nat>>, edges: seq<ConfiguredEdge>)
    requires edges != [] && forall r | 0 <= r < |regions| :: regions[r] != []
    ensures RegionLinks(regions, edges) == Configured(FrontedAll(regions, edges))
  {}
}
