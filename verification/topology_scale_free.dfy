/**
 Preferential attachment: for every accepting stream it terminates, never reaches its
 overflow or no-candidate errors, keeps the degree table true, and builds a connected
 graph without loops and with a fixed number of edges.
 */
module TopologyScaleFree {
  import opened Wrappers
  import opened TopologyEdges
  import opened TopologyRandom
  import opened TopologyResolve

  const NODES: nat := 0x1_0000_0000

  // ----- degrees -----

  ghost function Out(edges: set<Edge>, v: nat): set<Edge> {
    set e | e in edges && e.from == v
  }

  ghost predicate TrueDegrees(edges: set<Edge>, degrees: seq<nat>) {
    forall v | 0 <= v < |degrees| :: degrees[v] == |Out(edges, v)|
  }

  lemma LinkDegrees(edges: set<Edge>, degrees: seq<nat>, a: nat, b: nat)
    requires TrueDegrees(edges, degrees) && a < |degrees| && b < |degrees| && a != b
    requires Edge(a, b, NONE) !in edges && Edge(b, a, NONE) !in edges
    ensures TrueDegrees(edges + {Edge(a, b, NONE), Edge(b, a, NONE)}, degrees[a := degrees[a] + 1][b := degrees[b] + 1])
  {
    var more := edges + {Edge(a, b, NONE), Edge(b, a, NONE)};
    assert Out(more, a) == Out(edges, a) + {Edge(a, b, NONE)};
    assert Out(more, b) == Out(edges, b) + {Edge(b, a, NONE)};
    forall v | 0 <= v < |degrees| && v != a && v != b ensures Out(more, v) == Out(edges, v) {}
  }

  ghost function Fan(v: nat, n: nat): (r: set<Edge>)
    ensures |r| == n && forall e :: e in r <==> e.from == v && e.target < n && e.attributes == NONE
  {
    if n == 0 then {} else Fan(v, n - 1) + {Edge(v, n - 1, NONE)}
  }

  lemma {:induction false} Within<T>(a: set<T>, b: set<T>)
    requires a <= b
    ensures |a| <= |b|
    decreases |a|
  {
    if a != {} {
      var x :| x in a;
      Within(a - {x}, b - {x});
    }
  }

  lemma DegreeBound(edges: set<Edge>, n: nat, v: nat)
    requires Undirected(edges, n)
    ensures |Out(edges, v)| <= n
  {
    assert Out(edges, v) <= Fan(v, n);
    Within(Out(edges, v), Fan(v, n));
  }

  // ----- choosing -----

  /** Total degree of the first `k` nodes that are not selected. */
  function Weight(degrees: seq<nat>, selected: set<nat>, k: nat): nat
    requires k <= |degrees|
  {
    if k == 0 then 0
    else Weight(degrees, selected, k - 1) + (if k - 1 in selected then 0 else degrees[k - 1])
  }

  lemma {:induction false} WeightGrows(degrees: seq<nat>, selected: set<nat>, a: nat, b: nat)
    requires a <= b <= |degrees|
    ensures Weight(degrees, selected, a) <= Weight(degrees, selected, b)
    decreases b
  {
    if a < b { WeightGrows(degrees, selected, a, b - 1); }
  }

  lemma WeightPositive(degrees: seq<nat>, selected: set<nat>, node: nat)
    requires node <= |degrees| && (forall v | 0 <= v < node :: degrees[v] >= 1)
    requires (forall v | v in selected :: v < node) && |selected| < node
    ensures Weight(degrees, selected, node) > 0
  {
    var v := Unselected(selected, node);
    assert Weight(degrees, selected, v + 1) > 0;
    WeightGrows(degrees, selected, v + 1, node);
  }

  lemma Unselected(selected: set<nat>, node: nat) returns (v: nat)
    requires |selected| < node
    ensures v < node && v !in selected
  {
    if forall x: nat | x < node :: x in selected {
      assert Below(node) <= selected;
      Within(Below(node), selected);
    }
    v :| v < node && v !in selected;
  }

  ghost function Below(n: nat): (r: set<nat>)
    ensures |r| == n && forall i: nat :: i in r <==> i < n
  {
    if n == 0 then {} else Below(n - 1) + {n - 1}
  }

  /** The total weight of the candidates; the overflow error is out of reach. */
  method TotalWeight(degrees: array<nat>, selected: set<nat>, node: nat) returns (overflow: bool, total: nat)
    requires node <= degrees.Length < NODES && forall v | 0 <= v < node :: degrees[v] < NODES
    ensures !overflow && total == Weight(degrees[..], selected, node) && total < WORD
  {
    overflow, total := false, 0;
    var candidate := 0;
    while candidate < node
      invariant 0 <= candidate <= node
      invariant total == Weight(degrees[..], selected, candidate) && total <= candidate * NODES
    {
      if candidate !in selected {
        if degrees[candidate] > WORD - 1 - total { return true, total; }
        total := total + degrees[candidate];
      }
      candidate := candidate + 1;
    }
  }

  /** The draw falls into the node's share of the weight. */
  predicate Picks(degrees: seq<nat>, selected: set<nat>, v: nat, draw: nat)
    requires v < |degrees|
  {
    Weight(degrees, selected, v) <= draw < Weight(degrees, selected, v + 1)
  }

  /** How many accepted words give a draw from a to below b. */
  function Words(total: nat, a: nat, b: nat): nat
    requires 0 < total < WORD && a <= b
    decreases b
  {
    if a == b then 0 else Words(total, a, b - 1) + Count(Threshold(total), WORD, total, b - 1)
  }

  lemma Step(k: nat, x: nat)
    requires k > 0
    ensures (k - 1) * x + x == k * x
  {}

  lemma {:induction false} WordsPerDraw(total: nat, a: nat, b: nat)
    requires 0 < total < WORD && a <= b <= total
    ensures Words(total, a, b) == (b - a) * (WORD / total)
    decreases b
  {
    hide Count, Threshold;
    if a < b {
      WordsPerDraw(total, a, b - 1);
      DrawsAreUniform(total, b - 1);
      Step(b - a, WORD / total);
    }
  }

  /**
   Preferential attachment: every draw picks exactly one node, and the accepted words that
   pick an unselected node are exactly its degree's share of them.
   */
  lemma ChanceIsDegree(degrees: seq<nat>, selected: set<nat>, node: nat, v: nat)
    requires v < node <= |degrees| && 0 < Weight(degrees, selected, node) < WORD
    ensures var total := Weight(degrees, selected, node);
            var share := if v in selected then 0 else degrees[v];
            && Weight(degrees, selected, v + 1) == Weight(degrees, selected, v) + share <= total
            && Words(total, Weight(degrees, selected, v), Weight(degrees, selected, v + 1)) == share * (WORD / total)
    ensures forall u, draw | 0 <= u < node && u != v && Picks(degrees, selected, v, draw) ::
              !Picks(degrees, selected, u, draw)
  {
    var total := Weight(degrees, selected, node);
    WeightGrows(degrees, selected, v + 1, node);
    WordsPerDraw(total, Weight(degrees, selected, v), Weight(degrees, selected, v + 1));
    forall u, draw | 0 <= u < node && u != v && Picks(degrees, selected, v, draw)
      ensures !Picks(degrees, selected, u, draw)
    {
      if u < v { WeightGrows(degrees, selected, u + 1, v); } else { WeightGrows(degrees, selected, v + 1, u); }
    }
  }

  /** One weighted draw among the earlier nodes not selected yet. */
  method Choose(degrees: array<nat>, selected: set<nat>, node: nat, random: Generator) returns (ok: bool, chosen: nat)
    requires node <= degrees.Length < NODES && forall v | 0 <= v < node :: 1 <= degrees[v] < NODES
    requires (forall v | v in selected :: v < node) && |selected| < node && Accepting(random.stream)
    modifies random
    ensures ok && chosen < node && chosen !in selected && random.position > old(random.position)
    ensures var table, total := degrees[..], Weight(degrees[..], selected, node);
            && 0 < total < WORD && random.stream(random.position - 1) >= Threshold(total)
            && Picks(table, selected, chosen, random.stream(random.position - 1) % total)
  {
    ok, chosen := false, 0;
    var overflow, total := TotalWeight(degrees, selected, node);
    ghost var table := degrees[..];
    if overflow { return; }
    WeightPositive(table, selected, node);
    if total == 0 { return; }
    var draw := random.Draw(total);
    var rest := draw.value;
    var candidate := 0;
    while candidate < node
      invariant 0 <= candidate <= node && 0 <= rest
      invariant degrees[..] == table && rest + Weight(table, selected, candidate) == draw.value
    {
      if candidate !in selected {
        if rest < degrees[candidate] { return true, candidate; }
        rest := rest - degrees[candidate];
      }
      candidate := candidate + 1;
    }
    assert false;
  }

  /** Exactly `count` different earlier nodes. */
  method Select(degrees: array<nat>, node: nat, count: nat, random: Generator) returns (ok: bool, selected: set<nat>)
    requires count < node <= degrees.Length < NODES && forall v | 0 <= v < node :: 1 <= degrees[v] < NODES
    requires Accepting(random.stream)
    modifies random
    ensures ok && |selected| == count && forall v | v in selected :: v < node
  {
    selected := {};
    while |selected| < count
      invariant |selected| <= count && forall v | v in selected :: v < node
      decreases count - |selected|
    {
      var fine, chosen := Choose(degrees, selected, node, random);
      if !fine { return false, selected; }
      selected := selected + {chosen};
    }
    ok := true;
  }

  // ----- linking -----

  /** What every stage of the growth keeps; the first `k` nodes are in the graph. */
  ghost predicate Grown(edges: set<Edge>, degrees: seq<nat>, k: nat, n: nat) {
    && k <= n == |degrees| && Undirected(edges, k) && TrueDegrees(edges, degrees)
  }

  lemma GrownCollectable(edges: set<Edge>, degrees: seq<nat>, k: nat, n: nat)
    requires Grown(edges, degrees, k, n)
    ensures Collectable(n, edges)
  {
    PlainCollectable(n, edges);
  }

  /** AddBidirectional of a new edge, with both degrees counted up. */
  method Link(c: EdgeCollector, degrees: array<nat>, a: nat, b: nat, ghost k: nat)
    requires Grown(c.Graph(), degrees[..], k, c.nodes) && a < k && b < k && a != b
    requires Edge(a, b, NONE) !in c.Graph()
    modifies c, degrees
    ensures Grown(c.Graph(), degrees[..], k, c.nodes)
    ensures c.Graph() == old(c.Graph()) + {Edge(a, b, NONE), Edge(b, a, NONE)}
    ensures |c.Graph()| == |old(c.Graph())| + 2
    ensures degrees[..] == old(degrees[..])[a := old(degrees[a]) + 1][b := old(degrees[b]) + 1]
  {
    hide Grown, Collectable;
    LinkGrown(c.Graph(), degrees[..], a, b, k, c.nodes);
    c.AddBoth(a, b);
    degrees[a] := degrees[a] + 1;
    degrees[b] := degrees[b] + 1;
  }

  lemma LinkGrown(edges: set<Edge>, degrees: seq<nat>, a: nat, b: nat, k: nat, n: nat)
    requires Grown(edges, degrees, k, n) && a < k && b < k && a != b && Edge(a, b, NONE) !in edges
    ensures Collectable(n, edges) && |degrees| == n && k <= n && forall e | e in edges :: e.attributes == NONE
    ensures Grown(edges + {Edge(a, b, NONE), Edge(b, a, NONE)}, degrees[a := degrees[a] + 1][b := degrees[b] + 1], k, n)
    ensures |edges + {Edge(a, b, NONE), Edge(b, a, NONE)}| == |edges| + 2
  {
    hide TrueDegrees, Collectable;
    GrownCollectable(edges, degrees, k, n);
    assert Edge(b, a, NONE) in edges ==> Reverse(Edge(b, a, NONE)) in edges;
    LinkDegrees(edges, degrees, a, b);
    AddTwo(edges, Edge(a, b, NONE), Edge(b, a, NONE));
    LinkUndirected(edges, a, b, k);
  }

  lemma LinkUndirected(edges: set<Edge>, a: nat, b: nat, k: nat)
    requires Undirected(edges, k) && a < k && b < k && a != b
    ensures Undirected(edges + {Edge(a, b, NONE), Edge(b, a, NONE)}, k)
  {}

  // ----- the initial clique -----

  predicate PairBefore(x: nat, y: nat, left: nat, right: nat) {
    x < left || (x == left && y < right)
  }

  /** Exactly the pairs up to (left, right) are linked. */
  ghost predicate CliquePart(edges: set<Edge>, k: nat, left: nat, right: nat) {
    forall x: nat, y: nat | x < y < k :: Edge(x, y, NONE) in edges <==> PairBefore(x, y, left, right)
  }

  ghost predicate CliqueDegrees(degrees: seq<nat>, k: nat, left: nat, right: nat) {
    && left < right && k <= |degrees|
    && (forall v | 0 <= v < left && v < k :: degrees[v] == k - 1)
    && (left < k ==> degrees[left] == right - 1)
    && (forall v | left < v < k :: degrees[v] == if v < right then left + 1 else left)
  }

  method AddClique(c: EdgeCollector, degrees: array<nat>, k: nat)
    requires c.Graph() == {} && degrees.Length == c.nodes && 0 < k <= c.nodes
    requires forall v | 0 <= v < degrees.Length :: degrees[v] == 0
    modifies c, degrees
    ensures Grown(c.Graph(), degrees[..], k, c.nodes) && CliquePart(c.Graph(), k, k, k + 1)
    ensures forall v | 0 <= v < k :: degrees[v] == k - 1
    ensures |c.Graph()| == 2 * Triangle(k)
  {
    hide Grown, CliquePart;
    EmptyGrown(degrees[..], k);
    var left := 0;
    while left < k
      invariant 0 <= left <= k
      invariant Grown(c.Graph(), degrees[..], k, c.nodes) && CliquePart(c.Graph(), k, left, left + 1)
      invariant CliqueDegrees(degrees[..], k, left, left + 1)
      invariant |c.Graph()| + 2 * Triangle(k - left) == 2 * Triangle(k)
    {
      AddCliqueRow(c, degrees, k, left);
      CliqueRow(c.Graph(), k, left);
      left := left + 1;
    }
  }

  method AddCliqueRow(c: EdgeCollector, degrees: array<nat>, k: nat, left: nat)
    requires degrees.Length == c.nodes && left < k <= c.nodes
    requires Grown(c.Graph(), degrees[..], k, c.nodes) && CliquePart(c.Graph(), k, left, left + 1)
    requires CliqueDegrees(degrees[..], k, left, left + 1)
    modifies c, degrees
    ensures Grown(c.Graph(), degrees[..], k, c.nodes) && CliquePart(c.Graph(), k, left, k)
    ensures CliqueDegrees(degrees[..], k, left + 1, left + 2)
    ensures |c.Graph()| == |old(c.Graph())| + 2 * (k - left - 1)
  {
    hide Grown;
    ghost var size := |c.Graph()|;
    var right := left + 1;
    while right < k
      invariant left < right <= k
      invariant Grown(c.Graph(), degrees[..], k, c.nodes) && CliquePart(c.Graph(), k, left, right)
      invariant CliqueDegrees(degrees[..], k, left, right)
      invariant |c.Graph()| == size + 2 * (right - left - 1)
    {
      ghost var before := c.Graph();
      assert !PairBefore(left, right, left, right);
      hide CliquePart;
      Link(c, degrees, left, right, k);
      CliqueStep(before, k, left, right);
      right := right + 1;
    }
  }

  lemma CliqueRow(edges: set<Edge>, k: nat, left: nat)
    requires CliquePart(edges, k, left, k) && left < k
    ensures CliquePart(edges, k, left + 1, left + 2)
  {
    forall x: nat, y: nat | x < y < k ensures PairBefore(x, y, left, k) <==> PairBefore(x, y, left + 1, left + 2) {}
  }

  lemma EmptyGrown(degrees: seq<nat>, k: nat)
    requires k <= |degrees| && forall v | 0 <= v < |degrees| :: degrees[v] == 0
    ensures Grown({}, degrees, k, |degrees|) && CliquePart({}, k, 0, 1)
  {
    forall v | 0 <= v < |degrees| ensures Out({}, v) == {} {}
  }

  lemma CliqueStep(edges: set<Edge>, k: nat, left: nat, right: nat)
    requires CliquePart(edges, k, left, right) && left < right < k
    ensures CliquePart(edges + {Edge(left, right, NONE), Edge(right, left, NONE)}, k, left, right + 1)
  {}

  // ----- attaching a node -----

  /** The edges from a node to the nodes that were there before it. */
  ghost function Earlier(edges: set<Edge>, v: nat): set<Edge> {
    set e | e in edges && e.from == v && e.target < v
  }

  /** Node v was joined to exactly m different earlier nodes, or to all of them if there are fewer. */
  ghost predicate Attached(edges: set<Edge>, m: nat, k: nat) {
    forall v: nat | v < k :: |Earlier(edges, v)| == Least(v, m)
  }

  ghost predicate OnlyAt(edges: set<Edge>, more: set<Edge>, node: nat) {
    edges <= more && forall e | e in more && e !in edges :: e.from == node || e.target == node
  }

  lemma OnlyAtMore(edges: set<Edge>, more: set<Edge>, node: nat, v: nat)
    requires OnlyAt(edges, more, node)
    ensures OnlyAt(edges, more + {Edge(node, v, NONE), Edge(v, node, NONE)}, node)
  {}

  lemma CliqueAttached(edges: set<Edge>, m: nat)
    requires Undirected(edges, m + 1) && CliquePart(edges, m + 1, m + 1, m + 2)
    ensures Attached(edges, m, m + 1)
  {
    forall v: nat | v < m + 1 ensures |Earlier(edges, v)| == v {
      forall e ensures e in Earlier(edges, v) <==> e in Fan(v, v) {
        if e in Fan(v, v) {
          assert PairBefore(e.target, v, m + 1, m + 2);
          assert Reverse(Edge(e.target, v, NONE)) in edges;
        }
      }
      assert Earlier(edges, v) == Fan(v, v);
    }
  }

  lemma AttachedUp(edges: set<Edge>, more: set<Edge>, m: nat, node: nat)
    requires Attached(edges, m, node) && OnlyAt(edges, more, node) && m <= node
    requires |Out(more, node)| == m && forall e | e in Out(more, node) :: e.target < node
    ensures Attached(more, m, node + 1)
  {
    forall v: nat | v < node ensures Earlier(more, v) == Earlier(edges, v) {}
    assert Earlier(more, node) == Out(more, node);
  }

  ghost predicate HasEarlier(edges: set<Edge>, v: nat) {
    exists u: nat :: u < v && Edge(v, u, NONE) in edges
  }

  ghost predicate AllHaveEarlier(edges: set<Edge>, k: nat) {
    forall v: nat | 1 <= v < k :: HasEarlier(edges, v)
  }

  lemma EarlierKept(edges: set<Edge>, more: set<Edge>, k: nat)
    requires AllHaveEarlier(edges, k) && edges <= more
    ensures AllHaveEarlier(more, k)
  {
    forall v: nat | 1 <= v < k ensures HasEarlier(more, v) {
      assert HasEarlier(edges, v);
      var u: nat :| u < v && Edge(v, u, NONE) in edges;
      assert Edge(v, u, NONE) in more;
    }
  }

  ghost predicate AtLeast(degrees: seq<nat>, k: nat, m: nat) {
    k <= |degrees| && forall v | 0 <= v < k :: degrees[v] >= m
  }

  lemma DegreesSmall(edges: set<Edge>, degrees: seq<nat>, k: nat, n: nat)
    requires Grown(edges, degrees, k, n) && n < NODES
    ensures forall v | 0 <= v < n :: degrees[v] < NODES
  {
    forall v | 0 <= v < n ensures degrees[v] < NODES { DegreeBound(edges, k, v); }
  }

  lemma OneMoreNode(edges: set<Edge>, degrees: seq<nat>, k: nat, n: nat)
    requires Grown(edges, degrees, k, n) && k < n
    ensures Grown(edges, degrees, k + 1, n) && degrees[k] == 0
    ensures forall x: nat :: Edge(k, x, NONE) !in edges
  {
    assert Out(edges, k) == {};
  }

  lemma AtLeastUp(degrees: seq<nat>, k: nat, m: nat, a: nat, b: nat)
    requires AtLeast(degrees, k, m) && a < |degrees| && b < |degrees| && a != b
    ensures AtLeast(degrees[a := degrees[a] + 1][b := degrees[b] + 1], k, m)
  {}

  ghost predicate LinkedTo(edges: set<Edge>, node: nat, targets: set<nat>) {
    forall x: nat :: Edge(node, x, NONE) in edges <==> x in targets
  }

  lemma LinkedMore(edges: set<Edge>, node: nat, selected: set<nat>, rest: set<nat>, v: nat)
    requires LinkedTo(edges, node, selected - rest) && v in rest && v in selected && v != node
    ensures Edge(node, v, NONE) !in edges
    ensures LinkedTo(edges + {Edge(node, v, NONE), Edge(v, node, NONE)}, node, selected - (rest - {v}))
  {}

  lemma LinkedIsEarlier(edges: set<Edge>, node: nat, targets: set<nat>)
    requires LinkedTo(edges, node, targets) && targets != {} && forall x | x in targets :: x < node
    ensures HasEarlier(edges, node)
  {
    var some: nat :| some in targets;
    assert Edge(node, some, NONE) in edges;
  }

  /** The node is linked to the selected nodes except the rest. */
  ghost predicate Linking(before: set<Edge>, edges: set<Edge>, degrees: seq<nat>, node: nat, n: nat,
                          selected: set<nat>, rest: set<nat>) {
    && node < n == |degrees| && rest <= selected && (forall x | x in selected :: x < node)
    && Grown(edges, degrees, node + 1, n) && AtLeast(degrees, node, |selected|)
    && degrees[node] == |selected| - |rest| && |edges| == |before| + 2 * (|selected| - |rest|)
    && OnlyAt(before, edges, node) && LinkedTo(edges, node, selected - rest)
  }

  lemma LinkingStart(edges: set<Edge>, degrees: seq<nat>, node: nat, n: nat, selected: set<nat>)
    requires node < n && Grown(edges, degrees, node + 1, n) && AtLeast(degrees, node, |selected|) && degrees[node] == 0
    requires (forall x | x in selected :: x < node) && LinkedTo(edges, node, {})
    ensures Linking(edges, edges, degrees, node, n, selected, selected)
  {
    assert selected - selected == {};
  }

  lemma LinkingMore(before: set<Edge>, edges: set<Edge>, degrees: seq<nat>, node: nat, n: nat,
                    selected: set<nat>, rest: set<nat>, v: nat)
    requires Linking(before, edges, degrees, node, n, selected, rest) && v in rest
    requires var more := edges + {Edge(node, v, NONE), Edge(v, node, NONE)};
             |more| == |edges| + 2 && Grown(more, degrees[node := degrees[node] + 1][v := degrees[v] + 1], node + 1, n)
    ensures Linking(before, edges + {Edge(node, v, NONE), Edge(v, node, NONE)},
                    degrees[node := degrees[node] + 1][v := degrees[v] + 1], node, n, selected, rest - {v})
  {
    hide Grown, OnlyAt, LinkedTo, AtLeast;
    AtLeastUp(degrees, node, |selected|, node, v);
    OnlyAtMore(before, edges, node, v);
    LinkedMore(edges, node, selected, rest, v);
  }

  lemma LinkingNext(before: set<Edge>, edges: set<Edge>, degrees: seq<nat>, node: nat, n: nat,
                    selected: set<nat>, rest: set<nat>, v: nat)
    requires Linking(before, edges, degrees, node, n, selected, rest) && v in rest
    ensures Grown(edges, degrees, node + 1, n) && v < node < n && |degrees| == n && Edge(node, v, NONE) !in edges
  {
    hide OnlyAt, AtLeast;
    LinkedMore(edges, node, selected, rest, v);
  }

  lemma LinkingEnd(before: set<Edge>, edges: set<Edge>, degrees: seq<nat>, node: nat, n: nat, selected: set<nat>)
    requires Linking(before, edges, degrees, node, n, selected, {}) && selected != {}
    ensures Grown(edges, degrees, node + 1, n) && AtLeast(degrees, node, |selected|)
    ensures |degrees| == n && degrees[node] == |selected| && HasEarlier(edges, node)
    ensures before <= edges && |edges| == |before| + 2 * |selected|
    ensures LinkedTo(edges, node, selected) && OnlyAt(before, edges, node)
  {
    hide AtLeast;
    assert selected - {} == selected;
    LinkedIsEarlier(edges, node, selected);
  }

  /** Links the node to every selected one. */
  method LinkAll(c: EdgeCollector, degrees: array<nat>, node: nat, m: nat, selected: set<nat>)
    requires Grown(c.Graph(), degrees[..], node + 1, c.nodes) && AtLeast(degrees[..], node, m)
    requires node < c.nodes == degrees.Length && degrees[node] == 0 && 1 <= m == |selected|
    requires forall x | x in selected :: x < node
    requires LinkedTo(c.Graph(), node, {})
    modifies c, degrees
    ensures Grown(c.Graph(), degrees[..], node + 1, c.nodes) && AtLeast(degrees[..], node, m)
    ensures degrees[node] == m && HasEarlier(c.Graph(), node)
    ensures old(c.Graph()) <= c.Graph() && |c.Graph()| == |old(c.Graph())| + 2 * m
    ensures LinkedTo(c.Graph(), node, selected)
    ensures OnlyAt(old(c.Graph()), c.Graph(), node)
  {
    hide Grown, AtLeast, HasEarlier, OnlyAt, LinkedTo, Linking;
    ghost var before := c.Graph();
    LinkingStart(before, degrees[..], node, c.nodes, selected);
    var rest := selected;
    while rest != {}
      invariant Linking(before, c.Graph(), degrees[..], node, c.nodes, selected, rest)
      decreases |rest|
    {
      var candidate :| candidate in rest;
      LinkingNext(before, c.Graph(), degrees[..], node, c.nodes, selected, rest, candidate);
      ghost var edges, table := c.Graph(), degrees[..];
      Link(c, degrees, node, candidate, node + 1);
      LinkingMore(before, edges, table, node, c.nodes, selected, rest, candidate);
      rest := rest - {candidate};
    }
    LinkingEnd(before, c.Graph(), degrees[..], node, c.nodes, selected);
  }

  lemma OneMoreEarlier(edges: set<Edge>, degrees: seq<nat>, k: nat, m: nat)
    requires AllHaveEarlier(edges, k) && HasEarlier(edges, k) && AtLeast(degrees, k, m) && k < |degrees|
    requires degrees[k] >= m
    ensures AllHaveEarlier(edges, k + 1) && AtLeast(degrees, k + 1, m)
  {}

  /** Links a new node to exactly `m` different earlier nodes. */
  method Attach(c: EdgeCollector, degrees: array<nat>, node: nat, m: nat, random: Generator) returns (ok: bool)
    requires Grown(c.Graph(), degrees[..], node, c.nodes) && AtLeast(degrees[..], node, m)
    requires AllHaveEarlier(c.Graph(), node)
    requires Attached(c.Graph(), m, node)
    requires 1 <= m < node < c.nodes < NODES && Accepting(random.stream)
    modifies c, degrees, random
    ensures ok
    ensures Grown(c.Graph(), degrees[..], node + 1, c.nodes) && AtLeast(degrees[..], node + 1, m)
    ensures AllHaveEarlier(c.Graph(), node + 1)
    ensures |c.Graph()| == |old(c.Graph())| + 2 * m
    ensures |Out(c.Graph(), node)| == m && (forall e | e in Out(c.Graph(), node) :: e.target < node)
    ensures Attached(c.Graph(), m, node + 1)
  {
    hide AllHaveEarlier, HasEarlier, Accepting, Attached, OnlyAt;
    ghost var before, table := c.Graph(), degrees[..];
    DegreesSmall(before, table, node, c.nodes);
    OneMoreNode(before, table, node, c.nodes);
    assert degrees.Length == c.nodes && forall v | 0 <= v < node :: degrees[v] == table[v];
    var selected;
    ok, selected := Select(degrees, node, m, random);
    if !ok { return; }
    hide Grown, AtLeast;
    assert degrees[..] == table && c.Graph() == before && degrees[node] == table[node];
    LinkAll(c, degrees, node, m, selected);
    EarlierKept(before, c.Graph(), node);
    OneMoreEarlier(c.Graph(), degrees[..], node, m);
    NodeDegree(c.Graph(), degrees[..], node, c.nodes);
    AttachedUp(before, c.Graph(), m, node);
  }

  lemma NodeDegree(edges: set<Edge>, degrees: seq<nat>, node: nat, n: nat)
    requires Grown(edges, degrees, node + 1, n) && node < n
    ensures |Out(edges, node)| == degrees[node]
    ensures forall e | e in Out(edges, node) :: e == Edge(node, e.target, NONE)
  {}

  // ----- connectedness -----

  ghost predicate Walk(edges: set<Edge>, path: seq<nat>) {
    path != [] && forall i | 0 <= i < |path| - 1 :: Edge(path[i], path[i + 1], NONE) in edges
  }

  ghost predicate Reaches(edges: set<Edge>, a: nat, b: nat) {
    exists path :: Walk(edges, path) && path[0] == a && path[|path| - 1] == b
  }

  ghost predicate Connected(edges: set<Edge>, n: nat) {
    forall a: nat, b: nat | a < n && b < n :: Reaches(edges, a, b)
  }

  lemma Joined(edges: set<Edge>, a: nat, b: nat, d: nat)
    requires Reaches(edges, a, b) && Reaches(edges, b, d)
    ensures Reaches(edges, a, d)
  {
    var p :| Walk(edges, p) && p[0] == a && p[|p| - 1] == b;
    var q :| Walk(edges, q) && q[0] == b && q[|q| - 1] == d;
    var path := p + q[1..];
    forall i | 0 <= i < |path| - 1 ensures Edge(path[i], path[i + 1], NONE) in edges {
      if i < |p| - 1 {
        assert path[i] == p[i] && path[i + 1] == p[i + 1];
      } else {
        var j := i - (|p| - 1);
        assert path[i] == q[j] && path[i + 1] == q[j + 1];
      }
    }
    assert Walk(edges, path);
  }

  lemma Backwards(edges: set<Edge>, n: nat, a: nat, b: nat)
    requires Undirected(edges, n) && Reaches(edges, a, b)
    ensures Reaches(edges, b, a)
  {
    var p :| Walk(edges, p) && p[0] == a && p[|p| - 1] == b;
    var path := seq(|p|, i requires 0 <= i < |p| => p[|p| - 1 - i]);
    forall i | 0 <= i < |path| - 1 ensures Edge(path[i], path[i + 1], NONE) in edges {
      var j := |p| - 2 - i;
      assert Edge(p[j], p[j + 1], NONE) in edges;
      assert Reverse(Edge(p[j], p[j + 1], NONE)) in edges;
    }
    assert Walk(edges, path);
  }

  lemma {:induction false} ReachesFirst(edges: set<Edge>, n: nat, v: nat)
    requires AllHaveEarlier(edges, n) && v < n
    ensures Reaches(edges, v, 0)
    decreases v
  {
    if v == 0 {
      assert Walk(edges, [0]);
    } else {
      assert HasEarlier(edges, v);
      var u: nat :| u < v && Edge(v, u, NONE) in edges;
      ReachesFirst(edges, n, u);
      assert Walk(edges, [v, u]);
      Joined(edges, v, u, 0);
    }
  }

  lemma EarlierConnects(edges: set<Edge>, n: nat)
    requires Undirected(edges, n) && AllHaveEarlier(edges, n)
    ensures Connected(edges, n)
  {
    forall a: nat, b: nat | a < n && b < n ensures Reaches(edges, a, b) {
      ReachesFirst(edges, n, a);
      ReachesFirst(edges, n, b);
      Backwards(edges, n, b, 0);
      Joined(edges, a, 0, b);
    }
  }

  // ----- the whole graph -----

  lemma CliqueHasEarlier(edges: set<Edge>, k: nat)
    requires Undirected(edges, k) && CliquePart(edges, k, k, k + 1)
    ensures AllHaveEarlier(edges, k)
  {
    forall v: nat | 1 <= v < k ensures HasEarlier(edges, v) {
      assert PairBefore(0, v, k, k + 1);
      assert Reverse(Edge(0, v, NONE)) in edges;
    }
  }

  method StartClique(c: EdgeCollector, degrees: array<nat>, m: nat)
    requires c.Graph() == {} && degrees.Length == c.nodes && 1 <= m < c.nodes
    requires forall v | 0 <= v < degrees.Length :: degrees[v] == 0
    modifies c, degrees
    ensures Grown(c.Graph(), degrees[..], m + 1, c.nodes) && AtLeast(degrees[..], m + 1, m)
    ensures AllHaveEarlier(c.Graph(), m + 1) && Attached(c.Graph(), m, m + 1)
    ensures |c.Graph()| == GrownSize(m, 0)
  {
    hide AllHaveEarlier, Attached, CliquePart, Triangle;
    AddClique(c, degrees, m + 1);
    TriangleIs(m + 1);
    CliqueHasEarlier(c.Graph(), m + 1);
    CliqueAttached(c.Graph(), m);
  }

  /** The clique of the first m + 1 nodes, then one node after another. */
  method Grow(c: EdgeCollector, degrees: array<nat>, m: nat, random: Generator) returns (ok: bool)
    requires c.Graph() == {} && degrees.Length == c.nodes && 1 <= m < c.nodes < NODES && Accepting(random.stream)
    requires forall v | 0 <= v < degrees.Length :: degrees[v] == 0
    modifies c, degrees, random
    ensures ok
    ensures Grown(c.Graph(), degrees[..], c.nodes, c.nodes) && AtLeast(degrees[..], c.nodes, m)
    ensures AllHaveEarlier(c.Graph(), c.nodes) && Attached(c.Graph(), m, c.nodes)
    ensures |c.Graph()| == GrownSize(m, c.nodes - m - 1)
  {
    hide Grown, AllHaveEarlier, Accepting, Attached, AtLeast, GrownSize;
    StartClique(c, degrees, m);
    var node := m + 1;
    while node < c.nodes
      invariant m + 1 <= node <= c.nodes
      invariant Grown(c.Graph(), degrees[..], node, c.nodes) && AtLeast(degrees[..], node, m)
      invariant AllHaveEarlier(c.Graph(), node) && Attached(c.Graph(), m, node)
      invariant |c.Graph()| == GrownSize(m, node - m - 1)
    {
      ok := Attach(c, degrees, node, m, random);
      if !ok { return; }
      OneMore(m, node - m - 1);
      node := node + 1;
    }
    ok := true;
  }

  /**
   AddScaleFreeGraph: refused exactly for the parameters it checks, and otherwise a
   connected undirected graph with m(m + 1) + 2m(n - m - 1) directed edges and a true
   degree table.
   */
  method AddScaleFree(c: EdgeCollector, t: Topology, random: Generator) returns (ok: bool, degrees: array<nat>)
    requires c.Graph() == {} && 0 < c.nodes < NODES && t.kind.ScaleFree? && Accepting(random.stream)
    modifies c, random
    ensures ok <==> TopologyResolve.Shaped(t, c.nodes)
    ensures ok && c.nodes == 1 ==> c.Graph() == {}
    ensures ok && c.nodes > 1 ==>
              var m, n := Attachments(t), c.nodes;
              && Undirected(c.Graph(), n) && Connected(c.Graph(), n)
              && |c.Graph()| == m * (m + 1) + 2 * m * (n - m - 1)
              && TrueDegrees(c.Graph(), degrees[..]) && AtLeast(degrees[..], n, m)
              && Attached(c.Graph(), m, n)
  {
    hide Grown, AllHaveEarlier, Attached, Accepting, Connected, Undirected, TrueDegrees, AtLeast;
    var n := c.nodes;
    degrees := new nat[n](_ => 0);
    if n == 1 { return true, degrees; }
    if t.averageDegree >= n && t.averageDegree != 0 { return false, degrees; }
    var m := t.attachments;
    if m == 0 {
      if t.averageDegree == 0 { return false, degrees; }
      m := if t.averageDegree / 2 < 1 then 1 else t.averageDegree / 2;
    }
    if m >= n { return false, degrees; }
    ok := Grow(c, degrees, m, random);
    GrownUp(c.Graph(), degrees[..], n);
    EarlierConnects(c.Graph(), n);
  }

  /** The directed edges once k nodes were attached to the clique. */
  function GrownSize(m: nat, k: nat): nat {
    m * (m + 1) + 2 * m * k
  }

  lemma OneMore(m: nat, k: nat)
    ensures GrownSize(m, k + 1) == GrownSize(m, k) + 2 * m
  {}

  lemma GrownUp(edges: set<Edge>, degrees: seq<nat>, n: nat)
    requires Grown(edges, degrees, n, n)
    ensures Undirected(edges, n) && TrueDegrees(edges, degrees)
  {}
}
