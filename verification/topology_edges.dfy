/**
 Peer topologies, the edge sets they stand for, and the collector that builds them.
 */
module TopologyEdges {
  import opened Wrappers

  datatype Condition = Condition(
    bandwidth: nat, delay: nat, jitter: nat, loss: nat, duplicate: nat, corrupt: nat, reorder: nat, packets: nat)

  /** ValidateNetworkCondition. */
  predicate ValidCondition(c: Condition) {
    && c.delay <= 4294967 && c.jitter <= 4294967
    && c.loss <= 10000 && c.duplicate <= 10000 && c.corrupt <= 10000 && c.reorder <= 10000
    && c.packets != 0
  }

  function Delay(ms: nat): Condition {
    Condition(0, ms, 0, 0, 0, 0, 0, 1000)
  }

  datatype Attributes = Attributes(latency: Option<nat>, condition: Option<Condition>)

  const NONE: Attributes := Attributes(None, None)

  datatype Edge = Edge(from: nat, target: nat, attributes: Attributes)

  datatype ConfiguredEdge = ConfiguredEdge(from: nat, target: nat, both: bool, active: bool, attributes: Attributes)

  datatype Kind =
    FullMesh | Ring | Star | RandomGraph | ScaleFree | LatencyMatrix | CustomEdges | Groups | Regions

  datatype Topology = Topology(
    kind: Kind,
    center: nat,
    averageDegree: nat,
    attachments: nat,
    edges: seq<ConfiguredEdge>,
    groups: seq<seq<nat>>,
    matrix: seq<seq<Option<nat>>>,
    regions: seq<seq<nat>>,
    regionEdges: seq<ConfiguredEdge>)

  // ----- collecting -----

  predicate Acceptable(n: nat, e: Edge) {
    && e.from < n && e.target < n && e.from != e.target
    && (e.attributes.condition.Some? ==> ValidCondition(e.attributes.condition.value))
  }

  predicate Clashes(a: Edge, b: Edge) {
    a.from == b.from && a.target == b.target && a.attributes != b.attributes
  }

  ghost predicate Collectable(n: nat, edges: set<Edge>) {
    && (forall e | e in edges :: Acceptable(n, e))
    && (forall a, b | a in edges && b in edges :: !Clashes(a, b))
  }

  function Reverse(e: Edge): Edge {
    Edge(e.target, e.from, e.attributes)
  }

  /** EdgeCollector: a map from node pairs to attributes; its graph is a set of edges. */
  class EdgeCollector {
    const nodes: nat
    var edges: map<(nat, nat), Attributes>

    constructor (nodes: nat)
      ensures this.nodes == nodes && Graph() == {} && Collectable(nodes, Graph())
    {
      this.nodes, edges := nodes, map[];
    }

    ghost function Graph(): set<Edge>
      reads this
    {
      set k | k in edges :: Edge(k.0, k.1, edges[k])
    }

    /** Adds the edge, or finds it out of range, a loop, invalid or in conflict. */
    method Add(e: Edge) returns (ok: bool)
      requires Collectable(nodes, Graph())
      modifies this
      ensures ok <==> Collectable(nodes, old(Graph()) + {e})
      ensures Graph() == if ok then old(Graph()) + {e} else old(Graph())
    {
      var key := (e.from, e.target);
      assert forall k | k in edges :: Edge(k.0, k.1, edges[k]) in Graph();
      if !Acceptable(nodes, e) {
        assert e in old(Graph()) + {e};
        return false;
      }
      if key in edges {
        ghost var known := Edge(e.from, e.target, edges[key]);
        if edges[key] != e.attributes {
          assert known in old(Graph()) + {e} && e in old(Graph()) + {e} && Clashes(known, e);
          return false;
        }
        assert old(Graph()) + {e} == old(Graph());
        return true;
      }
      edges := edges[key := e.attributes];
      assert Graph() == old(Graph()) + {e} by { Inserted(old(edges), key, e.attributes); }
      return true;
    }

    /** AddBidirectional without attributes, between two different nodes of the graph. */
    method AddBoth(left: nat, right: nat)
      requires Collectable(nodes, Graph()) && left < nodes && right < nodes && left != right
      requires forall e | e in Graph() :: e.attributes == NONE
      modifies this
      ensures Collectable(nodes, Graph()) && forall e | e in Graph() :: e.attributes == NONE
      ensures Graph() == old(Graph()) + {Edge(left, right, NONE), Edge(right, left, NONE)}
    {
      PlainCollectable(nodes, Graph() + {Edge(left, right, NONE)});
      var ok := Add(Edge(left, right, NONE));
      PlainCollectable(nodes, Graph() + {Edge(right, left, NONE)});
      ok := Add(Edge(right, left, NONE));
    }
  }

  lemma Inserted(edges: map<(nat, nat), Attributes>, key: (nat, nat), attributes: Attributes)
    requires key !in edges
    ensures (set k | k in edges[key := attributes] :: Edge(k.0, k.1, edges[key := attributes][k]))
         == (set k | k in edges :: Edge(k.0, k.1, edges[k])) + {Edge(key.0, key.1, attributes)}
  {
    var more := edges[key := attributes];
    var a := set k | k in more :: Edge(k.0, k.1, more[k]);
    var b := (set k | k in edges :: Edge(k.0, k.1, edges[k])) + {Edge(key.0, key.1, attributes)};
    forall e | e in b ensures e in a {
      if e == Edge(key.0, key.1, attributes) { assert key in more; }
      else { assert (e.from, e.target) in edges && (e.from, e.target) in more; }
    }
  }

  lemma PlainCollectable(n: nat, edges: set<Edge>)
    requires forall e | e in edges :: e.attributes == NONE && e.from < n && e.target < n && e.from != e.target
    ensures Collectable(n, edges)
  {}
}
