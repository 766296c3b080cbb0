/**
 ResolvePeerTopologyEdges for all nine kinds, also after a remap.
 */
module TopologyPeers {
  import opened TopologyEdges
  import opened TopologyResolve
  import opened TopologyRandom
  import opened TopologyScaleFree
  import opened TopologyRemap

  /** Resolves exactly the resolvable topologies; the edges of a kind without draws are the wanted ones. */
  method ResolveTopology(t: Topology, n: nat, random: Generator) returns (ok: bool, c: EdgeCollector)
    requires n < NODES && Accepting(random.stream)
    modifies random
    ensures fresh(c) && c.nodes == n
    ensures ok <==> Resolves(t, n)
    ensures ok && !Random(t) ==> c.Graph() == Wanted(t, n)
    ensures ok && t.kind.RandomGraph? ==> Undirected(c.Graph(), n) && |c.Graph()| == 2 * (n * t.averageDegree / 2)
    ensures ok && t.kind.ScaleFree? && n == 1 ==> c.Graph() == {}
    ensures ok && t.kind.ScaleFree? && n > 1 ==>
              var m := Attachments(t);
              && Undirected(c.Graph(), n) && Connected(c.Graph(), n) && Attached(c.Graph(), m, n)
              && |c.Graph()| == m * (m + 1) + 2 * m * (n - m - 1)
              && forall v | 0 <= v < n :: |Out(c.Graph(), v)| >= m
  {
    hide Accepting, Undirected, Connected, Attached;
    if !Random(t) {
      ok, c := ResolveEdges(t, n);
      return;
    }
    c := new EdgeCollector(n);
    if n == 0 { return false, c; }
    if t.kind.RandomGraph? {
      ok := AddRandomGraph(c, t.averageDegree, random);
    } else {
      var degrees;
      ok, degrees := AddScaleFree(c, t, random);
    }
  }

  /** A topology that resolves also resolves after any injective compact renaming that keeps a node. */
  method RemapThenResolve(t: Topology, f: Renaming, count: nat, random: Generator) returns (ok: bool, c: EdgeCollector)
    requires |f| < NODES && Accepting(random.stream)
    requires Resolves(t, |f|) && count > 0 && Compact(f, count)
    modifies random
    ensures ok && fresh(c)
    ensures Exact(t, f) ==> c.Graph() == Image(f, Wanted(t, |f|))
  {
    hide Accepting, Resolves, Shaped, Wanted, Image, Compact, RemapOf, InDomain;
    ResolvingIsInDomain(t, f);
    var remapped := RemapTopology(t, f);
    CompactSize(f, count);
    RemapResolves(t, f, count, remapped.value);
    RemapKind(t, f, count, remapped.value);
    if Exact(t, f) { RemapKeepsEdges(t, f, count, remapped.value); }
    ok, c := ResolveTopology(remapped.value, count, random);
  }

  lemma RemapKind(t: Topology, f: Renaming, m: nat, r: Topology)
    requires m > 0 && RemapOf(t, f, m, r)
    ensures r.kind == t.kind && (Exact(t, f) ==> !Random(r))
  {}
}
