/**
 Unbiased bounded draws by rejection, the shuffled random graph, and what both guarantee
 for every stream of 64-bit words that keeps yielding accepted values.
 */
module TopologyRandom {
  import opened Wrappers
  import opened TopologyEdges

  const WORD: nat := 0x1_0000_0000_0000_0000

  // ----- bounded draws -----

  /** (max - u + 1) mod u in 64-bit arithmetic. */
  function Threshold(u: nat): nat
    requires 0 < u < WORD
  {
    (WORD - 1 - u + 1) % u
  }

  lemma ThresholdIsRemainder(u: nat)
    requires 0 < u < WORD
    ensures Threshold(u) == WORD % u
    ensures WORD == Threshold(u) + u * (WORD / u)
  {
    RemainderMinus(WORD, u);
  }

  lemma RemainderMinus(n: nat, u: nat)
    requires 0 < u <= n
    ensures (n - u) % u == n % u
  {
    assert n == u * (n / u) + n % u;
    SameRemainder(n - u, u, n / u - 1, n % u);
  }

  lemma SameRemainder(n: nat, u: nat, q: int, r: nat)
    requires 0 < u && r < u && n == u * q + r
    ensures n % u == r
  {
    var e := n / u - q;
    assert n == u * (n / u) + n % u;
    assert u * e == u * (n / u) - u * q;
    Multiple(u, e);
  }

  lemma Multiple(u: nat, e: int)
    ensures (e > 0 ==> u * e >= u) && (e < 0 ==> u * e + u <= 0)
  {}

  /** How many of the values lo, ..., hi - 1 leave remainder r. */
  function Count(lo: nat, hi: nat, u: nat, r: nat): nat
    requires u > 0
  {
    if hi <= lo then 0 else Count(lo, hi - 1, u, r) + (if (hi - 1) % u == r then 1 else 0)
  }

  lemma {:induction false} CountJoins(lo: nat, mid: nat, hi: nat, u: nat, r: nat)
    requires u > 0 && lo <= mid <= hi
    ensures Count(lo, hi, u, r) == Count(lo, mid, u, r) + Count(mid, hi, u, r)
    decreases hi
  {
    if mid < hi { CountJoins(lo, mid, hi - 1, u, r); }
  }

  /** Starting at a multiple of u, a block of j <= u values holds r once it is longer than r. */
  lemma {:induction false} CountBlock(q: nat, j: nat, u: nat, r: nat)
    requires u > 0 && j <= u && r < u
    ensures Count(u * q, u * q + j, u, r) == if r < j then 1 else 0
    decreases j
  {
    if j > 0 {
      CountBlock(q, j - 1, u, r);
      SameRemainder(u * q + j - 1, u, q, j - 1);
    }
  }

  lemma {:induction false} CountBlocks(q: nat, u: nat, r: nat)
    requires u > 0 && r < u
    ensures Count(0, u * q, u, r) == q
  {
    if q > 0 {
      CountBlocks(q - 1, u, r);
      CountBlock(q - 1, u, u, r);
      assert u * q == u * (q - 1) + u;
      CountJoins(0, u * (q - 1), u * q, u, r);
    }
  }

  lemma SameAfterBlocks(n: nat, q: nat, u: nat)
    requires u > 0
    ensures (n + u * q) % u == n % u
  {
    assert n == u * (n / u) + n % u;
    assert u * (n / u + q) == u * (n / u) + u * q;
    SameRemainder(n + u * q, u, n / u + q, n % u);
  }

  /** Any run of whole blocks holds every remainder equally often. */
  lemma {:induction false} CountRuns(lo: nat, q: nat, u: nat, r: nat)
    requires u > 0 && r < u
    ensures Count(lo, lo + u * q, u, r) == q
    decreases lo
  {
    if lo == 0 {
      CountBlocks(q, u, r);
    } else {
      CountRuns(lo - 1, q, u, r);
      SameAfterBlocks(lo - 1, q, u);
      CountShift(lo - 1, lo - 1 + u * q, u, r);
    }
  }

  lemma CountShift(lo: nat, hi: nat, u: nat, r: nat)
    requires u > 0 && lo <= hi && lo % u == hi % u
    ensures Count(lo + 1, hi + 1, u, r) == Count(lo, hi, u, r)
  {
    CountJoins(lo, lo + 1, hi + 1, u, r);
    CountJoins(lo, hi, hi + 1, u, r);
    assert Count(lo, lo, u, r) == 0 && Count(hi, hi, u, r) == 0;
  }

  /** Among the accepted words every result is equally likely. */
  lemma DrawsAreUniform(u: nat, r: nat)
    requires 0 < u < WORD && r < u
    ensures Count(Threshold(u), WORD, u, r) == WORD / u
  {
    ThresholdIsRemainder(u);
    CountRuns(Threshold(u), WORD / u, u, r);
  }

  // ----- the stream -----

  ghost predicate Accepted(stream: nat -> nat, from: nat, u: nat)
    requires 0 < u < WORD
  {
    exists k: nat :: k >= from && stream(k) >= Threshold(u)
  }

  /** A stream of words in which every bound keeps being met. */
  ghost predicate Accepting(stream: nat -> nat) {
    && (forall i :: stream(i) < WORD)
    && (forall from: nat, u: nat | 0 < u < WORD :: Accepted(stream, from, u))
  }

  class Generator {
    const stream: nat -> nat
    var position: nat

    constructor (stream: nat -> nat)
      ensures this.stream == stream && position == 0
    {
      this.stream, position := stream, 0;
    }

    /** BoundedRandom: rejects words below the threshold, and a bound of zero. */
    method Draw(u: nat) returns (r: Option<nat>)
      requires u < WORD && Accepting(stream)
      modifies this
      ensures u == 0 <==> r.None?
      ensures u > 0 ==>
                && r.value < u && position > old(position)
                && stream(position - 1) >= Threshold(u) && r.value == stream(position - 1) % u
                && forall i | old(position) <= i < position - 1 :: stream(i) < Threshold(u)
    {
      if u == 0 { return None; }
      assert Accepted(stream, position, u);
      ghost var k: nat :| k >= position && stream(k) >= Threshold(u);
      while true
        invariant old(position) <= position <= k
        invariant forall i | old(position) <= i < position :: stream(i) < Threshold(u)
        decreases k - position
      {
        var value := stream(position);
        position := position + 1;
        if value >= Threshold(u) { return Some(value % u); }
      }
    }
  }

  // ----- the random graph -----

  type Pair = (nat, nat)

  /** 0 + 1 + ... + (n - 1). */
  function Triangle(n: nat): nat {
    if n == 0 then 0 else Triangle(n - 1) + n - 1
  }

  lemma {:induction false} TriangleIs(n: nat)
    ensures 2 * Triangle(n) == n * (n - 1)
  {
    if n > 0 { TriangleIs(n - 1); }
  }

  ghost predicate NoRepeats(s: seq<Pair>) {
    forall i, j | 0 <= i < j < |s| :: s[i] != s[j]
  }

  ghost predicate Ordered(s: seq<Pair>, n: nat) {
    forall i | 0 <= i < |s| :: s[i].0 < s[i].1 < n
  }

  /** All unordered pairs of different nodes, smaller node first. */
  method Candidates(n: nat) returns (pairs: seq<Pair>)
    ensures |pairs| == Triangle(n) && NoRepeats(pairs) && Ordered(pairs, n)
    ensures forall a: nat, b: nat | a < b < n :: (a, b) in pairs
  {
    pairs := [];
    var left := 0;
    while left < n
      invariant 0 <= left <= n
      invariant |pairs| + Triangle(n - left) == Triangle(n) && NoRepeats(pairs) && Ordered(pairs, n)
      invariant forall i | 0 <= i < |pairs| :: pairs[i].0 < left
      invariant forall a: nat, b: nat | a < left && a < b < n :: (a, b) in pairs
    {
      ghost var before := pairs;
      var right := left + 1;
      while right < n
        invariant left < right <= n
        invariant |pairs| == |before| + right - left - 1 && NoRepeats(pairs) && Ordered(pairs, n)
        invariant forall i | 0 <= i < |pairs| :: pairs[i].0 < left || (pairs[i].0 == left && pairs[i].1 < right)
        invariant forall p | p in before :: p in pairs
        invariant forall b: nat | left < b < right :: (left, b) in pairs
      {
        pairs := pairs + [(left, right)];
        right := right + 1;
      }
      left := left + 1;
    }
  }

  function Swapped(s: seq<Pair>, i: nat, j: nat): seq<Pair>
    requires i < |s| && j < |s|
  {
    s[i := s[j]][j := s[i]]
  }

  lemma SwapKeeps(s: seq<Pair>, i: nat, j: nat)
    requires i < |s| && j < |s|
    ensures multiset(Swapped(s, i, j)) == multiset(s)
  {}

  /** Fisher-Yates, in place: a permutation whatever is drawn. */
  method Shuffle(a: array<Pair>, random: Generator)
    requires Accepting(random.stream) && a.Length < WORD
    modifies a, random
    ensures multiset(a[..]) == multiset(old(a[..]))
  {
    var remaining := a.Length;
    while remaining > 1
      invariant 0 <= remaining <= a.Length
      invariant multiset(a[..]) == multiset(old(a[..]))
    {
      var selected := random.Draw(remaining);
      ghost var before := a[..];
      var other := selected.value;
      a[remaining - 1], a[other] := a[other], a[remaining - 1];
      assert a[..] == Swapped(before, remaining - 1, other);
      SwapKeeps(before, remaining - 1, other);
      remaining := remaining - 1;
    }
  }

  lemma PermutationKeeps(a: seq<Pair>, b: seq<Pair>, n: nat)
    requires multiset(a) == multiset(b) && NoRepeats(a) && Ordered(a, n)
    ensures |b| == |a| && NoRepeats(b) && Ordered(b, n)
  {
    assert |multiset(a)| == |a| && |multiset(b)| == |b|;
    forall i | 0 <= i < |b| ensures b[i].0 < b[i].1 < n {
      assert b[i] in multiset(b);
      assert b[i] in multiset(a);
      assert b[i] in a;
    }
    forall i, j | 0 <= i < j < |b| ensures b[i] != b[j] {
      Once(a, b[i]);
      Twice(b, i, j);
    }
  }

  lemma {:induction false} Once(s: seq<Pair>, p: Pair)
    requires NoRepeats(s)
    ensures multiset(s)[p] <= 1
    decreases |s|
  {
    if s != [] {
      var n := |s| - 1;
      Once(s[..n], p);
      assert s == s[..n] + [s[n]];
      if s[n] == p { assert p !in s[..n]; }
    }
  }

  lemma Twice(s: seq<Pair>, i: nat, j: nat)
    requires i < j < |s|
    ensures s[i] == s[j] ==> multiset(s)[s[i]] >= 2
  {
    assert s == s[..i] + [s[i]] + s[i + 1..j] + [s[j]] + s[j + 1..];
  }

  /** Both directions of each pair. */
  ghost function Both(pairs: seq<Pair>): set<Edge> {
    (set i | 0 <= i < |pairs| :: Edge(pairs[i].0, pairs[i].1, NONE))
    + (set i | 0 <= i < |pairs| :: Edge(pairs[i].1, pairs[i].0, NONE))
  }

  lemma BothStep(pairs: seq<Pair>, k: nat)
    requires k < |pairs|
    ensures Both(pairs[..k + 1])
         == Both(pairs[..k]) + {Edge(pairs[k].0, pairs[k].1, NONE), Edge(pairs[k].1, pairs[k].0, NONE)}
  {
    var longer, shorter := pairs[..k + 1], pairs[..k];
    assert longer == shorter + [pairs[k]];
    forall e | e in Both(shorter) + {Edge(pairs[k].0, pairs[k].1, NONE), Edge(pairs[k].1, pairs[k].0, NONE)}
      ensures e in Both(longer)
    {
      if e in Both(shorter) {
        var i :| 0 <= i < |shorter| &&
                 (e == Edge(shorter[i].0, shorter[i].1, NONE) || e == Edge(shorter[i].1, shorter[i].0, NONE));
        assert longer[i] == shorter[i];
      } else {
        assert longer[k] == pairs[k];
      }
    }
  }

  lemma {:induction false} BothCount(pairs: seq<Pair>, n: nat, k: nat)
    requires NoRepeats(pairs) && Ordered(pairs, n) && k <= |pairs|
    ensures |Both(pairs[..k])| == 2 * k
  {
    hide Both, NoRepeats, Ordered;
    if k == 0 {
      NoBoth(pairs);
    } else {
      BothCount(pairs, n, k - 1);
      BothStep(pairs, k - 1);
      NewPair(pairs, n, k - 1);
      var p := pairs[k - 1];
      PairDiffers(pairs, n, k - 1);
      AddTwo(Both(pairs[..k - 1]), Edge(p.0, p.1, NONE), Edge(p.1, p.0, NONE));
    }
  }

  lemma NoBoth(pairs: seq<Pair>)
    ensures Both(pairs[..0]) == {}
  {}

  lemma PairDiffers(pairs: seq<Pair>, n: nat, k: nat)
    requires Ordered(pairs, n) && k < |pairs|
    ensures pairs[k].0 != pairs[k].1
  {}

  lemma NewPair(pairs: seq<Pair>, n: nat, k: nat)
    requires NoRepeats(pairs) && Ordered(pairs, n) && k < |pairs|
    ensures Edge(pairs[k].0, pairs[k].1, NONE) !in Both(pairs[..k])
    ensures Edge(pairs[k].1, pairs[k].0, NONE) !in Both(pairs[..k])
  {
    var shorter := pairs[..k];
    forall e | e in Both(shorter)
      ensures e != Edge(pairs[k].0, pairs[k].1, NONE) && e != Edge(pairs[k].1, pairs[k].0, NONE)
    {
      var i :| 0 <= i < |shorter| &&
               (e == Edge(shorter[i].0, shorter[i].1, NONE) || e == Edge(shorter[i].1, shorter[i].0, NONE));
      assert shorter[i] == pairs[i] && pairs[i] != pairs[k];
    }
  }

  lemma AddTwo(edges: set<Edge>, a: Edge, b: Edge)
    requires a != b && a !in edges && b !in edges
    ensures |edges + {a, b}| == |edges| + 2
  {
    assert edges + {a, b} == edges + {a} + {b};
  }

  ghost predicate Undirected(edges: set<Edge>, n: nat) {
    && (forall e | e in edges :: e.attributes == NONE && e.from < n && e.target < n && e.from != e.target)
    && (forall e | e in edges :: Reverse(e) in edges)
  }

  /** AddRandomGraph: exactly floor(n * degree / 2) different undirected edges. */
  method AddRandomGraph(c: EdgeCollector, degree: nat, random: Generator) returns (ok: bool)
    requires c.Graph() == {} && 0 < c.nodes < 0x1_0000_0000 && Accepting(random.stream)
    modifies c, random
    ensures ok <==> degree < c.nodes
    ensures ok ==> Undirected(c.Graph(), c.nodes) && |c.Graph()| == 2 * (c.nodes * degree / 2)
  {
    var n := c.nodes;
    if degree >= n { return false; }
    var pairs := Candidates(n);
    var a := new Pair[|pairs|](i requires 0 <= i < |pairs| => pairs[i]);
    assert a[..] == pairs;
    FewPairs(n, degree);
    Shuffle(a, random);
    var shuffled := a[..];
    PermutationKeeps(pairs, shuffled, n);
    var desired := n * degree / 2;
    AddPairs(c, shuffled, desired);
    BothCount(shuffled, n, desired);
    BothUndirected(shuffled[..desired], n);
    return true;
  }

  lemma FewPairs(n: nat, degree: nat)
    requires degree < n < 0x1_0000_0000
    ensures n * degree / 2 <= Triangle(n) < WORD
  {
    TriangleIs(n);
    assert n * degree <= n * (n - 1) by { Scale(n, degree, n - 1); }
    assert n * (n - 1) <= 0x1_0000_0000 * 0x1_0000_0000 by {
      Scale(n, n - 1, 0x1_0000_0000);
      Scale(0x1_0000_0000, n, 0x1_0000_0000);
    }
  }

  lemma Scale(k: nat, a: nat, b: nat)
    requires a <= b
    ensures k * a <= k * b
  {}

  lemma BothUndirected(pairs: seq<Pair>, n: nat)
    requires Ordered(pairs, n)
    ensures Undirected(Both(pairs), n)
  {
    forall e | e in Both(pairs) ensures Reverse(e) in Both(pairs) {
      var i :| 0 <= i < |pairs| && (e == Edge(pairs[i].0, pairs[i].1, NONE) || e == Edge(pairs[i].1, pairs[i].0, NONE));
    }
  }

  method AddPairs(c: EdgeCollector, pairs: seq<Pair>, count: nat)
    requires c.Graph() == {} && Ordered(pairs, c.nodes) && count <= |pairs|
    modifies c
    ensures c.Graph() == Both(pairs[..count])
  {
    var index := 0;
    NoBoth(pairs);
    while index < |pairs| && index < count
      invariant 0 <= index <= count
      invariant Collectable(c.nodes, c.Graph()) && (forall e | e in c.Graph() :: e.attributes == NONE)
      invariant c.Graph() == Both(pairs[..index])
    {
      c.AddBoth(pairs[index].0, pairs[index].1);
      BothStep(pairs, index);
      index := index + 1;
    }
  }
}
