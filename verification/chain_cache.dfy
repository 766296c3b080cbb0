/**
 The bounded cache of chain blocks: the newest 64 entries, of which at most four carry
 details of at most two mebibytes together.
 */
module ChainCache {
  import opened Wrappers

  const MAX_ENTRIES: nat := 64
  const MAX_DETAILS: nat := 4
  const MAX_BYTES: nat := 2 * 1024 * 1024

  type Hash = string

  /** `detail` is the serialized size of the details, when they are cached. */
  datatype Entry = Entry(hash: Hash, detail: Option<nat>, used: nat)

  type Entries = map<nat, Entry>

  ghost predicate DistinctUse(entries: Entries) {
    forall a, b | a in entries && b in entries && entries[a].used == entries[b].used :: a == b
  }

  predicate Detailed(entries: Entries, h: nat) {
    h in entries && entries[h].detail.Some?
  }

  // ----- sums -----

  function Size(entries: Entries, h: nat): nat {
    if Detailed(entries, h) then entries[h].detail.value else 0
  }

  function Total(entries: Entries, order: seq<nat>): nat {
    if order == [] then 0 else Total(entries, order[..|order| - 1]) + Size(entries, order[|order| - 1])
  }

  /** A list of at most four heights covers all details and stays within the byte bound. */
  ghost predicate Covers(entries: Entries, order: seq<nat>) {
    |order| <= MAX_DETAILS && Total(entries, order) <= MAX_BYTES && forall h | Detailed(entries, h) :: h in order
  }

  ghost predicate DetailsBounded(entries: Entries) {
    exists order :: Covers(entries, order)
  }

  lemma {:induction false} SameTotal(a: Entries, b: Entries, order: seq<nat>)
    requires forall h | h in order :: Size(b, h) <= Size(a, h)
    ensures Total(b, order) <= Total(a, order)
    decreases |order|
  {
    if order != [] { SameTotal(a, b, order[..|order| - 1]); }
  }

  /** Losing entries or details keeps the bound. */
  lemma FewerDetails(a: Entries, b: Entries)
    requires DetailsBounded(a)
    requires forall h | Detailed(b, h) :: Detailed(a, h) && Size(a, h) == Size(b, h)
    ensures DetailsBounded(b)
  {
    var order :| Covers(a, order);
    SameTotal(a, b, order);
    assert Covers(b, order);
  }

  function Without(order: seq<nat>, h: nat): seq<nat>
    requires h in order
  {
    if order[|order| - 1] == h then order[..|order| - 1] else Without(order[..|order| - 1], h) + [order[|order| - 1]]
  }

  lemma {:induction false} WithoutTotal(entries: Entries, order: seq<nat>, h: nat)
    requires h in order
    ensures Total(entries, order) == Total(entries, Without(order, h)) + Size(entries, h)
    ensures |Without(order, h)| == |order| - 1 && forall x | x in order && x != h :: x in Without(order, h)
    decreases |order|
  {
    var n := |order| - 1;
    if order[n] != h {
      WithoutTotal(entries, order[..n], h);
      var shorter := Without(order[..n], h);
      assert Without(order, h)[..|shorter|] == shorter;
      forall x | x in order && x != h ensures x in Without(order, h) {
        if x != order[n] { assert x in order[..n]; }
      }
    }
  }

  ghost predicate NoRepeats(s: seq<nat>) {
    forall i, j | 0 <= i < j < |s| :: s[i] != s[j]
  }

  /** Distinct heights from a list weigh no more than the list. */
  lemma {:induction false} PartTotal(entries: Entries, part: seq<nat>, whole: seq<nat>)
    requires NoRepeats(part) && forall h | h in part :: h in whole
    ensures |part| <= |whole| && Total(entries, part) <= Total(entries, whole)
    decreases |part|
  {
    if part != [] {
      var n := |part| - 1;
      var h := part[n];
      WithoutTotal(entries, whole, h);
      forall x | x in part[..n] ensures x in Without(whole, h) {
        assert x in whole && x != h;
      }
      PartTotal(entries, part[..n], Without(whole, h));
    }
  }

  // ----- evicting entries -----

  /** The kept entries are the most recently used ones. */
  ghost predicate Newest(before: Entries, kept: Entries) {
    && kept.Keys <= before.Keys && (forall h | h in kept :: kept[h] == before[h])
    && (forall a, b | a in kept && b in before && b !in kept :: before[b].used < before[a].used)
  }

  method Oldest(entries: Entries) returns (oldest: nat)
    requires entries != map[]
    ensures oldest in entries && forall h | h in entries :: entries[oldest].used <= entries[h].used
  {
    var rest := entries.Keys;
    oldest :| oldest in rest;
    while rest != {}
      invariant rest <= entries.Keys && oldest in entries
      invariant forall h | h in entries && h !in rest :: entries[oldest].used <= entries[h].used
      decreases |rest|
    {
      var h :| h in rest;
      if entries[h].used < entries[oldest].used { oldest := h; }
      rest := rest - {h};
    }
  }

  method EvictEntries(entries: Entries) returns (kept: Entries)
    requires DistinctUse(entries)
    ensures Newest(entries, kept) && DistinctUse(kept)
    ensures |kept| == if |entries| > MAX_ENTRIES then MAX_ENTRIES else |entries|
  {
    kept := entries;
    while |kept| > MAX_ENTRIES
      invariant Newest(entries, kept) && DistinctUse(kept)
      invariant |kept| >= MAX_ENTRIES || kept == entries
      decreases |kept|
    {
      var oldest := Oldest(kept);
      assert |kept.Keys - {oldest}| == |kept.Keys| - 1;
      kept := kept - {oldest};
    }
  }

  // ----- dropping details -----

  method NewestOf(entries: Entries, heights: set<nat>) returns (newest: nat)
    requires heights != {} && heights <= entries.Keys
    ensures newest in heights && forall h | h in heights :: entries[h].used <= entries[newest].used
  {
    var rest := heights;
    newest :| newest in rest;
    while rest != {}
      invariant rest <= heights && newest in heights
      invariant forall h | h in heights && h !in rest :: entries[h].used <= entries[newest].used
      decreases |rest|
    {
      var h :| h in rest;
      if entries[newest].used < entries[h].used { newest := h; }
      rest := rest - {h};
    }
  }

  function Dropped(entries: Entries, h: nat): Entries
    requires h in entries
  {
    entries[h := entries[h].(detail := None)]
  }

  /** Same entries; details are only ever cleared. */
  ghost predicate OnlyClears(before: Entries, after: Entries) {
    && after.Keys == before.Keys
    && forall h | h in before :: after[h] == before[h] || after[h] == before[h].(detail := None)
  }

  ghost predicate NoOlder(entries: Entries, a: nat, b: nat) {
    a in entries && b in entries && entries[b].used <= entries[a].used
  }

  /** The heights with details, most recently used first. */
  ghost predicate Recent(entries: Entries, order: seq<nat>) {
    && NoRepeats(order) && (forall h :: h in order <==> Detailed(entries, h))
    && (forall i, j | 0 <= i < j < |order| :: NoOlder(entries, order[i], order[j]))
  }

  /** Details stay exactly where fewer than four are more recent and the more recent ones that stay leave room. */
  ghost predicate Greedy(entries: Entries, after: Entries, order: seq<nat>) {
    forall i | 0 <= i < |order| ::
      Detailed(after, order[i]) <==>
      i < MAX_DETAILS && Size(entries, order[i]) <= MAX_BYTES - Total(after, order[..i])
  }

  /** The detail pass after the heights `seen`. */
  ghost predicate Pass(entries: Entries, after: Entries, rest: set<nat>, seen: seq<nat>, bytes: nat) {
    && OnlyClears(entries, after)
    && (forall h | h in rest :: Detailed(entries, h) && after[h] == entries[h])
    && NoRepeats(seen) && (forall h :: h in seen <==> Detailed(entries, h) && h !in rest)
    && (forall i, j | 0 <= i < j < |seen| :: NoOlder(entries, seen[i], seen[j]))
    && (forall i, h | 0 <= i < |seen| && h in rest :: NoOlder(entries, seen[i], h))
    && Greedy(entries, after, seen) && bytes == Total(after, seen) <= MAX_BYTES
  }

  lemma PassStarts(entries: Entries, rest: set<nat>)
    requires forall h :: h in rest <==> Detailed(entries, h)
    ensures Pass(entries, entries, rest, [], 0)
  {}

  lemma {:induction false} SizesKept(before: Entries, after: Entries, seen: seq<nat>, h: nat)
    requires h in before && after == Dropped(before, h) && h !in seen
    ensures Total(after, seen) == Total(before, seen)
    decreases |seen|
  {
    if seen != [] { SizesKept(before, after, seen[..|seen| - 1], h); }
  }

  /** Deciding the next height leaves the earlier decisions as they are. */
  lemma GreedyNext(entries: Entries, before: Entries, after: Entries, seen: seq<nat>, h: nat)
    requires Greedy(entries, before, seen) && h in before && h !in seen
    requires after == before || after == Dropped(before, h)
    requires Detailed(after, h) <==> |seen| < MAX_DETAILS && Size(entries, h) <= MAX_BYTES - Total(before, seen)
    ensures Greedy(entries, after, seen + [h]) && Total(after, seen + [h]) == Total(before, seen) + Size(after, h)
  {
    var longer := seen + [h];
    assert longer[..|seen|] == seen;
    forall i | 0 <= i <= |seen|
      ensures longer[..i] == seen[..i] && Total(after, seen[..i]) == Total(before, seen[..i])
    {
      if after != before { SizesKept(before, after, seen[..i], h); }
    }
    assert seen[..|seen|] == seen;
    forall i | 0 <= i < |longer|
      ensures Detailed(after, longer[i]) <==>
              i < MAX_DETAILS && Size(entries, longer[i]) <= MAX_BYTES - Total(after, longer[..i])
    {
      if i < |seen| { assert longer[i] == seen[i] && longer[i] != h; }
    }
  }

  lemma PassKeeps(entries: Entries, after: Entries, rest: set<nat>, seen: seq<nat>, bytes: nat, h: nat)
    requires Pass(entries, after, rest, seen, bytes) && h in rest
    requires forall x | x in rest :: entries[x].used <= entries[h].used
    requires |seen| < MAX_DETAILS && Size(entries, h) <= MAX_BYTES - bytes
    ensures Pass(entries, after, rest - {h}, seen + [h], bytes + Size(entries, h))
  {
    hide Greedy;
    GreedyNext(entries, after, after, seen, h);
  }

  lemma PassDrops(entries: Entries, after: Entries, rest: set<nat>, seen: seq<nat>, bytes: nat, h: nat)
    requires Pass(entries, after, rest, seen, bytes) && h in rest
    requires forall x | x in rest :: entries[x].used <= entries[h].used
    requires |seen| >= MAX_DETAILS || Size(entries, h) > MAX_BYTES - bytes
    ensures h in after && Pass(entries, Dropped(after, h), rest - {h}, seen + [h], bytes)
  {
    hide Greedy;
    GreedyNext(entries, after, Dropped(after, h), seen, h);
  }

  lemma PassEnds(entries: Entries, after: Entries, seen: seq<nat>, bytes: nat)
    requires Pass(entries, after, {}, seen, bytes)
    ensures OnlyClears(entries, after) && Recent(entries, seen) && Greedy(entries, after, seen)
  {}

  /** The detail pass of Trim: most recent first, at most four, within the byte bound. */
  method DropDetails(entries: Entries) returns (after: Entries)
    ensures OnlyClears(entries, after) && exists order :: Recent(entries, order) && Greedy(entries, after, order)
  {
    hide Pass, OnlyClears, Recent, Greedy;
    after := entries;
    var rest := set h | h in entries && entries[h].detail.Some?;
    ghost var seen: seq<nat> := [];
    var i, bytes := 0, 0;
    PassStarts(entries, rest);
    assert forall h | h in rest :: Detailed(entries, h) && h in after;
    while rest != {}
      invariant |seen| == i && 0 <= bytes <= MAX_BYTES
      invariant forall h | h in rest :: Detailed(entries, h) && h in after
      invariant Pass(entries, after, rest, seen, bytes)
      decreases |rest|
    {
      var h := NewestOf(entries, rest);
      var size := entries[h].detail.value;
      if i >= MAX_DETAILS || size > MAX_BYTES - bytes {
        PassDrops(entries, after, rest, seen, bytes, h);
        after := Dropped(after, h);
      } else {
        PassKeeps(entries, after, rest, seen, bytes, h);
        bytes := bytes + size;
      }
      seen := seen + [h];
      rest := rest - {h};
      i := i + 1;
    }
    PassEnds(entries, after, seen, bytes);
  }

  // ----- what the pass means -----

  /** If the details are within bounds, the next one still fits. */
  lemma Another(entries: Entries, seen: seq<nat>, h: nat)
    requires NoRepeats(seen) && h !in seen && Detailed(entries, h) && forall x | x in seen :: Detailed(entries, x)
    ensures DetailsBounded(entries) ==> |seen| < MAX_DETAILS && Total(entries, seen) + Size(entries, h) <= MAX_BYTES
  {
    if DetailsBounded(entries) {
      var order :| Covers(entries, order);
      PartTotal(entries, seen + [h], order);
      assert (seen + [h])[..|seen|] == seen;
    }
  }

  lemma {:induction false} GreedyFits(entries: Entries, after: Entries, order: seq<nat>, n: nat)
    requires OnlyClears(entries, after) && Greedy(entries, after, order) && n <= |order|
    ensures Total(after, order[..n]) <= MAX_BYTES
    decreases n
  {
    if n > 0 {
      GreedyFits(entries, after, order, n - 1);
      assert order[..n][..n - 1] == order[..n - 1];
    }
  }

  lemma {:induction false} GreedyKeepsAll(entries: Entries, after: Entries, order: seq<nat>, n: nat)
    requires OnlyClears(entries, after) && Recent(entries, order) && Greedy(entries, after, order)
    requires DetailsBounded(entries) && n <= |order|
    ensures Total(after, order[..n]) == Total(entries, order[..n]) && forall i | 0 <= i < n :: Detailed(after, order[i])
    decreases n
  {
    hide DetailsBounded;
    if n > 0 {
      GreedyKeepsAll(entries, after, order, n - 1);
      assert order[..n][..n - 1] == order[..n - 1];
      assert order[n - 1] !in order[..n - 1] && order[n - 1] in order;
      Another(entries, order[..n - 1], order[n - 1]);
    }
  }

  /** The details of this height are the most recent ones and not too large by themselves. */
  ghost predicate NewestDetail(entries: Entries, h: nat) {
    && Detailed(entries, h) && Size(entries, h) <= MAX_BYTES
    && forall x | Detailed(entries, x) :: entries[x].used <= entries[h].used
  }

  /** The details stay within both bounds, none is cleared that need not be, and the newest one that fits stays. */
  lemma GreedyMeans(entries: Entries, after: Entries)
    requires DistinctUse(entries) && OnlyClears(entries, after)
    requires exists order :: Recent(entries, order) && Greedy(entries, after, order)
    ensures DetailsBounded(after)
    ensures DetailsBounded(entries) ==> after == entries
    ensures forall h | NewestDetail(entries, h) :: Detailed(after, h)
  {
    var order :| Recent(entries, order) && Greedy(entries, after, order);
    GreedyBounds(entries, after, order);
    if DetailsBounded(entries) {
      GreedyKeepsAll(entries, after, order, |order|);
      forall h | h in entries ensures after[h] == entries[h] {
        if Detailed(entries, h) { assert h in order; }
      }
    }
    forall h | NewestDetail(entries, h) ensures Detailed(after, h) { GreedyKeepsNewest(entries, after, order, h); }
  }

  lemma GreedyBounds(entries: Entries, after: Entries, order: seq<nat>)
    requires OnlyClears(entries, after) && Recent(entries, order) && Greedy(entries, after, order)
    ensures DetailsBounded(after)
  {
    var n := if |order| < MAX_DETAILS then |order| else MAX_DETAILS;
    GreedyFits(entries, after, order, n);
    forall h | Detailed(after, h) ensures h in order[..n] {
      assert Detailed(entries, h) && h in order;
      var i :| 0 <= i < |order| && order[i] == h;
      assert order[..n][i] == h;
    }
    assert Covers(after, order[..n]);
  }

  lemma GreedyKeepsNewest(entries: Entries, after: Entries, order: seq<nat>, h: nat)
    requires DistinctUse(entries) && Recent(entries, order) && Greedy(entries, after, order) && NewestDetail(entries, h)
    ensures Detailed(after, h)
  {
    assert h in order && Detailed(entries, order[0]);
    var i :| 0 <= i < |order| && order[i] == h;
    assert entries[order[0]].used == entries[h].used;
    assert Total(after, order[..0]) == 0;
  }
}
