/**
 The chain view service over a source that may reorganize: its chain is fixed while the
 rows of one query are read, may have changed when the query asks for the tip again, and
 may be any other at the next query.  A chain is the list of its block hashes; hashes
 identify a block together with its whole history.
 */
module ChainView {
  import opened Wrappers
  import opened ChainCache

  type Chain = seq<Hash>

  datatype Block = Block(height: nat, hash: Hash)

  /** Two chains that show the same hash show it at the same height and agree below. */
  ghost predicate Linked(a: Chain, b: Chain) {
    forall i, j | 0 <= i < |a| && 0 <= j < |b| && a[i] == b[j] :: i == j && a[..i + 1] == b[..j + 1]
  }

  /** A source whose chains fit the hashes seen so far. */
  ghost predicate Reorganizes(chain: Chain, s: Source) {
    s.chain != [] && s.now != [] && Linked(chain, s.chain) && Linked(s.chain, s.now)
  }

  /** Looking at one height tells whether the whole chain is still there. */
  lemma HeldExactly(chain: Chain, now: Chain)
    requires chain != [] && now != [] && Linked(chain, now)
    ensures chain[|chain| - 1] == now[|now| - 1] ==> chain == now
    ensures |chain| <= |now| ==> (chain <= now <==> now[|chain| - 1] == chain[|chain| - 1])
  {
    var n := |chain|;
    assert chain[..n] == chain && now[..|now|] == now;
  }

  ghost predicate OnChain(entries: Entries, chain: Chain) {
    forall h | h in entries :: h < |chain| && entries[h].hash == chain[h]
  }

  /** The cached entries that are still part of the chain. */
  function StillCanonical(entries: Entries, chain: Chain): Entries {
    map h | h in entries && h < |chain| && entries[h].hash == chain[h] :: entries[h]
  }

  /** The entries not above the anchor. */
  function UpTo(entries: Entries, anchor: Option<nat>): Entries {
    if anchor.Some? then map h | h in entries && h <= anchor.value :: entries[h] else map[]
  }

  // ----- page arithmetic -----

  datatype Bounds = Bounds(first: nat, last: nat, selected: nat)

  /** Which rows a request shows: at most `limit` of them, inside the chain, the selected one by default among them. */
  function PageBounds(first: Option<nat>, selected: Option<nat>, limit: nat, tip: nat): (p: Bounds)
    requires 1 <= limit
    ensures p.first <= p.last <= tip && p.selected <= tip && p.last - p.first < limit
    ensures p.last - p.first == limit - 1 || p.last == tip
    ensures p.selected == if selected.Some? && selected.value <= tip then selected.value else tip
    ensures first.None? ==> p.first <= p.selected <= p.last && (p.first == 0 || p.last == p.selected)
    ensures first.Some? ==> p.first == Least(first.value, tip)
  {
    var chosen := Least(if selected.Some? then selected.value else tip, tip);
    var before := if chosen >= limit - 1 then chosen - (limit - 1) else 0;
    var start := Least(if first.Some? then first.value else before, tip);
    Bounds(start, start + Least(limit - 1, tip - start), chosen)
  }

  datatype Row = Row(height: nat, hash: Option<Hash>)

  datatype Page = Page(tip: Block, bounds: Bounds, rows: seq<Row>, detail: Option<Hash>)

  /** A healthy source answers every read; reads of any other may fail.  `now` is its chain at the end of the query. */
  datatype Source = Source(id: string, chain: Chain, now: Chain, healthy: bool)

  lemma NewestIsKept(before: Entries, kept: Entries, h: nat)
    requires Newest(before, kept) && h in before && kept != map[]
    requires forall x | x in before && x != h :: before[x].used < before[h].used
    ensures h in kept
  {
    var some :| some in kept;
    assert forall b | b in before && b !in kept :: before[b].used < before[some].used;
  }

  class View {
    var entries: Entries
    var tip: Option<Block>
    var source: string
    var used: nat
    var detailsDirty: bool
    /** The chain the cache was last brought in line with. */
    ghost var chain: Chain

    constructor ()
      ensures Valid() && entries == map[] && chain == []
    {
      entries, tip, source, used, detailsDirty, chain := map[], None, "", 0, true, [];
    }

    /** Everything but the two size bounds. */
    ghost predicate Consistent()
      reads this`entries, this`tip, this`used, this`chain
    {
      && Sound(entries, chain, used)
      && (tip.None? ==> chain == [])
      && (tip.Some? ==> chain != [] && tip.value == Block(|chain| - 1, chain[|chain| - 1]))
    }

    ghost predicate Valid()
      reads this`entries, this`tip, this`used, this`chain, this`detailsDirty
    {
      Consistent() && |entries| <= MAX_ENTRIES && (!detailsDirty ==> DetailsBounded(entries))
    }

    /** Keeps the most recently used entries, and the most recent details that fit. */
    method Trim()
      requires Consistent() && (!detailsDirty ==> DetailsBounded(entries))
      modifies this`entries, this`detailsDirty
      ensures Valid() && !detailsDirty && DetailsBounded(entries)
      ensures |entries| == if |old(entries)| > MAX_ENTRIES then MAX_ENTRIES else |old(entries)|
      ensures Trimmed(old(entries), entries)
      ensures forall h | Served(old(entries), h) :: StillServed(old(entries), entries, h)
    {
      hide DetailsBounded, Sound, Served, NewestDetail, Newest, OnlyClears, DistinctUse, Trimmed, StillServed, Recent,
        Greedy;
      UsesDiffer(entries, chain, used);
      ghost var before := entries;
      var kept := EvictEntries(entries);
      EvictedSound(before, kept, chain, used);
      if detailsDirty {
        entries := DropDetails(kept);
        GreedyMeans(kept, entries);
        detailsDirty := false;
      } else {
        EvictedBounded(before, kept);
        entries := kept;
        NothingCleared(kept);
      }
      TrimResult(before, kept, entries, chain, used);
      forall h | Served(before, h) ensures StillServed(before, entries, h) {
        ServedStays(before, kept, entries, h);
      }
    }

    /** Whether one read of a source fails. */
    method ReadFails(healthy: bool) returns (fails: bool)
      ensures healthy ==> !fails
    {
      fails := *;
      if healthy { fails := false; }
    }

    // ----- a new tip -----

    method Highest(heights: set<nat>) returns (top: nat)
      requires heights != {}
      ensures top in heights && forall h | h in heights :: h <= top
    {
      var rest := heights;
      top :| top in rest;
      while rest != {}
        invariant rest <= heights && top in heights
        invariant forall h | h in heights && h !in rest :: h <= top
        decreases |rest|
      {
        var h :| h in rest;
        if top < h { top := h; }
        rest := rest - {h};
      }
    }

    /** The highest cached block that is still on the chain; a read may fail. */
    method FindAnchor(next: Chain, healthy: bool) returns (ok: bool, anchor: Option<nat>)
      requires next != []
      ensures ok ==> Anchored(entries, next, anchor)
      ensures healthy ==> ok
    {
      var rest := entries.Keys;
      while rest != {}
        invariant rest <= entries.Keys
        invariant forall h | h in entries && h !in rest :: h >= |next| || next[h] != entries[h].hash
        decreases |rest|
      {
        var h := Highest(rest);
        if h <= |next| - 1 {
          var fails := ReadFails(healthy);
          if fails { return false, None; }
          if next[h] == entries[h].hash { return true, Some(h); }
        }
        rest := rest - {h};
      }
      return true, None;
    }

    /** UpdateTip keeps exactly the cached entries that are still canonical. */
    method UpdateTip(next: Chain, healthy: bool) returns (ok: bool)
      requires Valid() && next != [] && Linked(chain, next)
      modifies this`entries, this`tip, this`chain
      ensures Valid()
      ensures !ok ==> entries == old(entries) && tip == old(tip) && chain == old(chain)
      ensures ok ==> chain == next && entries == StillCanonical(old(entries), next)
      ensures healthy ==> ok
    {
      hide DetailsBounded, Sound, Linked, StillCanonical, UpTo, Anchored;
      var block := Block(|next| - 1, next[|next| - 1]);
      Settled(entries, chain, next, used);
      if tip.Some? && tip.value.hash != block.hash {
        var extended := false;
        if tip.value.height < block.height {
          var fails := ReadFails(healthy);
          if fails { return false; }
          extended := next[tip.value.height] == tip.value.hash;
        }
        if !extended {
          var found, anchor := FindAnchor(next, healthy);
          if !found { return false; }
          CutsAtAnchor(entries, chain, next, anchor, used);
          entries := UpTo(entries, anchor);
        } else {
          AllStay(entries, chain, next, used);
        }
      } else {
        AllStay(entries, chain, next, used);
      }
      tip, chain := Some(block), next;
      return true;
    }

    // ----- reading -----

    /** The entry of a height, read from the source when it is not cached; becomes the most recently used. */
    method Fetch(height: nat, live: Option<Source>) returns (hash: Option<Hash>)
      requires Valid() && (live.Some? ==> live.value.chain == chain && height < |chain|)
      modifies this`entries, this`used, this`detailsDirty
      ensures Valid() && (!old(detailsDirty) ==> !detailsDirty)
      ensures hash.Some? ==>
                && height in entries && hash.value == entries[height].hash == chain[height]
                && Served(entries, height) && used > old(used)
      ensures hash.None? ==> entries == old(entries) && height !in entries
      ensures live.None? ==> (hash.Some? <==> height in old(entries)) && SameBlocks(old(entries), entries)
      ensures live.Some? && live.value.healthy ==> hash.Some?
    {
      hide DetailsBounded, Sound, Served, StillServed, Trimmed;
      if height !in entries {
        if live.None? { return None; }
        var summary := ReadSummary(live.value.chain, live.value.healthy, height);
        if summary.None? { return None; }
        ghost var before := entries;
        Inserted(entries, chain, used, height);
        used := used + 1;
        entries := entries[height := Entry(summary.value, None, used)];
        Trim();
        KeptWhenServed(before[height := Entry(summary.value, None, used)], entries, height);
      }
      Touched(entries, chain, used, height);
      used := used + 1;
      entries := entries[height := entries[height].(used := used)];
      hash := Some(entries[height].hash);
    }

    /** The source's answer for a height of its chain; it may fail. */
    method ReadSummary(source: Chain, healthy: bool, height: nat) returns (hash: Option<Hash>)
      requires height < |source|
      ensures hash.Some? ==> hash.value == source[height]
      ensures healthy ==> hash.Some?
    {
      var fails := ReadFails(healthy);
      hash := if fails then None else Some(source[height]);
    }

    method Rows(bounds: Bounds, live: Option<Source>) returns (rows: seq<Row>)
      requires Valid() && (live.Some? ==> live.value.chain == chain) && bounds.first <= bounds.last < |chain|
      modifies this`entries, this`used, this`detailsDirty
      ensures Valid()
      ensures |rows| == bounds.last - bounds.first + 1
      ensures forall i | 0 <= i < |rows| ::
                && rows[i].height == bounds.first + i
                && (rows[i].hash.Some? ==> rows[i].hash.value == chain[bounds.first + i])
      ensures live.None? ==> SameBlocks(old(entries), entries) && Captured(rows, old(entries))
      ensures live.Some? && live.value.healthy ==> forall row | row in rows :: row.hash.Some?
    {
      hide Valid;
      rows := [];
      var height := bounds.first;
      while true
        invariant Valid() && bounds.first <= height <= bounds.last && |rows| == height - bounds.first
        invariant forall i | 0 <= i < |rows| ::
                    && rows[i].height == bounds.first + i
                    && (rows[i].hash.Some? ==> rows[i].hash.value == chain[bounds.first + i])
        invariant live.None? ==> SameBlocks(old(entries), entries) && Captured(rows, old(entries))
        invariant live.Some? && live.value.healthy ==> forall row | row in rows :: row.hash.Some?
        decreases bounds.last - height
      {
        var hash := Fetch(height, live);
        rows := rows + [Row(height, hash)];
        if height == bounds.last { break; }
        height := height + 1;
      }
    }

    method SetDetail(height: nat, size: nat)
      requires Valid() && height in entries
      modifies this`entries, this`detailsDirty
      ensures Valid() && detailsDirty
      ensures entries == old(entries)[height := old(entries)[height].(detail := Some(size))]
      ensures Served(old(entries), height) ==> Served(entries, height)
    {
      hide DetailsBounded, Sound, Served;
      DetailSet(entries, chain, used, height, size);
      entries := entries[height := entries[height].(detail := Some(size))];
      detailsDirty := true;
    }

    /** The details of the selected block: the bytes of a reply and of its refreshed copy are the source's choice. */
    method Detail(selected: nat, live: Option<Source>) returns (detail: Option<Hash>)
      requires Valid() && (live.Some? ==> live.value.chain == chain) && selected < |chain|
      modifies this`entries, this`used, this`detailsDirty
      ensures Valid()
      ensures detail.Some? ==> detail.value == chain[selected] && Detailed(entries, selected)
      ensures live.None? ==> SameBlocks(old(entries), entries) && (detail.Some? <==> Detailed(old(entries), selected))
    {
      hide Valid, Served, StillServed, Trimmed, DetailsBounded;
      var hash := Fetch(selected, live);
      if hash.None? { return None; }
      if entries[selected].detail.None? && live.Some? {
        var fails := ReadFails(live.value.healthy);
        if fails { return None; }
        var size: nat := *;
        if size > MAX_BYTES { return None; }
        ghost var before := entries[selected := entries[selected].(detail := Some(size))];
        SetDetail(selected, size);
        TrimAll();
        DetailWhenServed(before, entries, selected);
      }
      if entries[selected].detail.None? { return None; }
      if live.Some? {
        var size: nat := *;
        var fails := ReadFails(live.value.healthy);
        SetDetail(selected, size);
        if fails || size > MAX_BYTES { return None; }
      }
      detail := Some(entries[selected].hash);
    }

    method TrimAll()
      requires Valid()
      modifies this`entries, this`detailsDirty
      ensures Valid() && !detailsDirty && DetailsBounded(entries)
      ensures forall h | Served(old(entries), h) :: StillServed(old(entries), entries, h)
    {
      hide DetailsBounded, Sound, Served, StillServed, Trimmed;
      Trim();
    }

    lemma Facts()
      requires Valid()
      ensures OnChain(entries, chain) && |entries| <= MAX_ENTRIES
      ensures tip.Some? <==> chain != []
      ensures tip.Some? ==> tip.value == Block(|chain| - 1, chain[|chain| - 1])
    {}

    // ----- queries -----

    /** The first healthy source, the current one preferred; its tip becomes the tip. */
    method Connect(sources: seq<Source>) returns (live: Option<Source>)
      requires Valid() && forall s | s in sources :: s.chain != [] && Linked(chain, s.chain)
      modifies this`entries, this`tip, this`source, this`chain
      ensures Valid()
      ensures live.Some? ==>
                live.value in sources && live.value.id == source && live.value.chain == chain && chain != []
      ensures live.None? ==> forall s | s in sources :: !s.healthy
    {
      hide Valid, Linked;
      var order := Matching(sources, source, true) + Matching(sources, source, false);
      MatchingAre(sources, source, true);
      MatchingAre(sources, source, false);
      var i := 0;
      while i < |order|
        invariant 0 <= i <= |order|
        invariant Valid() && forall k | 0 <= k < |order| :: Linked(chain, order[k].chain)
        invariant forall k | 0 <= k < i :: !order[k].healthy
      {
        var candidate := order[i];
        assert candidate in order && candidate in sources;
        var fails := ReadFails(candidate.healthy);
        if !fails {
          if source != "" && source != candidate.id {
            Clear();
            NothingLinked();
          }
          source := candidate.id;
          var ok := UpdateTip(candidate.chain, candidate.healthy);
          if ok { return Some(candidate); }
        }
        i := i + 1;
      }
      assert forall s | s in sources :: s in order;
      return None;
    }

    method Clear()
      requires Valid()
      modifies this`entries, this`tip, this`chain
      ensures Valid() && entries == map[] && tip.None? && chain == []
    {
      entries, tip, chain := map[], None, [];
      assert Covers(entries, []);
    }

    /** What a page shows of the chain. */
    ghost predicate Shows(page: Page, first: Option<nat>, selected: Option<nat>, limit: nat)
      requires 1 <= limit
      reads this`chain, this`tip
    {
      && tip == Some(page.tip) && chain != [] && page.tip == Block(|chain| - 1, chain[|chain| - 1])
      && page.bounds == PageBounds(first, selected, limit, |chain| - 1)
      && RowsOf(page, chain)
      && (page.detail.Some? ==> page.detail.value == chain[page.bounds.selected])
    }

    /** The rows, the details and the adjacent summaries of one page. */
    method ReadPage(first: Option<nat>, selected: Option<nat>, limit: nat, live: Option<Source>) returns (page: Page)
      requires Valid() && tip.Some? && 1 <= limit && (live.Some? ==> live.value.chain == chain)
      modifies this`entries, this`used, this`detailsDirty
      ensures Valid() && Shows(page, first, selected, limit)
      ensures live.Some? && live.value.healthy ==> forall row | row in page.rows :: row.hash.Some?
      ensures live.None? ==>
                && SameBlocks(old(entries), entries) && Captured(page.rows, old(entries))
                && (page.detail.Some? <==> Detailed(old(entries), page.bounds.selected))
    {
      hide Valid, DetailsBounded, OnChain, PageBounds, Captured, SameBlocks, Detailed;
      Facts();
      var bounds := PageBounds(first, selected, limit, tip.value.height);
      var rows := Rows(bounds, live);
      ghost var shown := entries;
      var detail := Detail(bounds.selected, live);
      if live.Some? {
        ReadAhead(bounds, live.value);
      } else {
        SameBlocksChain(old(entries), shown, entries, bounds.selected);
      }
      page := Page(tip.value, bounds, rows, detail);
    }

    /** At most the two summaries next to the page. */
    method ReadAhead(bounds: Bounds, live: Source)
      requires Valid() && tip.Some? && live.chain == chain && bounds.first <= bounds.last < |chain|
      modifies this`entries, this`used, this`detailsDirty
      ensures Valid()
    {
      hide Valid, Served;
      Facts();
      var below := Fetch(if bounds.first > 0 then bounds.first - 1 else bounds.first, Some(live));
      var above := Fetch(if bounds.last < tip.value.height then bounds.last + 1 else bounds.last, Some(live));
    }

    /** Asks for the tip once more: a chain that no longer holds the shown tip empties the page. */
    method Refresh(page: Page, live: Source) returns (result: Option<Page>)
      requires Valid() && tip.Some? && live.chain == chain && live.now != [] && Linked(chain, live.now)
      modifies this`entries, this`tip, this`chain, this`detailsDirty
      ensures Valid()
      ensures result.None? ==> !live.healthy && entries == old(entries) && tip == old(tip) && chain == old(chain)
      ensures result.Some? ==> DetailsBounded(entries) && tip.Some?
      ensures result.Some? && old(chain) <= live.now ==> result.value == page && chain == old(chain) && tip == old(tip)
      ensures result.Some? && !(old(chain) <= live.now) ==>
                chain == live.now && result.value == Page(tip.value, page.bounds, [], None)
    {
      hide Valid, DetailsBounded, Linked, Served, StillServed;
      Facts();
      HeldExactly(chain, live.now);
      var fails := ReadFails(live.healthy);
      if fails { return None; }
      var final := Block(|live.now| - 1, live.now[|live.now| - 1]);
      var moved := false;
      if final.hash != tip.value.hash {
        moved := final.height < tip.value.height;
        if !moved {
          var summary := ReadSummary(live.now, live.healthy, tip.value.height);
          if summary.None? { return None; }
          moved := summary.value != tip.value.hash;
        }
      }
      result := Some(page);
      if moved {
        var ok := UpdateTip(live.now, live.healthy);
        if !ok { return None; }
        Facts();
        result := Some(Page(tip.value, page.bounds, [], None));
      }
      TrimAll();
    }

    /** A live page: the rows while the source still has the shown tip, and nothing but its new tip otherwise. */
    ghost predicate ShowsLive(page: Page, live: Source, first: Option<nat>, selected: Option<nat>, limit: nat)
      requires 1 <= limit
      reads this`chain, this`tip
    {
      if live.chain <= live.now then chain == live.chain && Shows(page, first, selected, limit)
      else chain == live.now && tip == Some(page.tip) && page.rows == [] && page.detail.None?
    }

    /**
     A query against live sources, or against the cache alone.  After a live query every
     cached block is canonical and not above the tip, the cache is within its bounds, and
     a page with rows shows only blocks that the source still has.
     */
    method Query(first: Option<nat>, selected: Option<nat>, limit: nat, sources: Option<seq<Source>>)
      returns (page: Option<Page>)
      requires Valid()
      requires sources.Some? ==> forall s | s in sources.value :: Reorganizes(chain, s)
      modifies this
      ensures Valid()
      ensures limit == 0 || limit > 32 ==> page.None?
      ensures sources.None? ==> (page.Some? <==> 1 <= limit <= 32 && old(tip).Some?)
      ensures sources.Some? && 1 <= limit <= 32 && page.None? ==>
                || (forall s | s in sources.value :: !s.healthy)
                || (exists s :: s in sources.value && s.id == source && !s.healthy)
      ensures sources.Some? && page.Some? && (forall s | s in sources.value :: s.healthy) ==>
                forall row | row in page.value.rows :: row.hash.Some?
      ensures sources.None? && page.Some? ==>
                && Shows(page.value, first, selected, limit)
                && SameBlocks(old(entries), entries) && Captured(page.value.rows, old(entries))
                && (page.value.detail.Some? <==> Detailed(old(entries), page.value.bounds.selected))
      ensures page.Some? ==> OnChain(entries, chain) && |entries| <= MAX_ENTRIES
      ensures page.Some? && sources.Some? ==>
                && DetailsBounded(entries)
                && exists s :: s in sources.value && s.id == source && ShowsLive(page.value, s, first, selected, limit)
    {
      hide Valid, DetailsBounded, Linked, OnChain, PageBounds, Captured, Shows, SameBlocks;
      if limit == 0 || limit > 32 { return None; }
      var live: Option<Source> := None;
      if sources.Some? {
        live := Connect(sources.value);
        if live.None? { return None; }
      }
      Facts();
      if tip.None? { return None; }
      var read := ReadPage(first, selected, limit, live);
      page := Some(read);
      if live.Some? {
        page := Refresh(read, live.value);
      }
      Facts();
    }
  }

  ghost predicate Sound(entries: Entries, chain: Chain, used: nat) {
    && DistinctUse(entries) && (forall h | h in entries :: entries[h].used <= used) && OnChain(entries, chain)
  }

  lemma UsesDiffer(entries: Entries, chain: Chain, used: nat)
    requires Sound(entries, chain, used)
    ensures DistinctUse(entries)
  {}

  lemma EvictedSound(before: Entries, kept: Entries, chain: Chain, used: nat)
    requires Sound(before, chain, used) && Newest(before, kept)
    ensures Sound(kept, chain, used)
  {}

  lemma EvictedBounded(before: Entries, kept: Entries)
    requires Newest(before, kept) && DetailsBounded(before)
    ensures DetailsBounded(kept)
  {
    hide DetailsBounded;
    FewerDetails(before, kept);
  }

  lemma NothingCleared(entries: Entries)
    ensures OnlyClears(entries, entries) && forall h | NewestDetail(entries, h) :: Detailed(entries, h)
  {}

  /** Older entries are gone, and some details are cleared. */
  ghost predicate Trimmed(before: Entries, after: Entries) {
    exists kept :: Newest(before, kept) && OnlyClears(kept, after)
  }

  lemma TrimResult(before: Entries, kept: Entries, after: Entries, chain: Chain, used: nat)
    requires Sound(kept, chain, used) && Newest(before, kept) && OnlyClears(kept, after)
    ensures Sound(after, chain, used) && Trimmed(before, after) && |after| == |kept|
  {
    assert |after.Keys| == |kept.Keys|;
  }

  ghost predicate StillServed(before: Entries, after: Entries, h: nat) {
    && h in before && h in after && after[h].hash == before[h].hash && after[h].used == before[h].used
    && (before[h].detail.Some? && Size(before, h) <= MAX_BYTES ==> after[h].detail == before[h].detail)
  }

  lemma ServedStays(before: Entries, kept: Entries, after: Entries, h: nat)
    requires Newest(before, kept) && OnlyClears(kept, after) && Served(before, h) && (|before| > 0 ==> |kept| > 0)
    requires forall x | NewestDetail(kept, x) :: Detailed(after, x)
    ensures StillServed(before, after, h)
  {
    assert h in before.Keys && |before| == |before.Keys|;
    assert kept != map[];
    NewestIsKept(before, kept, h);
    if Detailed(kept, h) && Size(kept, h) <= MAX_BYTES {
      assert NewestDetail(kept, h);
    }
  }

  lemma FewerKeys(a: set<nat>, b: set<nat>)
    requires b <= a
    ensures |b| <= |a|
  {
    assert a == b + (a - b);
  }

  /** The entry most recently used of all. */
  ghost predicate Served(entries: Entries, h: nat) {
    h in entries && forall x | x in entries && x != h :: entries[x].used < entries[h].used
  }

  lemma Settled(entries: Entries, chain: Chain, next: Chain, used: nat)
    requires Sound(entries, chain, used) && Linked(chain, next) && next != []
    ensures chain != [] && chain[|chain| - 1] == next[|next| - 1] ==> chain == next
    ensures chain == [] ==> entries == map[]
  {
    if chain != [] && chain[|chain| - 1] == next[|next| - 1] {
      assert chain[..|chain|] == chain && next[..|next|] == next;
    }
    if chain == [] { assert forall h :: h !in entries; }
  }

  /** When the old tip is on the new chain, every cached entry is. */
  lemma AllStay(entries: Entries, chain: Chain, next: Chain, used: nat)
    requires Sound(entries, chain, used) && Linked(chain, next)
    requires chain == [] || (|chain| <= |next| && chain[|chain| - 1] == next[|chain| - 1])
    ensures StillCanonical(entries, next) == entries && Sound(entries, next, used)
  {
    if chain != [] {
      var n := |chain|;
      assert chain[..n] == chain;
      assert chain == next[..n];
      assert forall h | 0 <= h < n :: chain[h] == next[h];
    }
  }

  /** `anchor` is the highest cached block on the chain. */
  ghost predicate Anchored(entries: Entries, next: Chain, anchor: Option<nat>) {
    && (anchor.Some? ==>
          && anchor.value in entries && anchor.value < |next| && next[anchor.value] == entries[anchor.value].hash
          && forall h | h in entries && h > anchor.value :: h >= |next| || next[h] != entries[h].hash)
    && (anchor.None? ==> forall h | h in entries :: h >= |next| || next[h] != entries[h].hash)
  }

  /** Below an agreeing height everything agrees, so cutting at the highest anchor is exact. */
  lemma AnchorIsExact(entries: Entries, chain: Chain, next: Chain, anchor: Option<nat>)
    requires OnChain(entries, chain) && Linked(chain, next) && Anchored(entries, next, anchor)
    ensures StillCanonical(entries, next) == UpTo(entries, anchor)
  {
    if anchor.Some? {
      var a := anchor.value;
      assert chain[a] == next[a];
      assert chain[..a + 1] == next[..a + 1];
      forall h | h in entries && h <= a ensures next[h] == entries[h].hash {
        assert chain[h] == chain[..a + 1][h] == next[..a + 1][h] == next[h];
      }
    }
  }

  lemma CutsAtAnchor(entries: Entries, chain: Chain, next: Chain, anchor: Option<nat>, used: nat)
    requires Sound(entries, chain, used) && Linked(chain, next) && Anchored(entries, next, anchor)
    ensures StillCanonical(entries, next) == UpTo(entries, anchor)
    ensures Sound(UpTo(entries, anchor), next, used) && |UpTo(entries, anchor)| <= |entries|
    ensures DetailsBounded(entries) ==> DetailsBounded(UpTo(entries, anchor))
  {
    AnchorIsExact(entries, chain, next, anchor);
    hide DetailsBounded, Linked, Anchored, UpTo;
    var kept := StillCanonical(entries, next);
    assert kept.Keys <= entries.Keys;
    assert |kept.Keys| <= |entries.Keys| by { FewerKeys(entries.Keys, kept.Keys); }
    if DetailsBounded(entries) { FewerDetails(entries, kept); }
  }

  lemma Inserted(entries: Entries, chain: Chain, used: nat, height: nat)
    requires Sound(entries, chain, used) && height !in entries && height < |chain|
    ensures var more := entries[height := Entry(chain[height], None, used + 1)];
            && Sound(more, chain, used + 1) && Served(more, height)
            && (DetailsBounded(entries) ==> DetailsBounded(more))
  {
    var more := entries[height := Entry(chain[height], None, used + 1)];
    if DetailsBounded(entries) { FewerDetails(entries, more); }
  }

  lemma Touched(entries: Entries, chain: Chain, used: nat, height: nat)
    requires Sound(entries, chain, used) && height in entries
    ensures var after := entries[height := entries[height].(used := used + 1)];
            && Sound(after, chain, used + 1) && Served(after, height) && |after| == |entries|
            && (DetailsBounded(entries) ==> DetailsBounded(after))
    ensures height < |chain| && entries[height].hash == chain[height]
  {
    var after := entries[height := entries[height].(used := used + 1)];
    assert |after.Keys| == |entries.Keys|;
    if DetailsBounded(entries) { FewerDetails(entries, after); }
  }

  lemma DetailSet(entries: Entries, chain: Chain, used: nat, height: nat, size: nat)
    requires Sound(entries, chain, used) && height in entries
    ensures var after := entries[height := entries[height].(detail := Some(size))];
            Sound(after, chain, used) && |after| == |entries| && (Served(entries, height) ==> Served(after, height))
  {
    var after := entries[height := entries[height].(detail := Some(size))];
    assert |after.Keys| == |entries.Keys|;
  }

  lemma KeptWhenServed(before: Entries, after: Entries, h: nat)
    requires Served(before, h) && (forall x | Served(before, x) :: StillServed(before, after, x))
    ensures h in after
  {}

  lemma DetailWhenServed(before: Entries, after: Entries, h: nat)
    requires Served(before, h) && (forall x | Served(before, x) :: StillServed(before, after, x))
    requires before[h].detail.Some? && Size(before, h) <= MAX_BYTES
    ensures h in after && after[h].detail == before[h].detail && after[h].hash == before[h].hash
  {
    assert StillServed(before, after, h);
  }

  function Matching(sources: seq<Source>, id: string, wanted: bool): seq<Source> {
    if sources == [] then []
    else
      Matching(sources[..|sources| - 1], id, wanted)
      + (if (sources[|sources| - 1].id == id) == wanted then [sources[|sources| - 1]] else [])
  }

  lemma {:induction false} MatchingAre(sources: seq<Source>, id: string, wanted: bool)
    ensures forall s :: s in Matching(sources, id, wanted) <==> s in sources && (s.id == id) == wanted
    decreases |sources|
  {
    if sources != [] {
      var n := |sources| - 1;
      MatchingAre(sources[..n], id, wanted);
      assert sources == sources[..n] + [sources[n]];
    }
  }

  lemma NothingLinked()
    ensures forall b: Chain :: Linked([], b)
  {}

  /** The same blocks with the same details; only their use may differ. */
  ghost predicate SameBlocks(before: Entries, after: Entries) {
    && before.Keys == after.Keys
    && forall h | h in before :: before[h].hash == after[h].hash && before[h].detail == after[h].detail
  }

  lemma SameBlocksChain(a: Entries, b: Entries, c: Entries, h: nat)
    requires SameBlocks(a, b) && SameBlocks(b, c)
    ensures SameBlocks(a, c) && (Detailed(a, h) <==> Detailed(b, h))
  {}

  /** A row shows a block exactly when its height is cached. */
  ghost predicate Captured(rows: seq<Row>, entries: Entries) {
    forall row | row in rows :: row.hash.Some? <==> row.height in entries
  }

  /** The rows are consecutive heights, and every hash shown is the chain's. */
  ghost predicate RowsOf(page: Page, chain: Chain) {
    && page.bounds.last < |chain| && page.bounds.first <= page.bounds.last
    && |page.rows| == page.bounds.last - page.bounds.first + 1
    && forall i | 0 <= i < |page.rows| ::
         && page.rows[i].height == page.bounds.first + i
         && (page.rows[i].hash.Some? ==> page.rows[i].hash.value == chain[page.bounds.first + i])
  }
}
