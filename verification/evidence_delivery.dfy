/**
 What a client is sure to hold after reading files that grow while they are read: all that
 was complete when the reading began.
 */
module EvidenceDelivery {
  import opened Wrappers
  import opened EvidenceStream
  import opened EvidenceQuery
  import opened EvidenceJournal

  // ----- a cursor that has passed some contents -----

  /** No complete record of the file starts at or after the offset. */
  predicate Past(file: Option<string>, offset: nat) {
    file.None? || offset >= |file.value| || LineEnd(file.value, offset).None?
  }

  /** The cursor has passed what these files hold of the source. */
  predicate CaughtAt(q: Query, files: Files, c: Cursor, source: nat)
    requires |files| == 3 && |c.offsets| == 3
  {
    && source < SOURCES
    && if source == SNAPSHOT then FirstSnapshot(q, c, 0).None?
       else !Selected(q, source) || Past(files[source - 1], c.offsets[source - 1])
  }

  /** It has passed what they hold of the `idle` sources before the one whose turn it is. */
  ghost predicate CaughtBehind(q: Query, files: Files, c: Cursor, idle: nat) {
    && |files| == 3 && |c.offsets| == 3 && c.next < SOURCES && (idle > 0 ==> c.pending == NO_PENDING)
    && forall s | 0 <= s < SOURCES && (c.next + SOURCES - 1 - s) % SOURCES < idle :: CaughtAt(q, files, c, s)
  }

  lemma {:induction false} SameFirstSnapshot(q: Query, c: Cursor, d: Cursor, first: nat)
    requires c.snapshots == d.snapshots
    ensures FirstSnapshot(q, c, first) == FirstSnapshot(q, d, first)
    decreases |q.sources| - first
  {
    if first < |q.sources| { SameFirstSnapshot(q, c, d, first + 1); }
  }

  /** Passing what is there now passes what was there before. */
  lemma PastBefore(before: string, now: string, offset: nat)
    requires before <= now && Past(Some(now), offset)
    ensures Past(Some(before), offset)
  {
    if offset < |before| {
      assert now == before + now[|before|..];
      LineEndGrows(before, offset, now[|before|..]);
    }
  }

  /** A turn that finds nothing now leaves nothing of the earlier contents. */
  lemma IdleCatches(q: Query, files: Files, now: Files, c: Cursor, idle: nat)
    requires CaughtBehind(q, files, c, idle) && idle < SOURCES && c.pending == NO_PENDING
    requires Grown(files, now) && Shaped(now, c) && !Turn(q, now, c).active
    ensures CaughtBehind(q, files, Turned(c), idle + 1)
  {
    if c.next != SNAPSHOT && files[c.next - 1].Some? && Selected(q, c.next) {
      PastBefore(files[c.next - 1].value, now[c.next - 1].value, c.offsets[c.next - 1]);
    }
    SameFirstSnapshot(q, c, Turned(c), 0);
    assert CaughtAt(q, files, c, c.next);
    forall s | 0 <= s < SOURCES && (Turned(c).next + SOURCES - 1 - s) % SOURCES < idle + 1
      ensures CaughtAt(q, files, Turned(c), s)
    {
      if s != c.next { assert (c.next + SOURCES - 1 - s) % SOURCES < idle; }
      assert CaughtAt(q, files, c, s);
    }
  }

  // ----- what is out -----

  /** Each file's complete records are out, all of them and before any later ones, and so is every snapshot family. */
  ghost predicate Delivered(q: Query, files: Files, out: seq<Item>) {
    && |files| == 3
    && (forall s | 1 <= s < SOURCES && files[s - 1].Some? ::
          Lines(q, s, files[s - 1].value, 0, |files[s - 1].value|) <= Of(q, s, out))
    && (forall i: nat | i < |q.sources| && q.sources[i] == SNAPSHOT :: Item(i, 0) in out)
  }

  /** Delivered means that every complete record is out for every family it belongs to. */
  lemma DeliveredHas(q: Query, files: Files, out: seq<Item>, source: nat, start: nat, family: nat)
    requires Delivered(q, files, out) && 1 <= source < SOURCES && files[source - 1].Some?
    requires start <= |files[source - 1].value| && Boundary(files[source - 1].value, 0, start)
    requires LineEnd(files[source - 1].value, start).Some?
    requires Hit(q, source, Text(files[source - 1].value, start), family)
    ensures Item(family, start) in out
  {
    var content := files[source - 1].value;
    LinesHold(q, source, content, 0, |content|, start, family);
    assert Item(family, start) in Of(q, source, out);
    OfSubset(q, source, out, Item(family, start));
  }

  lemma {:induction false} OfSubset(q: Query, source: nat, out: seq<Item>, item: Item)
    requires item in Of(q, source, out)
    ensures item in out
  {
    if item != out[|out| - 1] { OfSubset(q, source, out[..|out| - 1], item); }
  }

  lemma {:induction false} SnapshotsHave(q: Query, c: Cursor, first: nat, family: nat)
    requires first <= family < |q.sources| && q.sources[family] == SNAPSHOT && Emitted(c, family)
    ensures Item(family, 0) in Snapshots(q, c, first)
    decreases family - first
  {
    if first < family { SnapshotsHave(q, c, first + 1, family); }
  }

  lemma {:induction false} UnselectedLines(q: Query, source: nat, content: string, from: nat, upto: nat)
    requires from <= |content| && !Selected(q, source)
    ensures Lines(q, source, content, from, upto) == []
    decreases |content| - from
  {
    if from < upto && LineEnd(content, from).Some? {
      SkipItems(q, source, Text(content, from), 0, |q.sources|, from);
      UnselectedLines(q, source, content, LineEnd(content, from).value, upto);
    }
  }

  /** The complete records of the earlier contents come first among those read from the later. */
  lemma {:induction false} PastLines(q: Query, source: nat, before: string, now: string, from: nat, offset: nat)
    requires before <= now && from <= |before| && Past(Some(before), offset)
    requires Boundary(now, from, offset)
    ensures Lines(q, source, before, from, |before|) <= Lines(q, source, now, from, offset)
    decreases |before| - from
  {
    if LineEnd(before, from).Some? {
      hide RecordItems;
      assert now == before + now[|before|..];
      LineEndGrows(before, from, now[|before|..]);
      assert Text(now, from) == Text(before, from);
      var next := LineEnd(before, from).value;
      assert from != offset;
      BoundaryOrder(now, next, offset);
      PastLines(q, source, before, now, next, offset);
    }
  }

  lemma CaughtDelivers(q: Query, files: Files, now: Files, c: Cursor, idle: nat, out: seq<Item>)
    requires CaughtBehind(q, files, c, idle) && idle >= SOURCES && Grown(files, now) && Journal(q, now, c, out)
    ensures Delivered(q, files, out)
  {
    hide Lines, Of, FirstSnapshot, Snapshots;
    forall s | 1 <= s < SOURCES && files[s - 1].Some?
      ensures Lines(q, s, files[s - 1].value, 0, |files[s - 1].value|) <= Of(q, s, out)
    {
      assert CaughtAt(q, files, c, s);
      assert FileJournal(q, s, now[s - 1], c.offsets[s - 1], PendingAt(c, s), Of(q, s, out));
      if Selected(q, s) {
        PastLines(q, s, files[s - 1].value, now[s - 1].value, 0, c.offsets[s - 1]);
      } else {
        UnselectedLines(q, s, files[s - 1].value, 0, |files[s - 1].value|);
      }
    }
    assert CaughtAt(q, files, c, SNAPSHOT);
    forall i: nat | i < |q.sources| && q.sources[i] == SNAPSHOT ensures Item(i, 0) in out {
      SnapshotsHave(q, c, 0, i);
      OfSubset(q, SNAPSHOT, out, Item(i, 0));
    }
  }

  /** What is delivered of later contents is delivered of earlier ones. */
  lemma DeliveredBefore(q: Query, before: Files, now: Files, out: seq<Item>)
    requires Grown(before, now) && Delivered(q, now, out)
    ensures Delivered(q, before, out)
  {
    hide Lines, Of;
    forall s | 1 <= s < SOURCES && before[s - 1].Some?
      ensures Lines(q, s, before[s - 1].value, 0, |before[s - 1].value|) <= Of(q, s, out)
    {
      LinesBefore(q, s, before[s - 1].value, now[s - 1].value, 0);
    }
  }

  lemma {:induction false} LinesBefore(q: Query, source: nat, before: string, now: string, from: nat)
    requires before <= now && from <= |before|
    ensures Lines(q, source, before, from, |before|) <= Lines(q, source, now, from, |now|)
    decreases |before| - from
  {
    if LineEnd(before, from).Some? {
      hide RecordItems;
      assert now == before + now[|before|..];
      LineEndGrows(before, from, now[|before|..]);
      assert Text(now, from) == Text(before, from);
      LinesBefore(q, source, before, now, LineEnd(before, from).value);
    }
  }

  // ----- how far a cursor is -----

  /** The work that is left up to what the files hold: smaller after every turn that found something. */
  function Ahead(q: Query, c: Cursor): int
    requires |c.offsets| == 3
  {
    Unemitted(q, c, 0) - 256 * (c.offsets[0] + c.offsets[1] + c.offsets[2])
    - (if c.pending == NO_PENDING then 0 else c.pending)
  }

  lemma AheadOfWork(q: Query, files: Files, c: Cursor, d: Cursor)
    requires Shaped(files, c) && Shaped(files, d)
    ensures Work(q, files, c) - Work(q, files, d) == Ahead(q, c) - Ahead(q, d)
  {}

  const FARTHEST: nat := 768 * OFFSET_LIMIT

  lemma AheadIsBounded(q: Query, files: Files, c: Cursor)
    requires Sane(q, files, c)
    ensures 0 <= FARTHEST + Ahead(q, c)
  {
    hide Parses;
  }
}
