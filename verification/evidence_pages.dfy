/**
 The page loop of QueryMcpRunEvidence, and clients that chain pages.
 */
module EvidencePages {
  import opened Wrappers
  import opened EvidenceStream
  import opened EvidenceQuery
  import opened EvidenceJournal
  import opened EvidenceCursor
  import opened EvidenceDelivery

  // ----- nothing left -----

  /** A turn of this source finds nothing. */
  ghost predicate QuietAt(q: Query, files: Files, c: Cursor, source: nat)
    requires Shaped(files, c)
  {
    && source < SOURCES
    && (source == SNAPSHOT ==> FirstSnapshot(q, c, 0).None?)
    && (source != SNAPSHOT ==> !HasRecord(q, files, c.(next := source)))
  }

  ghost predicate Exhausted(q: Query, files: Files, c: Cursor)
    requires Shaped(files, c)
  {
    c.pending == NO_PENDING && forall s | 0 <= s < SOURCES :: QuietAt(q, files, c, s)
  }

  /** The `idle` sources before the one whose turn it is were quiet. */
  ghost predicate QuietBehind(q: Query, files: Files, c: Cursor, idle: nat)
    requires Shaped(files, c)
  {
    forall s | 0 <= s < SOURCES && (c.next + SOURCES - 1 - s) % SOURCES < idle :: QuietAt(q, files, c, s)
  }

  lemma QuietTurned(q: Query, files: Files, c: Cursor, s: nat)
    requires Shaped(files, c) && QuietAt(q, files, c, s)
    ensures QuietAt(q, files, Turned(c), s)
  {
    SameFirstSnapshot(q, c, Turned(c), 0);
  }

  lemma IdleTurnIsQuiet(q: Query, files: Files, c: Cursor, idle: nat)
    requires Shaped(files, c) && QuietBehind(q, files, c, idle) && idle < SOURCES && !Turn(q, files, c).active
    ensures QuietBehind(q, files, Turned(c), idle + 1)
  {
    assert c.next != SNAPSHOT ==> c.(next := c.next) == c;
    assert QuietAt(q, files, c, c.next);
    forall s | 0 <= s < SOURCES && (Turned(c).next + SOURCES - 1 - s) % SOURCES < idle + 1
      ensures QuietAt(q, files, Turned(c), s)
    {
      if s != c.next { assert (c.next + SOURCES - 1 - s) % SOURCES < idle; }
      QuietTurned(q, files, c, s);
    }
  }

  /** Nothing left: the scan from here emits nothing. */
  lemma {:induction false} ExhaustedStream(q: Query, files: Files, c: Cursor, idle: nat)
    requires Admitted(q) && Shaped(files, c) && Exhausted(q, files, c)
    ensures Stream(q, files, c, idle) == []
    decreases SOURCES - idle
  {
    if idle < SOURCES {
      assert QuietAt(q, files, c, c.next);
      assert c.next != SNAPSHOT ==> c.(next := c.next) == c;
      var next := Turned(c);
      forall s | 0 <= s < SOURCES ensures QuietAt(q, files, next, s) { QuietTurned(q, files, c, s); }
      ExhaustedStream(q, files, next, idle + 1);
    }
  }

  /** Everything is out: each file's records in order, each exactly once, and every snapshot family. */
  lemma ExhaustedJournal(q: Query, files: Files, c: Cursor, out: seq<Item>, source: nat)
    requires Admitted(q) && Shaped(files, c) && Exhausted(q, files, c) && Journal(q, files, c, out)
    requires 1 <= source < SOURCES
    ensures Of(q, source, out)
         == if files[source - 1].None? then []
            else Lines(q, source, files[source - 1].value, 0, |files[source - 1].value|)
    ensures forall i | 0 <= i < |q.sources| && q.sources[i] == SNAPSHOT :: Emitted(c, i)
  {
    assert QuietAt(q, files, c, source) && QuietAt(q, files, c, SNAPSHOT);
    assert PendingAt(c, source) == NO_PENDING;
    if files[source - 1].Some? {
      var content, offset := files[source - 1].value, c.offsets[source - 1];
      if LineEnd(content, offset).None? {
        LinesAll(q, source, content, 0, offset);
      } else {
        assert !Selected(q, source);
        UnselectedLines(q, source, content, 0, offset);
        UnselectedLines(q, source, content, 0, |content|);
      }
    }
  }

  // ----- one turn -----

  /** A decoded cursor. */
  predicate Decoded(files: Files, c: Cursor) {
    |files| == 3 && |c.offsets| == 3 && |c.snapshots| == WORDS && c.next < SOURCES
  }

  method FindSnapshot(q: Query, c: Cursor) returns (r: Option<nat>)
    ensures r == FirstSnapshot(q, c, 0)
  {
    var index := 0;
    while index < |q.sources|
      invariant 0 <= index <= |q.sources|
      invariant FirstSnapshot(q, c, 0) == FirstSnapshot(q, c, index)
    {
      if q.sources[index] == SNAPSHOT && !Emitted(c, index) { return Some(index); }
      index := index + 1;
    }
    return None;
  }

  method HasFamily(q: Query, source: nat) returns (r: bool)
    ensures r == Selected(q, source)
  {
    var index := 0;
    while index < |q.sources|
      invariant 0 <= index <= |q.sources|
      invariant forall i | 0 <= i < index :: q.sources[i] != source
    {
      if q.sources[index] == source { return true; }
      index := index + 1;
    }
    return false;
  }

  method SnapshotTurn(q: Query, ghost files: Files, c: Cursor) returns (v: Visit)
    requires Decoded(files, c) && c.next == SNAPSHOT && Admitted(q)
    ensures Shaped(files, c) ==> v == Turn(q, files, c)
    ensures |v.items| == if v.active then 1 else 0
    ensures Decoded(files, v.cursor) && v.cursor.offsets == c.offsets
    ensures Unemitted(q, v.cursor, 0) == Unemitted(q, c, 0) - |v.items|
  {
    var family := FindSnapshot(q, c);
    if family.Some? {
      MarkUnemitted(q, c, family.value, 0);
      v := Visit([Item(family.value, 0)], Turned(Mark(c, family.value)), true);
      SameSnapshots(q, Mark(c, family.value), v.cursor, 0);
    } else {
      v := Visit([], Turned(c), false);
      SameSnapshots(q, c, v.cursor, 0);
    }
  }

  datatype FileVisit = Broken | Idle | Read(items: seq<Item>, cursor: Cursor, full: bool, bytes: nat)

  ghost predicate FileTurned(q: Query, files: Files, c: Cursor, room: nat, v: FileVisit)
    requires Decoded(files, c) && c.next != SNAPSHOT
  {
    && (Sane(q, files, c) ==> !v.Broken?)
    && (v.Idle? && Sane(q, files, c) ==> !Turn(q, files, c).active && c.pending == NO_PENDING)
    && (v.Read? ==>
          && files[c.next - 1].Some? && c.offsets[c.next - 1] <= |files[c.next - 1].value|
          && Selected(q, c.next) && LineEnd(files[c.next - 1].value, c.offsets[c.next - 1]).Some?
          && Took(q, files[c.next - 1].value, c, v.items, v.cursor)
          && (if v.full then |v.items| == room else |v.items| < room)
          && Decoded(files, v.cursor) && v.cursor.snapshots == c.snapshots)
  }

  /** One turn of a file source; `Broken` stands for every error the turn can raise. */
  method FileTurn(q: Query, files: Files, c: Cursor, room: nat) returns (v: FileVisit)
    requires Decoded(files, c) && c.next != SNAPSHOT && Admitted(q) && 0 < room
    ensures FileTurned(q, files, c, room, v)
  {
    var selected := HasFamily(q, c.next);
    if !selected { return Idle; }
    var file, offset := files[c.next - 1], c.offsets[c.next - 1];
    if file.None? { return if offset != 0 || c.pending != NO_PENDING then Broken else Idle; }
    if offset > |file.value| { return Broken; }
    var line := ReadLine(file.value, offset);
    if line.TooLong? { return Broken; }
    if line.Absent? { return if c.pending != NO_PENDING then Broken else Idle; }
    if !q.valid(line.text) || (c.pending != NO_PENDING && c.pending >= |q.sources|) { return Broken; }
    var ok, items, after, full := TakeRecord(q, file.value, c, room);
    if !ok { return Broken; }
    return Read(items, after, full, line.next - offset);
  }

  lemma SaneSnapshot(q: Query, files: Files, c: Cursor, family: nat)
    requires Sane(q, files, c) && c.next == SNAPSHOT && FirstSnapshot(q, c, 0) == Some(family)
    ensures Sane(q, files, Turned(Mark(c, family)))
    ensures Work(q, files, Turned(Mark(c, family))) < Work(q, files, c)
  {
    hide Parses;
    MarkUnemitted(q, c, family, 0);
    SameSnapshots(q, Mark(c, family), Turned(Mark(c, family)), 0);
  }

  lemma SaneIdle(q: Query, files: Files, c: Cursor)
    requires Sane(q, files, c) && c.pending == NO_PENDING
    ensures Sane(q, files, Turned(c)) && Work(q, files, Turned(c)) == Work(q, files, c)
  {
    hide Parses;
    SameSnapshots(q, c, Turned(c), 0);
  }

  lemma PackableIdle(q: Query, c: Cursor)
    requires Packable(q, c)
    ensures Packable(q, Turned(c))
  {
    forall family: nat | Emitted(Turned(c), family) ensures Emitted(c, family) {}
  }

  lemma PackableSnapshot(q: Query, c: Cursor, family: nat)
    requires Admitted(q) && Packable(q, c) && FirstSnapshot(q, c, 0) == Some(family)
    ensures Packable(q, Turned(Mark(c, family)))
  {
    hide Pow2, WithBit;
    var after := Turned(Mark(c, family));
    WithBitFits(c.snapshots[family / 64], family % 64, 64);
    forall other: nat | Emitted(after, other) ensures other == family || Emitted(c, other) {
      MarkEmits(c, family, other);
    }
  }

  lemma PackableTook(q: Query, files: Files, c: Cursor, items: seq<Item>, after: Cursor)
    requires Sane(q, files, c) && Packable(q, c) && c.next != SNAPSHOT && HasRecord(q, files, c)
    requires Took(q, files[c.next - 1].value, c, items, after)
    ensures Packable(q, after)
  {
    hide RecordItems, Parses, Pow2;
    forall family: nat | Emitted(after, family) ensures Emitted(c, family) {}
  }

  /** What a page loop has established so far. */
  ghost predicate Going(q: Query, files: Files, start: Cursor, c: Cursor, items: seq<Item>, idle: nat, out: seq<Item>) {
    && Sane(q, files, start) && Sane(q, files, c)
    && items + Stream(q, files, c, idle) == Stream(q, files, start, 0)
    && Work(q, files, c) <= Work(q, files, start)
    && (items != [] ==> Work(q, files, c) < Work(q, files, start))
    && QuietBehind(q, files, c, idle) && (idle > 0 ==> c.pending == NO_PENDING)
    && (Journal(q, files, start, out) ==> Journal(q, files, c, out + items))
    && (Packable(q, start) ==> Packable(q, c))
  }

  lemma GoingIdle(q: Query, files: Files, start: Cursor, c: Cursor, items: seq<Item>, idle: nat, out: seq<Item>)
    requires Going(q, files, start, c, items, idle, out) && idle < SOURCES
    requires !Turn(q, files, c).active && c.pending == NO_PENDING
    ensures Going(q, files, start, Turned(c), items, idle + 1, out)
  {
    hide Parses, Journal, FirstSnapshot, HasRecord, Packable;
    SaneIdle(q, files, c);
    IdleTurnIsQuiet(q, files, c, idle);
    if Journal(q, files, start, out) { IdleJournals(q, files, c, out + items); }
    if Packable(q, start) { PackableIdle(q, c); }
  }

  lemma SnapshotStreams(q: Query, files: Files, c: Cursor, idle: nat, family: nat)
    requires Admitted(q) && Shaped(files, c) && idle < SOURCES
    requires c.next == SNAPSHOT && FirstSnapshot(q, c, 0) == Some(family)
    ensures Shaped(files, Turned(Mark(c, family)))
    ensures Stream(q, files, c, idle) == [Item(family, 0)] + Stream(q, files, Turned(Mark(c, family)), 0)
  {}

  lemma GoingSnapshot(q: Query, files: Files, start: Cursor, c: Cursor, items: seq<Item>, idle: nat, out: seq<Item>,
                      family: nat)
    requires Going(q, files, start, c, items, idle, out) && idle < SOURCES
    requires c.next == SNAPSHOT && FirstSnapshot(q, c, 0) == Some(family)
    ensures Going(q, files, start, Turned(Mark(c, family)), items + [Item(family, 0)], 0, out)
  {
    hide Parses, Journal, HasRecord, Mark, Packable, Stream, Work;
    SaneSnapshot(q, files, c, family);
    SnapshotStreams(q, files, c, idle, family);
    if Journal(q, files, start, out) {
      SnapshotJournals(q, files, c, family, out + items);
      assert out + items + [Item(family, 0)] == out + (items + [Item(family, 0)]);
    }
    if Packable(q, start) { PackableSnapshot(q, c, family); }
  }

  lemma GoingRecord(q: Query, files: Files, start: Cursor, c: Cursor, items: seq<Item>, idle: nat, out: seq<Item>,
                    more: seq<Item>, after: Cursor)
    requires Going(q, files, start, c, items, idle, out) && idle < SOURCES && c.next != SNAPSHOT
    requires HasRecord(q, files, c) && Took(q, files[c.next - 1].value, c, more, after)
    ensures Going(q, files, start, after, items + more, 0, out) && Work(q, files, after) < Work(q, files, start)
  {
    hide Parses, Journal, Took, Stream, Work, Packable;
    TookStaysSane(q, files, c, more, after);
    TookStreams(q, files, c, more, after, idle);
    TookWorks(q, files, c, more, after);
    if Journal(q, files, start, out) {
      TookJournals(q, files, c, more, after, out + items);
      assert out + items + more == out + (items + more);
    }
    if Packable(q, start) { PackableTook(q, files, c, more, after); }
    assert items + more + Stream(q, files, after, 0) == items + (more + Stream(q, files, after, 0));
  }

  lemma GoingStarts(q: Query, files: Files, start: Cursor, out: seq<Item>)
    requires Sane(q, files, start)
    ensures Going(q, files, start, start, [], 0, out)
  {
    hide Parses, Journal, Stream, Packable;
    assert [] + Stream(q, files, start, 0) == Stream(q, files, start, 0);
    assert out + [] == out;
  }

  lemma GoingEnds(q: Query, files: Files, start: Cursor, c: Cursor, items: seq<Item>, idle: nat, out: seq<Item>)
    requires Going(q, files, start, c, items, idle, out) && idle >= SOURCES
    ensures Exhausted(q, files, c) && Stream(q, files, c, 0) == [] && items == Stream(q, files, start, 0)
  {
    hide Parses, Journal, Packable;
    ExhaustedStream(q, files, c, 0);
    assert Stream(q, files, c, idle) == [];
  }

  lemma SnapshotGoes(q: Query, files: Files, start: Cursor, c: Cursor, items: seq<Item>, idle: nat, out: seq<Item>,
                     v: Visit)
    requires Going(q, files, start, c, items, idle, out) && idle < SOURCES && c.next == SNAPSHOT
    requires Shaped(files, c) ==> v == Turn(q, files, c)
    ensures Going(q, files, start, v.cursor, items + v.items, if v.active then 0 else idle + 1, out)
    ensures v.active ==>
              Shaped(files, v.cursor) && Shaped(files, start) && Work(q, files, v.cursor) < Work(q, files, start)
  {
    hide Parses, Journal, Packable, Stream, QuietBehind, Work, Mark;
    if v.active {
      GoingSnapshot(q, files, start, c, items, idle, out, FirstSnapshot(q, c, 0).value);
    } else {
      GoingIdle(q, files, start, c, items, idle, out);
      assert items + [] == items;
    }
  }

  lemma FileGoes(q: Query, files: Files, start: Cursor, c: Cursor, items: seq<Item>, idle: nat, out: seq<Item>,
                 room: nat, v: FileVisit)
    requires Going(q, files, start, c, items, idle, out) && idle < SOURCES && c.next != SNAPSHOT && Decoded(files, c)
    requires FileTurned(q, files, c, room, v)
    ensures !v.Broken?
    ensures v.Idle? ==> Going(q, files, start, Turned(c), items, idle + 1, out)
    ensures v.Read? ==>
              && Going(q, files, start, v.cursor, items + v.items, 0, out)
              && Shaped(files, v.cursor) && Shaped(files, start) && Work(q, files, v.cursor) < Work(q, files, start)
  {
    hide Parses, Journal, Packable, Stream, QuietBehind, Work, Took;
    match v
    case Broken =>
    case Idle => GoingIdle(q, files, start, c, items, idle, out);
    case Read(more, after, _, _) => GoingRecord(q, files, start, c, items, idle, out, more, after);
  }

  lemma GoingGives(q: Query, files: Files, start: Cursor, c: Cursor, items: seq<Item>, idle: nat, out: seq<Item>)
    requires Going(q, files, start, c, items, idle, out)
    ensures Sane(q, files, c) && Shaped(files, c) && Shaped(files, start) && Admitted(q)
    ensures items + Stream(q, files, c, idle) == Stream(q, files, start, 0)
    ensures Journal(q, files, start, out) ==> Journal(q, files, c, out + items)
    ensures Packable(q, start) ==> Packable(q, c)
  {
    hide Parses, Journal, Packable, Stream, QuietBehind, Work;
  }

  // ----- files that grow while a page is read -----

  ghost predicate WellFormed(q: Query, files: Files) {
    && Admitted(q) && |files| == 3
    && forall s | 0 <= s < 3 :: Length(files[s]) < OFFSET_LIMIT && (files[s].Some? ==> Parses(q, files[s].value, 0))
  }

  /** What each turn finds: every line read looks at the current size again, and writers only append. */
  ghost predicate Growing(q: Query, views: nat -> Files) {
    && (forall i: nat :: WellFormed(q, views(i)))
    && (forall i: nat, j: nat | i <= j :: Grown(views(i), views(j)))
  }

  /** What a client holds: a usable cursor, and every record up to it exactly once. */
  ghost predicate Live(q: Query, files: Files, c: Cursor, out: seq<Item>) {
    Sane(q, files, c) && Journal(q, files, c, out) && Packable(q, c)
  }

  lemma SnapshotLives(q: Query, files: Files, c: Cursor, out: seq<Item>, v: Visit)
    requires Live(q, files, c, out) && c.next == SNAPSHOT && (Shaped(files, c) ==> v == Turn(q, files, c))
    ensures Live(q, files, v.cursor, out + v.items)
    ensures Shaped(files, c) && Shaped(files, v.cursor)
    ensures v.active ==> Work(q, files, v.cursor) < Work(q, files, c)
    ensures !v.active ==> v.cursor == Turned(c) && c.pending == NO_PENDING && v.items == []
  {
    hide Sane, Packable, Going, Mark, Work, Stream;
    GoingStarts(q, files, c, out);
    SnapshotGoes(q, files, c, c, [], 0, out, v);
    assert [] + v.items == v.items;
    GoingGives(q, files, c, v.cursor, v.items, if v.active then 0 else 1, out);
  }

  lemma FileLives(q: Query, files: Files, c: Cursor, out: seq<Item>, room: nat, v: FileVisit)
    requires Live(q, files, c, out) && c.next != SNAPSHOT && Decoded(files, c) && FileTurned(q, files, c, room, v)
    ensures !v.Broken? && Shaped(files, c)
    ensures v.Idle? ==> Live(q, files, Turned(c), out) && c.pending == NO_PENDING && !Turn(q, files, c).active
    ensures v.Read? ==>
              && Live(q, files, v.cursor, out + v.items)
              && Shaped(files, v.cursor) && Work(q, files, v.cursor) < Work(q, files, c)
  {
    hide Sane, Journal, Packable, Going, Took, Turn, Work;
    SaneShaped(q, files, c);
    GoingStarts(q, files, c, out);
    FileGoes(q, files, c, c, [], 0, out, room, v);
    assert out + [] == out;
    if v.Idle? { GoingGives(q, files, c, Turned(c), [], 1, out); }
    if v.Read? {
      assert [] + v.items == v.items;
      GoingGives(q, files, c, v.cursor, v.items, 0, out);
    }
  }

  lemma LiveGrows(q: Query, views: nat -> Files, i: nat, j: nat, c: Cursor, out: seq<Item>)
    requires Growing(q, views) && i <= j && Live(q, views(i), c, out)
    ensures Live(q, views(j), c, out)
  {
    hide Sane, Journal, Packable, Grown, WellFormed;
    assert WellFormed(q, views(j)) && Grown(views(i), views(j));
    SaneGrows(q, views(i), views(j), c, out);
  }

  /** A page begun at view `first` stands at view `last`; the turns since the last find were idle. */
  ghost predicate Reading(q: Query, views: nat -> Files, first: nat, last: nat, start: Cursor, c: Cursor,
                          out: seq<Item>, idle: nat)
  {
    && Growing(q, views) && first <= last && Live(q, views(last), c, out)
    && CaughtBehind(q, views(first), c, idle)
    && |start.offsets| == |c.offsets| == 3 && Ahead(q, c) <= Ahead(q, start)
  }

  lemma ReadingStarts(q: Query, views: nat -> Files, first: nat, start: Cursor, out: seq<Item>)
    requires Growing(q, views) && Live(q, views(first), start, out)
    ensures Reading(q, views, first, first, start, start, out, 0)
  {}

  lemma SnapshotReads(q: Query, views: nat -> Files, first: nat, last: nat, start: Cursor, c: Cursor, out: seq<Item>,
                      idle: nat, v: Visit)
    requires Reading(q, views, first, last, start, c, out, idle) && c.next == SNAPSHOT && idle < SOURCES
    requires Shaped(views(last), c) ==> v == Turn(q, views(last), c)
    ensures Reading(q, views, first, last + 1, start, v.cursor, out + v.items, if v.active then 0 else idle + 1)
    ensures v.active ==> |v.cursor.offsets| == |start.offsets| == 3 && Ahead(q, v.cursor) < Ahead(q, start)
  {
    hide Live, Growing, Grown, Work, Ahead, Mark;
    SnapshotLives(q, views(last), c, out, v);
    AheadOfWork(q, views(last), v.cursor, c);
    GrowsOn(q, views, first, last, v.cursor, out + v.items);
    if !v.active {
      IdleCatches(q, views(first), views(last), c, idle);
      AheadTurned(q, c);
    }
  }

  lemma FileReads(q: Query, views: nat -> Files, first: nat, last: nat, start: Cursor, c: Cursor, out: seq<Item>,
                  idle: nat, room: nat, v: FileVisit)
    requires Reading(q, views, first, last, start, c, out, idle) && c.next != SNAPSHOT && idle < SOURCES
    requires Decoded(views(last), c) && FileTurned(q, views(last), c, room, v)
    ensures !v.Broken?
    ensures v.Idle? ==> Reading(q, views, first, last + 1, start, Turned(c), out, idle + 1)
    ensures v.Read? ==>
              && Reading(q, views, first, last + 1, start, v.cursor, out + v.items, 0)
              && |v.cursor.offsets| == |start.offsets| == 3 && Ahead(q, v.cursor) < Ahead(q, start)
  {
    hide Live, Growing, Grown, Work, Ahead, FileTurned, Turn;
    FileLives(q, views(last), c, out, room, v);
    match v
    case Idle =>
      GrowsOn(q, views, first, last, Turned(c), out);
      IdleCatches(q, views(first), views(last), c, idle);
      AheadTurned(q, c);
    case Read(items, after, _, _) =>
      AheadOfWork(q, views(last), after, c);
      GrowsOn(q, views, first, last, after, out + items);
  }

  lemma AheadTurned(q: Query, c: Cursor)
    requires |c.offsets| == 3 && c.pending == NO_PENDING
    ensures Ahead(q, Turned(c)) == Ahead(q, c)
  {
    SameSnapshots(q, c, Turned(c), 0);
  }

  lemma GrowsOn(q: Query, views: nat -> Files, first: nat, last: nat, c: Cursor, out: seq<Item>)
    requires Growing(q, views) && first <= last && Live(q, views(last), c, out)
    ensures Live(q, views(last + 1), c, out) && Grown(views(first), views(last))
    ensures CaughtBehind(q, views(first), c, 0)
  {
    hide Sane, Journal, Packable, WellFormed;
    LiveGrows(q, views, last, last + 1, c, out);
    SaneDecoded(q, views(last), c);
  }

  lemma ReadingEnds(q: Query, views: nat -> Files, first: nat, last: nat, start: Cursor, c: Cursor, out: seq<Item>,
                    idle: nat)
    requires Reading(q, views, first, last, start, c, out, idle)
    ensures Live(q, views(last), c, out)
    ensures idle >= SOURCES ==> Delivered(q, views(first), out)
  {
    hide Sane, Journal, Packable, CaughtBehind, Delivered, Ahead, WellFormed;
    assert Grown(views(first), views(last));
    if idle >= SOURCES { CaughtDelivers(q, views(first), views(last), c, idle, out); }
  }

  // ----- one page -----

  /** Nothing is appended while the page is read. */
  ghost predicate Still(views: nat -> Files, files: Files) {
    forall i: nat :: views(i) == files
  }

  /**
   QueryMcpRunEvidence without an end sequence; turn `i` of the service reads `views(i)`.
   On sources at rest a page is the next piece of the unbounded scan; an unfinished page is
   full or hit a scan bound and leaves strictly less work, a finished page leaves nothing.
   On sources that grow between the turns it still adds each record once and in order, and
   a finished page has out all that was complete when it began.
   */
  method QueryPage(q: Query, views: nat -> Files, first: nat, start: Cursor, limit: nat, ghost out: seq<Item>)
    returns (page: Page, last: nat, ghost records: nat, ghost bytes: nat)
    requires Admitted(q) && forall i: nat :: Decoded(views(i), start)
    ensures limit == 0 || limit > MAX_LIMIT ==> page.Refused?
    ensures page.Page? ==>
              && |page.items| <= limit && first <= last
              && (page.truncated ==> |page.items| == limit || records >= MAX_RECORDS || bytes >= MAX_BYTES)
    ensures 1 <= limit <= MAX_LIMIT && Still(views, views(first)) && Sane(q, views(first), start) ==>
              var files := views(first);
              && page.Page? && Sane(q, files, page.cursor)
              && page.items + Stream(q, files, page.cursor, 0) == Stream(q, files, start, 0)
              && (page.truncated ==> Work(q, files, page.cursor) < Work(q, files, start))
              && (!page.truncated ==> Exhausted(q, files, page.cursor) && Stream(q, files, page.cursor, 0) == [])
              && (Journal(q, files, start, out) ==> Journal(q, files, page.cursor, out + page.items))
              && (Packable(q, start) ==> Packable(q, page.cursor))
    ensures 1 <= limit <= MAX_LIMIT && Growing(q, views) && Live(q, views(first), start, out) ==>
              && page.Page? && Live(q, views(last), page.cursor, out + page.items)
              && |page.cursor.offsets| == 3 && (page.truncated ==> Ahead(q, page.cursor) < Ahead(q, start))
              && (!page.truncated ==> first < last && Delivered(q, views(first), out + page.items))
  {
    hide Sane, Going, Stream, Journal, Packable, Work, Took, Exhausted, Unemitted, Turn, Shaped, Mark, Live, Growing,
      FileTurned, Still, FirstSnapshot, HasRecord, Reading, Delivered, Ahead;
    records, bytes, last := 0, 0, first;
    if limit == 0 || limit > MAX_LIMIT { return Refused, first, 0, 0; }
    ghost var files := views(first);
    ghost var still := Still(views, files) && Sane(q, files, start);
    ghost var live := Growing(q, views) && Live(q, files, start, out);
    var c, items, idle, full, bound := start, [], 0, false, false;
    var scannedRecords, scannedBytes := 0, 0;
    if still { GoingStarts(q, files, start, out); }
    assert out + items == out;
    if live { ReadingStarts(q, views, first, start, out); }
    while !full && !bound && idle < SOURCES
      invariant first <= last && Decoded(views(last), c) && 0 <= idle
      invariant if full then |items| == limit else |items| < limit
      invariant !bound && !full ==> scannedRecords < MAX_RECORDS && scannedBytes < MAX_BYTES
      invariant bound ==> scannedRecords >= MAX_RECORDS || scannedBytes >= MAX_BYTES
      invariant full || bound ==> idle < SOURCES
      invariant still ==> Going(q, files, start, c, items, if full || bound then 0 else idle, out)
      invariant still && (full || bound) ==>
                  Shaped(files, c) && Shaped(files, start) && Work(q, files, c) < Work(q, files, start)
      invariant live ==> Reading(q, views, first, last, start, c, out + items, if full || bound then 0 else idle)
      invariant live && (full || bound) ==> Ahead(q, c) < Ahead(q, start)
      invariant idle > 0 ==> first < last
      decreases if full || bound then 0 else 1, Unemitted(q, c, 0) + MAX_RECORDS - scannedRecords, SOURCES - idle
    {
      ghost var held := out + items;
      if c.next == SNAPSHOT {
        var v := SnapshotTurn(q, views(last), c);
        if still {
          StillAt(views, files, last);
          SnapshotGoes(q, files, start, c, items, idle, out, v);
        }
        if live { SnapshotReads(q, views, first, last, start, c, held, idle, v); }
        items, c := items + v.items, v.cursor;
        assert held + v.items == out + items;
        idle := if v.active then 0 else idle + 1;
        full := |items| >= limit;
      } else {
        if scannedRecords >= MAX_RECORDS || scannedBytes >= MAX_BYTES {
          bound := true;
          break;
        }
        var v := FileTurn(q, views(last), c, limit - |items|);
        if still {
          StillAt(views, files, last);
          FileGoes(q, files, start, c, items, idle, out, limit - |items|, v);
        }
        if live { FileReads(q, views, first, last, start, c, held, idle, limit - |items|, v); }
        match v
        case Broken => return Refused, last, 0, 0;
        case Idle =>
          SameSnapshots(q, c, Turned(c), 0);
          c, idle := Turned(c), idle + 1;
        case Read(more, after, filled, size) =>
          scannedRecords, scannedBytes := scannedRecords + 1, scannedBytes + size;
          FileTurnedShape(q, views(last), c, limit - |items|, v);
          SameSnapshots(q, c, after, 0);
          items, c := items + more, after;
          assert held + more == out + items;
          full := filled;
          if !full {
            idle := 0;
            bound := scannedRecords >= MAX_RECORDS || scannedBytes >= MAX_BYTES;
          }
      }
      last := last + 1;
    }
    if still {
      GoingGives(q, files, start, c, items, if full || bound then 0 else idle, out);
      if !full && !bound { GoingEnds(q, files, start, c, items, idle, out); }
    }
    if live { ReadingEnds(q, views, first, last, start, c, out + items, if full || bound then 0 else idle); }
    page, records, bytes := Page(items, c, full || bound), scannedRecords, scannedBytes;
  }

  lemma StillAt(views: nat -> Files, files: Files, i: nat)
    requires Still(views, files)
    ensures views(i) == files
  {}

  lemma FileTurnedShape(q: Query, files: Files, c: Cursor, room: nat, v: FileVisit)
    requires Decoded(files, c) && c.next != SNAPSHOT && FileTurned(q, files, c, room, v) && v.Read?
    ensures Decoded(files, v.cursor) && v.cursor.snapshots == c.snapshots
    ensures if v.full then |v.items| == room else |v.items| < room
  {}

  // ----- chains of pages -----

  lemma StartIsSane(q: Query, files: Files)
    requires WellFormed(q, files)
    ensures Sane(q, files, START) && Journal(q, files, START, []) && Packable(q, START)
  {
    hide Emitted, Parses, Snapshots, Lines;
    StartUnmarked(q, 0);
    StartSane(q, files);
    forall s | 1 <= s < SOURCES
      ensures FileJournal(q, s, files[s - 1], START.offsets[s - 1], PendingAt(START, s), Of(q, s, []))
    {
      StartFile(q, s, files[s - 1]);
    }
  }

  lemma StartSane(q: Query, files: Files)
    requires WellFormed(q, files)
    ensures Sane(q, files, START)
  {
    hide Parses;
  }

  lemma StartFile(q: Query, source: nat, file: Option<string>)
    requires 1 <= source < SOURCES
    ensures FileJournal(q, source, file, START.offsets[source - 1], PendingAt(START, source), Of(q, source, []))
  {}

  lemma {:induction false} StartUnmarked(q: Query, first: nat)
    ensures Snapshots(q, START, first) == []
    ensures forall i: nat :: !Emitted(START, i)
    decreases |q.sources| - first
  {
    forall i: nat ensures !Emitted(START, i) { ZeroBits(i % 64); }
    if first < |q.sources| { StartUnmarked(q, first + 1); }
  }

  lemma {:induction false} ZeroBits(bit: nat)
    ensures !Bit(0, bit)
  {
    if bit > 0 { ZeroBits(bit - 1); }
  }

  lemma WorkIsNatural(q: Query, files: Files, c: Cursor)
    requires Sane(q, files, c)
    ensures 0 <= Work(q, files, c)
  {}

  /** Whatever the page limits, the pages chained by their cursor texts are the unbounded scan. */
  method ReadAll(q: Query, files: Files, limit: nat -> nat, fingerprint: nat) returns (out: seq<Item>, c: Cursor)
    requires WellFormed(q, files) && (forall i :: 1 <= limit(i) <= MAX_LIMIT) && fingerprint < Pow2(64)
    ensures out == Stream(q, files, START, 0)
    ensures Shaped(files, c) && Exhausted(q, files, c) && Journal(q, files, c, out)
  {
    hide Sane, Stream, Journal, Packable, Work, Exhausted, Encoded, Pow2, Growing, Live, Delivered, Ahead, WellFormed;
    StartIsSane(q, files);
    SaneShaped(q, files, START);
    out, c := [], START;
    var token, pages, more := "", 0, true;
    assert out + Stream(q, files, c, 0) == Stream(q, files, START, 0);
    while more
      invariant Shaped(files, c) && Sane(q, files, c) && Journal(q, files, c, out) && Packable(q, c)
      invariant Decode(q, token, 0, fingerprint) == Some(c)
      invariant out + Stream(q, files, c, 0) == Stream(q, files, START, 0)
      invariant !more ==> Exhausted(q, files, c) && Stream(q, files, c, 0) == []
      decreases more, Work(q, files, c)
    {
      var decoded := DecodeOpaqueCursor(q, token, 0, fingerprint);
      var page, _, _, _ := QueryPage(q, _ => files, 0, decoded.value, limit(pages), out);
      SaneShaped(q, files, page.cursor);
      PackableEncodes(q, page.cursor);
      WorkIsNatural(q, files, c);
      ghost var rest := Stream(q, files, page.cursor, 0);
      assert out + page.items + rest == out + (page.items + rest);
      out, c, more, pages := out + page.items, page.cursor, page.truncated, pages + 1;
      var text := EncodeOpaqueCursor(c, |q.sources|, fingerprint);
      CursorRoundTrip(q, c, fingerprint);
      token := text.value;
    }
  }

  lemma PackableEncodes(q: Query, c: Cursor)
    requires Packable(q, c)
    ensures Encodable(c)
  {}

  lemma SaneShaped(q: Query, files: Files, c: Cursor)
    requires Sane(q, files, c)
    ensures Shaped(files, c) && Admitted(q)
  {}

  lemma {:induction false} ParsesFrom(q: Query, content: string, from: nat, offset: nat)
    requires from <= |content| && offset <= |content| && Parses(q, content, from) && Boundary(content, from, offset)
    ensures Parses(q, content, offset)
    decreases |content| - from
  {
    if from != offset { ParsesFrom(q, content, LineEnd(content, from).value, offset); }
  }

  lemma SaneGrows(q: Query, before: Files, after: Files, c: Cursor, out: seq<Item>)
    requires Sane(q, before, c) && Journal(q, before, c, out) && Grown(before, after) && WellFormed(q, after)
    ensures Sane(q, after, c) && Journal(q, after, c, out)
  {
    hide RecordItems, Lines;
    JournalGrows(q, before, after, c, out);
    forall s | 0 <= s < 3 && after[s].Some?
      ensures c.offsets[s] <= |after[s].value| && Parses(q, after[s].value, c.offsets[s])
    {
      assert FileJournal(q, s + 1, after[(s + 1) - 1], c.offsets[(s + 1) - 1], PendingAt(c, s + 1), Of(q, s + 1, out));
      ParsesFrom(q, after[s].value, 0, c.offsets[s]);
    }
    forall s | 0 <= s < 3 && after[s].None? ensures c.offsets[s] == 0 {
      assert FileJournal(q, s + 1, after[(s + 1) - 1], c.offsets[(s + 1) - 1], PendingAt(c, s + 1), Of(q, s + 1, out));
    }
    if c.pending != NO_PENDING {
      var content := before[c.next - 1].value;
      var suffix := after[c.next - 1].value[|content|..];
      assert after[c.next - 1].value == content + suffix;
      LineEndGrows(content, c.offsets[c.next - 1], suffix);
    }
  }

  /**
   Pages chained by their cursor texts over growing files, until one that began at view
   `until` or later is finished.  Nothing is repeated, and all that was complete at that
   view is out, whatever else has come since.
   */
  method Follow(q: Query, views: nat -> Files, until: nat, limit: nat -> nat, fingerprint: nat)
    returns (out: seq<Item>, c: Cursor, last: nat)
    requires Growing(q, views) && (forall i :: 1 <= limit(i) <= MAX_LIMIT) && fingerprint < Pow2(64)
    ensures Sane(q, views(last), c) && Journal(q, views(last), c, out) && Packable(q, c)
    ensures until < last && Delivered(q, views(until), out)
  {
    hide Sane, Journal, Packable, Growing, Stream, Work, Exhausted, WellFormed, Encoded, Pow2, Ahead, Delivered, Grown;
    out, c, last := [], START, 0;
    GrowingView(q, views, 0);
    StartIsSane(q, views(0));
    var token, pages, more := "", 0, true;
    while more
      invariant Live(q, views(last), c, out) && |c.offsets| == 3
      invariant Decode(q, token, 0, fingerprint) == Some(c)
      invariant !more ==> until < last && Delivered(q, views(until), out)
      decreases more, if last < until then until - last else 0, FARTHEST + Ahead(q, c)
    {
      AheadIsBounded(q, views(last), c);
      SaneDecoded(q, views(last), c);
      forall i: nat ensures Decoded(views(i), c) { GrowingView(q, views, i); }
      var decoded := DecodeOpaqueCursor(q, token, 0, fingerprint);
      var page, turn, _, _ := QueryPage(q, views, last, decoded.value, limit(pages), out);
      if !page.truncated && until <= last { DeliveredAt(q, views, until, last, out + page.items); }
      more := page.truncated || last < until;
      out, c, last, pages := out + page.items, page.cursor, turn, pages + 1;
      PackableEncodes(q, c);
      var text := EncodeOpaqueCursor(c, |q.sources|, fingerprint);
      CursorRoundTrip(q, c, fingerprint);
      token := text.value;
    }
  }

  lemma DeliveredAt(q: Query, views: nat -> Files, until: nat, first: nat, out: seq<Item>)
    requires Growing(q, views) && until <= first && Delivered(q, views(first), out)
    ensures Delivered(q, views(until), out)
  {
    hide WellFormed, Delivered;
    assert Grown(views(until), views(first));
    DeliveredBefore(q, views(until), views(first), out);
  }

  lemma GrowingView(q: Query, views: nat -> Files, i: nat)
    requires Growing(q, views)
    ensures WellFormed(q, views(i)) && |views(i)| == 3
  {}

  lemma SaneDecoded(q: Query, files: Files, c: Cursor)
    requires Sane(q, files, c)
    ensures Admitted(q) && Decoded(files, c)
  {}
}
