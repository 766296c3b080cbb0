/**
 What has been handed out so far, source by source, over pages read while the files grow.
 */
module EvidenceJournal {
  import opened Wrappers
  import opened EvidenceStream
  import opened EvidenceQuery

  // ----- items of one source -----

  function Of(q: Query, source: nat, out: seq<Item>): seq<Item> {
    if out == [] then []
    else
      var last := out[|out| - 1];
      Of(q, source, out[..|out| - 1])
      + (if last.family < |q.sources| && q.sources[last.family] == source then [last] else [])
  }

  lemma {:induction false} OfConcat(q: Query, source: nat, a: seq<Item>, b: seq<Item>)
    ensures Of(q, source, a + b) == Of(q, source, a) + Of(q, source, b)
    decreases |b|
  {
    if b == [] {
      assert a + b == a;
    } else {
      var n := |b| - 1;
      assert (a + b)[..|a + b| - 1] == a + b[..n];
      OfConcat(q, source, a, b[..n]);
    }
  }

  lemma {:induction false} OfOneSource(q: Query, source: nat, owner: nat, items: seq<Item>)
    requires forall i | 0 <= i < |items| :: items[i].family < |q.sources| && q.sources[items[i].family] == owner
    ensures Of(q, source, items) == if source == owner then items else []
    decreases |items|
  {
    if items != [] {
      OfOneSource(q, source, owner, items[..|items| - 1]);
      assert items == items[..|items| - 1] + [items[|items| - 1]];
    }
  }

  // ----- all records of a file -----

  /** `upto` is reached from `from` by whole lines. */
  ghost predicate Boundary(content: string, from: nat, upto: nat)
    requires from <= |content|
    decreases |content| - from
  {
    from == upto || (LineEnd(content, from).Some? && Boundary(content, LineEnd(content, from).value, upto))
  }

  /** Every (record, family) pair of the lines that start in [from, upto), in file order. */
  ghost function Lines(q: Query, source: nat, content: string, from: nat, upto: nat): seq<Item>
    requires from <= |content|
    decreases |content| - from
  {
    if from >= upto || LineEnd(content, from).None? then []
    else RecordItems(q, source, Text(content, from), 0, from)
         + Lines(q, source, content, LineEnd(content, from).value, upto)
  }

  lemma {:induction false} BoundaryOrder(content: string, from: nat, upto: nat)
    requires from <= |content| && Boundary(content, from, upto)
    ensures from <= upto <= |content|
    decreases |content| - from
  {
    if from != upto { BoundaryOrder(content, LineEnd(content, from).value, upto); }
  }

  lemma {:induction false} LinesExtend(q: Query, source: nat, content: string, from: nat, upto: nat)
    requires from <= |content| && upto <= |content| && Boundary(content, from, upto) && LineEnd(content, upto).Some?
    ensures Boundary(content, from, LineEnd(content, upto).value)
    ensures Lines(q, source, content, from, LineEnd(content, upto).value)
         == Lines(q, source, content, from, upto) + RecordItems(q, source, Text(content, upto), 0, upto)
    decreases |content| - from
  {
    hide RecordItems;
    if from == upto {
      var next := LineEnd(content, upto).value;
      assert Lines(q, source, content, next, next) == [];
      assert Lines(q, source, content, from, upto) == [];
    } else {
      BoundaryOrder(content, LineEnd(content, from).value, upto);
      LinesExtend(q, source, content, LineEnd(content, from).value, upto);
    }
  }

  lemma {:induction false} LinesGrow(q: Query, source: nat, content: string, suffix: string, from: nat, upto: nat)
    requires from <= |content| && Boundary(content, from, upto)
    ensures Boundary(content + suffix, from, upto)
    ensures Lines(q, source, content + suffix, from, upto) == Lines(q, source, content, from, upto)
    decreases |content| - from
  {
    if from != upto {
      hide RecordItems;
      var next := LineEnd(content, from).value;
      BoundaryOrder(content, next, upto);
      LineEndGrows(content, from, suffix);
      LinesGrow(q, source, content, suffix, next, upto);
      assert Text(content + suffix, from) == Text(content, from);
    }
  }

  /** Nothing complete follows `upto`, so the lines up to it are all there are. */
  lemma {:induction false} LinesAll(q: Query, source: nat, content: string, from: nat, upto: nat)
    requires from <= |content| && Boundary(content, from, upto) && upto <= |content| && LineEnd(content, upto).None?
    ensures Lines(q, source, content, from, upto) == Lines(q, source, content, from, |content|)
    decreases |content| - from
  {
    if from != upto {
      BoundaryOrder(content, LineEnd(content, from).value, upto);
      LinesAll(q, source, content, LineEnd(content, from).value, upto);
    }
  }

  predicate Before(a: Item, b: Item) {
    a.offset < b.offset || (a.offset == b.offset && a.family < b.family)
  }

  ghost predicate InOrder(items: seq<Item>) {
    forall i, j | 0 <= i < j < |items| :: Before(items[i], items[j])
  }

  ghost predicate NotBefore(items: seq<Item>, from: nat) {
    forall i | 0 <= i < |items| :: from <= items[i].offset
  }

  /** Strictly ascending, so no pair comes twice. */
  lemma {:induction false} LinesAscend(q: Query, source: nat, content: string, from: nat, upto: nat)
    requires from <= |content|
    ensures InOrder(Lines(q, source, content, from, upto)) && NotBefore(Lines(q, source, content, from, upto), from)
    decreases |content| - from
  {
    if from < upto && LineEnd(content, from).Some? {
      var next := LineEnd(content, from).value;
      LinesAscend(q, source, content, next, upto);
      FamiliesAscend(q, source, Text(content, from), 0);
      JoinAscending(RecordItems(q, source, Text(content, from), 0, from), Lines(q, source, content, next, upto), from,
                    next);
    }
  }

  lemma JoinAscending(a: seq<Item>, b: seq<Item>, from: nat, next: nat)
    requires from < next && (forall i | 0 <= i < |a| :: a[i].offset == from) && NotBefore(b, next)
    requires InOrder(a) && InOrder(b)
    ensures NotBefore(a + b, from) && InOrder(a + b)
  {
    forall i, j | 0 <= i < j < |a + b| ensures Before((a + b)[i], (a + b)[j]) {
      if i >= |a| {
        assert (a + b)[i] == b[i - |a|] && (a + b)[j] == b[j - |a|];
      } else if j >= |a| {
        assert (a + b)[j] == b[j - |a|];
      }
    }
  }

  /** Exactly the pairs of a complete line and a family it belongs to. */
  lemma {:induction false} LinesHold(q: Query, source: nat, content: string, from: nat, upto: nat, start: nat,
                                     family: nat)
    requires from <= |content| && start <= |content| && Boundary(content, from, start) && start < upto
    requires LineEnd(content, start).Some?
    ensures Item(family, start) in Lines(q, source, content, from, upto)
            <==> Hit(q, source, Text(content, start), family)
    decreases |content| - from
  {
    BoundaryOrder(content, from, start);
    if from == start {
      RecordHolds(q, source, Text(content, start), start, family);
      var rest := Lines(q, source, content, LineEnd(content, from).value, upto);
      LinesAscend(q, source, content, LineEnd(content, from).value, upto);
      assert forall i | 0 <= i < |rest| :: rest[i].offset != start;
      assert Item(family, start) !in rest;
    } else {
      BoundaryOrder(content, LineEnd(content, from).value, start);
      LinesHold(q, source, content, LineEnd(content, from).value, upto, start, family);
      assert Item(family, start) !in RecordItems(q, source, Text(content, from), 0, from);
    }
  }

  lemma RecordHolds(q: Query, source: nat, text: string, offset: nat, family: nat)
    ensures Item(family, offset) in RecordItems(q, source, text, 0, offset) <==> Hit(q, source, text, family)
  {
    var families := Families(q, source, text, 0);
    var items := RecordItems(q, source, text, 0, offset);
    if Hit(q, source, text, family) {
      FamiliesHold(q, source, text, 0, family);
      var i :| 0 <= i < |families| && families[i] == family;
      assert items[i] == Item(family, offset);
    }
    if Item(family, offset) in items {
      var i :| 0 <= i < |items| && items[i] == Item(family, offset);
      assert families[i] == family;
    }
  }

  // ----- the journal -----

  /** The items of one file source that are out, given where its reading stands. */
  ghost predicate FileJournal(q: Query, source: nat, file: Option<string>, offset: nat, pending: nat, mine: seq<Item>) {
    match file
    case None => offset == 0 && mine == [] && pending == NO_PENDING
    case Some(content) =>
      && offset <= |content| && Boundary(content, 0, offset)
      && if pending == NO_PENDING then mine == Lines(q, source, content, 0, offset)
         else
           && LineEnd(content, offset).Some?
           && mine + RecordItems(q, source, Text(content, offset), pending, offset)
              == Lines(q, source, content, 0, LineEnd(content, offset).value)
  }

  function PendingAt(c: Cursor, source: nat): nat {
    if c.next == source then c.pending else NO_PENDING
  }

  /** The snapshot families marked as emitted, in order. */
  function Snapshots(q: Query, c: Cursor, first: nat): seq<Item>
    decreases |q.sources| - first
  {
    if first >= |q.sources| then []
    else (if q.sources[first] == SNAPSHOT && Emitted(c, first) then [Item(first, 0)] else [])
         + Snapshots(q, c, first + 1)
  }

  ghost predicate EmittedInOrder(q: Query, c: Cursor) {
    forall i, j | 0 <= i < j < |q.sources| && q.sources[i] == q.sources[j] == SNAPSHOT && Emitted(c, j) :: Emitted(c, i)
  }

  ghost predicate Journal(q: Query, files: Files, c: Cursor, out: seq<Item>) {
    && |files| == 3 && |c.offsets| == 3 && |c.snapshots| == WORDS && c.next < SOURCES
    && (c.next == SNAPSHOT ==> c.pending == NO_PENDING)
    && (forall s | 1 <= s < SOURCES ::
          FileJournal(q, s, files[s - 1], c.offsets[s - 1], PendingAt(c, s), Of(q, s, out)))
    && EmittedInOrder(q, c) && Of(q, SNAPSHOT, out) == Snapshots(q, c, 0)
  }

  ghost predicate Grown(before: Files, after: Files) {
    && |before| == |after| == 3
    && forall s | 0 <= s < 3 && before[s].Some? :: after[s].Some? && before[s].value <= after[s].value
  }

  lemma FileJournalGrows(q: Query, source: nat, before: Option<string>, after: Option<string>, offset: nat,
                         pending: nat, mine: seq<Item>)
    requires before.Some? ==> after.Some? && before.value <= after.value
    requires FileJournal(q, source, before, offset, pending, mine)
    ensures FileJournal(q, source, after, offset, pending, mine)
  {
    hide RecordItems;
    if before.Some? {
      var content := before.value;
      var suffix := after.value[|content|..];
      assert after.value == content + suffix;
      LinesGrow(q, source, content, suffix, 0, offset);
      if pending != NO_PENDING {
        LineEndGrows(content, offset, suffix);
        assert Text(after.value, offset) == Text(content, offset);
        LinesExtend(q, source, content, 0, offset);
        LinesGrow(q, source, content, suffix, 0, LineEnd(content, offset).value);
      }
    }
  }

  /** Appending to the files loses and repeats nothing that is already out. */
  lemma JournalGrows(q: Query, before: Files, after: Files, c: Cursor, out: seq<Item>)
    requires Journal(q, before, c, out) && Grown(before, after)
    ensures Journal(q, after, c, out)
  {
    forall s | 1 <= s < SOURCES
      ensures FileJournal(q, s, after[s - 1], c.offsets[s - 1], PendingAt(c, s), Of(q, s, out))
    {
      FileJournalGrows(q, s, before[s - 1], after[s - 1], c.offsets[s - 1], PendingAt(c, s), Of(q, s, out));
    }
  }

  lemma {:induction false} SnapshotsSame(q: Query, c: Cursor, d: Cursor, first: nat)
    requires c.snapshots == d.snapshots
    ensures Snapshots(q, c, first) == Snapshots(q, d, first)
    decreases |q.sources| - first
  {
    if first < |q.sources| { SnapshotsSame(q, c, d, first + 1); }
  }

  lemma {:induction false} SnapshotsAppend(q: Query, c: Cursor, family: nat, first: nat)
    requires Admitted(q) && |c.snapshots| == WORDS && family < |q.sources| && q.sources[family] == SNAPSHOT
    requires forall i | family <= i < |q.sources| && q.sources[i] == SNAPSHOT :: !Emitted(c, i)
    ensures Snapshots(q, Mark(c, family), first)
         == Snapshots(q, c, first) + (if first <= family then [Item(family, 0)] else [])
    ensures family < first ==> Snapshots(q, c, first) == []
    decreases |q.sources| - first
  {
    if first < |q.sources| {
      MarkEmits(c, family, first);
      SnapshotsAppend(q, c, family, first + 1);
    }
  }

  lemma IdleJournals(q: Query, files: Files, c: Cursor, out: seq<Item>)
    requires Journal(q, files, c, out) && c.pending == NO_PENDING
    ensures Journal(q, files, Turned(c), out)
  {
    SnapshotsSame(q, c, Turned(c), 0);
    forall s | 1 <= s < SOURCES
      ensures FileJournal(q, s, files[s - 1], c.offsets[s - 1], PendingAt(Turned(c), s), Of(q, s, out))
    {
      assert PendingAt(Turned(c), s) == PendingAt(c, s);
    }
  }

  lemma SnapshotJournals(q: Query, files: Files, c: Cursor, family: nat, out: seq<Item>)
    requires Admitted(q) && Journal(q, files, c, out) && c.next == SNAPSHOT && FirstSnapshot(q, c, 0) == Some(family)
    ensures Journal(q, files, Turned(Mark(c, family)), out + [Item(family, 0)])
  {
    hide FileJournal;
    var after := Turned(Mark(c, family));
    SnapshotsAppend(q, c, family, 0);
    SnapshotsSame(q, Mark(c, family), after, 0);
    forall i | 0 <= i < |q.sources| ensures Emitted(after, i) <==> i == family || Emitted(c, i) {
      MarkEmits(c, family, i);
    }
    forall s | 0 <= s < SOURCES
      ensures Of(q, s, out + [Item(family, 0)])
           == if s == SNAPSHOT then Of(q, s, out) + [Item(family, 0)] else Of(q, s, out)
    {
      OfConcat(q, s, out, [Item(family, 0)]);
      OfOneSource(q, s, SNAPSHOT, [Item(family, 0)]);
    }
    forall s | 1 <= s < SOURCES
      ensures FileJournal(q, s, files[s - 1], after.offsets[s - 1], PendingAt(after, s),
                          Of(q, s, out + [Item(family, 0)]))
    {
      assert PendingAt(after, s) == PendingAt(c, s);
    }
  }

  /** A page that takes a record, whole or in part, keeps the journal. */
  lemma TookJournals(q: Query, files: Files, c: Cursor, items: seq<Item>, after: Cursor, out: seq<Item>)
    requires Admitted(q) && Shaped(files, c) && Journal(q, files, c, out) && c.next != SNAPSHOT
    requires HasRecord(q, files, c)
    requires Took(q, files[c.next - 1].value, c, items, after)
    ensures Journal(q, files, after, out + items)
  {
    hide RecordItems, FileJournal, Selected, Took, EmittedInOrder;
    TookItems(q, files[c.next - 1].value, c, items, after);
    TookFrame(q, files[c.next - 1].value, c, items, after);
    SnapshotsSame(q, c, after, 0);
    forall s | 0 <= s < SOURCES
      ensures Of(q, s, out + items) == if s == c.next then Of(q, s, out) + items else Of(q, s, out)
    {
      OfConcat(q, s, out, items);
      OfOneSource(q, s, c.next, items);
    }
    TookFile(q, files[c.next - 1].value, c, items, after, Of(q, c.next, out));
    forall s | 1 <= s < SOURCES
      ensures FileJournal(q, s, files[s - 1], after.offsets[s - 1], PendingAt(after, s), Of(q, s, out + items))
    {
      if s != c.next { assert Untouched(c, after, s); }
    }
    SameMarks(q, c, after);
  }

  lemma SameMarks(q: Query, c: Cursor, d: Cursor)
    requires c.snapshots == d.snapshots && EmittedInOrder(q, c)
    ensures EmittedInOrder(q, d)
  {
    forall i: nat ensures Emitted(c, i) == Emitted(d, i) {}
  }

  ghost predicate Untouched(c: Cursor, after: Cursor, source: nat)
    requires |c.offsets| == |after.offsets| == 3 && 1 <= source < SOURCES
  {
    after.offsets[source - 1] == c.offsets[source - 1] && PendingAt(after, source) == PendingAt(c, source)
  }

  lemma TookFrame(q: Query, content: string, c: Cursor, items: seq<Item>, after: Cursor)
    requires 0 < c.next < SOURCES && |c.offsets| == 3 && c.offsets[c.next - 1] <= |content|
    requires LineEnd(content, c.offsets[c.next - 1]).Some? && Took(q, content, c, items, after)
    ensures after.snapshots == c.snapshots && |after.offsets| == 3 && after.next < SOURCES
    ensures after.next == SNAPSHOT ==> after.pending == NO_PENDING
    ensures forall s | 1 <= s < SOURCES && s != c.next :: Untouched(c, after, s)
  {
    hide RecordItems;
  }

  lemma TookItems(q: Query, content: string, c: Cursor, items: seq<Item>, after: Cursor)
    requires 0 < c.next < SOURCES && |c.offsets| == 3 && c.offsets[c.next - 1] <= |content|
    requires LineEnd(content, c.offsets[c.next - 1]).Some? && Took(q, content, c, items, after)
    ensures forall i | 0 <= i < |items| :: items[i].family < |q.sources| && q.sources[items[i].family] == c.next
  {
    var offset := c.offsets[c.next - 1];
    var all := RecordItems(q, c.next, Text(content, offset), First(c), offset);
    assert forall i | 0 <= i < |items| :: items[i] == all[i];
  }

  lemma TookFile(q: Query, content: string, c: Cursor, items: seq<Item>, after: Cursor, mine: seq<Item>)
    requires Admitted(q) && 0 < c.next < SOURCES && |c.offsets| == 3 && c.offsets[c.next - 1] <= |content|
    requires LineEnd(content, c.offsets[c.next - 1]).Some? && Took(q, content, c, items, after)
    requires FileJournal(q, c.next, Some(content), c.offsets[c.next - 1], c.pending, mine)
    ensures FileJournal(q, c.next, Some(content), after.offsets[c.next - 1], PendingAt(after, c.next), mine + items)
  {
    hide RecordItems, Lines, Boundary;
    var offset := c.offsets[c.next - 1];
    LinesExtend(q, c.next, content, 0, offset);
    if after != Advanced(c, LineEnd(content, offset).value) {
      var rest := RecordItems(q, c.next, Text(content, offset), after.pending, offset);
      assert mine + items + rest == mine + (items + rest);
    }
  }
}
