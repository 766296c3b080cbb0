/**
 What an evidence scan reads: three append-only line files and a set of snapshot
 families, visited round robin.  `Stream` is the unbounded scan from a cursor; `Journal`
 says, source by source, what has been handed out up to a cursor.
 */
module EvidenceStream {
  import opened Wrappers

  const SNAPSHOT: nat := 0
  const SOURCES: nat := 4
  const NO_PENDING: nat := 255
  const OFFSET_LIMIT: nat := 0x100_0000_0000_0000
  const WORDS: nat := 4

  /**
   `sources[i]` is the source of the i-th selected family, `matches(text, i)` whether a
   record belongs to it (node filter included), `valid` whether a record parses.
   */
  datatype Query = Query(sources: seq<nat>, matches: (string, nat) -> bool, valid: string -> bool)

  ghost predicate Admitted(q: Query) {
    0 < |q.sources| < 256 && forall i | 0 <= i < |q.sources| :: q.sources[i] < SOURCES
  }

  /** Files of sources 1, 2 and 3; a file may not exist yet. */
  type Files = seq<Option<string>>

  datatype Cursor = Cursor(offsets: seq<nat>, snapshots: seq<nat>, next: nat, pending: nat)

  const START: Cursor := Cursor([0, 0, 0], [0, 0, 0, 0], 0, NO_PENDING)

  datatype Item = Item(family: nat, offset: nat)

  // ----- the snapshot bitmap -----

  predicate Bit(word: nat, bit: nat) {
    if bit == 0 then word % 2 == 1 else Bit(word / 2, bit - 1)
  }

  /** Bitwise or with the given bit. */
  function WithBit(word: nat, bit: nat): nat {
    if bit == 0 then (if word % 2 == 1 then word else word + 1) else word % 2 + 2 * WithBit(word / 2, bit - 1)
  }

  lemma {:induction false} WithBitSets(word: nat, bit: nat, other: nat)
    ensures Bit(WithBit(word, bit), other) <==> bit == other || Bit(word, other)
  {
    if bit != 0 && other != 0 {
      WithBitSets(word / 2, bit - 1, other - 1);
    }
  }

  function Pow2(n: nat): (r: nat)
    ensures r > 0
  {
    if n == 0 then 1 else 2 * Pow2(n - 1)
  }

  lemma {:induction false} WithBitFits(word: nat, bit: nat, width: nat)
    requires word < Pow2(width) && bit < width
    ensures WithBit(word, bit) < Pow2(width)
  {
    var half := Pow2(width - 1);
    assert Pow2(width) == 2 * half;
    HalfFits(word, half);
    if bit != 0 {
      WithBitFits(word / 2, bit - 1, width - 1);
      assert WithBit(word, bit) == word % 2 + 2 * WithBit(word / 2, bit - 1);
    }
  }

  lemma HalfFits(word: nat, half: nat)
    requires word < 2 * half
    ensures word / 2 < half && word % 2 <= 1 && (word % 2 != 1 ==> word + 1 < 2 * half)
  {}

  predicate Emitted(c: Cursor, family: nat) {
    family / 64 < |c.snapshots| && Bit(c.snapshots[family / 64], family % 64)
  }

  function Mark(c: Cursor, family: nat): Cursor {
    if family / 64 >= |c.snapshots| then c
    else c.(snapshots := c.snapshots[family / 64 := WithBit(c.snapshots[family / 64], family % 64)])
  }

  lemma MarkEmits(c: Cursor, family: nat, other: nat)
    requires family / 64 < |c.snapshots|
    ensures Emitted(Mark(c, family), other) <==> family == other || Emitted(c, other)
  {
    if family / 64 == other / 64 {
      WithBitSets(c.snapshots[family / 64], family % 64, other % 64);
      assert family == other <==> family % 64 == other % 64;
    }
  }

  // ----- lines -----

  /** One past the first newline at or after `offset`: a trailing partial record is invisible. */
  function LineEnd(content: string, offset: nat): (next: Option<nat>)
    requires offset <= |content|
    ensures next.Some? ==> offset < next.value <= |content| && content[next.value - 1] == '\n'
    ensures next.Some? ==> forall i | offset <= i < next.value - 1 :: content[i] != '\n'
    ensures next.None? ==> forall i | offset <= i < |content| :: content[i] != '\n'
    decreases |content| - offset
  {
    if offset == |content| then None
    else if content[offset] == '\n' then Some(offset + 1)
    else LineEnd(content, offset + 1)
  }

  lemma {:induction false} LineEndGrows(content: string, offset: nat, suffix: string)
    requires offset <= |content|
    ensures LineEnd(content, offset).Some? ==> LineEnd(content + suffix, offset) == LineEnd(content, offset)
    decreases |content| - offset
  {
    if offset < |content| {
      assert (content + suffix)[offset] == content[offset];
      if content[offset] != '\n' { LineEndGrows(content, offset + 1, suffix); }
    }
  }

  /** The record that starts at `offset`, when it is complete. */
  function Text(content: string, offset: nat): string
    requires offset <= |content| && LineEnd(content, offset).Some?
  {
    content[offset..LineEnd(content, offset).value - 1]
  }

  // ----- families of a source -----

  predicate Hit(q: Query, source: nat, text: string, family: nat) {
    family < |q.sources| && q.sources[family] == source && q.matches(text, family)
  }

  /** The selected families, from `first` on, that a record of the source belongs to. */
  function Families(q: Query, source: nat, text: string, first: nat): (r: seq<nat>)
    ensures forall i | 0 <= i < |r| :: first <= r[i] && Hit(q, source, text, r[i])
    decreases |q.sources| - first
  {
    if first >= |q.sources| then []
    else (if Hit(q, source, text, first) then [first] else []) + Families(q, source, text, first + 1)
  }

  lemma {:induction false} FamiliesHold(q: Query, source: nat, text: string, first: nat, family: nat)
    requires first <= family && Hit(q, source, text, family)
    ensures family in Families(q, source, text, first)
    decreases family - first
  {
    if first < family {
      FamiliesHold(q, source, text, first + 1, family);
    }
  }

  ghost predicate Ascending(s: seq<nat>) {
    forall i, j | 0 <= i < j < |s| :: s[i] < s[j]
  }

  lemma {:induction false} FamiliesAscend(q: Query, source: nat, text: string, first: nat)
    ensures Ascending(Families(q, source, text, first))
    decreases |q.sources| - first
  {
    hide Hit, Ascending;
    NothingAscends();
    if first < |q.sources| {
      FamiliesAscend(q, source, text, first + 1);
      var rest := Families(q, source, text, first + 1);
      AscendsInFront(first, rest);
      assert [] + rest == rest;
    }
  }

  lemma NothingAscends()
    ensures Ascending([])
  {}

  lemma AscendsInFront(first: nat, rest: seq<nat>)
    requires Ascending(rest) && forall i | 0 <= i < |rest| :: first < rest[i]
    ensures Ascending([first] + rest)
  {}

  /** Families that cannot be hit contribute nothing. */
  lemma {:induction false} SkipFamilies(q: Query, source: nat, text: string, first: nat, last: nat)
    requires first <= last && forall i: nat | first <= i < last :: !Hit(q, source, text, i)
    ensures Families(q, source, text, first) == Families(q, source, text, last)
    decreases last
  {
    if first < last {
      assert !Hit(q, source, text, last - 1);
      SkipFamilies(q, source, text, first, last - 1);
    }
  }

  function Items(families: seq<nat>, offset: nat): seq<Item> {
    seq(|families|, i requires 0 <= i < |families| => Item(families[i], offset))
  }

  /** What the record at `offset` contributes, from family `first` on. */
  function RecordItems(q: Query, source: nat, text: string, first: nat, offset: nat): seq<Item> {
    Items(Families(q, source, text, first), offset)
  }

  lemma TakeFamily(q: Query, source: nat, text: string, family: nat, offset: nat)
    requires Hit(q, source, text, family)
    ensures RecordItems(q, source, text, family, offset)
         == [Item(family, offset)] + RecordItems(q, source, text, family + 1, offset)
  {}

  lemma SkipItems(q: Query, source: nat, text: string, first: nat, last: nat, offset: nat)
    requires first <= last && forall i: nat | first <= i < last :: !Hit(q, source, text, i)
    ensures RecordItems(q, source, text, first, offset) == RecordItems(q, source, text, last, offset)
    ensures last >= |q.sources| ==> RecordItems(q, source, text, last, offset) == []
  {
    SkipFamilies(q, source, text, first, last);
  }

  function FirstSnapshot(q: Query, c: Cursor, first: nat): (r: Option<nat>)
    ensures r.Some? ==>
              && first <= r.value < |q.sources| && q.sources[r.value] == SNAPSHOT && !Emitted(c, r.value)
              && forall i | first <= i < r.value :: q.sources[i] == SNAPSHOT ==> Emitted(c, i)
    ensures r.None? ==> forall i | first <= i < |q.sources| :: q.sources[i] == SNAPSHOT ==> Emitted(c, i)
    decreases |q.sources| - first
  {
    if first >= |q.sources| then None
    else if q.sources[first] == SNAPSHOT && !Emitted(c, first) then Some(first)
    else FirstSnapshot(q, c, first + 1)
  }

  predicate Selected(q: Query, source: nat) {
    exists i :: 0 <= i < |q.sources| && q.sources[i] == source
  }

  // ----- the unbounded scan -----

  function NextSource(source: nat): nat {
    (source + 1) % SOURCES
  }

  function Turned(c: Cursor): Cursor {
    c.(next := NextSource(c.next), pending := NO_PENDING)
  }

  function Advanced(c: Cursor, next: nat): Cursor
    requires 0 < c.next < SOURCES && |c.offsets| == 3
  {
    Turned(c).(offsets := c.offsets[c.next - 1 := next])
  }

  function First(c: Cursor): nat {
    if c.pending == NO_PENDING then 0 else c.pending
  }

  /** The source whose turn it is has a complete record. */
  predicate HasRecord(q: Query, files: Files, c: Cursor)
    requires Shaped(files, c) && c.next != SNAPSHOT
  {
    && Selected(q, c.next) && files[c.next - 1].Some?
    && LineEnd(files[c.next - 1].value, c.offsets[c.next - 1]).Some?
  }

  /** The files can be read where the cursor points. */
  predicate Shaped(files: Files, c: Cursor) {
    && |files| == 3 && |c.offsets| == 3 && |c.snapshots| == WORDS && c.next < SOURCES
    && forall s | 0 <= s < 3 :: c.offsets[s] <= Length(files[s])
  }

  function Length(file: Option<string>): nat {
    if file.None? then 0 else |file.value|
  }

  datatype Visit = Visit(items: seq<Item>, cursor: Cursor, active: bool)

  /** One turn without any bound. */
  function Turn(q: Query, files: Files, c: Cursor): (v: Visit)
    requires Shaped(files, c)
    ensures Shaped(files, v.cursor)
  {
    if c.next == SNAPSHOT then
      var family := FirstSnapshot(q, c, 0);
      if family.None? then Visit([], Turned(c), false)
      else Visit([Item(family.value, 0)], Turned(Mark(c, family.value)), true)
    else if !HasRecord(q, files, c) then Visit([], Turned(c), false)
    else
      var content, offset := files[c.next - 1].value, c.offsets[c.next - 1];
      Visit(RecordItems(q, c.next, Text(content, offset), First(c), offset),
            Advanced(c, LineEnd(content, offset).value), true)
  }

  /** Snapshot families not yet emitted, counted from `first`. */
  function Unemitted(q: Query, c: Cursor, first: nat): nat
    decreases |q.sources| - first
  {
    if first >= |q.sources| then 0
    else (if q.sources[first] == SNAPSHOT && !Emitted(c, first) then 1 else 0) + Unemitted(q, c, first + 1)
  }

  function Unread(files: Files, c: Cursor): nat
    requires Shaped(files, c)
  {
    Length(files[0]) - c.offsets[0] + (Length(files[1]) - c.offsets[1]) + (Length(files[2]) - c.offsets[2])
  }

  /** Strictly smaller after every page that did not finish. */
  function Work(q: Query, files: Files, c: Cursor): int
    requires Shaped(files, c)
  {
    Unemitted(q, c, 0) + 256 * Unread(files, c) - (if c.pending == NO_PENDING then 0 else c.pending)
  }

  lemma {:induction false} MarkUnemitted(q: Query, c: Cursor, family: nat, first: nat)
    requires Admitted(q) && |c.snapshots| == WORDS && family < |q.sources|
    requires q.sources[family] == SNAPSHOT && !Emitted(c, family)
    ensures Unemitted(q, Mark(c, family), first) == Unemitted(q, c, first) - (if first <= family then 1 else 0)
    decreases |q.sources| - first
  {
    if first < |q.sources| {
      MarkEmits(c, family, first);
      MarkUnemitted(q, c, family, first + 1);
    }
  }

  lemma {:induction false} SameSnapshots(q: Query, c: Cursor, d: Cursor, first: nat)
    requires c.snapshots == d.snapshots
    ensures Unemitted(q, c, first) == Unemitted(q, d, first)
    decreases |q.sources| - first
  {
    if first < |q.sources| { SameSnapshots(q, c, d, first + 1); }
  }

  lemma ActiveTurnWorks(q: Query, files: Files, c: Cursor)
    requires Admitted(q) && Shaped(files, c) && Turn(q, files, c).active
    ensures var next := Turn(q, files, c).cursor;
            Unemitted(q, next, 0) + Unread(files, next) < Unemitted(q, c, 0) + Unread(files, c)
  {
    var next := Turn(q, files, c).cursor;
    if c.next == SNAPSHOT {
      var family := FirstSnapshot(q, c, 0).value;
      MarkUnemitted(q, c, family, 0);
      SameSnapshots(q, next, Mark(c, family), 0);
    } else {
      SameSnapshots(q, next, c, 0);
    }
  }

  /** Everything the scan still emits, after `idle` turns in a row found nothing. */
  ghost function Stream(q: Query, files: Files, c: Cursor, idle: nat): seq<Item>
    requires Admitted(q) && Shaped(files, c)
    decreases Unemitted(q, c, 0) + Unread(files, c), SOURCES - idle
  {
    if idle >= SOURCES then []
    else
      var v := Turn(q, files, c);
      if v.active then (ActiveTurnWorks(q, files, c); v.items + Stream(q, files, v.cursor, 0))
      else (IdleTurnWaits(q, files, c); Stream(q, files, v.cursor, idle + 1))
  }

  lemma IdleTurnWaits(q: Query, files: Files, c: Cursor)
    requires Shaped(files, c) && !Turn(q, files, c).active
    ensures var next := Turn(q, files, c).cursor;
            Unemitted(q, next, 0) == Unemitted(q, c, 0) && Unread(files, next) == Unread(files, c)
  {
    SameSnapshots(q, Turn(q, files, c).cursor, c, 0);
  }

  lemma StreamRecord(q: Query, files: Files, c: Cursor, idle: nat)
    requires Admitted(q) && Shaped(files, c) && c.next != SNAPSHOT && HasRecord(q, files, c) && idle < SOURCES
    ensures var content, offset := files[c.next - 1].value, c.offsets[c.next - 1];
            && Shaped(files, Advanced(c, LineEnd(content, offset).value))
            && Stream(q, files, c, idle)
            == RecordItems(q, c.next, Text(content, offset), First(c), offset)
               + Stream(q, files, Advanced(c, LineEnd(content, offset).value), 0)
  {}
}
