/**
 QueryMcpRunEvidence: one bounded page of the scan, resumable in the middle of a record.
 Pages chain into the unbounded scan whatever their limits.
 */
module EvidenceQuery {
  import opened Wrappers
  import opened EvidenceStream

  const MAX_LIMIT: nat := 64
  const MAX_TEXT: nat := 1024 * 1024
  const MAX_RECORDS: nat := 4096
  const MAX_BYTES: nat := 8 * 1024 * 1024

  datatype Page = Page(items: seq<Item>, cursor: Cursor, truncated: bool) | Refused

  // ----- well-formed sources -----

  /** Every record from `offset` on is within the size bound, and parses once complete. */
  ghost predicate Parses(q: Query, content: string, offset: nat)
    requires offset <= |content|
    decreases |content| - offset
  {
    match LineEnd(content, offset)
    case None => |content| - offset <= MAX_TEXT
    case Some(next) => next - 1 - offset <= MAX_TEXT && q.valid(Text(content, offset)) && Parses(q, content, next)
  }

  /** A cursor that stopped inside a record still finds it. */
  ghost predicate PendingFound(q: Query, files: Files, c: Cursor)
    requires Shaped(files, c)
  {
    c.pending != NO_PENDING ==>
      c.pending < |q.sources| && c.next != SNAPSHOT && q.sources[c.pending] == c.next && HasRecord(q, files, c)
  }

  ghost predicate Sane(q: Query, files: Files, c: Cursor) {
    && Admitted(q) && Shaped(files, c) && PendingFound(q, files, c)
    && forall s | 0 <= s < 3 ::
         Length(files[s]) < OFFSET_LIMIT && (files[s].Some? ==> Parses(q, files[s].value, c.offsets[s]))
  }

  // ----- one line -----

  datatype Line = TooLong | Absent | Line(next: nat, text: string)

  const CHUNK: nat := 16384

  /** ReadJsonLine: the file is read in chunks until a newline shows up. */
  method ReadLine(content: string, offset: nat) returns (line: Line)
    requires offset <= |content|
    ensures var end := LineEnd(content, offset);
            if (if end.Some? then end.value - 1 else |content|) - offset > MAX_TEXT then line.TooLong?
            else if end.None? then line.Absent?
            else line == Line(end.value, Text(content, offset))
  {
    var text, next := "", offset;
    while next < |content|
      invariant offset <= next <= |content| && text == content[offset..next]
      invariant forall i | offset <= i < next :: content[i] != '\n'
      invariant next - offset <= MAX_TEXT
    {
      var end := if |content| - next < CHUNK then |content| else next + CHUNK;
      var newline := next;
      while newline < end && content[newline] != '\n'
        invariant next <= newline <= end
        invariant forall i | next <= i < newline :: content[i] != '\n'
      {
        newline := newline + 1;
      }
      if newline < end {
        FirstNewline(content, offset, newline);
      }
      if |text| + (newline - next) > MAX_TEXT {
        LongLine(content, offset, newline);
        return TooLong;
      }
      text := text + content[next..newline];
      next := newline;
      if newline < end {
        return Line(next + 1, text);
      }
    }
    return Absent;
  }

  lemma {:induction false} FirstNewline(content: string, offset: nat, newline: nat)
    requires offset <= newline < |content| && content[newline] == '\n'
    requires forall i | offset <= i < newline :: content[i] != '\n'
    ensures LineEnd(content, offset) == Some(newline + 1)
    decreases newline - offset
  {
    if offset < newline { FirstNewline(content, offset + 1, newline); }
  }

  lemma LongLine(content: string, offset: nat, end: nat)
    requires offset <= end <= |content| && forall i | offset <= i < end :: content[i] != '\n'
    ensures var next := LineEnd(content, offset); end <= if next.Some? then next.value - 1 else |content|
  {
    var next := LineEnd(content, offset);
    if next.Some? { assert content[next.value - 1] == '\n'; }
  }

  // ----- one record -----

  /** What a page takes of the record at the cursor: all of it, or everything before a family it stops at. */
  ghost predicate Took(q: Query, content: string, c: Cursor, items: seq<Item>, after: Cursor)
    requires 0 < c.next < SOURCES && |c.offsets| == 3 && c.offsets[c.next - 1] <= |content|
    requires LineEnd(content, c.offsets[c.next - 1]).Some?
  {
    var offset := c.offsets[c.next - 1];
    var text := Text(content, offset);
    var all := RecordItems(q, c.next, text, First(c), offset);
    || (after == Advanced(c, LineEnd(content, offset).value) && items == all)
    || (&& after == c.(pending := after.pending)
        && First(c) < after.pending < |q.sources| && q.sources[after.pending] == c.next
        && items + RecordItems(q, c.next, text, after.pending, offset) == all)
  }

  method NextFamily(q: Query, source: nat, begin: nat) returns (r: Option<nat>)
    ensures r.Some? ==> begin <= r.value < |q.sources| && q.sources[r.value] == source
    ensures var end := if r.Some? then r.value else |q.sources|;
            forall i | begin <= i < end :: q.sources[i] != source
  {
    var index := begin;
    while index < |q.sources|
      invariant begin <= index
      invariant forall i | begin <= i < index && i < |q.sources| :: q.sources[i] != source
    {
      if q.sources[index] == source { return Some(index); }
      index := index + 1;
    }
    return None;
  }

  /** The families of one record, until the page is full. */
  method TakeFamilies(q: Query, source: nat, text: string, first: nat, offset: nat, room: nat)
    returns (ok: bool, items: seq<Item>, stop: Option<nat>, full: bool)
    requires 0 < room && first <= |q.sources|
    ensures offset < OFFSET_LIMIT ==> ok
    ensures ok && stop.Some? ==>
              && full && first < stop.value < |q.sources| && q.sources[stop.value] == source
              && items + RecordItems(q, source, text, stop.value, offset) == RecordItems(q, source, text, first, offset)
    ensures ok && stop.None? ==> items == RecordItems(q, source, text, first, offset)
    ensures ok ==> if full then |items| == room else |items| < room
  {
    hide RecordItems;
    items, full := [], false;
    var family := first;
    while family < |q.sources|
      invariant first <= family <= |q.sources|
      invariant |items| < room
      invariant items + RecordItems(q, source, text, family, offset) == RecordItems(q, source, text, first, offset)
    {
      if q.sources[family] == source && q.matches(text, family) {
        if offset >= OFFSET_LIMIT { return false, items, None, full; }
        TakeFamily(q, source, text, family, offset);
        items := items + [Item(family, offset)];
        if |items| == room {
          stop := NextFamily(q, source, family + 1);
          SkipItems(q, source, text, family + 1, if stop.Some? then stop.value else |q.sources|, offset);
          return true, items, stop, true;
        }
      } else {
        SkipItems(q, source, text, family, family + 1, offset);
      }
      family := family + 1;
    }
    SkipItems(q, source, text, family, family, offset);
    ok, stop := true, None;
  }

  method TakeRecord(q: Query, content: string, c: Cursor, room: nat)
    returns (ok: bool, items: seq<Item>, after: Cursor, full: bool)
    requires Admitted(q) && 0 < c.next < SOURCES && |c.offsets| == 3 && c.offsets[c.next - 1] <= |content|
    requires LineEnd(content, c.offsets[c.next - 1]).Some? && 0 < room
    requires c.pending != NO_PENDING ==> c.pending < |q.sources|
    ensures c.offsets[c.next - 1] < OFFSET_LIMIT ==> ok
    ensures ok ==> Took(q, content, c, items, after)
    ensures ok && full ==> |items| == room
    ensures ok && !full ==> |items| < room && after == Advanced(c, LineEnd(content, c.offsets[c.next - 1]).value)
  {
    hide RecordItems;
    var offset := c.offsets[c.next - 1];
    var stop;
    ok, items, stop, full := TakeFamilies(q, c.next, Text(content, offset), First(c), offset, room);
    after := if stop.Some? then c.(pending := stop.value) else Advanced(c, LineEnd(content, offset).value);
  }

  // ----- how a partial turn moves the scan -----

  lemma TookStreams(q: Query, files: Files, c: Cursor, items: seq<Item>, after: Cursor, idle: nat)
    requires Admitted(q) && Shaped(files, c) && c.next != SNAPSHOT && HasRecord(q, files, c) && idle < SOURCES
    requires Took(q, files[c.next - 1].value, c, items, after)
    ensures Shaped(files, after)
    ensures items + Stream(q, files, after, 0) == Stream(q, files, c, idle)
  {
    hide Stream, RecordItems, Selected;
    var content, offset := files[c.next - 1].value, c.offsets[c.next - 1];
    var next := LineEnd(content, offset).value;
    StreamRecord(q, files, c, idle);
    if after != Advanced(c, next) {
      StreamRecord(q, files, after, 0);
      assert Advanced(after, next) == Advanced(c, next);
    }
  }

  lemma TookWorks(q: Query, files: Files, c: Cursor, items: seq<Item>, after: Cursor)
    requires Admitted(q) && Shaped(files, c) && c.next != SNAPSHOT && HasRecord(q, files, c)
    requires Took(q, files[c.next - 1].value, c, items, after)
    requires c.pending != NO_PENDING ==> c.pending < |q.sources|
    ensures Shaped(files, after) && Work(q, files, after) < Work(q, files, c)
  {
    hide RecordItems, Unemitted;
    SameSnapshots(q, c, after, 0);
  }

  lemma TookStaysSane(q: Query, files: Files, c: Cursor, items: seq<Item>, after: Cursor)
    requires Sane(q, files, c) && c.next != SNAPSHOT && HasRecord(q, files, c)
    requires Took(q, files[c.next - 1].value, c, items, after)
    ensures Sane(q, files, after)
  {}
}
