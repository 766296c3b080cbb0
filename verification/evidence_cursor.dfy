/**
 The opaque cursor text ("mre1:" and eleven hexadecimal fields) and the item sequence
 numbers.  Unsigned 64-bit words are natural numbers; shifts and masks by powers of two
 are written as multiplication, division and remainder.
 */
module EvidenceCursor {
  import opened Wrappers
  import opened EvidenceStream

  const PREFIX := "mre1:"
  const CURSOR_SIZE: nat := 5 + 6 + 16 * 8

  /** Three byte fields, then eight words. */
  function Width(field: nat): nat {
    if field < 3 then 2 else 16
  }

  function Fields(): (r: seq<nat>)
    ensures |r| == 11 && forall i | 0 <= i < 11 :: r[i] == Width(i)
  {
    [2, 2, 2] + [16, 16, 16, 16, 16, 16, 16, 16]
  }

  // ----- item sequences -----

  function EncodeSequence(family: nat, offset: nat): (r: Option<nat>)
    ensures r.Some? <==> family < 256 && offset < OFFSET_LIMIT
    ensures r.Some? ==> r.value < 0x1_0000_0000_0000_0000
  {
    if family >= 256 || offset >= OFFSET_LIMIT then None else Some(family * OFFSET_LIMIT + offset)
  }

  function DecodeSequence(sequence: nat): (nat, nat) {
    (sequence / OFFSET_LIMIT, sequence % OFFSET_LIMIT)
  }

  lemma SequenceRoundTrip(family: nat, offset: nat)
    requires EncodeSequence(family, offset).Some?
    ensures DecodeSequence(EncodeSequence(family, offset).value) == (family, offset)
  {}

  /** Different items have different sequences, and offsets order the items of a family. */
  lemma SequencesDiffer(a: Item, b: Item)
    requires EncodeSequence(a.family, a.offset).Some? && EncodeSequence(b.family, b.offset).Some?
    ensures EncodeSequence(a.family, a.offset) == EncodeSequence(b.family, b.offset) <==> a == b
    ensures a.family == b.family ==>
              (EncodeSequence(a.family, a.offset).value < EncodeSequence(b.family, b.offset).value <==>
               a.offset < b.offset)
  {
    SequenceRoundTrip(a.family, a.offset);
    SequenceRoundTrip(b.family, b.offset);
  }

  // ----- hexadecimal -----

  function Digit(value: nat): char
    requires value < 16
  {
    "0123456789abcdef"[value]
  }

  /** std::from_chars in base sixteen also takes upper-case digits. */
  function DigitValue(c: char): Option<nat> {
    if '0' <= c <= '9' then Some(c as nat - '0' as nat)
    else if 'a' <= c <= 'f' then Some(c as nat - 'a' as nat + 10)
    else if 'A' <= c <= 'F' then Some(c as nat - 'A' as nat + 10)
    else None
  }

  function Pow16(n: nat): nat {
    if n == 0 then 1 else 16 * Pow16(n - 1)
  }

  function Hex(value: nat, digits: nat): (text: string)
    ensures |text| == digits
  {
    if digits == 0 then "" else Hex(value / 16, digits - 1) + [Digit(value % 16)]
  }

  function ParseHex(text: string): Option<nat> {
    if text == "" then Some(0)
    else
      var high, low := ParseHex(text[..|text| - 1]), DigitValue(text[|text| - 1]);
      if high.None? || low.None? then None else Some(16 * high.value + low.value)
  }

  lemma {:induction false} HexRoundTrip(value: nat, digits: nat)
    requires value < Pow16(digits)
    ensures ParseHex(Hex(value, digits)) == Some(value)
  {
    if digits > 0 {
      HexRoundTrip(value / 16, digits - 1);
      var text := Hex(value, digits);
      assert text[..|text| - 1] == Hex(value / 16, digits - 1);
      DigitRoundTrip(value % 16);
    }
  }

  lemma DigitRoundTrip(value: nat)
    requires value < 16
    ensures DigitValue(Digit(value)) == Some(value)
  {}

  /** Hex64 fills sixteen digits from the right. */
  method Hex64(value: nat) returns (text: string)
    ensures text == Hex(value, 16)
  {
    text := "";
    var rest, index := value, 0;
    while index < 16
      invariant 0 <= index <= 16
      invariant Hex(rest, 16 - index) + text == Hex(value, 16)
    {
      text := [Digit(rest % 16)] + text;
      rest := rest / 16;
      index := index + 1;
    }
  }

  /** AppendHexByte keeps the last two of those digits. */
  method HexByte(value: nat) returns (text: string)
    ensures text == Hex(value, 2)
  {
    var encoded := Hex64(value);
    LastDigits(value, 16, 2);
    text := encoded[14..];
  }

  lemma {:induction false} LastDigits(value: nat, digits: nat, kept: nat)
    requires kept <= digits
    ensures Hex(value, digits)[digits - kept..] == Hex(value, kept)
    decreases kept
  {
    if kept > 0 {
      LastDigits(value / 16, digits - 1, kept - 1);
      assert Hex(value, digits)[digits - kept..]
          == Hex(value / 16, digits - 1)[digits - kept..] + [Digit(value % 16)];
    }
  }

  /** std::from_chars over exactly `digits` characters. */
  method ParseCursorHex(cursor: string, offset: nat, digits: nat) returns (value: Option<nat>)
    ensures offset + digits > |cursor| ==> value.None?
    ensures offset + digits <= |cursor| ==> value == ParseHex(cursor[offset..offset + digits])
  {
    if offset + digits > |cursor| { return None; }
    var total, index := 0, 0;
    while index < digits
      invariant 0 <= index <= digits
      invariant ParseHex(cursor[offset..offset + index]) == Some(total)
    {
      var digit := DigitValue(cursor[offset + index]);
      assert cursor[offset..offset + index + 1][..index] == cursor[offset..offset + index];
      if digit.None? {
        BadDigit(cursor[offset..offset + digits], index);
        return None;
      }
      total := 16 * total + digit.value;
      index := index + 1;
    }
    value := Some(total);
  }

  lemma {:induction false} BadDigit(text: string, index: nat)
    requires index < |text| && DigitValue(text[index]).None?
    ensures ParseHex(text).None?
    decreases |text|
  {
    if index < |text| - 1 { BadDigit(text[..|text| - 1], index); }
  }

  // ----- fields -----

  function EncodeFields(values: seq<nat>, widths: seq<nat>): string
    requires |values| == |widths|
  {
    if values == [] then "" else Hex(values[0], widths[0]) + EncodeFields(values[1..], widths[1..])
  }

  function ParseFields(text: string, widths: seq<nat>): (r: Option<seq<nat>>)
    ensures r.Some? ==> |r.value| == |widths|
  {
    if widths == [] then (if text == "" then Some([]) else None)
    else if |text| < widths[0] then None
    else
      var first, rest := ParseHex(text[..widths[0]]), ParseFields(text[widths[0]..], widths[1..]);
      if first.None? || rest.None? then None else Some([first.value] + rest.value)
  }

  ghost predicate Fits(values: seq<nat>, widths: seq<nat>) {
    |values| == |widths| && forall i | 0 <= i < |values| :: values[i] < Pow16(widths[i])
  }

  lemma {:induction false} FieldsRoundTrip(values: seq<nat>, widths: seq<nat>)
    requires Fits(values, widths)
    ensures ParseFields(EncodeFields(values, widths), widths) == Some(values)
    decreases |values|
  {
    if values != [] {
      HexRoundTrip(values[0], widths[0]);
      FieldsRoundTrip(values[1..], widths[1..]);
      var text := EncodeFields(values, widths);
      assert text[..widths[0]] == Hex(values[0], widths[0]);
      assert text[widths[0]..] == EncodeFields(values[1..], widths[1..]);
      assert values == [values[0]] + values[1..];
    }
  }

  lemma {:induction false} FieldsLength(values: seq<nat>, widths: seq<nat>)
    requires |values| == |widths|
    ensures |EncodeFields(values, widths)| == Sum(widths)
    decreases |values|
  {
    if values != [] { FieldsLength(values[1..], widths[1..]); }
  }

  function Sum(widths: seq<nat>): nat {
    if widths == [] then 0 else widths[0] + Sum(widths[1..])
  }

  lemma {:induction false} FieldsAppend(values: seq<nat>, widths: seq<nat>, value: nat, width: nat)
    requires |values| == |widths|
    ensures EncodeFields(values + [value], widths + [width]) == EncodeFields(values, widths) + Hex(value, width)
    decreases |values|
  {
    if values != [] {
      assert (values + [value])[1..] == values[1..] + [value] && (widths + [width])[1..] == widths[1..] + [width];
      FieldsAppend(values[1..], widths[1..], value, width);
    } else {
      assert (values + [value])[1..] == [] && (widths + [width])[1..] == [];
    }
  }

  // ----- the cursor text -----

  function Values(c: Cursor, families: nat, fingerprint: nat): seq<nat> {
    [c.next, c.pending, families] + c.offsets + c.snapshots + [fingerprint]
  }

  function FromValues(values: seq<nat>): Cursor
    requires |values| == 11
  {
    Cursor(values[3..6], values[6..10], values[0], values[1])
  }

  predicate Encodable(c: Cursor) {
    |c.offsets| == 3 && |c.snapshots| == WORDS && forall i | 0 <= i < 3 :: c.offsets[i] < OFFSET_LIMIT
  }

  function Encoded(c: Cursor, families: nat, fingerprint: nat): string
    requires |c.offsets| == 3 && |c.snapshots| == WORDS
  {
    PREFIX + EncodeFields(Values(c, families, fingerprint), Fields())
  }

  method EncodeOpaqueCursor(c: Cursor, families: nat, fingerprint: nat) returns (text: Option<string>)
    requires |c.offsets| == 3 && |c.snapshots| == WORDS
    ensures text.Some? <==> Encodable(c)
    ensures text.Some? ==> text.value == Encoded(c, families, fingerprint) && |text.value| == CURSOR_SIZE
  {
    hide EncodeFields, Values, Fields;
    ghost var values := Values(c, families, fingerprint);
    ValuesAre(c, families, fingerprint);
    var encoded := PREFIX;
    NoFields(values);
    encoded := Append(encoded, values, 0, c.next, 2);
    encoded := Append(encoded, values, 1, c.pending, 2);
    encoded := Append(encoded, values, 2, families, 2);
    var index := 0;
    while index < 3
      invariant 0 <= index <= 3
      invariant encoded == PREFIX + EncodeFields(values[..3 + index], Fields()[..3 + index])
      invariant |encoded| == 11 + 16 * index
      invariant forall i | 0 <= i < index :: c.offsets[i] < OFFSET_LIMIT
    {
      if c.offsets[index] >= OFFSET_LIMIT { return None; }
      encoded := Append(encoded, values, 3 + index, c.offsets[index], 16);
      index := index + 1;
    }
    index := 0;
    while index < WORDS
      invariant 0 <= index <= WORDS
      invariant encoded == PREFIX + EncodeFields(values[..6 + index], Fields()[..6 + index])
      invariant |encoded| == 59 + 16 * index
    {
      encoded := Append(encoded, values, 6 + index, c.snapshots[index], 16);
      index := index + 1;
    }
    encoded := Append(encoded, values, 10, fingerprint, 16);
    assert values[..11] == values && Fields()[..11] == Fields();
    text := Some(encoded);
  }

  method Append(encoded: string, ghost values: seq<nat>, ghost index: nat, value: nat, width: nat) returns (r: string)
    requires |values| == 11 && index < 11 && values[index] == value && width == Width(index)
    requires encoded == PREFIX + EncodeFields(values[..index], Fields()[..index])
    ensures r == PREFIX + EncodeFields(values[..index + 1], Fields()[..index + 1]) && |r| == |encoded| + width
  {
    var field;
    if width == 2 { field := HexByte(value); } else { field := Hex64(value); }
    FieldsAppend(values[..index], Fields()[..index], value, width);
    assert values[..index + 1] == values[..index] + [value] && Fields()[..index + 1] == Fields()[..index] + [width];
    r := encoded + field;
  }

  lemma NoFields(values: seq<nat>)
    ensures EncodeFields(values[..0], Fields()[..0]) == ""
  {}

  lemma ValuesAre(c: Cursor, families: nat, fingerprint: nat)
    requires |c.offsets| == 3 && |c.snapshots| == WORDS
    ensures var values := Values(c, families, fingerprint);
            && |values| == 11 && values[0] == c.next && values[1] == c.pending && values[2] == families
            && (forall i | 0 <= i < 3 :: values[3 + i] == c.offsets[i])
            && (forall i | 0 <= i < WORDS :: values[6 + i] == c.snapshots[i])
            && values[10] == fingerprint && FromValues(values) == c
  {
    var values := Values(c, families, fingerprint);
    assert values[3..6] == c.offsets && values[6..10] == c.snapshots;
  }

  lemma EncodedSize(c: Cursor, families: nat, fingerprint: nat)
    requires |c.offsets| == 3 && |c.snapshots| == WORDS
    ensures |Encoded(c, families, fingerprint)| == CURSOR_SIZE
  {
    ValuesAre(c, families, fingerprint);
    FieldsLength(Values(c, families, fingerprint), Fields());
    SumFrom(0);
    assert Fields()[0..] == Fields();
  }

  lemma {:induction false} SumFrom(field: nat)
    requires field <= 11
    ensures Sum(Fields()[field..]) == if field < 3 then 2 * (3 - field) + 128 else 16 * (11 - field)
    decreases 11 - field
  {
    if field < 11 {
      assert Fields()[field..][1..] == Fields()[field + 1..] && Fields()[field..][0] == Width(field);
      SumFrom(field + 1);
    }
  }

  /** The checks DecodeOpaqueCursor makes on the parsed fields. */
  predicate Accepts(q: Query, c: Cursor, families: nat, fingerprint: nat, expected: nat) {
    && c.next < SOURCES && families == |q.sources| && fingerprint == expected
    && Encodable(c)
    && (forall family | 0 <= family < WORDS * 64 ::
          Emitted(c, family) ==> family < |q.sources| && q.sources[family] == SNAPSHOT)
    && (c.pending != NO_PENDING ==>
          c.pending < |q.sources| && q.sources[c.pending] != SNAPSHOT && q.sources[c.pending] == c.next)
  }

  /** The cursor of a query without a cursor text. */
  function FirstCursor(q: Query, start: nat): Option<Cursor> {
    if start == 0 then Some(START)
    else if |q.sources| != 1 then None
    else
      var (family, offset) := DecodeSequence(start);
      if family != 0 || q.sources[0] == SNAPSHOT || q.sources[0] >= SOURCES then None
      else Some(START.(offsets := START.offsets[q.sources[0] - 1 := offset], next := q.sources[0]))
  }

  function Decode(q: Query, text: string, start: nat, expected: nat): Option<Cursor> {
    if text == "" then FirstCursor(q, start)
    else if start != 0 || |text| != CURSOR_SIZE || !(PREFIX <= text) then None
    else
      var values := ParseFields(text[5..], Fields());
      if values.None? then None
      else
        var c := FromValues(values.value);
        if Accepts(q, c, values.value[2], values.value[10], expected) then Some(c) else None
  }

  method DecodeOpaqueCursor(q: Query, text: string, start: nat, expected: nat) returns (c: Option<Cursor>)
    ensures c == Decode(q, text, start, expected)
  {
    if text == "" { return FirstCursor(q, start); }
    if start != 0 || |text| != CURSOR_SIZE || !(PREFIX <= text) { return None; }
    hide ParseFields, ParseHex, Accepts, Fields;
    var values: seq<nat>, offset, index := [], 5, 0;
    assert Fields()[0..] == Fields();
    JoinNothing(ParseFields(text[5..], Fields()));
    while index < 11
      invariant 0 <= index <= 11 && |values| == index && 0 <= offset <= |text|
      invariant ParseFields(text[5..], Fields()) == Joined(values, ParseFields(text[offset..], Fields()[index..]))
    {
      var width := Width(index);
      var value := ParseCursorHex(text, offset, width);
      ParseFirst(text, offset, index);
      if value.None? { return None; }
      JoinOne(values, value.value, ParseFields(text[offset + width..], Fields()[index + 1..]));
      values := values + [value.value];
      offset := offset + width;
      index := index + 1;
    }
    ParseNothing(text[offset..]);
    assert Fields()[11..] == [];
    if offset != |text| { return None; }
    assert values + [] == values;
    var cursor := FromValues(values);
    return if Accepts(q, cursor, values[2], values[10], expected) then Some(cursor) else None;
  }

  lemma ParseNothing(text: string)
    ensures ParseFields(text, []) == if text == "" then Some([]) else None
  {}

  lemma ParseFirst(text: string, offset: nat, field: nat)
    requires offset <= |text| && field < 11
    ensures ParseFields(text[offset..], Fields()[field..])
         == if offset + Width(field) > |text| then None
            else
              var first := ParseHex(text[offset..offset + Width(field)]);
              if first.None? then None
              else Joined([first.value], ParseFields(text[offset + Width(field)..], Fields()[field + 1..]))
  {
    hide ParseHex, Fields;
    var width := Width(field);
    assert Fields()[field..][0] == width && Fields()[field..][1..] == Fields()[field + 1..];
    if offset + width <= |text| {
      assert text[offset..][..width] == text[offset..offset + width];
      assert text[offset..][width..] == text[offset + width..];
    }
  }

  lemma JoinNothing(rest: Option<seq<nat>>)
    ensures Joined([], rest) == rest
  {
    if rest.Some? { assert [] + rest.value == rest.value; }
  }

  function Joined(values: seq<nat>, rest: Option<seq<nat>>): Option<seq<nat>> {
    if rest.None? then None else Some(values + rest.value)
  }

  lemma JoinOne(values: seq<nat>, value: nat, rest: Option<seq<nat>>)
    ensures Joined(values, Joined([value], rest)) == Joined(values + [value], rest)
  {
    if rest.Some? { assert values + ([value] + rest.value) == values + [value] + rest.value; }
  }

  // ----- reachable cursors -----

  /** What every cursor of a query satisfies, whatever the files hold. */
  ghost predicate Packable(q: Query, c: Cursor) {
    && Encodable(c) && c.next < SOURCES
    && (forall i | 0 <= i < WORDS :: c.snapshots[i] < Pow2(64))
    && (forall family: nat | Emitted(c, family) :: family < |q.sources| && q.sources[family] == SNAPSHOT)
    && (c.pending != NO_PENDING ==>
          c.pending < |q.sources| && q.sources[c.pending] != SNAPSHOT && q.sources[c.pending] == c.next)
  }

  /** An encoded reachable cursor decodes to itself. */
  lemma CursorRoundTrip(q: Query, c: Cursor, fingerprint: nat)
    requires Admitted(q) && Packable(q, c) && fingerprint < Pow2(64)
    ensures Decode(q, Encoded(c, |q.sources|, fingerprint), 0, fingerprint) == Some(c)
  {
    hide Values, Pow16, Pow2, EncodeFields, ParseFields, Fields;
    var values := Values(c, |q.sources|, fingerprint);
    ValuesAre(c, |q.sources|, fingerprint);
    Widths();
    assert Fits(values, Fields()) by {
      forall i | 0 <= i < |values| ensures values[i] < Pow16(Fields()[i]) {
        if 3 <= i < 6 {
          assert values[i] == values[3 + (i - 3)] == c.offsets[i - 3];
        } else if 6 <= i < 10 {
          assert values[i] == values[6 + (i - 6)] == c.snapshots[i - 6];
        }
      }
    }
    FieldsRoundTrip(values, Fields());
    EncodedSize(c, |q.sources|, fingerprint);
    var text := Encoded(c, |q.sources|, fingerprint);
    assert text[5..] == EncodeFields(values, Fields());
  }

  lemma {:induction false} PowerAdds(a: nat, b: nat)
    ensures Pow16(a + b) == Pow16(a) * Pow16(b)
  {
    if a > 0 { PowerAdds(a - 1, b); }
  }

  lemma {:induction false} PowersAgree(n: nat)
    ensures Pow16(n) == Pow2(4 * n)
  {
    if n > 0 {
      PowersAgree(n - 1);
      var k := 4 * (n - 1);
      assert Pow2(k + 2) == 4 * Pow2(k);
      assert Pow2(k + 4) == 4 * Pow2(k + 2);
    }
  }

  lemma Widths()
    ensures Pow16(2) == 256 && Pow16(16) == Pow2(64) && OFFSET_LIMIT <= Pow16(16)
  {
    PowersAgree(16);
    assert Pow16(4) == 0x1_0000;
    PowerAdds(4, 4);
    PowerAdds(8, 8);
  }
}
