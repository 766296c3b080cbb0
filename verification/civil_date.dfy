/**
 The closed-form Gregorian day count behind evidence timestamps, against counting days
 one by one, and the order it gives to RFC 3339 timestamps.
 */
module CivilDate {
  import opened Wrappers

  datatype Date = Date(year: nat, month: nat, day: nat)

  // ----- the calendar -----

  predicate Leap(year: nat) {
    year % 4 == 0 && (year % 100 != 0 || year % 400 == 0)
  }

  function YearLength(year: nat): nat {
    if Leap(year) then 366 else 365
  }

  function MonthLength(year: nat, month: nat): nat {
    if month == 2 then (if Leap(year) then 29 else 28)
    else if month == 4 || month == 6 || month == 9 || month == 11 then 30
    else 31
  }

  predicate Real(d: Date) {
    1 <= d.month <= 12 && 1 <= d.day <= MonthLength(d.year, d.month)
  }

  function Tomorrow(d: Date): Date {
    if d.day < MonthLength(d.year, d.month) then d.(day := d.day + 1)
    else if d.month < 12 then Date(d.year, d.month + 1, 1)
    else Date(d.year + 1, 1, 1)
  }

  predicate Earlier(a: Date, b: Date) {
    || a.year < b.year
    || (a.year == b.year && a.month < b.month)
    || (a.year == b.year && a.month == b.month && a.day < b.day)
  }

  // ----- counting -----

  function DaysBeforeYear(year: nat): nat {
    if year == 0 then 0 else DaysBeforeYear(year - 1) + YearLength(year - 1)
  }

  function DaysBeforeMonth(year: nat, month: nat): nat {
    if month <= 1 then 0 else DaysBeforeMonth(year, month - 1) + MonthLength(year, month - 1)
  }

  /** Days since 0000-01-01, counted year by year and month by month. */
  function Counted(d: Date): int {
    DaysBeforeYear(d.year) + DaysBeforeMonth(d.year, d.month) + d.day - 1
  }

  /** C++ integer division. */
  function Truncated(a: int, b: nat): int
    requires b > 0
  {
    if a >= 0 then a / b else -((-a) / b)
  }

  function DaysFromCivil(d: Date): int {
    var year: int := d.year - (if d.month <= 2 then 1 else 0);
    var era := Truncated(if year >= 0 then year else year - 399, 400);
    var yearOfEra := year - era * 400;
    var shifted := d.month + (if d.month > 2 then -3 else 9);
    var dayOfYear := (153 * shifted + 2) / 5 + d.day - 1;
    var dayOfEra := yearOfEra * 365 + yearOfEra / 4 - yearOfEra / 100 + dayOfYear;
    era * 146097 + dayOfEra - 719468
  }

  // ----- the closed form -----

  function Down(n: nat, k: nat): nat
    requires k > 0
  {
    n / k
  }

  function Up(n: nat, k: nat): nat
    requires k > 0
  {
    (n + k - 1) / k
  }

  /** Rounding up grows exactly after multiples. */
  lemma Rounding(n: nat, k: nat)
    requires k > 0
    ensures Up(n + 1, k) == Down(n, k) + 1
    ensures Up(n + 1, k) == Up(n, k) + (if n % k == 0 then 1 else 0)
  {
    var q, r := n / k, n % k;
    assert n == k * q + r;
    Quotient(n + k, k, q + 1, r);
    if r == 0 {
      Quotient(n + k - 1, k, q, k - 1);
    } else {
      Quotient(n + k - 1, k, q + 1, r - 1);
    }
  }

  lemma Quotient(n: nat, k: nat, q: nat, r: nat)
    requires k > 0 && n == k * q + r && r < k
    ensures n / k == q
  {
    var e := n / k - q;
    assert k * e == k * (n / k) - k * q;
    assert n - k * (n / k) == n % k;
    Multiplied(k, e);
  }

  lemma Multiplied(k: nat, e: int)
    ensures (e > 0 ==> k * e >= k) && (e < 0 ==> k * e + k <= 0)
  {}

  function Plain(year: nat): int {
    365 * year + Down(year, 4) - Down(year, 100) + Down(year, 400)
  }

  /** Days in the years before `year`. */
  function Closed(year: nat): int {
    365 * year + Up(year, 4) - Up(year, 100) + Up(year, 400)
  }

  lemma {:induction false} CountsYears(year: nat)
    ensures DaysBeforeYear(year) == Closed(year)
  {
    if year > 0 {
      CountsYears(year - 1);
      YearStep(year - 1);
    }
  }

  lemma YearStep(year: nat)
    ensures Closed(year + 1) == Closed(year) + YearLength(year)
    ensures Closed(year + 1) == Plain(year) + 366
  {
    hide Up, Down;
    Rounding(year, 4);
    Rounding(year, 100);
    Rounding(year, 400);
    Multiples(year);
  }

  lemma Multiples(year: nat)
    ensures year % 400 == 0 ==> year % 100 == 0
    ensures year % 100 == 0 ==> year % 4 == 0
  {
    assert year % 400 == 0 ==> year == 100 * (4 * (year / 400));
    assert year % 100 == 0 ==> year == 4 * (25 * (year / 100));
  }

  /** Days of the months since March. */
  function SinceMarch(month: nat): int {
    (153 * (month + (if month > 2 then -3 else 9)) + 2) / 5
  }

  /** The era arithmetic is the plain one. */
  lemma EraIsPlain(d: Date)
    requires d.month <= 2 ==> d.year > 0
    ensures DaysFromCivil(d)
         == Plain(d.year - (if d.month <= 2 then 1 else 0)) + SinceMarch(d.month) + d.day - 1 - 719468
  {
    var year := d.year - (if d.month <= 2 then 1 else 0);
    var era := year / 400;
    var yearOfEra := year - era * 400;
    assert year / 4 == 100 * era + yearOfEra / 4;
    assert year / 100 == 4 * era + yearOfEra / 100;
  }

  lemma MonthsCounted(year: nat, month: nat)
    requires 1 <= month <= 12
    ensures DaysBeforeMonth(year, month)
         == SinceMarch(month) + (if month <= 2 then -306 else 59 + (if Leap(year) then 1 else 0))
  {
    assert DaysBeforeMonth(year, 1) == 0;
    assert DaysBeforeMonth(year, 2) == 31;
    var leap := if Leap(year) then 1 else 0;
    assert DaysBeforeMonth(year, 3) == 59 + leap;
    assert DaysBeforeMonth(year, 4) == 90 + leap;
    assert DaysBeforeMonth(year, 5) == 120 + leap;
    assert DaysBeforeMonth(year, 6) == 151 + leap;
    assert DaysBeforeMonth(year, 7) == 181 + leap;
    assert DaysBeforeMonth(year, 8) == 212 + leap;
    assert DaysBeforeMonth(year, 9) == 243 + leap;
    assert DaysBeforeMonth(year, 10) == 273 + leap;
    assert DaysBeforeMonth(year, 11) == 304 + leap;
    assert DaysBeforeMonth(year, 12) == 334 + leap;
  }

  const EPOCH: int := 719528

  /** The closed form counts days. */
  lemma DaysAreCounted(d: Date)
    requires 1 <= d.month <= 12
    ensures DaysFromCivil(d) == Counted(d) - EPOCH
  {
    hide Up, Down, Plain, Closed, DaysBeforeYear, DaysBeforeMonth, SinceMarch;
    CountsYears(d.year);
    MonthsCounted(d.year, d.month);
    if d.month > 2 {
      hide DaysFromCivil;
      EraIsPlain(d);
      YearStep(d.year);
    } else if d.year > 0 {
      hide DaysFromCivil;
      EraIsPlain(d);
      YearStep(d.year - 1);
    } else {
      YearZero(d);
    }
  }

  lemma YearZero(d: Date)
    requires d.year == 0 && 1 <= d.month <= 2
    ensures DaysFromCivil(d) == SinceMarch(d.month) - 306 + d.day - 1 - EPOCH && Closed(0) == 0
  {}

  /** 1970-01-01 is day zero, and every next date adds exactly one. */
  lemma DaysFollowTheCalendar(d: Date)
    requires Real(d)
    ensures DaysFromCivil(Date(1970, 1, 1)) == 0
    ensures Real(Tomorrow(d)) && DaysFromCivil(Tomorrow(d)) == DaysFromCivil(d) + 1
  {
    hide DaysFromCivil, DaysBeforeYear, DaysBeforeMonth, Leap;
    DaysAreCounted(d);
    DaysAreCounted(Tomorrow(d));
    YearIsItsMonths(d.year);
    NextYear(d.year);
    NextMonth(d.year, d.month);
    Epoch();
  }

  lemma NextYear(year: nat)
    ensures DaysBeforeYear(year + 1) == DaysBeforeYear(year) + YearLength(year)
    ensures DaysBeforeMonth(year + 1, 1) == 0
  {}

  lemma NextMonth(year: nat, month: nat)
    requires month >= 1
    ensures DaysBeforeMonth(year, month + 1) == DaysBeforeMonth(year, month) + MonthLength(year, month)
  {}

  lemma Epoch()
    ensures DaysFromCivil(Date(1970, 1, 1)) == 0
  {}

  lemma YearIsItsMonths(year: nat)
    ensures DaysBeforeMonth(year, 12) + 31 == YearLength(year)
  {
    MonthsCounted(year, 12);
  }

  lemma {:induction false} MonthsAscend(year: nat, a: nat, b: nat)
    requires 1 <= a < b
    ensures DaysBeforeMonth(year, a) + MonthLength(year, a) <= DaysBeforeMonth(year, b)
    decreases b
  {
    if a < b - 1 { MonthsAscend(year, a, b - 1); }
  }

  lemma {:induction false} YearsAscend(a: nat, b: nat)
    requires a < b
    ensures DaysBeforeYear(a) + YearLength(a) <= DaysBeforeYear(b)
    decreases b
  {
    if a < b - 1 { YearsAscend(a, b - 1); }
  }

  /** Later dates have larger day numbers, and only they. */
  lemma DaysOrder(a: Date, b: Date)
    requires Real(a) && Real(b)
    ensures Earlier(a, b) <==> DaysFromCivil(a) < DaysFromCivil(b)
    ensures a == b <==> DaysFromCivil(a) == DaysFromCivil(b)
  {
    if Earlier(a, b) { EarlierIsLess(a, b); }
    if Earlier(b, a) { EarlierIsLess(b, a); }
    assert Earlier(a, b) || Earlier(b, a) || a == b;
  }

  lemma EarlierIsLess(a: Date, b: Date)
    requires Real(a) && Real(b) && Earlier(a, b)
    ensures DaysFromCivil(a) < DaysFromCivil(b)
  {
    hide DaysFromCivil, DaysBeforeYear, DaysBeforeMonth, Leap;
    DaysAreCounted(a);
    DaysAreCounted(b);
    if a.year < b.year {
      YearsAscend(a.year, b.year);
      YearIsItsMonths(a.year);
      if a.month < 12 { MonthsAscend(a.year, a.month, 12); }
    } else if a.month < b.month {
      MonthsAscend(a.year, a.month, b.month);
    }
  }

  // ----- dates that do not exist -----

  /** Days up to 31 are accepted in every month; the surplus runs into the next one. */
  function Meant(d: Date): Date {
    if d.day <= MonthLength(d.year, d.month) then d
    else Date(d.year, d.month + 1, d.day - MonthLength(d.year, d.month))
  }

  /** February 30 counts as the real date that many days after the end of February. */
  lemma MeantCounts(d: Date)
    requires 1 <= d.month <= 12 && 1 <= d.day <= 31
    ensures Real(Meant(d)) && DaysFromCivil(d) == DaysFromCivil(Meant(d))
  {
    hide DaysFromCivil, DaysBeforeYear, DaysBeforeMonth, Leap;
    DaysAreCounted(d);
    DaysAreCounted(Meant(d));
    NextMonth(d.year, d.month);
  }

  // ----- timestamps -----

  datatype Stamp = Stamp(date: Date, hour: nat, minute: nat, second: nat)

  /** What the parser lets through: a four-digit year, any day up to 31, and second 60 as a leap second. */
  predicate Accepted(s: Stamp) {
    && s.date.year <= 9999 && 1 <= s.date.month <= 12 && 1 <= s.date.day <= 31
    && s.hour <= 23 && s.minute <= 59 && s.second <= 60
  }

  function MeantStamp(s: Stamp): Stamp {
    s.(date := Meant(s.date))
  }

  /** std::from_chars over exactly these decimal digits. */
  function Decimal(text: string): Option<nat> {
    if text == "" then None
    else
      var high := if |text| == 1 then Some(0) else Decimal(text[..|text| - 1]);
      var c := text[|text| - 1];
      if high.None? || !('0' <= c <= '9') then None else Some(10 * high.value + (c as nat - '0' as nat))
  }

  /** The fixed positions of "YYYY-MM-DDTHH:MM:SSZ". */
  function Parsed(text: string): Option<Stamp> {
    if |text| != 20 || text[4] != '-' || text[7] != '-' || text[10] != 'T' || text[13] != ':' || text[16] != ':'
       || text[19] != 'Z'
    then None
    else
      var year, month, day := Decimal(text[0..4]), Decimal(text[5..7]), Decimal(text[8..10]);
      var hour, minute, second := Decimal(text[11..13]), Decimal(text[14..16]), Decimal(text[17..19]);
      if year.None? || month.None? || day.None? || hour.None? || minute.None? || second.None? then None
      else Some(Stamp(Date(year.value, month.value, day.value), hour.value, minute.value, second.value))
  }

  /** TimestampMilliseconds of a record without a numeric field; zero when it cannot be used. */
  function Milliseconds(text: string): nat {
    var stamp := Parsed(text);
    if stamp.None? then 0
    else
      var s := stamp.value;
      if s.date.month < 1 || s.date.month > 12 || s.date.day < 1 || s.date.day > 31
         || s.hour > 23 || s.minute > 59 || s.second > 60 then 0
      else
        var days := DaysFromCivil(s.date);
        if days < 0 then 0
        else
          var seconds := days * 86400 + s.hour * 3600 + s.minute * 60 + (if s.second < 59 then s.second else 59);
          if seconds > 0xffff_ffff_ffff_ffff / 1000 then 0 else seconds * 1000
  }

  function Digits(value: nat, count: nat): (text: string)
    ensures |text| == count
  {
    if count == 0 then "" else Digits(value / 10, count - 1) + [(('0' as nat) + value % 10) as char]
  }

  function Pow10(n: nat): nat {
    if n == 0 then 1 else 10 * Pow10(n - 1)
  }

  function Rendered(s: Stamp): string {
    Digits(s.date.year, 4) + "-" + Digits(s.date.month, 2) + "-" + Digits(s.date.day, 2) + "T"
    + Digits(s.hour, 2) + ":" + Digits(s.minute, 2) + ":" + Digits(s.second, 2) + "Z"
  }

  lemma {:induction false} DecimalReads(value: nat, count: nat)
    requires 0 < count && value < Pow10(count)
    ensures Decimal(Digits(value, count)) == Some(value)
  {
    var text := Digits(value, count);
    assert text[..count - 1] == Digits(value / 10, count - 1);
    if count > 1 { DecimalReads(value / 10, count - 1); }
  }

  lemma RenderedReads(s: Stamp)
    requires Accepted(s)
    ensures Parsed(Rendered(s)) == Some(s)
  {
    hide Digits, Decimal;
    var text := Rendered(s);
    assert Pow10(2) == 100 && Pow10(4) == 10000;
    DecimalReads(s.date.year, 4);
    DecimalReads(s.date.month, 2);
    DecimalReads(s.date.day, 2);
    DecimalReads(s.hour, 2);
    DecimalReads(s.minute, 2);
    DecimalReads(s.second, 2);
    assert text[0..4] == Digits(s.date.year, 4);
    assert text[5..7] == Digits(s.date.month, 2);
    assert text[8..10] == Digits(s.date.day, 2);
    assert text[11..13] == Digits(s.hour, 2);
    assert text[14..16] == Digits(s.minute, 2);
    assert text[17..19] == Digits(s.second, 2);
  }

  function SecondOfDay(s: Stamp): nat {
    s.hour * 3600 + s.minute * 60 + (if s.second < 59 then s.second else 59)
  }

  /** Seconds since the epoch, a leap second read as the second before it. */
  function Seconds(s: Stamp): int {
    DaysFromCivil(s.date) * 86400 + SecondOfDay(s)
  }

  predicate SinceEpoch(s: Stamp) {
    s.date.year >= 1970
  }

  lemma MillisecondsRead(s: Stamp)
    requires Accepted(s)
    ensures var m := MeantStamp(s);
            && Real(m.date) && Milliseconds(Rendered(s)) == (if SinceEpoch(m) then Seconds(m) * 1000 else 0)
            && (SinceEpoch(m) <==> 0 <= DaysFromCivil(m.date))
  {
    hide DaysFromCivil, Parsed, Rendered, Meant;
    var meant := Meant(s.date);
    RenderedReads(s);
    MeantCounts(s.date);
    MeantYear(s.date);
    Epoch();
    DaysOrder(meant, Date(1970, 1, 1));
    DaysOrder(meant, Date(10000, 1, 1));
    FarFuture();
  }

  lemma MeantYear(d: Date)
    ensures Meant(d).year == d.year
  {}

  lemma FarFuture()
    ensures DaysFromCivil(Date(10000, 1, 1)) < 3000000
  {}

  /** The order of the calendar and the clock; a leap second follows second 59 of its minute. */
  predicate StampEarlier(a: Stamp, b: Stamp) {
    || Earlier(a.date, b.date)
    || (a.date == b.date &&
        (a.hour < b.hour ||
         (a.hour == b.hour && (a.minute < b.minute || (a.minute == b.minute && a.second < b.second)))))
  }

  /** A leap second and the second before it. */
  predicate LeapPair(a: Stamp, b: Stamp) {
    a.second == 59 && b == a.(second := 60)
  }

  /** Later than the first second of 1970. */
  predicate AfterEpoch(s: Stamp) {
    SinceEpoch(s) && s != Stamp(Date(1970, 1, 1), 0, 0, 0)
  }

  lemma SecondsOrder(a: Stamp, b: Stamp)
    requires Real(a.date) && Real(b.date) && Clock(a) && Clock(b)
    ensures Seconds(a) < Seconds(b) <==> StampEarlier(a, b) && !LeapPair(a, b)
  {
    hide DaysFromCivil, Earlier;
    DaysOrder(a.date, b.date);
    assert SecondOfDay(a) < 86400 && SecondOfDay(b) < 86400;
  }

  predicate Clock(s: Stamp) {
    s.hour <= 23 && s.minute <= 59 && s.second <= 60
  }

  /**
   An earlier timestamp reads as a smaller number exactly when the later one lies after
   the first second of 1970 and is not the leap second right behind it; a date that does
   not exist stands for the real one it runs into.
   */
  lemma TimestampsOrder(a: Stamp, b: Stamp)
    requires Accepted(a) && Accepted(b)
    ensures var m, n := MeantStamp(a), MeantStamp(b);
            Milliseconds(Rendered(a)) < Milliseconds(Rendered(b)) <==>
            StampEarlier(m, n) && !LeapPair(m, n) && AfterEpoch(n)
  {
    hide DaysFromCivil, Parsed, Rendered, Milliseconds, Earlier, StampEarlier, LeapPair, Meant;
    MillisecondsRead(a);
    MillisecondsRead(b);
    SecondsOrder(MeantStamp(a), MeantStamp(b));
    FirstSecond(MeantStamp(b));
  }

  lemma FirstSecond(b: Stamp)
    requires Real(b.date) && Clock(b)
    ensures Seconds(b) > 0 <==> AfterEpoch(b)
  {
    hide DaysFromCivil;
    Epoch();
    DaysOrder(Date(1970, 1, 1), b.date);
    assert SecondOfDay(b) < 86400;
  }

  /** Everything else reads as zero. */
  lemma RefusedReadsZero(text: string)
    requires Parsed(text).None? || !Accepted(Parsed(text).value)
    ensures Milliseconds(text) == 0
  {
    hide DaysFromCivil;
    if Parsed(text).Some? { FourDigits(text); }
  }

  lemma FourDigits(text: string)
    requires Parsed(text).Some?
    ensures Parsed(text).value.date.year <= 9999
  {
    DecimalBelow(text[0..4]);
    assert Pow10(4) == 10000;
  }

  lemma {:induction false} DecimalBelow(text: string)
    requires Decimal(text).Some?
    ensures Decimal(text).value < Pow10(|text|)
  {
    if |text| > 1 { DecimalBelow(text[..|text| - 1]); }
  }

  /** Two days of 1969 read alike, so do the two last seconds of 2016, and February 30 reads as March 2. */
  lemma TimestampsCollapse()
    ensures var a, b := Stamp(Date(1969, 12, 30), 0, 0, 0), Stamp(Date(1969, 12, 31), 0, 0, 0);
            && Real(a.date) && Real(b.date) && StampEarlier(a, b)
            && Milliseconds(Rendered(a)) == Milliseconds(Rendered(b)) == 0
    ensures var a, b := Stamp(Date(2016, 12, 31), 23, 59, 59), Stamp(Date(2016, 12, 31), 23, 59, 60);
            && Real(a.date) && Real(b.date) && StampEarlier(a, b)
            && Milliseconds(Rendered(a)) == Milliseconds(Rendered(b)) > 0
    ensures var a, b := Stamp(Date(2023, 2, 30), 0, 0, 0), Stamp(Date(2023, 3, 2), 0, 0, 0);
            && !Real(a.date) && Real(b.date) && StampEarlier(a, b)
            && Milliseconds(Rendered(a)) == Milliseconds(Rendered(b)) > 0
  {
    hide DaysFromCivil, Parsed, Rendered, Milliseconds;
    MillisecondsRead(Stamp(Date(1969, 12, 30), 0, 0, 0));
    MillisecondsRead(Stamp(Date(1969, 12, 31), 0, 0, 0));
    MillisecondsRead(Stamp(Date(2016, 12, 31), 23, 59, 59));
    MillisecondsRead(Stamp(Date(2016, 12, 31), 23, 59, 60));
    MillisecondsRead(Stamp(Date(2023, 2, 30), 0, 0, 0));
    MillisecondsRead(Stamp(Date(2023, 3, 2), 0, 0, 0));
    FirstSecond(Stamp(Date(2023, 3, 2), 0, 0, 0));
  }
}
