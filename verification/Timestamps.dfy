/** Stored timestamps: the ISO text of a UTC time, whose length depends on the microseconds, and the
    claim queries that order rows by that text. */
module Timestamps {
  import opened Options
  import opened Utf8

  /** The calendar fields of a UTC time, as `datetime` holds them. */
  datatype Instant = Instant(year: nat, month: nat, day: nat, hour: nat, minute: nat, second: nat, micro: nat) {
    predicate Valid() {
      && 1 <= year <= 9999 && 1 <= month <= 12 && 1 <= day <= DaysInMonth(year, month) && hour < 24 && minute < 60 && second < 60
      && micro < 1000000
    }
  }

  // ---------------------------------------------------------------- elapsed time

  predicate Leap(year: nat) {
    year % 4 == 0 && (year % 100 != 0 || year % 400 == 0)
  }

  function DaysInMonth(year: nat, month: nat): (n: nat)
    ensures n <= 31
  {
    if month == 2 then (if Leap(year) then 29 else 28) else if month in {4, 6, 9, 11} then 30 else 31
  }

  /** The days of a year before the first of a month. */
  function DaysBeforeMonth(year: nat, month: nat): nat
    requires 1 <= month
  {
    if month == 1 then 0 else DaysBeforeMonth(year, month - 1) + DaysInMonth(year, month - 1)
  }

  /** The days before the first of January of a year, from the first of January of year 1. */
  function DaysBeforeYear(year: nat): nat {
    if year <= 1 then 0 else DaysBeforeYear(year - 1) + DaysBeforeMonth(year - 1, 13)
  }

  function DaysBefore(t: Instant): nat
    requires t.Valid()
  {
    DaysBeforeYear(t.year) + DaysBeforeMonth(t.year, t.month) + (t.day - 1)
  }

  const MICROS_A_DAY: nat := 24 * 60 * 60 * 1000000

  function MicrosOfDay(t: Instant): nat {
    ((t.hour * 60 + t.minute) * 60 + t.second) * 1000000 + t.micro
  }

  /** The microseconds from the start of year 1 to `t`. */
  function Elapsed(t: Instant): int
    requires t.Valid()
  {
    DaysBefore(t) * MICROS_A_DAY + MicrosOfDay(t)
  }

  // ---------------------------------------------------------------- the Gregorian calendar, in figures

  /** The days of a common year before the first of each month, and of the whole year. */
  const CUMULATIVE: seq<nat> := [0, 31, 59, 90, 120, 151, 181, 212, 243, 273, 304, 334, 365]

  /** One in years divisible by 4 but not by 100, or by 400. */
  function LeapDay(year: nat): nat {
    if year % 400 == 0 then 1 else if year % 100 == 0 then 0 else if year % 4 == 0 then 1 else 0
  }

  lemma MonthsInFigures(year: nat, month: nat)
    requires 1 <= month <= 13
    ensures DaysBeforeMonth(year, month) == CUMULATIVE[month - 1] + (if month > 2 then LeapDay(year) else 0)
  {
    if month > 1 { MonthsInFigures(year, month - 1); }
  }

  lemma {:induction false} YearsInFigures(year: nat)
    requires 1 <= year
    ensures DaysBeforeYear(year) == 365 * (year - 1) + (year - 1) / 4 - (year - 1) / 100 + (year - 1) / 400
  {
    if year > 1 {
      YearsInFigures(year - 1);
      MonthsInFigures(year - 1, 13);
      LeapDaysAddUp(year - 1);
    }
  }

  lemma ByFour(n: nat)
    requires n >= 1
    ensures n / 4 == (n - 1) / 4 + if n % 4 == 0 then 1 else 0
  {
  }

  lemma ByHundred(n: nat)
    requires n >= 1
    ensures n / 100 == (n - 1) / 100 + if n % 100 == 0 then 1 else 0
  {
  }

  lemma ByFourHundred(n: nat)
    requires n >= 1
    ensures n / 400 == (n - 1) / 400 + if n % 400 == 0 then 1 else 0
  {
  }

  lemma Hundreds(k: nat)
    ensures 100 * k % 100 == 0
  {
  }

  lemma Fours(k: nat)
    ensures 4 * k % 4 == 0
  {
  }

  lemma LeapYearsByHundreds(n: nat)
    ensures n % 400 == 0 ==> n % 100 == 0
    ensures n % 100 == 0 ==> n % 4 == 0
  {
    Hundreds(4 * (n / 400));
    Fours(25 * (n / 100));
  }

  lemma LeapDaysAddUp(n: nat)
    requires n >= 1
    ensures n / 4 - n / 100 + n / 400 == (n - 1) / 4 - (n - 1) / 100 + (n - 1) / 400 + LeapDay(n)
  {
    ByFour(n);
    ByHundred(n);
    ByFourHundred(n);
    LeapYearsByHundreds(n);
  }

  /** Which calendar fields make a time. */
  lemma CalendarInFigures(t: Instant)
    ensures t.Valid() <==>
      && 1 <= t.year <= 9999 && 1 <= t.month <= 12
      && 1 <= t.day <= CUMULATIVE[t.month] - CUMULATIVE[t.month - 1] + (if t.month == 2 then LeapDay(t.year) else 0)
      && t.hour <= 23 && t.minute <= 59 && t.second <= 59 && t.micro <= 999999
  {
  }

  lemma DaysInFigures(t: Instant)
    requires t.Valid()
    ensures DaysBefore(t) ==
      365 * (t.year - 1) + (t.year - 1) / 4 - (t.year - 1) / 100 + (t.year - 1) / 400
      + CUMULATIVE[t.month - 1] + (if t.month > 2 then LeapDay(t.year) else 0) + t.day - 1
  {
    YearsInFigures(t.year);
    MonthsInFigures(t.year, t.month);
  }

  /** How many microseconds have passed by a time, counted in days, hours, minutes and seconds. */
  lemma ElapsedInFigures(t: Instant)
    requires t.Valid()
    ensures Elapsed(t) == ((DaysBefore(t) * 24 + t.hour) * 3600 + t.minute * 60 + t.second) * 1000000 + t.micro
  {
  }

  /** Earlier in time. */
  predicate Before(a: Instant, b: Instant)
    requires a.Valid() && b.Valid()
  {
    Elapsed(a) < Elapsed(b)
  }

  lemma {:induction false} LaterMonth(year: nat, a: nat, b: nat)
    requires 1 <= a < b
    ensures DaysBeforeMonth(year, a) + DaysInMonth(year, a) <= DaysBeforeMonth(year, b)
  {
    if a < b - 1 { LaterMonth(year, a, b - 1); }
  }

  lemma {:induction false} LaterYear(a: nat, b: nat)
    requires 1 <= a < b
    ensures DaysBeforeYear(a) + DaysBeforeMonth(a, 13) <= DaysBeforeYear(b)
  {
    if a < b - 1 { LaterYear(a, b - 1); }
  }

  predicate DateBefore(a: Instant, b: Instant) {
    a.year < b.year || (a.year == b.year && (a.month < b.month || (a.month == b.month && a.day < b.day)))
  }

  predicate SameDate(a: Instant, b: Instant) {
    a.year == b.year && a.month == b.month && a.day == b.day
  }

  predicate FieldsBefore(a: Instant, b: Instant) {
    DateBefore(a, b) || (SameDate(a, b) && ClockBefore(a, b))
  }

  lemma EarlierDate(a: Instant, b: Instant)
    requires a.Valid() && b.Valid() && DateBefore(a, b)
    ensures DaysBefore(a) < DaysBefore(b)
  {
    if a.year < b.year {
      LaterYear(a.year, b.year);
      LaterMonth(a.year, a.month, 13);
    } else if a.month < b.month {
      LaterMonth(a.year, a.month, b.month);
    }
  }

  lemma ClockWithinDay(t: Instant)
    requires t.Valid()
    ensures MicrosOfDay(t) < MICROS_A_DAY
  {
  }

  lemma EarlierClock(a: Instant, b: Instant)
    requires a.Valid() && b.Valid()
    ensures MicrosOfDay(a) < MicrosOfDay(b) <==> ClockBefore(a, b)
  {
  }

  /** Less time has elapsed exactly when the first calendar field that differs is smaller. */
  lemma ElapsedByFields(a: Instant, b: Instant)
    requires a.Valid() && b.Valid()
    ensures Before(a, b) <==> FieldsBefore(a, b)
  {
    ClockWithinDay(a);
    ClockWithinDay(b);
    EarlierClock(a, b);
    if DateBefore(a, b) {
      EarlierDate(a, b);
      EarlierDay(DaysBefore(a), DaysBefore(b), MicrosOfDay(a), MicrosOfDay(b));
    } else if DateBefore(b, a) {
      EarlierDate(b, a);
      EarlierDay(DaysBefore(b), DaysBefore(a), MicrosOfDay(b), MicrosOfDay(a));
    }
  }

  lemma EarlierDay(d: nat, e: nat, x: nat, y: nat)
    requires d < e && x < MICROS_A_DAY
    ensures d * MICROS_A_DAY + x < e * MICROS_A_DAY + y
  {
  }

  // ---------------------------------------------------------------- the text

  const DASH: int := 45
  const COLON: int := 58
  const POINT: int := 46
  const PLUS: int := 43

  function Power10(n: nat): (p: nat)
    ensures p >= 1
  {
    if n == 0 then 1 else 10 * Power10(n - 1)
  }

  /** `n` in exactly `width` decimal digits. */
  function Digits(n: nat, width: nat): (text: seq<int>)
    ensures |text| == width
  {
    if width == 0 then [] else Digits(n / 10, width - 1) + [48 + n % 10]
  }

  const ZONE: seq<int> := [PLUS, 48, 48, COLON, 48, 48]

  function Fraction(micro: nat): seq<int> {
    if micro == 0 then ZONE else [POINT] + Digits(micro, 6) + ZONE
  }

  /** `isoformat()` of a UTC time: six fractional digits, or none when the microseconds are zero. */
  function Iso(t: Instant): seq<int> {
    Digits(t.year, 4) + ([DASH] + (Digits(t.month, 2) + ([DASH] + (Digits(t.day, 2) + ([84] +
    (Digits(t.hour, 2) + ([COLON] + (Digits(t.minute, 2) + ([COLON] + (Digits(t.second, 2) + Fraction(t.micro)))))))))))
  }

  // ---------------------------------------------------------------- order

  lemma {:induction false} DigitsDiffer(a: nat, b: nat, width: nat) returns (i: nat)
    requires a < b < Power10(width)
    ensures i < width && Digits(a, width)[..i] == Digits(b, width)[..i] && Digits(a, width)[i] < Digits(b, width)[i]
    decreases width
  {
    if a / 10 == b / 10 {
      i := width - 1;
    } else {
      i := DigitsDiffer(a / 10, b / 10, width - 1);
      assert Digits(a, width)[..i] == Digits(a / 10, width - 1)[..i];
      assert Digits(b, width)[..i] == Digits(b / 10, width - 1)[..i];
    }
  }

  lemma SmallerNumberFirst(a: nat, b: nat, width: nat, x: seq<int>, y: seq<int>)
    requires a < b < Power10(width)
    ensures Less(Digits(a, width) + x, Digits(b, width) + y) && !Less(Digits(b, width) + y, Digits(a, width) + x)
  {
    var i := DigitsDiffer(a, b, width);
    var s, t := Digits(a, width) + x, Digits(b, width) + y;
    assert s[..i] == Digits(a, width)[..i] && t[..i] == Digits(b, width)[..i];
    LessAtFirstDifference(s, t, i);
  }

  /** Fixed-width fields compare as numbers, then the rest decides. */
  lemma FieldOrder(a: nat, b: nat, width: nat, x: seq<int>, y: seq<int>)
    requires a < Power10(width) && b < Power10(width)
    ensures Less(Digits(a, width) + x, Digits(b, width) + y) <==> a < b || (a == b && Less(x, y))
  {
    if a < b {
      SmallerNumberFirst(a, b, width, x, y);
    } else if b < a {
      SmallerNumberFirst(b, a, width, y, x);
    } else {
      LessSkipsPrefix(Digits(a, width), x, y);
    }
  }

  lemma SeparatedFieldOrder(sep: int, a: nat, b: nat, width: nat, x: seq<int>, y: seq<int>)
    requires a < Power10(width) && b < Power10(width)
    ensures Less([sep] + (Digits(a, width) + x), [sep] + (Digits(b, width) + y)) <==> a < b || (a == b && Less(x, y))
  {
    LessSkipsPrefix([sep], Digits(a, width) + x, Digits(b, width) + y);
    FieldOrder(a, b, width, x, y);
  }

  /** The plus sign of the zone sorts before the decimal point, so a whole second comes first. */
  lemma FractionOrder(a: nat, b: nat)
    requires a < 1000000 && b < 1000000
    ensures Less(Fraction(a), Fraction(b)) <==> a < b
  {
    SixDigits();
    if a == 0 && b == 0 {
      LessIsTotal(ZONE, ZONE);
    } else if a == 0 {
      LessAtFirstDifference(Fraction(a), Fraction(b), 0);
    } else if b == 0 {
      LessAtFirstDifference(Fraction(b), Fraction(a), 0);
    } else {
      assert Fraction(a) == [POINT] + (Digits(a, 6) + ZONE) && Fraction(b) == [POINT] + (Digits(b, 6) + ZONE);
      SeparatedFieldOrder(POINT, a, b, 6, ZONE, ZONE);
      LessIsTotal(ZONE, ZONE);
    }
  }

  lemma SixDigits()
    ensures Power10(2) == 100 && Power10(4) == 10000 && Power10(6) == 1000000
  {
    assert Power10(1) == 10;
    assert Power10(3) == 1000;
    assert Power10(5) == 100000;
  }

  function Seconds(t: Instant): seq<int> {
    Digits(t.second, 2) + Fraction(t.micro)
  }

  function Clock(t: Instant): seq<int> {
    Digits(t.hour, 2) + ([COLON] + (Digits(t.minute, 2) + ([COLON] + Seconds(t))))
  }

  predicate ClockBefore(a: Instant, b: Instant) {
    a.hour < b.hour || (a.hour == b.hour &&
    (a.minute < b.minute || (a.minute == b.minute &&
    (a.second < b.second || (a.second == b.second && a.micro < b.micro)))))
  }

  lemma ClockOrder(a: Instant, b: Instant)
    requires a.Valid() && b.Valid()
    ensures Less(Clock(a), Clock(b)) <==> ClockBefore(a, b)
  {
    SixDigits();
    FractionOrder(a.micro, b.micro);
    SeparatedFieldOrder(COLON, a.second, b.second, 2, Fraction(a.micro), Fraction(b.micro));
    SeparatedFieldOrder(COLON, a.minute, b.minute, 2, [COLON] + Seconds(a), [COLON] + Seconds(b));
    FieldOrder(a.hour, b.hour, 2, [COLON] + (Digits(a.minute, 2) + ([COLON] + Seconds(a))), [COLON] + (Digits(b.minute, 2) + ([COLON] + Seconds(b))));
  }

  lemma IsoOrderIsFieldOrder(a: Instant, b: Instant)
    requires a.Valid() && b.Valid()
    ensures Less(Iso(a), Iso(b)) <==> FieldsBefore(a, b)
  {
    SixDigits();
    ClockOrder(a, b);
    LessSkipsPrefix([84], Clock(a), Clock(b));
    var dayA, dayB := [84] + Clock(a), [84] + Clock(b);
    SeparatedFieldOrder(DASH, a.day, b.day, 2, dayA, dayB);
    var monthA, monthB := [DASH] + (Digits(a.day, 2) + dayA), [DASH] + (Digits(b.day, 2) + dayB);
    SeparatedFieldOrder(DASH, a.month, b.month, 2, monthA, monthB);
    FieldOrder(a.year, b.year, 4, [DASH] + (Digits(a.month, 2) + monthA), [DASH] + (Digits(b.month, 2) + monthB));
  }

  /** The text order of stored timestamps is the order of the times: less elapsed, first in text. */
  lemma IsoOrderIsTimeOrder(a: Instant, b: Instant)
    requires a.Valid() && b.Valid()
    ensures Less(Iso(a), Iso(b)) <==> Before(a, b)
  {
    IsoOrderIsFieldOrder(a, b);
    ElapsedByFields(a, b);
  }

  /** Different times have different texts. */
  lemma IsoIsInjective(a: Instant, b: Instant)
    requires a.Valid() && b.Valid() && Iso(a) == Iso(b)
    ensures a == b
  {
    IsoOrderIsFieldOrder(a, b);
    IsoOrderIsFieldOrder(b, a);
    LessIsTotal(Iso(a), Iso(b));
  }

  // ---------------------------------------------------------------- claims

  /** The columns a claim query reads, as text; `eligible` is the rest of its WHERE clause. */
  datatype Row = Row(key: Text, eligible: bool, created: Instant, next: Option<Instant>)

  predicate ValidRow(r: Row) {
    r.created.Valid() && (r.next.Some? ==> r.next.value.Valid())
  }

  /** `next_attempt_at <= ?` on text; NULL never compares. */
  predicate DueText(r: Row, now: Instant) {
    r.next.Some? && !Less(Iso(now), Iso(r.next.value))
  }

  predicate DueTime(r: Row, now: Instant)
    requires ValidRow(r) && now.Valid()
  {
    r.next.Some? && !Before(now, r.next.value)
  }

  /** `ORDER BY next_attempt_at, created_at, work_key` on text. */
  predicate TextFirst(a: Row, b: Row)
    requires a.next.Some? && b.next.Some?
  {
    Less(Iso(a.next.value), Iso(b.next.value)) || (Iso(a.next.value) == Iso(b.next.value) &&
    (Less(Iso(a.created), Iso(b.created)) || (Iso(a.created) == Iso(b.created) && Less(Encode(a.key), Encode(b.key)))))
  }

  predicate TimeFirst(a: Row, b: Row)
    requires a.next.Some? && b.next.Some? && ValidRow(a) && ValidRow(b)
  {
    Before(a.next.value, b.next.value) || (a.next == b.next &&
    (Before(a.created, b.created) || (a.created == b.created && Less(a.key, b.key))))
  }

  lemma TextQueryIsTimeQuery(a: Row, b: Row, now: Instant)
    requires ValidRow(a) && ValidRow(b) && now.Valid()
    ensures (DueText(a, now) <==> DueTime(a, now)) && (DueText(b, now) <==> DueTime(b, now))
    ensures a.next.Some? && b.next.Some? ==> (TextFirst(a, b) <==> TimeFirst(a, b))
  {
    if b.next.Some? { IsoOrderIsTimeOrder(now, b.next.value); }
    if a.next.Some? {
      IsoOrderIsTimeOrder(now, a.next.value);
      if b.next.Some? {
        IsoOrderIsTimeOrder(a.next.value, b.next.value);
        if Iso(a.next.value) == Iso(b.next.value) { IsoIsInjective(a.next.value, b.next.value); }
        IsoOrderIsTimeOrder(a.created, b.created);
        if Iso(a.created) == Iso(b.created) { IsoIsInjective(a.created, b.created); }
        ByteOrderIsTextOrder(a.key, b.key);
      }
    }
  }

  predicate Selected(r: Row, now: Instant) {
    r.eligible && DueText(r, now)
  }

  lemma TextFirstIsTransitive(a: Row, b: Row, c: Row)
    requires a.next.Some? && b.next.Some? && c.next.Some? && TextFirst(a, b) && TextFirst(b, c)
    ensures TextFirst(a, c)
  {
    if Less(Iso(a.next.value), Iso(b.next.value)) && Less(Iso(b.next.value), Iso(c.next.value)) {
      LessIsTransitive(Iso(a.next.value), Iso(b.next.value), Iso(c.next.value));
    }
    if Less(Iso(a.created), Iso(b.created)) && Less(Iso(b.created), Iso(c.created)) {
      LessIsTransitive(Iso(a.created), Iso(b.created), Iso(c.created));
    }
    if Less(Encode(a.key), Encode(b.key)) && Less(Encode(b.key), Encode(c.key)) {
      LessIsTransitive(Encode(a.key), Encode(b.key), Encode(c.key));
    }
  }

  lemma TextFirstIsTotal(a: Row, b: Row)
    requires a.next.Some? && b.next.Some? && a.key != b.key
    ensures TextFirst(a, b) || TextFirst(b, a)
  {
    LessIsTotal(Iso(a.next.value), Iso(b.next.value));
    LessIsTotal(Iso(a.created), Iso(b.created));
    LessIsTotal(Encode(a.key), Encode(b.key));
    if Encode(a.key) == Encode(b.key) { EncodeIsInjective(a.key, b.key); }
  }

  /** `chosen` is the row a query over texts picks first among the first `n`. */
  ghost predicate FirstSelected(rows: seq<Row>, now: Instant, n: nat, chosen: Option<nat>)
    requires n <= |rows|
  {
    && (chosen.None? ==> forall i :: 0 <= i < n ==> !Selected(rows[i], now))
    && (chosen.Some? ==> chosen.value < n && Selected(rows[chosen.value], now))
    && (chosen.Some? ==> forall i :: 0 <= i < n && i != chosen.value && Selected(rows[i], now) ==> TextFirst(rows[chosen.value], rows[i]))
  }

  /** The row picked after one more. */
  predicate Moves(rows: seq<Row>, now: Instant, n: nat, chosen: Option<nat>)
    requires n < |rows| && (chosen.Some? ==> chosen.value < n && Selected(rows[chosen.value], now))
  {
    Selected(rows[n], now) && (chosen.Some? ==> TextFirst(rows[n], rows[chosen.value]))
  }

  lemma RowTakesOver(rows: seq<Row>, now: Instant, n: nat, chosen: Option<nat>)
    requires n < |rows| && FirstSelected(rows, now, n, chosen) && Moves(rows, now, n, chosen)
    ensures FirstSelected(rows, now, n + 1, Some(n))
  {
    forall i | 0 <= i < n && Selected(rows[i], now) ensures TextFirst(rows[n], rows[i]) {
      if i != chosen.value { TextFirstIsTransitive(rows[n], rows[chosen.value], rows[i]); }
    }
  }

  lemma RowComesLater(rows: seq<Row>, now: Instant, n: nat, chosen: Option<nat>)
    requires n < |rows| && FirstSelected(rows, now, n, chosen) && !Moves(rows, now, n, chosen)
    requires forall i :: 0 <= i < n ==> rows[i].key != rows[n].key
    ensures FirstSelected(rows, now, n + 1, chosen)
  {
    if chosen.Some? {
      var best := rows[chosen.value];
      assert best.key != rows[n].key;
      forall i | 0 <= i < n + 1 && i != chosen.value && Selected(rows[i], now) ensures TextFirst(best, rows[i]) {
        if i == n { TextFirstIsTotal(best, rows[n]); }
      }
    }
  }

  lemma FirstByTextIsFirstByTime(rows: seq<Row>, now: Instant, chosen: Option<nat>)
    requires now.Valid() && (forall i :: 0 <= i < |rows| ==> ValidRow(rows[i])) && FirstSelected(rows, now, |rows|, chosen)
    ensures chosen.None? <==> forall i :: 0 <= i < |rows| ==> !(rows[i].eligible && DueTime(rows[i], now))
    ensures chosen.Some? ==>
      && chosen.value < |rows| && rows[chosen.value].eligible && DueTime(rows[chosen.value], now)
      && forall i :: 0 <= i < |rows| && i != chosen.value && rows[i].eligible && DueTime(rows[i], now) ==> TimeFirst(rows[chosen.value], rows[i])
  {
    forall i | 0 <= i < |rows|
      ensures Selected(rows[i], now) <==> rows[i].eligible && DueTime(rows[i], now)
      ensures chosen.Some? && Selected(rows[i], now) && i != chosen.value ==> TimeFirst(rows[chosen.value], rows[i])
    {
      TextQueryIsTimeQuery(rows[if chosen.Some? then chosen.value else i], rows[i], now);
    }
  }

  /** The claim query, over texts, picks the due eligible row that is least by next attempt time,
      creation time and key; it finds none exactly when no eligible row is due. */
  method SelectClaim(rows: seq<Row>, now: Instant) returns (chosen: Option<nat>)
    requires now.Valid() && forall i :: 0 <= i < |rows| ==> ValidRow(rows[i])
    requires forall i, j :: 0 <= i < j < |rows| ==> rows[i].key != rows[j].key
    ensures chosen.None? <==> forall i :: 0 <= i < |rows| ==> !(rows[i].eligible && DueTime(rows[i], now))
    ensures chosen.Some? ==>
      && chosen.value < |rows| && rows[chosen.value].eligible && DueTime(rows[chosen.value], now)
      && forall i :: 0 <= i < |rows| && i != chosen.value && rows[i].eligible && DueTime(rows[i], now) ==> TimeFirst(rows[chosen.value], rows[i])
  {
    chosen := None;
    for n := 0 to |rows|
      invariant FirstSelected(rows, now, n, chosen)
    {
      if Selected(rows[n], now) && (chosen.None? || TextFirst(rows[n], rows[chosen.value])) {
        RowTakesOver(rows, now, n, chosen);
        chosen := Some(n);
      } else {
        RowComesLater(rows, now, n, chosen);
      }
    }
    FirstByTextIsFirstByTime(rows, now, chosen);
  }
}
