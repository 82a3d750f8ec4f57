/** The date of a log line: fast civil-from-days arithmetic against the plain Gregorian calendar. */
module CivilDate {
  datatype Date = Date(year: int, month: int, day: int)

  const SHIFT := 719_468
  const ERA := 146_097

  function YearOfEra(doe: int): (yoe: int) {
    (doe - doe / 1_460 + doe / 36_524 - doe / 146_096) / 365
  }

  function DayOfYear(doe: int): (doy: int) {
    var yoe := YearOfEra(doe);
    doe - (365 * yoe + yoe / 4 - yoe / 100)
  }

  /** The calendar date of day `doy` of the year that starts in March of `year`. */
  function MarchDate(year: int, doy: int): (d: Date) {
    var mp := (5 * doy + 2) / 153;
    var day := doy - (153 * mp + 2) / 5 + 1;
    var month := if mp < 10 then mp + 3 else mp - 9;
    Date(if month <= 2 then year + 1 else year, month, day)
  }

  /** The year, counted from March, of day `z` of the shifted count. */
  function YearOf(z: int): (year: int) {
    YearOfEra(z % ERA) + z / ERA * 400
  }

  /** The date `timestamp` prints for a count of days since 1970-01-01. */
  function CivilFromDays(days: int): (d: Date) {
    MarchDate(YearOf(days + SHIFT), DayOfYear((days + SHIFT) % ERA))
  }

  // The Gregorian calendar.

  predicate IsLeap(year: int) {
    year % 4 == 0 && (year % 100 != 0 || year % 400 == 0)
  }

  function DaysInMonth(year: int, month: int): (n: int) {
    if month == 2 then if IsLeap(year) then 29 else 28
    else if month == 4 || month == 6 || month == 9 || month == 11 then 30
    else 31
  }

  predicate IsDate(d: Date) {
    1 <= d.month <= 12 && 1 <= d.day <= DaysInMonth(d.year, d.month)
  }

  function NextDay(d: Date): (next: Date)
    requires IsDate(d)
    ensures IsDate(next)
  {
    if d.day < DaysInMonth(d.year, d.month) then Date(d.year, d.month, d.day + 1)
    else if d.month < 12 then Date(d.year, d.month + 1, 1)
    else Date(d.year + 1, 1, 1)
  }

  // Years that start in March.

  /** Days before March of `year`. */
  function YearStart(year: int): (n: int) {
    365 * year + year / 4 - year / 100 + year / 400
  }

  function YearLength(year: int): (n: int) {
    if IsLeap(year + 1) then 366 else 365
  }

  lemma NextQuotients(y: int)
    ensures (y + 1) / 4 == y / 4 + if (y + 1) % 4 == 0 then 1 else 0
    ensures (y + 1) / 100 == y / 100 + if (y + 1) % 100 == 0 then 1 else 0
    ensures (y + 1) / 400 == y / 400 + if (y + 1) % 400 == 0 then 1 else 0
  {
  }

  lemma Multiples(y: int)
    ensures y % 400 == 0 ==> y % 100 == 0
    ensures y % 100 == 0 ==> y % 4 == 0
  {
  }

  lemma NextYear(year: int)
    ensures YearStart(year + 1) == YearStart(year) + YearLength(year)
  {
    NextQuotients(year);
    Multiples(year + 1);
  }

  lemma {:induction false} LaterYear(a: int, b: int)
    requires a < b
    ensures YearStart(a + 1) <= YearStart(b)
    decreases b - a
  {
    if a + 1 < b {
      LaterYear(a, b - 1);
      NextYear(b - 1);
    }
  }

  /** A day of the era is in some century `c`, four-year cycle `k` and year `j` of the cycle. */
  lemma CycleYear(doe: int, c: int, k: int, t: int, j: int)
    requires 0 <= c < 4 && 0 <= k < 25 && 0 <= t <= 1460 && (k == 24 ==> t < 1460)
    requires doe == 36_524 * c + 1_461 * k + t
    requires j == if t == 1460 then 3 else t / 365
    ensures YearOfEra(doe) == 100 * c + 4 * k + j && DayOfYear(doe) == t - 365 * j
  {
    var s := 24 * c + k + t;
    assert doe / 36_524 == c && doe / 146_096 == 0;
    assert doe / 1_460 == 25 * c + k + if s >= 1_460 then 1 else 0;
    var yoe := 100 * c + 4 * k + j;
    assert YearOfEra(doe) == yoe;
    assert yoe / 4 == 25 * c + k && yoe / 100 == c;
  }

  /** The century, the cycle and the year of it that hold a day. */
  lemma CycleOf(doe: int) returns (c: int, k: int, t: int, j: int)
    requires 0 <= doe < ERA - 1
    ensures 0 <= c < 4 && 0 <= k < 25 && 0 <= t <= 1460 && (k == 24 ==> t < 1460)
    ensures doe == 36_524 * c + 1_461 * k + t && j == if t == 1460 then 3 else t / 365
  {
    c := doe / 36_524;
    var r := doe % 36_524;
    k, t := r / 1_461, r % 1_461;
    j := if t == 1460 then 3 else t / 365;
  }

  lemma LeapInCycle(c: int, k: int)
    requires 0 <= c < 4 && 0 <= k < 24
    ensures IsLeap(100 * c + 4 * k + 4)
  {
    assert 100 * c + 4 * k + 4 == 4 * (25 * c + k + 1);
    assert (100 * c + 4 * k + 4) % 100 == 4 * k + 4;
  }

  lemma YearInCycle(c: int, k: int, t: int, j: int)
    requires 0 <= c < 4 && 0 <= k < 25 && 0 <= t <= 1460 && (k == 24 ==> t < 1460)
    requires j == if t == 1460 then 3 else t / 365
    ensures 0 <= 100 * c + 4 * k + j < 400 && 0 <= t - 365 * j < YearLength(100 * c + 4 * k + j)
  {
    if t == 1460 { LeapInCycle(c, k); }
  }

  /** One year of the era holds each day of it. */
  lemma EraYear(doe: int)
    requires 0 <= doe < ERA
    ensures 0 <= YearOfEra(doe) < 400
    ensures 0 <= DayOfYear(doe) < YearLength(YearOfEra(doe))
  {
    if doe < ERA - 1 {
      var c, k, t, j := CycleOf(doe);
      CycleYear(doe, c, k, t, j);
      YearInCycle(c, k, t, j);
    }
  }

  lemma EraStart(e: int, yoe: int)
    requires 0 <= yoe < 400
    ensures YearStart(yoe + e * 400) == ERA * e + 365 * yoe + yoe / 4 - yoe / 100
  {
    var y := yoe + e * 400;
    assert y / 4 == yoe / 4 + 100 * e;
    assert y / 100 == yoe / 100 + 4 * e;
    assert y / 400 == e;
  }

  lemma Shift4(y: int, k: int)
    ensures (y + 4 * k) % 4 == y % 4
  {
  }

  lemma Shift100(y: int, k: int)
    ensures (y + 100 * k) % 100 == y % 100
  {
  }

  lemma Shift400(y: int, k: int)
    ensures (y + 400 * k) % 400 == y % 400
  {
  }

  lemma EraLeap(e: int, year: int)
    ensures IsLeap(year + e * 400) == IsLeap(year)
  {
    var y := year + e * 400;
    assert y % 4 == year % 4 by { Shift4(year, 100 * e); }
    assert y % 100 == year % 100 by { Shift100(year, 4 * e); }
    assert y % 400 == year % 400 by { Shift400(year, e); }
  }

  /** The year and the day in it that the arithmetic picks hold the day it was given. */
  lemma PickedYear(z: int)
    ensures var y, doy := YearOf(z), DayOfYear(z % ERA);
            z == YearStart(y) + doy && 0 <= doy < YearLength(y)
  {
    var e, doe := z / ERA, z % ERA;
    var yoe := YearOfEra(doe);
    EraYear(doe);
    EraStart(e, yoe);
    EraLeap(e, yoe + 1);
    assert z == ERA * e + doe;
  }

  lemma SameYear(z: int, a: int, i: int, b: int, j: int)
    requires z == YearStart(a) + i == YearStart(b) + j
    requires 0 <= i < YearLength(a) && 0 <= j < YearLength(b)
    ensures a == b && i == j
  {
    NextYear(a);
    NextYear(b);
    if a < b { LaterYear(a, b); }
    if b < a { LaterYear(b, a); }
  }

  // Days of such a year.

  lemma MonthOf(doy: int)
    requires 0 <= doy < 366
    ensures 0 <= (5 * doy + 2) / 153 <= 11
  {
  }

  lemma MarchDateIsDate(year: int, doy: int)
    requires 0 <= doy < YearLength(year)
    ensures IsDate(MarchDate(year, doy))
  {
    MonthOf(doy);
  }

  lemma NextInYear(year: int, doy: int)
    requires 0 <= doy && doy + 1 < YearLength(year)
    ensures IsDate(MarchDate(year, doy)) && MarchDate(year, doy + 1) == NextDay(MarchDate(year, doy))
  {
    MonthOf(doy);
    MonthOf(doy + 1);
    MarchDateIsDate(year, doy);
  }

  lemma NextAfterYear(year: int)
    ensures var last := MarchDate(year, YearLength(year) - 1);
            IsDate(last) && MarchDate(year + 1, 0) == NextDay(last)
  {
  }

  /** Day 0 is the first of January 1970. */
  lemma Epoch()
    ensures CivilFromDays(0) == Date(1970, 1, 1)
  {
  }

  /** The year and the day in it that a count falls on give its date. */
  lemma Holder(days: int) returns (year: int, doy: int)
    ensures days + SHIFT == YearStart(year) + doy && 0 <= doy < YearLength(year)
    ensures CivilFromDays(days) == MarchDate(year, doy)
  {
    var z := days + SHIFT;
    PickedYear(z);
    year, doy := YearOf(z), DayOfYear(z % ERA);
  }

  lemma NextHolder(year: int, doy: int) returns (y: int, d: int)
    requires 0 <= doy < YearLength(year)
    ensures YearStart(y) + d == YearStart(year) + doy + 1 && 0 <= d < YearLength(y)
    ensures IsDate(MarchDate(year, doy)) && MarchDate(y, d) == NextDay(MarchDate(year, doy))
  {
    MarchDateIsDate(year, doy);
    if doy + 1 < YearLength(year) {
      y, d := year, doy + 1;
      NextInYear(year, doy);
    } else {
      y, d := year + 1, 0;
      NextYear(year);
      NextAfterYear(year);
    }
  }

  /** Every day count gives a date of the calendar, and the next count gives the next date. */
  lemma NextCivil(days: int)
    ensures IsDate(CivilFromDays(days))
    ensures CivilFromDays(days + 1) == NextDay(CivilFromDays(days))
  {
    var year, doy := Holder(days);
    var y, d := NextHolder(year, doy);
    var v, e := Holder(days + 1);
    SameYear(days + 1 + SHIFT, y, d, v, e);
  }

  function After(d: Date, n: nat): (later: Date)
    requires IsDate(d)
    ensures IsDate(later)
  {
    if n == 0 then d else NextDay(After(d, n - 1))
  }

  /** `f` steps to the next date at `d`. */
  predicate Steps(f: int -> Date, d: int) {
    IsDate(f(d - 1)) && f(d) == NextDay(f(d - 1))
  }

  lemma {:induction false} Counting(f: int -> Date, days: int, n: nat)
    requires forall d :: Steps(f, d)
    ensures IsDate(f(days)) && After(f(days), n) == f(days + n)
  {
    assert Steps(f, days);
    if n > 0 {
      Counting(f, days, n - 1);
      assert Steps(f, days + n);
    }
  }

  /** Counting days is stepping through the calendar, before and after 1970 alike. */
  lemma CountingDays(days: int, n: nat)
    ensures IsDate(CivilFromDays(days)) && After(CivilFromDays(days), n) == CivilFromDays(days + n)
  {
    forall d ensures Steps(CivilFromDays, d) {
      NextCivil(d - 1);
    }
    Counting(CivilFromDays, days, n);
  }
}
