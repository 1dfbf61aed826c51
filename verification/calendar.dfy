/** Dates as day numbers in the proleptic Gregorian calendar: day 0 is
    1970-01-01 (a Thursday), negative numbers are earlier days. This module
    gives what the dashboards read off a date: the ISO 8601 week date
    (ISO 8601:2004, section 4.1.4: weeks start on Monday and week 1 is the
    week holding the year's first Thursday) and the Sunday that closes a
    week under pandas' weekly frequency "W". */
module Calendar {

  /** ISO day of the week: Monday is 1, Sunday is 7. */
  function IsoWeekday(d: int): (w: int)
    ensures 1 <= w <= 7
  {
    (d + 3) % 7 + 1
  }

  predicate IsLeapYear(y: int) {
    y % 4 == 0 && (y % 100 != 0 || y % 400 == 0)
  }

  function YearLength(y: int): int {
    if IsLeapYear(y) then 366 else 365
  }

  /** Day number of January 1st of year `y`. */
  function YearStart(y: int): int {
    var p := y - 1;
    365 * p + p / 4 - p / 100 + p / 400 - 719162
  }

  /** Consecutive years start one year length apart. */
  lemma YearStartStep(y: int)
    ensures YearStart(y + 1) == YearStart(y) + YearLength(y)
  {
    assert y / 4 - (y - 1) / 4 == if y % 4 == 0 then 1 else 0;
    assert y / 100 - (y - 1) / 100 == if y % 100 == 0 then 1 else 0;
    assert y / 400 - (y - 1) / 400 == if y % 400 == 0 then 1 else 0;
  }

  lemma {:induction false} YearStartMonotone(a: int, b: int)
    requires a <= b
    ensures YearStart(a) <= YearStart(b)
    decreases b - a
  {
    if a < b {
      YearStartStep(a);
      YearStartMonotone(a + 1, b);
    }
  }

  /** The year holding day `d`, searched from year `y` towards `d`. */
  function YearOfDayFrom(d: int, y: int): (r: int)
    ensures YearStart(r) <= d < YearStart(r + 1)
    decreases if YearStart(y) <= d < YearStart(y + 1) then 0
              else if d < YearStart(y) then YearStart(y) - d + 1
              else d - YearStart(y) + 1
  {
    if d < YearStart(y) then
      YearStartStep(y - 1);
      YearOfDayFrom(d, y - 1)
    else if YearStart(y + 1) <= d then
      YearStartStep(y);
      YearOfDayFrom(d, y + 1)
    else
      y
  }

  /** A calendar year and a 0-based day of that year (0 is January 1st). */
  datatype YearDay = YearDay(year: int, ordinal: int)

  /** The calendar year of day `d` and the day's position in it. */
  function CivilYearDay(d: int): (yd: YearDay)
    ensures 0 <= yd.ordinal < YearLength(yd.year)
    ensures YearStart(yd.year) + yd.ordinal == d
  {
    var y := YearOfDayFrom(d, 1970);
    YearStartStep(y);
    YearDay(y, d - YearStart(y))
  }

  /** The year and day position of a date are unique: `CivilYearDay` inverts
      `(y, o) |-> YearStart(y) + o` on valid day positions. */
  lemma CivilYearDayOf(y: int, o: int)
    requires 0 <= o < YearLength(y)
    ensures CivilYearDay(YearStart(y) + o) == YearDay(y, o)
  {
    var yd := CivilYearDay(YearStart(y) + o);
    YearDayUnique(yd.year, yd.ordinal, y, o);
  }

  lemma YearDayUnique(y1: int, o1: int, y2: int, o2: int)
    requires 0 <= o1 < YearLength(y1) && 0 <= o2 < YearLength(y2)
    requires YearStart(y1) + o1 == YearStart(y2) + o2
    ensures y1 == y2 && o1 == o2
  {
    YearBounds(y1, y2);
    YearBounds(y2, y1);
  }

  /** A day of year `a` comes before every day of a later year `b`. */
  lemma YearBounds(a: int, b: int)
    ensures a < b ==> YearStart(a) + YearLength(a) <= YearStart(b)
  {
    if a < b {
      YearStartStep(a);
      YearStartMonotone(a + 1, b);
    }
  }

  /** An ISO 8601 week date without its weekday. */
  datatype IsoWeek = IsoWeek(year: int, week: int)

  /** The Thursday of `d`'s Monday-to-Sunday week. */
  function ThursdayOf(d: int): (t: int)
    ensures d - 3 <= t <= d + 3
    ensures IsoWeekday(t) == 4
  {
    d - IsoWeekday(d) + 4
  }

  /** The calendar year of a Thursday and the number of its weeks from January 1st. */
  function WeekOfThursday(t: int): (w: IsoWeek)
    ensures 1 <= w.week <= 53
  {
    var yd := CivilYearDay(t);
    IsoWeek(yd.year, yd.ordinal / 7 + 1)
  }

  /** pandas `dt.isocalendar()` year and week: the ISO year is the calendar
      year of the Thursday of `d`'s week, and the week number counts that
      Thursday's weeks from January 1st. */
  function IsoWeekOf(d: int): (w: IsoWeek)
    ensures 1 <= w.week <= 53
  {
    WeekOfThursday(ThursdayOf(d))
  }

  lemma WeekOfThursdayAt(y: int, o: int)
    requires 0 <= o < YearLength(y)
    ensures WeekOfThursday(YearStart(y) + o) == IsoWeek(y, o / 7 + 1)
  {
    CivilYearDayOf(y, o);
  }

  /** Week 1 of year `y` is the week holding January 4th. */
  lemma IsoWeekOfJanuaryFourth(y: int)
    ensures IsoWeekOf(YearStart(y) + 3) == IsoWeek(y, 1)
  {
    var d := YearStart(y) + 3;
    WeekOfThursdayAt(y, 7 - IsoWeekday(d));
  }

  lemma ThursdayOfNextWeek(d: int)
    ensures ThursdayOf(d + 7) == ThursdayOf(d) + 7
  {
    assert IsoWeekday(d + 7) == IsoWeekday(d);
  }

  lemma WeekOfNextThursday(t: int)
    ensures var w := WeekOfThursday(t);
            WeekOfThursday(t + 7) == IsoWeek(w.year, w.week + 1) || WeekOfThursday(t + 7) == IsoWeek(w.year + 1, 1)
  {
    var yd := CivilYearDay(t);
    var y, o := yd.year, yd.ordinal;
    WeekOfThursdayAt(y, o);
    if o + 7 < YearLength(y) {
      WeekOfThursdayAt(y, o + 7);
      assert (o + 7) / 7 == o / 7 + 1;
    } else {
      WeekAcrossYearEnd(y, o);
    }
  }

  lemma WeekAcrossYearEnd(y: int, o: int)
    requires 0 <= o < YearLength(y) <= o + 7
    ensures WeekOfThursday(YearStart(y) + o + 7) == IsoWeek(y + 1, 1)
  {
    YearStartStep(y);
    WeekOfThursdayAt(y + 1, o + 7 - YearLength(y));
  }

  /** The following week is the next week of the same ISO year or week 1 of
      the next ISO year. */
  lemma IsoWeekOfNextWeek(d: int)
    ensures var w := IsoWeekOf(d);
            IsoWeekOf(d + 7) == IsoWeek(w.year, w.week + 1) || IsoWeekOf(d + 7) == IsoWeek(w.year + 1, 1)
  {
    ThursdayOfNextWeek(d);
    WeekOfNextThursday(ThursdayOf(d));
  }

  /** The Sunday that closes `d`'s week under pandas' frequency "W" (weeks
      ending on Sunday): the first Sunday on or after `d`. */
  function WeekEnd(d: int): (e: int)
    ensures d <= e < d + 7
    ensures IsoWeekday(e) == 7
  {
    d + 7 - IsoWeekday(d)
  }

  /** Sundays are exactly the day numbers congruent to 3 modulo 7, so week ends
      are 7 days apart. */
  lemma SundayResidue(e: int)
    ensures IsoWeekday(e) == 7 <==> e % 7 == 3
  {
  }

  /** `WeekEnd(d)` is the first Sunday on or after `d`: no Sunday lies
      between `d` and it. */
  lemma WeekEndFirst(d: int, e: int)
    requires d <= e && IsoWeekday(e) == 7
    ensures WeekEnd(d) <= e
  {
    SundayResidue(e);
    SundayResidue(WeekEnd(d));
  }

  /** Later days close later (or the same) weeks. */
  lemma WeekEndMonotone(d1: int, d2: int)
    requires d1 <= d2
    ensures WeekEnd(d1) <= WeekEnd(d2)
  {
    WeekEndFirst(d1, WeekEnd(d2));
  }

  /** Sundays come every seventh day. */
  lemma SundayStep(a: int, i: int)
    requires IsoWeekday(a) == 7
    ensures IsoWeekday(a + 7 * i) == 7
  {
    SundayResidue(a);
    SundayResidue(a + 7 * i);
  }

  /** Two Sundays are a whole number of weeks apart. */
  lemma SundaysApart(a: int, b: int)
    requires a <= b && IsoWeekday(a) == 7 && IsoWeekday(b) == 7
    ensures a + 7 * ((b - a) / 7) == b
  {
    SundayResidue(a);
    SundayResidue(b);
  }

  /** A week holds one Sunday: a Sunday less than seven days after Sunday
      `a` is `a` itself. */
  lemma OneSundayPerWeek(a: int, e: int)
    requires IsoWeekday(a) == 7 && IsoWeekday(e) == 7
    requires a <= e < a + 7
    ensures e == a
  {
    SundayResidue(a);
    SundayResidue(e);
  }
}
