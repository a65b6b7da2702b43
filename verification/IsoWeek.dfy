/**
 isoWeekNumber (date.utils.ts) against the week number of section 2.2.10 of ISO 8601:2004.
 A day is a number: 0 is Monday, 1 January of year 1 of the proleptic Gregorian calendar,
 so the weekday of day n is n % 7, Monday being 0.
 */
module IsoWeek {

  // ---------------------------------------------------------------- the calendar

  predicate IsLeap(year: int) {
    year % 4 == 0 && (year % 100 != 0 || year % 400 == 0)
  }

  // The number of 1 January of a year.
  function YearStart(year: int): int {
    365 * (year - 1) + (year - 1) / 4 - (year - 1) / 100 + (year - 1) / 400
  }

  const DAYS_BEFORE_MONTH := [0, 31, 59, 90, 120, 151, 181, 212, 243, 273, 304, 334]

  function DaysInMonth(year: int, month: int): int {
    if month == 2 then (if IsLeap(year) then 29 else 28)
    else if month in {4, 6, 9, 11} then 30
    else 31
  }

  predicate IsDate(year: int, month: int, day: int) {
    1 <= month <= 12 && 1 <= day <= DaysInMonth(year, month)
  }

  function DayOfYear(year: int, month: int, day: int): int
    requires 1 <= month <= 12
  {
    DAYS_BEFORE_MONTH[month - 1] + (if month > 2 && IsLeap(year) then 1 else 0) + day - 1
  }

  function DayNumber(year: int, month: int, day: int): int
    requires 1 <= month <= 12
  {
    YearStart(year) + DayOfYear(year, month, day)
  }

  predicate InYear(n: int, year: int) {
    YearStart(year) <= n < YearStart(year + 1)
  }

  lemma Fours(a: int)
    ensures (a + 1) / 4 == a / 4 + if (a + 1) % 4 == 0 then 1 else 0
  {
  }

  lemma Hundreds(a: int)
    ensures (a + 1) / 100 == a / 100 + if (a + 1) % 100 == 0 then 1 else 0
  {
  }

  lemma FourHundreds(a: int)
    ensures (a + 1) / 400 == a / 400 + if (a + 1) % 400 == 0 then 1 else 0
  {
  }

  lemma RareYears(year: int)
    ensures year % 400 == 0 ==> year % 100 == 0
    ensures year % 100 == 0 ==> year % 4 == 0
  {
  }

  lemma YearLength(year: int)
    ensures YearStart(year + 1) == YearStart(year) + if IsLeap(year) then 366 else 365
  {
    Fours(year - 1);
    Hundreds(year - 1);
    FourHundreds(year - 1);
    RareYears(year);
  }

  lemma {:induction false} YearsGrow(year: int, later: int)
    requires year <= later
    ensures YearStart(year) + 365 * (later - year) <= YearStart(later) <= YearStart(year) + 366 * (later - year)
    decreases later - year
  {
    hide YearStart, IsLeap;
    if year < later {
      YearLength(year);
      YearsGrow(year + 1, later);
    }
  }

  lemma OneYear(n: int, a: int, b: int)
    requires InYear(n, a) && InYear(n, b)
    ensures a == b
  {
    hide YearStart;
    if a < b {
      YearsGrow(a + 1, b);
      assert false;
    } else if b < a {
      YearsGrow(b + 1, a);
      assert false;
    }
  }

  // getUTCFullYear: the year of a day, found from a year that starts no later.
  function YearOf(n: int): (year: int)
    ensures InYear(n, year)
  {
    var guess := if n < 0 then n / 365 + 1 else n / 366 + 1;
    GuessIsEarly(n);
    YearFrom(n, guess)
  }

  lemma GuessIsEarly(n: int)
    ensures YearStart(if n < 0 then n / 365 + 1 else n / 366 + 1) <= n
  {
    if n < 0 {
      YearsGrow(n / 365 + 1, 1);
    } else {
      YearsGrow(1, n / 366 + 1);
    }
  }

  function YearFrom(n: int, year: int): (found: int)
    requires YearStart(year) <= n
    ensures InYear(n, found)
    decreases n - YearStart(year)
  {
    YearLength(year);
    if n < YearStart(year + 1) then year else YearFrom(n, year + 1)
  }

  lemma DateIsInItsYear(year: int, month: int, day: int)
    requires IsDate(year, month, day)
    ensures InYear(DayNumber(year, month, day), year)
  {
    YearLength(year);
  }

  // ---------------------------------------------------------------- the standard

  function FirstThursday(year: int): (day: int)
    ensures InYear(day, year) && day % 7 == 3
  {
    YearLength(year);
    NextThursday(YearStart(year));
    YearStart(year) + (3 - YearStart(year)) % 7
  }

  lemma FirstThursdayIsFirst(year: int, n: int)
    requires InYear(n, year) && n % 7 == 3
    ensures FirstThursday(year) <= n
  {
    NextThursday(YearStart(year));
  }

  lemma NextThursday(start: int)
    ensures (start + (3 - start) % 7) % 7 == 3
    ensures forall n :: start <= n && n % 7 == 3 ==> start + (3 - start) % 7 <= n
  {
  }

  // Week 1 of a year is the one that holds its first Thursday; the last is the one before week 1 of the next year.
  ghost predicate IsWeek(n: int, weekYear: int, week: int) {
    FirstThursday(weekYear) - 3 <= n < FirstThursday(weekYear + 1) - 3
    && week == (n - (FirstThursday(weekYear) - 3)) / 7 + 1
  }

  lemma OneWeek(n: int, year: int, week: int, otherYear: int, otherWeek: int)
    requires IsWeek(n, year, week) && IsWeek(n, otherYear, otherWeek)
    ensures year == otherYear && week == otherWeek
  {
    hide YearStart, FirstThursday;
    if year < otherYear {
      ThursdaysGrow(year + 1, otherYear);
      assert false;
    } else if otherYear < year {
      ThursdaysGrow(otherYear + 1, year);
      assert false;
    }
  }

  lemma ThursdaysGrow(year: int, later: int)
    requires year <= later
    ensures FirstThursday(year) <= FirstThursday(later)
  {
    hide YearStart, FirstThursday;
    if year < later {
      YearsGrow(year + 1, later);
    }
  }

  // The Thursday of a day's week decides which year the week belongs to.
  function ThursdayOf(n: int): (t: int)
    ensures t % 7 == 3 && t - 3 <= n <= t + 3
  {
    n - n % 7 + 3
  }

  function WeekOf(n: int): int {
    (ThursdayOf(n) - YearStart(YearOf(ThursdayOf(n)))) / 7 + 1
  }

  lemma WeekOfIsWeek(n: int)
    ensures IsWeek(n, YearOf(ThursdayOf(n)), WeekOf(n))
  {
    hide YearStart, FirstThursday, YearOf;
    var t := ThursdayOf(n);
    var year := YearOf(t);
    FirstThursdayIsFirst(year, t);
    StartsWithin(year);
    WholeWeeks(FirstThursday(year), t);
    WholeWeeks(t, FirstThursday(year + 1));
    SameWeek(t - FirstThursday(year), n - t + 3, FirstThursday(year) - YearStart(year));
  }

  // The first Thursday is one of the first seven days.
  lemma StartsWithin(year: int)
    ensures YearStart(year) <= FirstThursday(year) < YearStart(year) + 7
  {
  }

  lemma WholeWeeks(t: int, u: int)
    requires t % 7 == u % 7
    ensures (u - t) % 7 == 0
    ensures t < u ==> t + 7 <= u
  {
  }

  lemma SameWeek(weeks: int, a: int, b: int)
    requires weeks % 7 == 0 && 0 <= a < 7 && 0 <= b < 7
    ensures (weeks + a) / 7 == (weeks + b) / 7 == weeks / 7
  {
  }

  // The standard's number of a day lies in 1..53, is the same from Monday to Sunday, and from one Monday to the next
  // either grows by one or restarts.
  lemma StandardWeeks(n: int, year: int, week: int, later: int, laterYear: int, laterWeek: int)
    requires IsWeek(n, year, week) && IsWeek(later, laterYear, laterWeek)
    ensures 1 <= week <= 53
    ensures Monday(later) == Monday(n) ==> laterWeek == week && laterYear == year
    ensures Monday(later) == Monday(n) + 7 ==>
      (laterWeek == week + 1 && laterYear == year) || (laterWeek == 1 && laterYear == year + 1)
  {
    hide YearStart, FirstThursday, IsLeap, Monday;
    YearLength(year);
    StartsWithin(year);
    StartsWithin(year + 1);
    WeekFromMonday(n, year, week);
    WeekFromMonday(later, laterYear, laterWeek);
    var next := FirstThursday(year + 1) - 3;
    if Monday(later) == Monday(n) {
      SundayIsIn(n, year, week);
      SundayIsIn(later, laterYear, laterWeek);
      OneWeek(Monday(n), year, week, laterYear, laterWeek);
    } else if Monday(later) == Monday(n) + 7 {
      SundayIsIn(n, year, week);
      SundayIsIn(later, laterYear, laterWeek);
      FirstWeek(year + 1);
      if Monday(later) < next {
        OneWeek(Monday(later), laterYear, laterWeek, year, week + 1);
      } else {
        OneWeek(Monday(later), laterYear, laterWeek, year + 1, 1);
      }
    }
  }

  function Monday(n: int): (monday: int)
    ensures monday % 7 == 0 && monday <= n < monday + 7
  {
    n - n % 7
  }

  lemma WeekFromMonday(n: int, year: int, week: int)
    requires IsWeek(n, year, week)
    ensures Monday(n) == FirstThursday(year) - 3 + 7 * (week - 1)
  {
    hide YearStart, FirstThursday;
    var first := FirstThursday(year) - 3;
    Sevens(n, first);
  }

  lemma Sevens(n: int, first: int)
    requires first % 7 == 0
    ensures n - n % 7 == first + 7 * ((n - first) / 7)
  {
  }

  // A week lies in one week year as a whole.
  lemma SundayIsIn(n: int, year: int, week: int)
    requires IsWeek(n, year, week)
    ensures IsWeek(Monday(n), year, week) && Monday(n) + 7 <= FirstThursday(year + 1) - 3
  {
    hide YearStart, FirstThursday, Monday;
    WeekFromMonday(n, year, week);
    WholeWeeks(Monday(n), FirstThursday(year + 1) - 3);
  }

  lemma FirstWeek(year: int)
    ensures IsWeek(FirstThursday(year) - 3, year, 1)
    ensures FirstThursday(year) + 364 <= FirstThursday(year + 1)
  {
    hide FirstThursday, YearStart, IsLeap;
    StartsWithin(year);
    StartsWithin(year + 1);
    YearLength(year);
    AYearOfWeeks(FirstThursday(year), FirstThursday(year + 1));
  }

  lemma AYearOfWeeks(t: int, u: int)
    requires t % 7 == u % 7 && t + 357 < u
    ensures t + 364 <= u
  {
  }

  // ---------------------------------------------------------------- the code

  // Date.UTC takes the years 0 to 99 for 1900 to 1999; a day the month does not have runs over into the next.
  function DateUtc(year: int, month: int, day: int): int
    requires 1 <= month <= 12
  {
    DayNumber(if 0 <= year <= 99 then 1900 + year else year, month, day)
  }

  // Math.ceil of a whole number of sevenths.
  function CeilSevenths(x: int): (r: int)
    ensures 7 * (r - 1) < x <= 7 * r
  {
    (x + 6) / 7
  }

  function WeekNumber(year: int, month: int, day: int): int
    requires IsDate(year, month, day)
  {
    var t := ThursdayOf(DateUtc(year, month, day));
    CeilSevenths(t - DateUtc(YearOf(t), 1, 1) + 1)
  }

  lemma ThursdayBySteps(d: int)
    ensures d + 4 - (if (d + 1) % 7 == 0 then 7 else (d + 1) % 7) == ThursdayOf(d)
  {
  }

  // isoWeekNumber, which moves the copied date to the Thursday of its week. It returns the standard's number unless the
  // date or its Thursday falls in the years 0 to 99.
  method IsoWeekNumber(year: int, month: int, day: int) returns (week: int)
    requires IsDate(year, month, day)
    ensures week == WeekNumber(year, month, day)
    ensures year < 0 || 100 < year ==> exists weekYear :: IsWeek(DayNumber(year, month, day), weekYear, week)
  {
    hide ThursdayOf, YearStart, YearOf, FirstThursday, DateUtc, WeekOf, DaysInMonth, DayNumber, IsWeek;
    var d := DateUtc(year, month, day);
    var getUTCDay := (d + 1) % 7;
    var dayNum := if getUTCDay == 0 then 7 else getUTCDay;
    d := d + 4 - dayNum;
    ThursdayBySteps(DateUtc(year, month, day));
    var yearStart := DateUtc(YearOf(d), 1, 1);
    week := CeilSevenths(d - yearStart + 1);
    if year < 0 || 100 < year {
      RightOutsideTheFirstCentury(year, month, day);
      WeekOfIsWeek(DayNumber(year, month, day));
    }
  }

  // ---------------------------------------------------------------- when the code is right

  predicate IsRight(year: int, month: int, day: int)
    requires IsDate(year, month, day)
  {
    WeekNumber(year, month, day) == WeekOf(DayNumber(year, month, day))
  }

  // What is computed, for a day whose Thursday is not in the years Date.UTC maps.
  lemma ComputesWeekOf(n: int)
    requires !(0 <= YearOf(ThursdayOf(n)) <= 99)
    ensures CeilSevenths(ThursdayOf(n) - DateUtc(YearOf(ThursdayOf(n)), 1, 1) + 1) == WeekOf(n)
  {
  }

  lemma ThursdayYear(n: int, year: int)
    requires InYear(n, year)
    ensures year - 1 <= YearOf(ThursdayOf(n)) <= year + 1
    ensures YearOf(ThursdayOf(n)) == year - 1 <==> ThursdayOf(n) < YearStart(year)
    ensures YearOf(ThursdayOf(n)) == year + 1 <==> ThursdayOf(n) >= YearStart(year + 1)
  {
    hide YearStart, YearOf, ThursdayOf, IsLeap;
    var t := ThursdayOf(n);
    YearLength(year - 1);
    YearLength(year);
    YearLength(year + 1);
    if t < YearStart(year) {
      OneYear(t, YearOf(t), year - 1);
    } else if t < YearStart(year + 1) {
      OneYear(t, YearOf(t), year);
    } else {
      OneYear(t, YearOf(t), year + 1);
    }
  }

  // Every date is given the standard's number, the years 0 to 99 and the first three days of year 100 apart.
  lemma RightOutsideTheFirstCentury(year: int, month: int, day: int)
    requires IsDate(year, month, day)
    requires year < 0 || 100 <= year
    requires year == 100 ==> month > 1 || day > 3
    ensures IsRight(year, month, day)
  {
    hide YearStart, YearOf, ThursdayOf, DaysInMonth, WeekOf;
    var n := DayNumber(year, month, day);
    DateIsInItsYear(year, month, day);
    ThursdayYear(n, year);
    if year == -1 {
      LastDaysOf(n);
    } else if year == 100 {
      FirstDaysOf(month, day);
    }
    ComputesWeekOf(n);
  }

  // Year -1 ends on a Friday, so its last week has its Thursday in it.
  lemma LastDaysOf(n: int)
    requires n < YearStart(0)
    ensures ThursdayOf(n) < YearStart(0)
  {
    assert YearStart(0) == -366 && (-366) % 7 == 5;
  }

  // Year 100 begins on a Friday.
  lemma FirstDaysOf(month: int, day: int)
    requires IsDate(100, month, day) && (month > 1 || day > 3)
    ensures ThursdayOf(DayNumber(100, month, day)) >= YearStart(100)
  {
    assert YearStart(100) == 36159 && 36159 % 7 == 4;
    assert DayOfYear(100, month, day) >= 3;
  }

  // In the years 0 to 99 the number is that of the same date 1900 years later.
  lemma FirstCenturyIsTheTwentieth(year: int, month: int, day: int)
    requires IsDate(year, month, day) && 0 <= year <= 99
    ensures WeekNumber(year, month, day) == WeekOf(DayNumber(1900 + year, month, day))
  {
    var n := DayNumber(1900 + year, month, day);
    YearLength(1900 + year);
    YearLength(1901 + year);
    YearsGrow(100, 1899);
    YearsGrow(1899, 1900 + year);
    OneYearAtLeast(ThursdayOf(n), 100);
    ComputesWeekOf(n);
  }

  lemma OneYearAtLeast(n: int, year: int)
    requires YearStart(year) <= n
    ensures year <= YearOf(n)
  {
    hide YearStart;
    if YearOf(n) < year {
      YearsGrow(YearOf(n) + 1, year);
      assert false;
    }
  }

  lemma WeekInYear(n: int, year: int)
    requires InYear(n, year) && InYear(ThursdayOf(n), year)
    ensures WeekOf(n) == (n - YearStart(year) - n % 7 + 3) / 7 + 1
  {
    OneYear(ThursdayOf(n), YearOf(ThursdayOf(n)), year);
  }

  // 1900 years are a whole number of weeks and one day.
  lemma CenturiesApart(year: int)
    requires 1 <= year <= 99
    ensures YearStart(1900 + year) == YearStart(year) + 693960
    ensures IsLeap(1900 + year) == IsLeap(year)
  {
    var a := year - 1;
    assert (1900 + a) / 4 == 475 + a / 4;
    assert (1900 + a) / 100 == 19 + a / 100;
    assert (1900 + a) / 400 == 4 && a / 400 == 0 && a / 100 == 0;
  }

  // Away from the turn of the year, such a date is given the right number exactly when it is a Sunday of a year that
  // begins on a Thursday, or another day of a year that does not.
  lemma RightInTheFirstCentury(year: int, month: int, day: int)
    requires IsDate(year, month, day) && 1 <= year <= 99
    requires 3 <= DayOfYear(year, month, day) < 362
    ensures IsRight(year, month, day) <==> (YearStart(year) % 7 == 3 <==> DayNumber(year, month, day) % 7 == 6)
  {
    hide YearStart, WeekOf, WeekNumber, IsLeap;
    var k := DayOfYear(year, month, day);
    FirstCenturyIsTheTwentieth(year, month, day);
    CenturiesApart(year);
    MidYearWeek(year, k);
    MidYearWeek(1900 + year, k);
    Sevenths(k, YearStart(year), YearStart(1900 + year));
  }

  lemma MidYearWeek(year: int, k: int)
    requires 3 <= k < 362
    ensures WeekOf(YearStart(year) + k) == (k - (YearStart(year) + k) % 7 + 3) / 7 + 1
  {
    hide YearStart, IsLeap, WeekOf;
    YearLength(year);
    WeekInYear(YearStart(year) + k, year);
  }

  // Day k of a year that starts on day s, against day k of one that starts a weekday later.
  lemma Sevenths(k: int, s: int, t: int)
    requires t == s + 693960
    ensures (k - (s + k) % 7 + 3) / 7 + 1 == (k - (t + k) % 7 + 3) / 7 + 1 <==> (s % 7 == 3 <==> (s + k) % 7 == 6)
  {
    var w := (s + k) % 7;
    ADayLater(s + k);
    if w == 6 {
      Sunday(k, s);
    } else {
      Weekday(k, s);
    }
  }

  lemma ADayLater(n: int)
    ensures (n + 693960) % 7 == if n % 7 == 6 then 0 else n % 7 + 1
  {
  }

  lemma Sunday(k: int, s: int)
    requires (s + k) % 7 == 6
    ensures (k - 3) / 7 == (k + 3) / 7 <==> s % 7 == 3
  {
  }

  lemma Weekday(k: int, s: int)
    ensures var w := (s + k) % 7; (k - w + 3) / 7 == (k - w + 2) / 7 <==> s % 7 != 3
  {
  }

  ghost predicate WholeYearRight(year: int) {
    forall month: int, day: int {:trigger IsRight(year, month, day)} :: IsDate(year, month, day)
      ==> IsRight(year, month, day)
  }

  // A year is numbered right throughout exactly when it is not one of 0 to 100.
  lemma YearsNumberedRight(year: int)
    ensures WholeYearRight(year) <==> year < 0 || 100 < year
  {
    hide IsRight;
    if year < 0 || 100 < year {
      forall month: int, day: int | IsDate(year, month, day) ensures IsRight(year, month, day) {
        RightOutsideTheFirstCentury(year, month, day);
      }
    } else if 1 <= year <= 99 {
      AWrongDayInJune(year);
    } else {
      AWrongNewYear(year);
    }
  }

  lemma AWrongNewYear(year: int)
    requires year == 0 || year == 100
    ensures IsDate(year, 1, 1) && !IsRight(year, 1, 1)
  {
    hide WeekOf, WeekNumber;
    if year == 0 {
      FirstCenturyIsTheTwentieth(0, 1, 1);
      NewYearOfZero();
    } else {
      NewYearOfOneHundred();
    }
  }

  lemma AWrongDayInJune(year: int)
    requires 1 <= year <= 99
    ensures exists day :: 1 <= day <= 7 && IsDate(year, 6, day) && !IsRight(year, 6, day)
  {
    hide YearStart, IsRight, IsLeap;
    var first := DayNumber(year, 6, 1);
    var day := if YearStart(year) % 7 == 3 then 1 + (0 - first) % 7 else 1 + (6 - first) % 7;
    assert IsDate(year, 6, day) && DayNumber(year, 6, day) == first + day - 1;
    NextOn(first, 0);
    NextOn(first, 6);
    RightInTheFirstCentury(year, 6, day);
  }

  lemma NextOn(n: int, weekday: int)
    requires 0 <= weekday < 7
    ensures (n + (weekday - n) % 7) % 7 == weekday
  {
  }

  lemma NewYearOfZero()
    ensures WeekOf(DayNumber(0, 1, 1)) == 52 && WeekOf(DayNumber(1900, 1, 1)) == 1
  {
    hide YearOf, YearFrom;
    assert DayNumber(0, 1, 1) == -366 && ThursdayOf(-366) == -368 && InYear(-368, -1) && YearStart(-1) == -731;
    assert DayNumber(1900, 1, 1) == 693595 && ThursdayOf(693595) == 693598 && InYear(693598, 1900);
    hide YearStart, DayNumber;
    OneYear(-368, YearOf(-368), -1);
    OneYear(693598, YearOf(693598), 1900);
  }

  lemma NotMapped(year: int)
    requires year < 0 || 100 <= year
    ensures DateUtc(year, 1, 1) == DayNumber(year, 1, 1)
  {
  }

  // The Thursday before is in year 99, which Date.UTC takes for 1999.
  lemma NewYearOfOneHundred()
    ensures WeekNumber(100, 1, 1) == -99085 && WeekOf(DayNumber(100, 1, 1)) == 53
  {
    hide YearOf, YearFrom;
    assert DayNumber(100, 1, 1) == 36159 && ThursdayOf(36159) == 36158;
    assert YearStart(99) == 35794 && InYear(36158, 99) && DateUtc(99, 1, 1) == 729754;
    hide YearStart, DateUtc, DayNumber;
    OneYear(36158, YearOf(36158), 99);
    assert DateUtc(100, 1, 1) == 36159 by { NotMapped(100); }
  }
}
