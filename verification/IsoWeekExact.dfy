/**
 Exactly which dates isoWeekNumber numbers as section 2.2.10 of ISO 8601:2004 does: a condition
 on year, month and day for every date of the calendar.
 */
module IsoWeekExact {
  import opened IsoWeek

  // ---------------------------------------------------------------- the week number, from the shape of the year

  // Day k of a year of the given length, on weekday w, the year before having the other length: where the Thursday of
  // its week falls decides the number.
  function Numbered(k: int, w: int, before: int, length: int): int {
    var t := k - w + 3;
    if t < 0 then (before + t) / 7 + 1 else if t >= length then 1 else t / 7 + 1
  }

  function Length(year: int): int {
    if IsLeap(year) then 366 else 365
  }

  lemma WeekFromShape(year: int, k: int)
    requires 0 <= k < Length(year)
    ensures WeekOf(YearStart(year) + k) == Numbered(k, (YearStart(year) + k) % 7, Length(year - 1), Length(year))
  {
    hide YearStart, IsLeap, YearOf, ThursdayOf;
    var n := YearStart(year) + k;
    YearLength(year - 1);
    YearLength(year);
    ThursdayByWeekday(n);
    ThursdayYear(n, year);
  }

  lemma ThursdayByWeekday(n: int)
    ensures ThursdayOf(n) == n - n % 7 + 3
  {
  }

  // ---------------------------------------------------------------- the years 1 to 99

  function DayAfter(w: int): int {
    if w == 6 then 0 else w + 1
  }

  // The number is the same a weekday later.
  predicate Agrees(k: int, w: int, before: int, length: int) {
    Numbered(k, w, before, length) == Numbered(k, DayAfter(w), before, length)
  }

  // Weekday w of day 0, 1 or 2: the weekdays on which the two numberings agree.
  function EarlyAgreement(k: int, before: int): set<int> {
    if k == 0 then (if before == 365 then {0, 1, 2, 5} else {0, 1, 2, 4})
    else if k == 1 then (if before == 365 then {0, 1, 2, 3} else {0, 1, 2, 3, 5})
    else {0, 1, 2, 3, 4}
  }

  // The same for the third, second and last day from the end.
  function LateAgreement(left: int, length: int): set<int> {
    if left == 3 then (if length == 365 then {2, 3, 4, 5} else {1, 3, 4, 5})
    else if left == 2 then (if length == 365 then {0, 3, 4, 5} else {0, 2, 4, 5})
    else if length == 365 then {0, 1, 4, 5} else {0, 1, 3, 5}
  }

  lemma EarlyDays(k: int, w: int, before: int, length: int)
    requires 0 <= k < 3 && 0 <= w < 7 && (before == 365 || before == 366) && 365 <= length
    ensures Agrees(k, w, before, length) <==> w in EarlyAgreement(k, before)
  {
  }

  lemma LateDays(left: int, w: int, before: int, length: int)
    requires 1 <= left <= 3 && 0 <= w < 7 && (length == 365 || length == 366)
    ensures Agrees(length - left, w, before, length) <==> w in LateAgreement(left, length)
  {
  }

  // A day before the first Thursday's week, though not a Sunday, in the last week of a year that began on a Thursday.
  predicate EndsLongYear(start: int, k: int, before: int) {
    var w := (start + k) % 7;
    k - w + 3 < 0 && w != 6 && (start - before) % 7 == 3
  }

  // A day in the first week of a next year that begins on a Thursday.
  predicate OpensLongYear(start: int, k: int, length: int) {
    k - (start + k) % 7 + 3 >= length && (start + length) % 7 == 3
  }

  predicate Parting(start: int, k: int, before: int, length: int) {
    (start % 7 == 3 <==> (start + k) % 7 == 6) && !EndsLongYear(start, k, before) && !OpensLongYear(start, k, length)
  }

  lemma WeekAndDay(weeks: int, day: int)
    requires 0 <= day < 7
    ensures (7 * weeks + day) % 7 == day
  {
  }

  lemma DaysEarlier(n: int, k: int)
    requires 0 <= k < 7
    ensures (n - k) % 7 == if n % 7 >= k then n % 7 - k else n % 7 - k + 7
  {
    var weeks, day := n / 7, n % 7;
    if day >= k {
      WeekAndDay(weeks, day - k);
    } else {
      WeekAndDay(weeks - 1, day - k + 7);
    }
  }

  lemma WeeksEarlier(n: int)
    ensures (n - 364) % 7 == n % 7
  {
    WeekAndDay(n / 7 - 52, n % 7);
  }

  lemma StartWeekday(start: int, k: int)
    ensures 0 <= k < 7 ==> start % 7 == (if (start + k) % 7 >= k then (start + k) % 7 - k else (start + k) % 7 - k + 7)
    ensures (start - 365) % 7 == if start % 7 >= 1 then start % 7 - 1 else 6
    ensures (start - 366) % 7 == if start % 7 >= 2 then start % 7 - 2 else start % 7 + 5
  {
    if 0 <= k < 7 {
      DaysEarlier(start + k, k);
    }
    DaysEarlier(start, 1);
    WeeksEarlier(start - 1);
    DaysEarlier(start, 2);
    WeeksEarlier(start - 2);
  }

  lemma NextWeekday(start: int, length: int, left: int)
    requires (length == 365 || length == 366) && 1 <= left <= 3
    ensures var w := (start + length - left) % 7;
      (start + length) % 7 == (if w + left < 7 then w + left else w + left - 7)
  {
  }

  lemma YearLater(start: int)
    ensures (start + 365) % 7 == if start % 7 == 6 then 0 else start % 7 + 1
    ensures (start + 366) % 7 == if start % 7 >= 5 then start % 7 - 5 else start % 7 + 2
  {
  }

  lemma EarlyParting(start: int, k: int, before: int, length: int)
    requires 0 <= k < 3 && (before == 365 || before == 366) && 365 <= length
    ensures Agrees(k, (start + k) % 7, before, length) <==> Parting(start, k, before, length)
  {
    EarlyDays(k, (start + k) % 7, before, length);
    StartWeekday(start, k);
    hide Agrees;
  }

  lemma LateParting(start: int, k: int, before: int, length: int)
    requires length - 3 <= k < length && (length == 365 || length == 366)
    ensures Agrees(k, (start + k) % 7, before, length) <==> Parting(start, k, before, length)
  {
    LateDays(length - k, (start + k) % 7, before, length);
    NextWeekday(start, length, length - k);
    YearLater(start);
    hide Agrees;
  }

  lemma MidParting(start: int, k: int, before: int, length: int)
    requires 3 <= k < length - 3
    ensures Agrees(k, (start + k) % 7, before, length) <==> Parting(start, k, before, length)
  {
    Sevenths(k, start, start + 693960);
    ADayLater(start + k);
  }

  lemma AgreesExactly(start: int, k: int, before: int, length: int)
    requires 0 <= k < length && (before == 365 || before == 366) && (length == 365 || length == 366)
    ensures Agrees(k, (start + k) % 7, before, length) <==> Parting(start, k, before, length)
  {
    hide Agrees, Parting;
    if k < 3 {
      EarlyParting(start, k, before, length);
    } else if k < length - 3 {
      MidParting(start, k, before, length);
    } else {
      LateParting(start, k, before, length);
    }
  }

  // The year before 1901 is a day shorter than the one before 1, but no week of either reaches back into it.
  lemma NoReachBack(k: int, w: int, length: int)
    requires 0 <= k < length && 0 <= w <= k + 3
    ensures Numbered(k, w, 365, length) == Numbered(k, w, 366, length)
  {
  }

  lemma SameShape(year: int, month: int, day: int)
    requires IsDate(year, month, day) && 1 <= year <= 99
    ensures Length(1900 + year) == Length(year) && (year > 1 ==> Length(1899 + year) == Length(year - 1))
    ensures DayNumber(1900 + year, month, day) == YearStart(1900 + year) + DayOfYear(year, month, day)
    ensures YearStart(1900 + year) == YearStart(year) + 693960
  {
    hide YearStart, IsLeap;
    CenturiesApart(year);
    if year > 1 {
      CenturiesApart(year - 1);
    }
  }

  lemma RightBySameWeek(year: int, month: int, day: int)
    requires IsDate(year, month, day) && 1 <= year <= 99
    ensures IsRight(year, month, day) <==>
      WeekOf(YearStart(1900 + year) + DayOfYear(year, month, day))
      == WeekOf(YearStart(year) + DayOfYear(year, month, day))
  {
    hide YearStart, IsLeap, WeekOf, WeekNumber, DayOfYear;
    SameShape(year, month, day);
    FirstCenturyIsTheTwentieth(year, month, day);
  }

  // Day k of the years 1 to 99 is numbered right exactly when the two numberings agree.
  lemma CenturyDay(year: int, month: int, day: int)
    requires IsDate(year, month, day) && 1 <= year <= 99
    ensures var k := DayOfYear(year, month, day);
      0 <= k < Length(year)
      && (IsRight(year, month, day) <==> Agrees(k, (YearStart(year) + k) % 7, Length(year - 1), Length(year)))
  {
    hide YearStart, IsLeap, WeekOf, WeekNumber, Numbered, Length, DayOfYear, IsRight, DaysInMonth;
    var k := DayOfYear(year, month, day);
    DayIsInLength(year, month, day);
    SameShape(year, month, day);
    RightBySameWeek(year, month, day);
    ADayLater(YearStart(year) + k);
    WeekFromShape(year, k);
    WeekFromShape(1900 + year, k);
    if year == 1 {
      FirstYears();
      SmallWeekdays(k);
      NoReachBack(k, DayAfter(k % 7), Length(year));
    }
  }

  lemma SmallWeekdays(k: int)
    requires 0 <= k
    ensures 0 <= k % 7 <= k && DayAfter(k % 7) <= k + 3
  {
  }

  lemma FirstYears()
    ensures YearStart(1) == 0 && Length(0) == 366 && Length(1900) == 365
  {
  }

  lemma DayIsInLength(year: int, month: int, day: int)
    requires IsDate(year, month, day)
    ensures 0 <= DayOfYear(year, month, day) < Length(year)
  {
  }

  // ---------------------------------------------------------------- year 0

  // Year 0 is a leap year that begins on a Saturday, 1900 a common one that begins on a Monday.
  lemma YearZero(k: int)
    requires 0 <= k < 366
    ensures k < 60 ==> (Numbered(k, (5 + k) % 7, 365, 366) == Numbered(k, k % 7, 365, 365) <==> (5 + k) % 7 < 5)
    ensures k >= 60 ==>
      (Numbered(k, (5 + k) % 7, 365, 366) == Numbered(k - 1, (k - 1) % 7, 365, 365) <==> (5 + k) % 7 != 6)
  {
    var w := (5 + k) % 7;
    hide Numbered;
    if k < 60 {
      TwoLater(k);
      JanuaryToFebruary(k, w);
    } else {
      OneLater(k);
      MarchToDecember(k, w);
    }
  }

  lemma TwoLater(k: int)
    ensures k % 7 == if (5 + k) % 7 >= 5 then (5 + k) % 7 - 5 else (5 + k) % 7 + 2
  {
  }

  lemma OneLater(k: int)
    ensures (k - 1) % 7 == if (5 + k) % 7 == 6 then 0 else (5 + k) % 7 + 1
  {
  }

  lemma JanuaryToFebruary(k: int, w: int)
    requires 0 <= k < 60 && w == (5 + k) % 7
    ensures Numbered(k, w, 365, 366) == Numbered(k, if w >= 5 then w - 5 else w + 2, 365, 365) <==> w < 5
  {
  }

  lemma MarchToDecember(k: int, w: int)
    requires 60 <= k < 366 && w == (5 + k) % 7
    ensures Numbered(k, w, 365, 366) == Numbered(k - 1, if w == 6 then 0 else w + 1, 365, 365) <==> w != 6
  {
  }

  lemma ZeroShapes(month: int, day: int)
    requires IsDate(0, month, day)
    ensures var k, later := DayOfYear(0, month, day), DayOfYear(1900, month, day);
      later == (if month > 2 then k - 1 else k) && (month > 2 <==> k >= 60) && 0 <= k < 366 && 0 <= later < 365
  {
  }

  lemma ZeroYears()
    ensures YearStart(0) == -366 && YearStart(1900) == 693595
    ensures Length(-1) == 365 && Length(0) == 366 && Length(1899) == 365 && Length(1900) == 365
  {
  }

  lemma ZeroWeekdays(k: int, later: int)
    ensures (-366 + k) % 7 == (5 + k) % 7 && (693595 + later) % 7 == later % 7
  {
  }

  lemma YearZeroDay(month: int, day: int)
    requires IsDate(0, month, day)
    ensures IsRight(0, month, day)
      <==> DayNumber(0, month, day) % 7 != 6 && (month > 2 || DayNumber(0, month, day) % 7 != 5)
  {
    hide YearStart, WeekOf, WeekNumber, Numbered, Length, DayOfYear, DaysInMonth;
    var k := DayOfYear(0, month, day);
    var later := DayOfYear(1900, month, day);
    ZeroShapes(month, day);
    ZeroYears();
    ZeroWeekdays(k, later);
    FirstCenturyIsTheTwentieth(0, month, day);
    WeekFromShape(0, k);
    WeekFromShape(1900, later);
    YearZero(k);
  }

  // ---------------------------------------------------------------- every date

  // The condition, for each date of the calendar.
  predicate NumberedRight(year: int, month: int, day: int)
    requires IsDate(year, month, day)
  {
    if year < 0 || 100 < year then true
    else if year == 100 then month > 1 || day > 3
    else if year == 0 then DayNumber(0, month, day) % 7 != 6 && (month > 2 || DayNumber(0, month, day) % 7 != 5)
    else Parting(YearStart(year), DayOfYear(year, month, day), Length(year - 1), Length(year))
  }

  lemma FirstDaysOf100(day: int)
    requires 1 <= day <= 3
    ensures !IsRight(100, 1, day)
  {
    hide YearOf, YearFrom;
    var n := DayNumber(100, 1, day);
    assert n == 36158 + day && ThursdayOf(n) == 36158 && DateUtc(100, 1, day) == n;
    assert YearStart(99) == 35794 && InYear(36158, 99) && DateUtc(99, 1, 1) == 729754;
    hide YearStart, DateUtc, DayNumber, ThursdayOf;
    OneYear(36158, YearOf(36158), 99);
  }

  // A date is given the standard's week number if and only if it is before year 0 or after 3 January 100; or it is of
  // the years 1 to 99, a Sunday exactly when the year begins on a Thursday, and its week neither ends nor opens a
  // neighbouring year that does; or it is of year 0 and no Sunday, nor a Saturday before March.
  lemma RightExactly(year: int, month: int, day: int)
    requires IsDate(year, month, day)
    ensures IsRight(year, month, day) <==> NumberedRight(year, month, day)
  {
    hide IsRight, Parting, Agrees, YearStart, IsLeap;
    if year < 0 || 100 < year || (year == 100 && (month > 1 || day > 3)) {
      RightOutsideTheFirstCentury(year, month, day);
    } else if year == 100 {
      FirstDaysOf100(day);
    } else if year == 0 {
      YearZeroDay(month, day);
    } else {
      CenturyDay(year, month, day);
      AgreesExactly(YearStart(year), DayOfYear(year, month, day), Length(year - 1), Length(year));
    }
  }
}
