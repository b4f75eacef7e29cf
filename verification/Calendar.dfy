/** The UTC date and time in a report's name, against the Gregorian calendar defined by counting: year
    and month lengths as in section 5.7 and appendix C of RFC 3339. */
module Calendar {

  datatype Date = Date(year: int, month: int, day: int)

  // ---- the calendar, by counting ----------------------------------------------------------------------

  predicate Leap(year: int) { year % 4 == 0 && (year % 100 != 0 || year % 400 == 0) }

  function YearLength(year: int): nat { if Leap(year) then 366 else 365 }

  function MonthLength(year: int, month: int): nat {
    if month == 2 then (if Leap(year) then 29 else 28)
    else if month == 4 || month == 6 || month == 9 || month == 11 then 30
    else 31
  }

  predicate Valid(d: Date) {
    1970 <= d.year && 1 <= d.month <= 12 && 1 <= d.day <= MonthLength(d.year, d.month)
  }

  function YearsBefore(year: int): nat
    decreases year
  {
    if year <= 1970 then 0 else YearsBefore(year - 1) + YearLength(year - 1)
  }

  function MonthsBefore(year: int, month: int): nat
    decreases month
  {
    if month <= 1 then 0 else MonthsBefore(year, month - 1) + MonthLength(year, month - 1)
  }

  /** Days from 1 January 1970 to `d`. */
  function DayNumber(d: Date): int {
    YearsBefore(d.year) + MonthsBefore(d.year, d.month) + d.day - 1
  }

  function Tomorrow(d: Date): Date {
    if d.day < MonthLength(d.year, d.month) then d.(day := d.day + 1)
    else if d.month < 12 then Date(d.year, d.month + 1, 1)
    else Date(d.year + 1, 1, 1)
  }

  // ---- the arithmetic of the stamp --------------------------------------------------------------------

  function YearOfEra(dayOfEra: int): int {
    (dayOfEra - dayOfEra / 1460 + dayOfEra / 36524 - dayOfEra / 146_096) / 365
  }

  function DayOfYear(dayOfEra: int): int {
    var y := YearOfEra(dayOfEra);
    dayOfEra - (365 * y + y / 4 - y / 100)
  }

  function Civil(days: nat): Date {
    var shifted := days + 719_468;
    var era, dayOfEra := shifted / 146_097, shifted % 146_097;
    var dayOfYear := DayOfYear(dayOfEra);
    var monthIndex := (5 * dayOfYear + 2) / 153;
    var day := dayOfYear - (153 * monthIndex + 2) / 5 + 1;
    var month := if monthIndex < 10 then monthIndex + 3 else monthIndex - 9;
    Date(YearOfEra(dayOfEra) + era * 400 + (if month <= 2 then 1 else 0), month, day)
  }

  // ---- years that begin in March ----------------------------------------------------------------------

  /** Days from 1 March of year 0 to 1 March of `year`. */
  function March(year: int): int { 365 * year + year / 4 - year / 100 + year / 400 }

  lemma MarchLength(year: int)
    ensures March(year + 1) - March(year) == YearLength(year + 1)
  {
    Step(year, 4);
    Step(year, 100);
    Step(year, 400);
    assert (year + 1) % 400 == 0 ==> (year + 1) % 100 == 0;
    assert (year + 1) % 100 == 0 ==> (year + 1) % 4 == 0;
  }

  lemma Step(n: int, k: int)
    requires k > 0
    ensures (n + 1) / k - n / k == if (n + 1) % k == 0 then 1 else 0
  {
    var q, r := n / k, n % k;
    assert n == k * q + r;
    if r + 1 < k {
      Unique(n + 1, k, q, r + 1);
    } else {
      assert n + 1 == k * (q + 1) by {
        assert k * (q + 1) == k * q + k;
      }
      Unique(n + 1, k, q + 1, 0);
    }
  }

  lemma Unique(n: int, k: int, q: int, r: int)
    requires k > 0 && n == k * q + r && 0 <= r < k
    ensures n / k == q && n % k == r
  {
    var d := n / k - q;
    assert n == k * (n / k) + n % k;
    assert k * d == r - n % k by {
      assert k * d == k * (n / k) - k * q;
    }
    assert d >= 1 ==> k * d >= k;
    assert d <= -1 ==> k * d <= -k;
  }

  /** A March-based year of an era as centuries, four-year cycles and years, with the day in it. */
  datatype Split = Split(h: int, q: int, r: int, t: int)

  predicate Proper(s: Split) {
    && 0 <= s.h <= 3 && 0 <= s.q <= 24 && 0 <= s.r <= 3 && 0 <= s.t <= 365
    && (s.t == 365 ==> s.r == 3 && (s.q < 24 || s.h == 3))
  }

  function Atmost(x: int, bound: int): int { if x <= bound then x else bound }

  lemma SplitDay(doe: int) returns (s: Split)
    requires 0 <= doe < 146_097
    ensures Proper(s) && doe == 36524 * s.h + 1461 * s.q + 365 * s.r + s.t
  {
    var h := Atmost(doe / 36524, 3);
    var inCentury := doe - 36524 * h;
    assert 0 <= inCentury <= 36524 && (inCentury == 36524 ==> h == 3);
    var q := Atmost(inCentury / 1461, 24);
    var inCycle := inCentury - 1461 * q;
    assert 0 <= inCycle <= 1460 && (inCycle == 1460 ==> q < 24 || h == 3);
    var r := Atmost(inCycle / 365, 3);
    s := Split(h, q, r, inCycle - 365 * r);
  }

  /** The year formula finds that year: its corrections cancel the leap days seen so far. */
  lemma YearOfSplit(doe: int, s: Split)
    requires Proper(s) && doe == 36524 * s.h + 1461 * s.q + 365 * s.r + s.t
    ensures YearOfEra(doe) == 100 * s.h + 4 * s.q + s.r
  {
    var extra := 24 * s.h + s.q + 365 * s.r + s.t;
    assert doe / 1460 == 25 * s.h + s.q + extra / 1460 by {
      assert doe == 1460 * (25 * s.h + s.q) + extra;
    }
    assert doe / 36524 - doe / 146_096 == s.h;
    assert 0 <= s.t - extra / 1460 <= 364;
    assert doe - doe / 1460 + s.h == 365 * (100 * s.h + 4 * s.q + s.r) + (s.t - extra / 1460);
  }

  lemma SplitYear(s: Split, y: int)
    requires Proper(s) && y == 100 * s.h + 4 * s.q + s.r
    ensures 0 <= y < 400 && y / 4 == 25 * s.h + s.q && y / 100 == s.h
    ensures Leap(y + 1) <==> s.r == 3 && (s.q < 24 || s.h == 3)
  {
    assert (y + 1) % 4 == 0 <==> s.r == 3;
    assert s.r == 3 ==> y + 1 == 100 * s.h + 4 * (s.q + 1);
    assert s.r == 3 && s.q == 24 ==> y + 1 == 100 * (s.h + 1);
    assert s.r == 3 && s.q < 24 ==> (y + 1) % 100 == 4 * (s.q + 1);
  }

  lemma YearFound(doe: int)
    requires 0 <= doe < 146_097
    ensures var y := YearOfEra(doe);
            && 0 <= y < 400 && 365 * y + y / 4 - y / 100 == doe - DayOfYear(doe)
            && 0 <= DayOfYear(doe) < YearLength(y + 1)
  {
    var s := SplitDay(doe);
    YearOfSplit(doe, s);
    SplitYear(s, YearOfEra(doe));
  }

  // ---- months that begin in March ---------------------------------------------------------------------

  /** The month formula finds the month and day of a day counted from 1 March. */
  lemma MonthFound(dayOfYear: int, year: int)
    requires 0 <= dayOfYear < YearLength(year + 1)
    ensures var m := (5 * dayOfYear + 2) / 153;
            var day := dayOfYear - (153 * m + 2) / 5 + 1;
            && 0 <= m <= 11
            && (if m < 10
                then 1 <= day <= MonthLength(year, m + 3)
                     && MonthsBefore(year, m + 3) + day - 1 == MonthsBefore(year, 3) + dayOfYear
                else 1 <= day <= MonthLength(year + 1, m - 9)
                     && MonthsBefore(year + 1, m - 9) + day - 1 == dayOfYear - 306)
  {
    var m := (5 * dayOfYear + 2) / 153;
    assert 0 <= m <= 11;
    MonthSums(year);
    MonthSums(year + 1);
  }

  lemma MonthSums(year: int)
    ensures MonthsBefore(year, 1) == 0 && MonthsBefore(year, 2) == 31
    ensures var march := MonthsBefore(year, 3);
            && march == 31 + MonthLength(year, 2)
            && MonthsBefore(year, 4) == march + 31 && MonthsBefore(year, 5) == march + 61
            && MonthsBefore(year, 6) == march + 92 && MonthsBefore(year, 7) == march + 122
            && MonthsBefore(year, 8) == march + 153 && MonthsBefore(year, 9) == march + 184
            && MonthsBefore(year, 10) == march + 214 && MonthsBefore(year, 11) == march + 245
            && MonthsBefore(year, 12) == march + 275 && MonthsBefore(year, 13) == march + 306
  {
    assert MonthsBefore(year, 4) == MonthsBefore(year, 3) + 31;
    assert MonthsBefore(year, 6) == MonthsBefore(year, 5) + 31;
    assert MonthsBefore(year, 8) == MonthsBefore(year, 7) + 31;
    assert MonthsBefore(year, 10) == MonthsBefore(year, 9) + 30;
    assert MonthsBefore(year, 12) == MonthsBefore(year, 11) + 30;
  }

  // ---- the date is the date ---------------------------------------------------------------------------

  /** January begins 306 days after the March before it. */
  lemma {:induction false} YearsFromMarch(year: int)
    requires year >= 1970
    ensures YearsBefore(year) == March(year - 1) + 306 - 719_468
    decreases year
  {
    if year > 1970 {
      YearsFromMarch(year - 1);
      MarchLength(year - 2);
    }
  }

  lemma MarchOfEra(era: int, y: int)
    requires 0 <= y < 400
    ensures March(400 * era + y) == 146_097 * era + 365 * y + y / 4 - y / 100
  {
    var year := 400 * era + y;
    assert year / 4 == 100 * era + y / 4;
    assert year / 100 == 4 * era + y / 100;
    assert year / 400 == era;
  }

  lemma MarchGrows(a: int, b: int)
    requires a <= b
    ensures March(a) <= March(b)
  {
    assert a / 4 <= b / 4 && a / 400 <= b / 400;
    assert b / 100 - a / 100 <= b - a + 1;
    assert a == b || March(a) <= March(b);
  }

  lemma LeapOfEra(era: int, y: int)
    ensures Leap(400 * era + y) == Leap(y)
  {
    var year := 400 * era + y;
    Unique(year, 4, 100 * era + y / 4, y % 4);
    Unique(year, 100, 4 * era + y / 100, y % 100);
    Unique(year, 400, era + y / 400, y % 400);
  }

  /** Days since the epoch begin in the March-based year 1969 or later. */
  lemma SinceEpoch(year: int, doy: int)
    requires March(year) + doy >= 719_468 && doy < YearLength(year + 1)
    ensures year >= 1969
  {
    if year < 1969 {
      MarchLength(year);
      MarchGrows(year + 1, 1969);
    }
  }

  /** For every day count the stamp's date is a calendar date with that day number. */
  lemma CivilExact(days: nat)
    ensures Valid(Civil(days)) && DayNumber(Civil(days)) == days
  {
    hide *;
    var shifted := days + 719_468;
    var era, doe := shifted / 146_097, shifted % 146_097;
    var y, doy := YearOfEra(doe), DayOfYear(doe);
    var year := 400 * era + y;
    YearFound(doe);
    MarchOfEra(era, y);
    LeapOfEra(era, y + 1);
    SameLength(y + 1, year + 1);
    SinceEpoch(year, doy);
    CivilYear(days, era, doe, year, doy);
  }

  lemma SameLength(a: int, b: int)
    requires Leap(a) == Leap(b)
    ensures YearLength(a) == YearLength(b)
  {
  }

  lemma CivilYear(days: nat, era: int, doe: int, year: int, doy: int)
    requires era == (days + 719_468) / 146_097 && doe == (days + 719_468) % 146_097
    requires year == 400 * era + YearOfEra(doe) && doy == DayOfYear(doe) && year >= 1969
    requires days + 719_468 == March(year) + doy && 0 <= doy < YearLength(year + 1)
    ensures Valid(Civil(days)) && DayNumber(Civil(days)) == days
  {
    hide YearOfEra, DayOfYear, March, YearsBefore, MonthsBefore;
    MonthFound(doy, year);
    MonthSums(year);
    var m := (5 * doy + 2) / 153;
    if m < 10 {
      AfterFirst(days, year, doy);
      YearsFromMarch(year);
      MarchLength(year - 1);
    } else {
      YearsFromMarch(year + 1);
    }
  }

  lemma AfterFirst(days: nat, year: int, doy: int)
    requires days + 719_468 == March(year) + doy && year >= 1969 && doy < 306
    ensures year >= 1970
  {
  }

  lemma {:induction false} YearsGrow(a: int, b: int)
    requires 1970 <= a < b
    ensures YearsBefore(a) + YearLength(a) <= YearsBefore(b)
    decreases b
  {
    if a + 1 < b {
      YearsGrow(a, b - 1);
    }
  }

  lemma {:induction false} MonthsGrow(year: int, a: int, b: int)
    requires 1 <= a < b
    ensures MonthsBefore(year, a) + MonthLength(year, a) <= MonthsBefore(year, b)
    decreases b
  {
    if a + 1 < b {
      MonthsGrow(year, a, b - 1);
    }
  }

  /** A date lies within its year. */
  lemma InYear(d: Date)
    requires Valid(d)
    ensures YearsBefore(d.year) <= DayNumber(d) < YearsBefore(d.year) + YearLength(d.year)
  {
    MonthSums(d.year);
    MonthsGrow(d.year, d.month, 13);
  }

  /** No two dates share a day number. */
  lemma DayNumberInjective(d: Date, e: Date)
    requires Valid(d) && Valid(e) && DayNumber(d) == DayNumber(e)
    ensures d == e
  {
    InYear(d);
    InYear(e);
    if d.year < e.year {
      YearsGrow(d.year, e.year);
    } else if e.year < d.year {
      YearsGrow(e.year, d.year);
    } else if d.month < e.month {
      MonthsGrow(d.year, d.month, e.month);
    } else if e.month < d.month {
      MonthsGrow(d.year, e.month, d.month);
    }
  }

  /** The stamp's date is the only calendar date with its day number: the two are inverse. */
  lemma CivilInverse(d: Date)
    requires Valid(d)
    ensures DayNumber(d) >= 0 && Civil(DayNumber(d)) == d
  {
    InYear(d);
    CivilExact(DayNumber(d));
    DayNumberInjective(Civil(DayNumber(d)), d);
  }

  lemma TomorrowCounts(d: Date)
    requires Valid(d)
    ensures Valid(Tomorrow(d)) && DayNumber(Tomorrow(d)) == DayNumber(d) + 1
  {
    if d.month == 12 {
      MonthSums(d.year);
    }
  }

  /** Consecutive days have consecutive dates. */
  lemma CivilSuccessor(days: nat)
    ensures Civil(days + 1) == Tomorrow(Civil(days))
  {
    hide *;
    CivilExact(days);
    TomorrowCounts(Civil(days));
    CivilInverse(Tomorrow(Civil(days)));
  }

  datatype Stamp = Stamp(date: Date, hours: int, minutes: int, seconds: int)

  function UtcStamp(secs: nat): Stamp {
    Stamp(Civil(secs / 86_400), (secs / 3600) % 24, (secs / 60) % 60, secs % 60)
  }

  lemma ClockExact(secs: nat)
    ensures secs / 86_400 * 86_400 + (secs / 3600) % 24 * 3600 + (secs / 60) % 60 * 60 + secs % 60 == secs
  {
    var minutes, hours := secs / 60, secs / 3600;
    assert minutes / 60 == hours && hours / 24 == secs / 86_400;
    assert secs == 60 * minutes + secs % 60;
    assert minutes == 60 * hours + minutes % 60;
    assert hours == 24 * (secs / 86_400) + hours % 24;
  }

  /** The stamp names its instant: the fields are in range and count back to the seconds. */
  lemma StampExact(secs: nat)
    ensures var s := UtcStamp(secs);
            && Valid(s.date) && 0 <= s.hours < 24 && 0 <= s.minutes < 60 && 0 <= s.seconds < 60
            && DayNumber(s.date) * 86_400 + s.hours * 3600 + s.minutes * 60 + s.seconds == secs
  {
    CivilExact(secs / 86_400);
    ClockExact(secs);
    hide DayNumber, Valid, Civil;
  }
}
