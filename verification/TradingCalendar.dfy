/** Trading days counted and searched on proleptic Gregorian dates, and the option expiries found with them. */
module TradingCalendar {
  import opened Contracts

  // ----- dates -----

  const MAX_DATE := 3652059

  /** Days since 31 December of the year 0; the first of January of the year 1 is a Monday. */
  type Date = d: int | 1 <= d <= MAX_DATE witness 1

  datatype CalendarError = DATE_OVERFLOW | DATE_INVALID

  /** Monday is 0. */
  function Weekday(d: int): int {
    (d + 6) % 7
  }

  const THURSDAY := 3

  predicate Leap(year: int) {
    year % 4 == 0 && (year % 100 != 0 || year % 400 == 0)
  }

  function DaysInMonth(year: int, month: int): int
    requires 1 <= month <= 12
  {
    if month == 2 then (if Leap(year) then 29 else 28)
    else if month in {4, 6, 9, 11} then 30 else 31
  }

  function DaysBeforeYear(year: int): int {
    (year - 1) * 365 + (year - 1) / 4 - (year - 1) / 100 + (year - 1) / 400
  }

  function DaysBeforeMonth(year: int, month: int): int
    requires 1 <= month <= 12
    decreases month
  {
    if month == 1 then 0 else DaysBeforeMonth(year, month - 1) + DaysInMonth(year, month - 1)
  }

  predicate ValidMonth(year: int, month: int) {
    1 <= year <= 9999 && 1 <= month <= 12
  }

  /** `date(year, month, day)`. */
  function MakeDate(year: int, month: int, day: int): Result<int, CalendarError> {
    if ValidMonth(year, month) && 1 <= day <= DaysInMonth(year, month) then
      Ok(DaysBeforeYear(year) + DaysBeforeMonth(year, month) + day)
    else Err(DATE_INVALID)
  }

  /** Years and months follow one another without a gap, up to the last date there is. */
  lemma YearIsTwelveMonths(year: int)
    ensures DaysBeforeMonth(year, 12) + DaysInMonth(year, 12) == DaysBeforeYear(year + 1) - DaysBeforeYear(year)
  {
    MonthsOfAYear(year);
    LeapDays(year);
  }

  lemma MonthsOfAYear(year: int)
    ensures DaysBeforeMonth(year, 12) == if Leap(year) then 335 else 334
    ensures forall month :: 1 <= month <= 12 ==> 0 <= DaysBeforeMonth(year, month) <= 335
  {
    assert DaysBeforeMonth(year, 2) == 31;
    assert DaysBeforeMonth(year, 3) == 31 + DaysInMonth(year, 2);
    assert DaysBeforeMonth(year, 4) == 62 + DaysInMonth(year, 2);
    assert DaysBeforeMonth(year, 5) == 92 + DaysInMonth(year, 2);
    assert DaysBeforeMonth(year, 6) == 123 + DaysInMonth(year, 2);
    assert DaysBeforeMonth(year, 7) == 153 + DaysInMonth(year, 2);
    assert DaysBeforeMonth(year, 8) == 184 + DaysInMonth(year, 2);
    assert DaysBeforeMonth(year, 9) == 215 + DaysInMonth(year, 2);
    assert DaysBeforeMonth(year, 10) == 245 + DaysInMonth(year, 2);
    assert DaysBeforeMonth(year, 11) == 276 + DaysInMonth(year, 2);
    assert DaysBeforeMonth(year, 12) == 306 + DaysInMonth(year, 2);
  }

  lemma LeapDays(year: int)
    ensures DaysBeforeYear(year + 1) - DaysBeforeYear(year) == if Leap(year) then 366 else 365
  {
    DividesStep(year, 4);
    DividesStep(year, 100);
    DividesStep(year, 400);
  }

  lemma DividesStep(n: int, k: int)
    requires k > 0
    ensures n / k - (n - 1) / k == if n % k == 0 then 1 else 0
  {
    var q, r := (n - 1) / k, (n - 1) % k;
    assert n - 1 == q * k + r;
    if r == k - 1 {
      assert n == (q + 1) * k;
      QuotientIs(n, k, q + 1, 0);
    } else {
      QuotientIs(n, k, q, r + 1);
    }
  }

  lemma QuotientIs(n: int, k: int, q: int, r: int)
    requires k > 0 && 0 <= r < k && n == q * k + r
    ensures n / k == q && n % k == r
  {
    var d := n / k - q;
    assert n == (n / k) * k + n % k;
    assert d * k == r - n % k;
    assert d >= 1 ==> d * k >= k;
    assert d <= -1 ==> d * k <= -k;
  }

  lemma {:induction false} YearsAscend(year: int, later: int)
    requires year <= later
    ensures DaysBeforeYear(year) <= DaysBeforeYear(later)
    decreases later - year
  {
    if year < later {
      YearsAscend(year, later - 1);
      LeapDays(later - 1);
    }
  }

  lemma MadeDatesAreDates(year: int, month: int, day: int)
    requires MakeDate(year, month, day).Ok?
    ensures 1 <= MakeDate(year, month, day).value <= MAX_DATE
  {
    MonthsOfAYear(year);
    YearsAscend(1, year);
    YearsAscend(year, 9999);
    YearIsTwelveMonths(year);
    MonthEndsInYear(year, month);
    assert DaysBeforeYear(1) == 0 && DaysBeforeYear(10000) == MAX_DATE;
    YearsAscend(year + 1, 10000);
  }

  lemma {:induction false} MonthEndsInYear(year: int, month: int)
    requires 1 <= month <= 12
    ensures DaysBeforeMonth(year, month) + DaysInMonth(year, month) <= DaysBeforeMonth(year, 12) + DaysInMonth(year, 12)
    decreases 12 - month
  {
    if month < 12 {
      MonthEndsInYear(year, month + 1);
    }
  }

  lemma NextMonthFollows(year: int, month: int)
    requires ValidMonth(year, month) && month < 12
    ensures MakeDate(year, month + 1, 1).Ok?
    ensures MakeDate(year, month + 1, 1).value - MakeDate(year, month, 1).value == DaysInMonth(year, month)
  {
    assert DaysBeforeMonth(year, month + 1) == DaysBeforeMonth(year, month) + DaysInMonth(year, month);
  }

  // ----- trading days -----

  predicate Trading(holidays: set<int>, d: int) {
    Weekday(d) < 5 && d !in holidays
  }

  /** Day 1 is a Monday, so Saturdays are the days 6, 13, ... and Sundays 7, 14, ...: all others trade but holidays. */
  lemma TradingDaysAreWeekdays(holidays: set<int>, d: Date)
    ensures Trading(holidays, d) <==> d % 7 != 6 && d % 7 != 0 && d !in holidays
  {
  }

  /** The number of trading days up to and including `d`. */
  function Count(holidays: set<int>, d: nat): nat {
    if d == 0 then 0 else Count(holidays, d - 1) + if Trading(holidays, d) then 1 else 0
  }

  /** The last trading day up to and including `d`, or 0 if there is none. */
  function Latest(holidays: set<int>, d: nat): nat {
    if d == 0 || Trading(holidays, d) then d else Latest(holidays, d - 1)
  }

  lemma {:induction false} LatestIsGreatest(holidays: set<int>, d: nat)
    ensures var latest := Latest(holidays, d);
            && latest <= d
            && (latest > 0 ==> Trading(holidays, latest))
            && (forall e :: latest < e <= d ==> !Trading(holidays, e))
  {
    if d > 0 && !Trading(holidays, d) {
      LatestIsGreatest(holidays, d - 1);
    }
  }

  /** The trading days after `start`, up to and including `end`. */
  function DaysAfter(holidays: set<int>, start: int, end: int): set<int> {
    set d | start < d <= end && Trading(holidays, d)
  }

  /** Their number, counted negatively when the dates are the other way round. */
  function TradingDays(holidays: set<int>, start: int, end: int): int {
    if start <= end then |DaysAfter(holidays, start, end)| else -|DaysAfter(holidays, end, start)|
  }

  lemma {:induction false} CountsTradingDays(holidays: set<int>, start: nat, end: nat)
    requires start <= end
    ensures Count(holidays, end) - Count(holidays, start) == |DaysAfter(holidays, start, end)|
  {
    if start == end {
      assert DaysAfter(holidays, start, end) == {};
    } else {
      CountsTradingDays(holidays, start, end - 1);
      var before := DaysAfter(holidays, start, end - 1);
      assert DaysAfter(holidays, start, end) == if Trading(holidays, end) then before + {end} else before;
    }
  }

  lemma TradingDaysAreCounted(holidays: set<int>, start: nat, end: nat)
    ensures TradingDays(holidays, start, end) == Count(holidays, end) - Count(holidays, start)
  {
    if start <= end {
      CountsTradingDays(holidays, start, end);
    } else {
      CountsTradingDays(holidays, end, start);
    }
  }

  /** Whichever way round three dates lie, the days between them add up; backwards they count negatively. */
  lemma TradingDaysAddUp(holidays: set<int>, a: Date, b: Date, c: Date)
    ensures TradingDays(holidays, a, b) + TradingDays(holidays, b, c) == TradingDays(holidays, a, c)
    ensures TradingDays(holidays, a, b) == -TradingDays(holidays, b, a)
  {
    TradingDaysAreCounted(holidays, a, b);
    TradingDaysAreCounted(holidays, b, c);
    TradingDaysAreCounted(holidays, a, c);
    TradingDaysAreCounted(holidays, b, a);
  }

  /** A search error is a date before the first one. */
  function Found(latest: nat): Result<int, CalendarError> {
    if latest == 0 then Err(DATE_OVERFLOW) else Ok(latest)
  }

  class ProductionTradingCalendar {
    const holidays: set<int>

    constructor (holidays: set<int>)
      ensures this.holidays == holidays
    {
      this.holidays := holidays;
    }

    predicate IsTradingDay(d: Date) {
      Weekday(d) < 5 && d !in holidays
    }

    /** The greatest trading day before `value`; it fails only if there is none. */
    method PrevTradingDay(value: Date) returns (r: Result<int, CalendarError>)
      ensures r == Found(Latest(holidays, value - 1))
    {
      var current := value - 1;
      while current > 0 && !IsTradingDay(current)
        invariant 0 <= current < value
        invariant Latest(holidays, value - 1) == Latest(holidays, current)
      {
        current := current - 1;
      }
      return if current == 0 then Err(DATE_OVERFLOW) else Ok(current);
    }

    method TradingDaysBetween(start: Date, end: Date) returns (n: int)
      ensures n == TradingDays(holidays, start, end)
    {
      TradingDaysAreCounted(holidays, start, end);
      if start == end { return 0; }
      var sign := if end > start then 1 else -1;
      var current, stop := start, end;
      if sign < 0 {
        current, stop := end, start;
      }
      ghost var from := current;
      var count := 0;
      while current < stop
        invariant from <= current <= stop
        invariant count == Count(holidays, current) - Count(holidays, from)
      {
        current := current + 1;
        if IsTradingDay(current) {
          count := count + 1;
        }
      }
      return sign * count;
    }
  }

  /** No trading day lies strictly between a date and the latest one up to it. */
  lemma NoneAfterLatest(holidays: set<int>, d: nat)
    ensures Latest(holidays, d) <= d && DaysAfter(holidays, Latest(holidays, d), d) == {}
  {
    LatestIsGreatest(holidays, d);
    assert forall e :: Latest(holidays, d) < e <= d ==> !Trading(holidays, e);
  }

  lemma OneMoreDay(holidays: set<int>, start: int, end: int)
    requires start < end
    ensures DaysAfter(holidays, start, end)
            == DaysAfter(holidays, start, end - 1) + (if Trading(holidays, end) then {end} else {})
  {
  }

  /** Stepping back to the previous trading day crosses no trading day but the one stepped from. */
  lemma PreviousDayIsOneBack(holidays: set<int>, d: Date)
    requires Latest(holidays, d - 1) > 0
    ensures var previous := Latest(holidays, d - 1);
            && previous < d
            && DaysAfter(holidays, previous, d) == (if Trading(holidays, d) then {d} else {})
            && TradingDays(holidays, previous, d) == (if Trading(holidays, d) then 1 else 0)
  {
    NoneAfterLatest(holidays, d - 1);
    OneMoreDay(holidays, Latest(holidays, d - 1), d);
  }

  // ----- expiries -----

  function FirstThursday(year: int, month: int): int
    requires ValidMonth(year, month)
  {
    1 + (THURSDAY - Weekday(MakeDate(year, month, 1).value)) % 7
  }

  /** The day that a week number names, clipped to the end of the month. */
  function WeeklyDay(year: int, month: int, week: int): int
    requires ValidMonth(year, month)
  {
    var day := FirstThursday(year, month) + (week - 1) * 7;
    if DaysInMonth(year, month) < day then DaysInMonth(year, month) else day
  }

  function LastTradingDayFrom(holidays: set<int>, target: Result<int, CalendarError>): Result<int, CalendarError>
    requires target.Ok? ==> target.value >= 0
  {
    match target
    case Err(error) => Err(error)
    case Ok(date) => Found(Latest(holidays, date))
  }

  function WeeklyTarget(year: int, month: int, week: int): (r: Result<int, CalendarError>)
    ensures r.Ok? ==> 1 <= r.value <= MAX_DATE
  {
    if !ValidMonth(year, month) then Err(DATE_INVALID)
    else
      var r := MakeDate(year, month, WeeklyDay(year, month, week));
      assert r.Ok? ==> 1 <= r.value <= MAX_DATE by {
        if r.Ok? { MadeDatesAreDates(year, month, WeeklyDay(year, month, week)); }
      }
      r
  }

  method WalkBack(calendar: ProductionTradingCalendar, target: Date) returns (r: Result<int, CalendarError>)
    ensures r == Found(Latest(calendar.holidays, target))
  {
    var date: Date := target;
    while !calendar.IsTradingDay(date)
      invariant Latest(calendar.holidays, date) == Latest(calendar.holidays, target)
      decreases date
    {
      LatestIsGreatest(calendar.holidays, date - 1);
      var previous := calendar.PrevTradingDay(date);
      if previous.Err? { return previous; }
      date := previous.value;
    }
    return Ok(date);
  }

  /** The second Thursday of the month, or the last trading day before it. */
  method CalculateMonthlyExpiry(year: int, month: int, calendar: ProductionTradingCalendar)
    returns (r: Result<int, CalendarError>)
    ensures r == LastTradingDayFrom(calendar.holidays, WeeklyTarget(year, month, 2))
  {
    var firstDay := MakeDate(year, month, 1);
    if firstDay.Err? { return firstDay; }
    var firstThursday := 1 + (THURSDAY - Weekday(firstDay.value)) % 7;
    var target := MakeDate(year, month, firstThursday + 7);
    MadeDatesAreDates(year, month, firstThursday + 7);
    r := WalkBack(calendar, target.value);
  }

  method CalculateWeeklyExpiry(year: int, month: int, week: int, calendar: ProductionTradingCalendar)
    returns (r: Result<int, CalendarError>)
    ensures r == LastTradingDayFrom(calendar.holidays, WeeklyTarget(year, month, week))
  {
    var firstDay := MakeDate(year, month, 1);
    if firstDay.Err? { return firstDay; }
    var firstThursday := 1 + (THURSDAY - Weekday(firstDay.value)) % 7;
    var targetDay := firstThursday + (week - 1) * 7;
    var maxDays := 31;
    if month < 12 {
      NextMonthFollows(year, month);
      var next := MakeDate(year, month + 1, 1);
      maxDays := next.value - firstDay.value;
    }
    var day := if maxDays < targetDay then maxDays else targetDay;
    assert day == WeeklyDay(year, month, week);
    var target := MakeDate(year, month, day);
    if target.Err? { return target; }
    MadeDatesAreDates(year, month, day);
    r := WalkBack(calendar, target.value);
  }

  lemma WeekdaysRepeat(d: int, weeks: int)
    ensures Weekday(d + 7 * weeks) == Weekday(d)
  {
    var q := (d + 6) / 7;
    QuotientIs(d + 7 * weeks + 6, 7, q + weeks, (d + 6) % 7);
  }

  /** Counting days of the month from the weekday of its first day. */
  lemma ThursdayOffset(first: int, day: int, week: int)
    requires 7 * (week - 1) < day <= 7 * week
    ensures Weekday(first + day - 1) == THURSDAY <==>
              day == 1 + (THURSDAY - Weekday(first)) % 7 + (week - 1) * 7
  {
    WeekdaysRepeat(first + day - 1 - 7 * (week - 1), week - 1);
  }

  /** A month's `week`-th Thursday, if it has one, is the target: the Thursday among days 7 * week - 6 to 7 * week. */
  lemma WeeklyTargetIsThursday(year: int, month: int, week: int, day: int)
    requires ValidMonth(year, month) && 1 <= week
    requires FirstThursday(year, month) + (week - 1) * 7 <= DaysInMonth(year, month)
    requires 1 <= day <= DaysInMonth(year, month) && 7 * (week - 1) < day <= 7 * week
    ensures Weekday(MakeDate(year, month, day).value) == THURSDAY <==>
              WeeklyTarget(year, month, week) == MakeDate(year, month, day)
  {
    var first := MakeDate(year, month, 1).value;
    ThursdayOffset(first, day, week);
    assert MakeDate(year, month, day) == Ok(first + day - 1);
    assert WeeklyTarget(year, month, week) == Ok(first + WeeklyDay(year, month, week) - 1);
  }

  /** Every week from the first has a target; if the month lacks that week's Thursday it is the month's last day. */
  lemma WeeklyTargetIsExact(year: int, month: int, week: int)
    ensures WeeklyTarget(year, month, week).Ok? <==> ValidMonth(year, month) && week >= 1
    ensures ValidMonth(year, month) && week >= 1
            && (forall day :: 7 * (week - 1) < day <= 7 * week && day <= DaysInMonth(year, month) ==>
                  Weekday(MakeDate(year, month, day).value) != THURSDAY) ==>
              WeeklyTarget(year, month, week) == MakeDate(year, month, DaysInMonth(year, month))
  {
    if ValidMonth(year, month) && week >= 1 {
      var day := FirstThursday(year, month) + (week - 1) * 7;
      if day <= DaysInMonth(year, month) {
        WeeklyTargetIsThursday(year, month, week, day);
      }
    }
  }

  /** There is an expiry exactly if there is a trading day up to the target. */
  lemma ExpiryExistsExactly(holidays: set<int>, target: Date)
    ensures LastTradingDayFrom(holidays, Ok(target)).Ok? <==> exists d: Date :: d <= target && Trading(holidays, d)
  {
    LatestIsGreatest(holidays, target);
    if Latest(holidays, target) > 0 {
      var d: Date := Latest(holidays, target);
    }
  }

  /** An expiry is the greatest trading day not after its target; there is none only if no trading day precedes. */
  lemma ExpiryIsGreatestTradingDay(holidays: set<int>, year: int, month: int, week: int, d: Date)
    requires WeeklyTarget(year, month, week).Ok? && Trading(holidays, d) && d <= WeeklyTarget(year, month, week).value
    ensures var expiry := LastTradingDayFrom(holidays, WeeklyTarget(year, month, week));
            && expiry.Ok? && Trading(holidays, expiry.value)
            && d <= expiry.value <= WeeklyTarget(year, month, week).value
  {
    LatestIsGreatest(holidays, WeeklyTarget(year, month, week).value);
  }

  /** Later weeks never expire earlier, and never on the same day if there is a trading day between their targets. */
  lemma WeeksExpireInOrder(holidays: set<int>, year: int, month: int, week: int, later: int)
    requires week <= later
    requires WeeklyTarget(year, month, week).Ok? && WeeklyTarget(year, month, later).Ok?
    requires LastTradingDayFrom(holidays, WeeklyTarget(year, month, week)).Ok?
    ensures var a, b := WeeklyTarget(year, month, week).value, WeeklyTarget(year, month, later).value;
            var x, y := LastTradingDayFrom(holidays, Ok(a)), LastTradingDayFrom(holidays, Ok(b));
            && y.Ok? && x.value <= y.value
            && (x.value == y.value <==> DaysAfter(holidays, a, b) == {})
  {
    var a, b := WeeklyTarget(year, month, week).value, WeeklyTarget(year, month, later).value;
    assert a <= b;
    LatestIsGreatest(holidays, a);
    LatestIsGreatest(holidays, b);
    var y := Latest(holidays, b);
    if a < y {
      assert y in DaysAfter(holidays, a, b);
    }
  }
}
