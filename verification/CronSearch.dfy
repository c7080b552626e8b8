/** The search for a job's next tick: it skips whole months, days and hours, and misses nothing. */
module CronSearch {
  import opened Collections

  const SEARCH_YEARS := 5

  /** A minute of the calendar, in UTC. */
  datatype Moment = Moment(year: int, month: int, day: int, hour: int, minute: int)

  /** A parsed expression, with its own words. The flags are the day fields that begin with a star. */
  datatype Cron = Cron(
    expr: string, minute: set<int>, hour: set<int>, dom: set<int>, month: set<int>, dow: set<int>, domAny: bool,
      dowAny: bool)

  predicate Leap(year: int) {
    year % 4 == 0 && (year % 100 != 0 || year % 400 == 0)
  }

  function DaysIn(year: int, month: int): int {
    if month == 2 then (if Leap(year) then 29 else 28)
    else if month in {4, 6, 9, 11} then 30
    else 31
  }

  predicate Valid(t: Moment) {
    && 1 <= t.month <= 12 && 1 <= t.day <= DaysIn(t.year, t.month)
    && 0 <= t.hour < 24 && 0 <= t.minute < 60
  }

  predicate Before(a: Moment, b: Moment) {
    || a.year < b.year
    || (a.year == b.year &&
        (|| a.month < b.month
         || (a.month == b.month &&
             (|| a.day < b.day
              || (a.day == b.day && (a.hour < b.hour || (a.hour == b.hour && a.minute < b.minute)))))))
  }

  function DaysBeforeMonth(year: int, month: int): int
    requires 1 <= month <= 12
    decreases month
  {
    if month == 1 then 0 else DaysBeforeMonth(year, month - 1) + DaysIn(year, month - 1)
  }

  function DaysBeforeYear(year: int): int {
    var before := year - 1;
    365 * before + before / 4 - before / 100 + before / 400
  }

  /** The days up to this one, of which the first of year 1 is the first. */
  function DayOf(t: Moment): int
    requires 1 <= t.month <= 12
  {
    DaysBeforeYear(t.year) + DaysBeforeMonth(t.year, t.month) + t.day
  }

  /** Sunday is 0. The first day of year 1 was a Monday. */
  function Weekday(t: Moment): int
    requires 1 <= t.month <= 12
  {
    DayOf(t) % 7
  }

  function NextMonth(t: Moment): Moment {
    if t.month == 12 then Moment(t.year + 1, 1, 1, 0, 0) else Moment(t.year, t.month + 1, 1, 0, 0)
  }

  function NextDay(t: Moment): Moment {
    if t.day < DaysIn(t.year, t.month) then Moment(t.year, t.month, t.day + 1, 0, 0) else NextMonth(t)
  }

  function NextHour(t: Moment): Moment {
    if t.hour < 23 then Moment(t.year, t.month, t.day, t.hour + 1, 0) else NextDay(t)
  }

  function NextMinute(t: Moment): Moment {
    if t.minute < 59 then t.(minute := t.minute + 1) else NextHour(t)
  }

  /** The same date so many years on, and the first of March for a leap day in a year that has none. */
  function AddYears(t: Moment, years: int): Moment {
    var on := t.(year := t.year + years);
    if t.month == 2 && t.day == 29 && !Leap(on.year) then on.(month := 3, day := 1) else on
  }

  /** Where both day fields are restricted either will do, and else the one that is decides. */
  predicate MatchesDay(c: Cron, t: Moment)
    requires 1 <= t.month <= 12
  {
    var dom, dow := t.day in c.dom, Weekday(t) in c.dow;
    if c.domAny && c.dowAny then true
    else if c.domAny then dow
    else if c.dowAny then dom
    else dom || dow
  }

  predicate Matches(c: Cron, t: Moment) {
    Valid(t) && t.month in c.month && MatchesDay(c, t) && t.hour in c.hour && t.minute in c.minute
  }

  /** No tick lies strictly between two moments. */
  ghost predicate NoneBetween(c: Cron, a: Moment, b: Moment) {
    forall u: Moment | Before(a, u) && Before(u, b) :: !Matches(c, u)
  }

  /** later is on from t, and no tick lies from t up to it. */
  ghost predicate Skips(c: Cron, t: Moment, later: Moment) {
    && Valid(later) && Before(t, later)
    && forall u: Moment | Valid(u) && !Before(u, t) && Before(u, later) :: !Matches(c, u)
  }

  /** What a search is for: the first tick from t on and before a limit, looked for minute by minute. */
  function Search(c: Cron, t: Moment, limit: Moment): (found: Option<Moment>)
    requires Valid(t)
    ensures found != None ==> Matches(c, found.value)
    decreases limit.year - t.year, 12 - t.month, 31 - t.day, 23 - t.hour, 59 - t.minute
  {
    if !Before(t, limit) then None
    else if Matches(c, t) then Some(t)
    else Search(c, NextMinute(t), limit)
  }

  function Limit(after: Moment): Moment {
    AddYears(NextMinute(after), SEARCH_YEARS)
  }

  lemma {:induction false} SearchFinds(c: Cron, t: Moment, limit: Moment)
    requires Valid(t)
    ensures Search(c, t, limit) == None ==> forall u: Moment | !Before(u, t) && Before(u, limit) :: !Matches(c, u)
    ensures Search(c, t, limit) != None ==>
      var found := Search(c, t, limit).value;
      && Matches(c, found) && !Before(found, t) && Before(found, limit)
      && forall u: Moment | !Before(u, t) && Before(u, found) :: !Matches(c, u)
    decreases limit.year - t.year, 12 - t.month, 31 - t.day, 23 - t.hour, 59 - t.minute
  {
    MinuteIsNext(t);
    if Before(t, limit) && !Matches(c, t) {
      SearchFinds(c, NextMinute(t), limit);
      forall u: Moment | Valid(u) && !Before(u, t)
        ensures u == t || !Before(u, NextMinute(t))
      {
        OneIsBefore(u, t);
      }
    }
  }

  lemma OneIsBefore(a: Moment, b: Moment)
    ensures Before(a, b) || a == b || Before(b, a)
    ensures !(Before(a, b) && Before(b, a))
  {
  }

  /** The search of the source, which gives up SEARCH_YEARS after it began. after is its minute. */
  method Next(c: Cron, after: Moment) returns (next: Option<Moment>)
    requires Valid(after)
    ensures next == Search(c, NextMinute(after), Limit(after))
  {
    var t := NextMinute(after);
    var limit := AddYears(t, SEARCH_YEARS);
    MinuteIsNext(after);
    while Before(t, limit)
      invariant Valid(t) && Before(after, t) && NoneBetween(c, after, t)
      decreases limit.year - t.year, 12 - t.month, 31 - t.day, 23 - t.hour, 59 - t.minute
    {
      ghost var was := t;
      if t.month !in c.month {
        MonthSkips(c, t);
        t := NextMonth(t);
      } else if !MatchesDay(c, t) {
        DaySkips(c, t);
        t := NextDay(t);
      } else if t.hour !in c.hour {
        HourSkips(c, t);
        t := NextHour(t);
      } else if t.minute !in c.minute {
        MinuteSkips(c, t);
        t := NextMinute(t);
      } else {
        SearchMeets(c, after, Some(t));
        return Some(t);
      }
      SkipTo(c, after, was, t);
    }
    SearchMeets(c, after, None);
    next := None;
  }

  /** A minute that is the first tick is what the plain search finds, and where there is none it finds none. */
  lemma SearchMeets(c: Cron, after: Moment, next: Option<Moment>)
    requires Valid(after)
    requires next == None ==> exists t :: !Before(t, Limit(after)) && NoneBetween(c, after, t)
    requires next != None ==>
      && Matches(c, next.value) && Before(after, next.value) && Before(next.value, Limit(after))
      && NoneBetween(c, after, next.value)
    ensures Search(c, NextMinute(after), Limit(after)) == next
  {
    var t := NextMinute(after);
    MinuteIsNext(after);
    SearchFinds(c, t, Limit(after));
    var plain := Search(c, t, Limit(after));
    if plain != None && next != None {
      OneIsBefore(plain.value, next.value);
    }
  }

  lemma MonthSkips(c: Cron, t: Moment)
    requires Valid(t) && t.month !in c.month
    ensures Skips(c, t, NextMonth(t))
  {
  }

  /** Everything from t up to the day after is on the same date, so on the same weekday. */
  lemma DaySkips(c: Cron, t: Moment)
    requires Valid(t) && !MatchesDay(c, t)
    ensures Skips(c, t, NextDay(t))
  {
    forall u: Moment | Valid(u) && !Before(u, t) && Before(u, NextDay(t))
      ensures !Matches(c, u)
    {
      assert u.year == t.year && u.month == t.month && u.day == t.day;
    }
  }

  lemma HourSkips(c: Cron, t: Moment)
    requires Valid(t) && t.hour !in c.hour
    ensures Skips(c, t, NextHour(t))
  {
  }

  lemma MinuteSkips(c: Cron, t: Moment)
    requires Valid(t) && t.minute !in c.minute
    ensures Skips(c, t, NextMinute(t))
  {
  }

  lemma SkipTo(c: Cron, after: Moment, t: Moment, later: Moment)
    requires Before(after, t) && NoneBetween(c, after, t) && Skips(c, t, later)
    ensures Before(after, later) && NoneBetween(c, after, later)
  {
  }

  /** Nothing lies between a minute and the one after it. */
  lemma MinuteIsNext(t: Moment)
    requires Valid(t)
    ensures Valid(NextMinute(t)) && Before(t, NextMinute(t))
    ensures forall u: Moment | Valid(u) && Before(t, u) :: !Before(u, NextMinute(t))
  {
  }

  // The minutes counted from the first of year 1, which is where the host counts its time from.

  const MINUTES_A_DAY := 1440

  function MinuteOf(t: Moment): int
    requires 1 <= t.month <= 12
  {
    (DayOf(t) - 1) * MINUTES_A_DAY + t.hour * 60 + t.minute
  }

  function At(n: nat): (t: Moment)
    ensures Valid(t)
  {
    if n == 0 then Moment(1, 1, 1, 0, 0) else NextMinute(At(n - 1))
  }

  lemma NextYearStarts(year: int)
    ensures DaysBeforeYear(year + 1) == DaysBeforeYear(year) + 365 + if Leap(year) then 1 else 0
  {
    NextMultiple(year, 4);
    NextMultiple(year, 100);
    NextMultiple(year, 400);
  }

  lemma NextMultiple(n: int, k: int)
    requires k > 1
    ensures n / k == (n - 1) / k + if n % k == 0 then 1 else 0
  {
    var q, r := (n - 1) / k, (n - 1) % k;
    assert n == k * q + (r + 1);
    if r + 1 == k {
      assert n == k * (q + 1);
      Divides(n, k, q + 1, 0);
    } else {
      Divides(n, k, q, r + 1);
    }
  }

  lemma Divides(n: int, k: int, q: int, r: int)
    requires k > 0 && 0 <= r < k && n == k * q + r
    ensures n / k == q && n % k == r
  {
    var d := n / k - q;
    assert k * d == r - n % k;
    assert d >= 1 ==> k * d >= k;
    assert d <= -1 ==> k * d <= -k;
  }

  lemma Quotient(n: int, k: int)
    requires k > 0
    ensures n == n / k * k + n % k
  {
  }

  lemma MultipleIsOrdered(m: int, n: int, k: int)
    requires m <= n && k > 0
    ensures m * k <= n * k
  {
  }

  lemma MultipleIsAfter(n: nat, t: nat, k: int)
    requires k > 0
    ensures (n * k) % k == 0 && n * k / k == n
    ensures n > t / k <==> n * k > t
  {
    Divides(n * k, k, n, 0);
    Quotient(t, k);
    if n > t / k {
      MultipleIsOrdered(t / k + 1, n, k);
    } else {
      MultipleIsOrdered(n, t / k, k);
    }
  }

  lemma MonthsOfAYear(year: int)
    ensures DaysBeforeMonth(year, 12) == 334 + if Leap(year) then 1 else 0
  {
    var february := DaysIn(year, 2);
    assert DaysBeforeMonth(year, 3) == 31 + february;
    assert DaysBeforeMonth(year, 5) == 92 + february;
    assert DaysBeforeMonth(year, 7) == 153 + february;
    assert DaysBeforeMonth(year, 9) == 215 + february;
    assert DaysBeforeMonth(year, 11) == 276 + february;
  }

  lemma NextDayCounts(t: Moment)
    requires Valid(t)
    ensures Valid(NextDay(t)) && DayOf(NextDay(t)) == DayOf(t) + 1
  {
    if t.month == 12 {
      NextYearStarts(t.year);
      MonthsOfAYear(t.year);
    }
  }

  /** The weekday goes on by one with every day, over months, years and leap years. */
  lemma WeekdayGoesOn(t: Moment)
    requires Valid(t)
    ensures Weekday(NextDay(t)) == (Weekday(t) + 1) % 7
  {
    hide DayOf, NextDay, DaysBeforeMonth;
    NextDayCounts(t);
    OneMoreDay(DayOf(t));
  }

  lemma OneMoreDay(n: int)
    ensures (n + 1) % 7 == (n % 7 + 1) % 7
  {
  }

  /** And it is the weekday that it was: the first of 1970 was a Thursday, and the leap day of 2000 a Tuesday. */
  lemma WeekdayIsKnown()
    ensures Weekday(Moment(1970, 1, 1, 0, 0)) == 4
    ensures Weekday(Moment(2000, 2, 29, 0, 0)) == 2
  {
    assert DaysBeforeMonth(2000, 2) == 31;
  }

  /**
   Of two day fields that are both restricted either will do: the days are those of the expression with the
   one left open, and those with the other. With one open the other decides, and with both every day will do.
   */
  lemma EitherDayWillDo(c: Cron, t: Moment)
    requires 1 <= t.month <= 12
    ensures !c.domAny && !c.dowAny ==>
      (MatchesDay(c, t) <==> MatchesDay(c.(dowAny := true), t) || MatchesDay(c.(domAny := true), t))
    ensures !c.domAny && c.dowAny ==> (MatchesDay(c, t) <==> t.day in c.dom)
    ensures c.domAny && !c.dowAny ==> (MatchesDay(c, t) <==> Weekday(t) in c.dow)
    ensures c.domAny && c.dowAny ==> MatchesDay(c, t)
  {
  }

  /** The calendar is the count: the minute after is one more, and the weekday goes on with the days. */
  lemma NextMinuteCounts(t: Moment)
    requires Valid(t)
    ensures Valid(NextMinute(t)) && MinuteOf(NextMinute(t)) == MinuteOf(t) + 1
  {
    NextDayCounts(t);
  }

  lemma {:induction false} AtCounts(n: nat)
    ensures MinuteOf(At(n)) == n
  {
    if n > 0 {
      AtCounts(n - 1);
      NextMinuteCounts(At(n - 1));
    }
  }

  lemma {:induction false} MonthsAreOrdered(year: int, m: int, n: int)
    requires 1 <= m < n <= 12
    ensures DaysBeforeMonth(year, n) >= DaysBeforeMonth(year, m) + DaysIn(year, m)
    decreases n
  {
    if m < n - 1 {
      MonthsAreOrdered(year, m, n - 1);
    }
  }

  lemma {:induction false} YearsAreOrdered(y: int, z: int)
    requires y < z
    ensures DaysBeforeYear(z) >= DaysBeforeYear(y + 1)
    decreases z - y
  {
    if y + 1 < z {
      YearsAreOrdered(y, z - 1);
      NextYearStarts(z - 1);
    }
  }

  lemma DayIsInItsYear(t: Moment)
    requires Valid(t)
    ensures DaysBeforeYear(t.year) < DayOf(t) <= DaysBeforeYear(t.year + 1)
  {
    NextYearStarts(t.year);
    MonthsOfAYear(t.year);
    if t.month < 12 {
      MonthsAreOrdered(t.year, t.month, 12);
    }
    if t.month > 1 {
      MonthsAreOrdered(t.year, 1, t.month);
    }
  }

  lemma DaysAreOrdered(a: Moment, b: Moment)
    requires Valid(a) && Valid(b) && Before(a, b)
    ensures DayOf(a) < DayOf(b) || (a.year == b.year && a.month == b.month && a.day == b.day)
  {
    if a.year < b.year {
      DayIsInItsYear(a);
      DayIsInItsYear(b);
      YearsAreOrdered(a.year, b.year);
    } else if a.month < b.month {
      MonthsAreOrdered(a.year, a.month, b.month);
    }
  }

  /** The order of the calendar is the order of the count. */
  lemma OrderIsTheCount(a: Moment, b: Moment)
    requires Valid(a) && Valid(b)
    ensures Before(a, b) <==> MinuteOf(a) < MinuteOf(b)
  {
    OneIsBefore(a, b);
    if Before(a, b) {
      DaysAreOrdered(a, b);
    } else if Before(b, a) {
      DaysAreOrdered(b, a);
    }
  }

  lemma CountIsFromTheFirst(t: Moment)
    requires Valid(t) && t.year >= 1
    ensures MinuteOf(t) >= 0
  {
    DayIsInItsYear(t);
    YearsAreOrdered(0, t.year);
  }

  /** A moment is the one counted by its own minute. */
  lemma AtOfCount(t: Moment)
    requires Valid(t) && MinuteOf(t) >= 0
    ensures At(MinuteOf(t)) == t
  {
    AtCounts(MinuteOf(t));
    OrderIsTheCount(At(MinuteOf(t)), t);
    OrderIsTheCount(t, At(MinuteOf(t)));
    OneIsBefore(At(MinuteOf(t)), t);
  }

  /** A day on is always within the horizon of the search. */
  lemma ADayOnIsWithin(n: nat)
    ensures Before(At(n + MINUTES_A_DAY), Limit(At(n)))
  {
    var year := At(n + 1).year;
    var first, second := Moment(year + 1, 1, 1, 0, 0), Moment(year + 2, 1, 1, 0, 0);
    AtCounts(n + 1);
    AtCounts(n + MINUTES_A_DAY);
    OrderIsTheCount(At(n + 1), first);
    NextYearStarts(year + 1);
    OrderIsTheCount(At(n + MINUTES_A_DAY), second);
    assert At(n + 1) == NextMinute(At(n));
    assert Before(second, Limit(At(n)));
  }

  lemma {:induction false} AtIsOrdered(m: nat, n: nat)
    requires m < n
    ensures Before(At(m), At(n))
    decreases n
  {
    MinuteIsNext(At(n - 1));
    if m < n - 1 {
      AtIsOrdered(m, n - 1);
    }
  }

  /** A search that starts at a counted minute ends at a later one. */
  lemma {:induction false} SearchIsCounted(c: Cron, n: nat, limit: Moment)
    ensures Search(c, At(n), limit) != None ==>
      var m := MinuteOf(Search(c, At(n), limit).value); m >= n && At(m) == Search(c, At(n), limit).value
    decreases limit.year - At(n).year, 12 - At(n).month, 31 - At(n).day, 23 - At(n).hour, 59 - At(n).minute
  {
    AtCounts(n);
    if Before(At(n), limit) && !Matches(c, At(n)) {
      assert At(n + 1) == NextMinute(At(n));
      SearchIsCounted(c, n + 1, limit);
    }
  }

  /** The first tick after a minute, within the horizon of the search. */
  function TickAfter(c: Cron, n: nat): (tick: Option<nat>)
    ensures tick != None ==> tick.value > n && Matches(c, At(tick.value))
  {
    assert At(n + 1) == NextMinute(At(n));
    SearchIsCounted(c, n + 1, Limit(At(n)));
    match Search(c, NextMinute(At(n)), Limit(At(n)))
    case Some(t) => Some(MinuteOf(t))
    case None => None
  }

  /** No tick between a minute and the one after it that is found, nor within the horizon where none is. */
  lemma TickAfterIsFirst(c: Cron, n: nat, k: nat)
    requires n < k && Matches(c, At(k))
    ensures TickAfter(c, n) != None ==> TickAfter(c, n).value <= k
    ensures TickAfter(c, n) == None ==> !Before(At(k), Limit(At(n)))
  {
    hide MatchesDay, Weekday, MinuteOf;
    assert At(n + 1) == NextMinute(At(n));
    SearchIsCounted(c, n + 1, Limit(At(n)));
    SearchFinds(c, At(n + 1), Limit(At(n)));
    if n + 1 < k {
      AtIsOrdered(n + 1, k);
    }
    OneIsBefore(At(n + 1), At(k));
    if TickAfter(c, n) != None && k < TickAfter(c, n).value {
      AtIsOrdered(k, TickAfter(c, n).value);
    }
  }

  // What the horizon misses.

  /** What the parser accepts: every field names something, and nothing outside of its range. */
  predicate Parsed(c: Cron) {
    && c.minute != {} && c.hour != {} && c.dom != {} && c.month != {} && c.dow != {}
    && (forall n <- c.minute :: 0 <= n < 60) && (forall n <- c.hour :: 0 <= n < 24)
    && (forall n <- c.dom :: 1 <= n <= 31) && (forall n <- c.month :: 1 <= n <= 12) && (forall n <- c.dow :: 0 <= n < 7)
  }

  /** A date that every year has. */
  predicate CommonDate(month: int, day: int) {
    day <= DaysIn(1, month)
  }

  /** The day of the month decides alone, and no pair of fields is a date of a common year. */
  predicate NoCommonDate(c: Cron) {
    !c.domAny && c.dowAny && forall m, d | m in c.month && d in c.dom :: !CommonDate(m, d)
  }

  /** The only dates an expression names are leap days. */
  predicate OnlyLeapDays(c: Cron) {
    NoCommonDate(c) && 2 in c.month && 29 in c.dom
  }

  /** A tick on a leap day, from the minute after this one and within the horizon. */
  ghost predicate LeapDayComes(c: Cron, after: Moment) {
    exists u: Moment ::
      && Valid(u) && u.month == 2 && u.day == 29 && u.hour in c.hour && u.minute in c.minute
      && !Before(u, NextMinute(after)) && Before(u, Limit(after))
  }

  /** Every weekday is among the first seven days of a month. */
  lemma WeekdayComes(year: int, month: int, dow: int) returns (day: int)
    requires 1 <= month <= 12 && 0 <= dow < 7
    ensures 1 <= day <= 7 && Weekday(Moment(year, month, day, 0, 0)) == dow
  {
    var before := DaysBeforeYear(year) + DaysBeforeMonth(year, month);
    day := 1 + (dow - (before + 1) % 7) % 7;
    DayOfAWeek(before, dow);
  }

  lemma DayOfAWeek(before: int, dow: int)
    requires 0 <= dow < 7
    ensures (before + 1 + (dow - (before + 1) % 7) % 7) % 7 == dow
  {
  }

  lemma AnyOf<T>(s: set<T>) returns (x: T)
    requires s != {}
    ensures x in s
  {
    x :| x in s;
  }

  /** An expression that names a date of a common year has a tick in every year. */
  lemma EveryYearHasOne(c: Cron, year: int) returns (u: Moment)
    requires Parsed(c) && !NoCommonDate(c)
    ensures Matches(c, u) && u.year == year
  {
    var minute := AnyOf(c.minute);
    var hour := AnyOf(c.hour);
    if c.domAny || !c.dowAny {
      var month := AnyOf(c.month);
      var dow := AnyOf(c.dow);
      var day := WeekdayComes(year, month, dow);
      u := Moment(year, month, day, hour, minute);
    } else {
      var month, day :| month in c.month && day in c.dom && CommonDate(month, day);
      u := Moment(year, month, day, hour, minute);
    }
  }

  /** Every tick of an expression without a common date is on a leap day, and every leap day at its time is one. */
  lemma LeapTicks(c: Cron, u: Moment)
    requires Parsed(c) && NoCommonDate(c)
    ensures Matches(c, u) <==>
      && OnlyLeapDays(c) && Valid(u) && u.month == 2 && u.day == 29 && u.hour in c.hour && u.minute in c.minute
  {
  }

  /**
   The search finds nothing exactly where the only dates named are leap days, or there is none, and no
   leap day lies within the horizon at a time the expression names.
   */
  lemma FindsNothing(c: Cron, after: Moment)
    requires Parsed(c) && Valid(after)
    ensures Search(c, NextMinute(after), Limit(after)) == None <==>
      NoCommonDate(c) && (OnlyLeapDays(c) ==> !LeapDayComes(c, after))
  {
    MinuteIsNext(after);
    SearchFinds(c, NextMinute(after), Limit(after));
    if !NoCommonDate(c) {
      var u := EveryYearHasOne(c, after.year + 1);
    } else {
      forall u: Moment
        ensures Matches(c, u) <==>
          && OnlyLeapDays(c) && Valid(u) && u.month == 2 && u.day == 29 && u.hour in c.hour && u.minute in c.minute
      {
        LeapTicks(c, u);
      }
    }
  }

  /** The horizon is missed, a tick after it and none within, exactly for leap days of which it holds none. */
  lemma HorizonMisses(c: Cron, after: Moment)
    requires Parsed(c) && Valid(after)
    ensures && Search(c, NextMinute(after), Limit(after)) == None
      && (exists u: Moment :: Matches(c, u) && Before(after, u))
      <==> OnlyLeapDays(c) && !LeapDayComes(c, after)
  {
    FindsNothing(c, after);
    if OnlyLeapDays(c) {
      var u := LeapDayAfter(c, after);
    } else if NoCommonDate(c) {
      forall u: Moment
        ensures !Matches(c, u)
      {
        LeapTicks(c, u);
      }
    }
  }

  lemma LeapDayAfter(c: Cron, after: Moment) returns (u: Moment)
    requires Parsed(c) && OnlyLeapDays(c)
    ensures Matches(c, u) && Before(after, u)
  {
    var minute := AnyOf(c.minute);
    var hour := AnyOf(c.hour);
    u := Moment(400 * (if after.year < 0 then 1 else after.year + 1), 2, 29, hour, minute);
    LeapTicks(c, u);
  }

  lemma FourthYear(year: int) returns (fourth: int)
    ensures year < fourth <= year + 4 && fourth % 4 == 0
  {
    fourth := year + 4 - year % 4;
  }

  /** And then one of the next four years is the common one that a century is. */
  lemma OnlyACenturyIsMissed(c: Cron, after: Moment) returns (year: int)
    requires Parsed(c) && Valid(after) && !LeapDayComes(c, after)
    ensures after.year < year <= after.year + 4 && year % 100 == 0 && !Leap(year)
  {
    year := FourthYear(after.year);
    var minute := AnyOf(c.minute);
    var hour := AnyOf(c.hour);
    var u := Moment(year, 2, 29, hour, minute);
    assert u.month == 2 && u.day == 29 && !Before(u, NextMinute(after)) && Before(u, Limit(after));
    assert !Valid(u);
    assert year % 100 == 0 by {
      assert !Leap(year);
    }
  }

  /** The horizon is one: a leap day written in 2096 is not found until it is nearer than eight years. */
  lemma HorizonMissesALeapDay(c: Cron)
    requires c == Cron("0 0 29 2 *", {0}, {0}, {29}, {2}, {0, 1, 2, 3, 4, 5, 6}, false, true)
    ensures NoneBetween(c, Moment(2096, 3, 1, 0, 0), AddYears(NextMinute(Moment(2096, 3, 1, 0, 0)), SEARCH_YEARS))
    ensures Matches(c, Moment(2104, 2, 29, 0, 0))
  {
    assert !Leap(2097) && !Leap(2098) && !Leap(2099) && !Leap(2100) && !Leap(2101);
    var after, limit := Moment(2096, 3, 1, 0, 0), Moment(2101, 3, 1, 0, 1);
    assert AddYears(NextMinute(after), SEARCH_YEARS) == limit;
    forall u: Moment | Before(after, u) && Before(u, limit)
      ensures !Matches(c, u)
    {
      if u.month == 2 && u.year != 2096 {
        assert !Leap(u.year);
      }
    }
  }
}
