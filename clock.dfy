/** Instants and the calendar. An instant is a whole number of milliseconds since
    1970-01-01T00:00:00Z; calendar fields are taken in UTC. */
module Clock {

  type Timestamp = int

  const MsPerDay: int := 24 * 60 * 60 * 1000

  /** The calendar day an instant falls on (`toDateString()`), counted from 1970-01-01. */
  function Day(t: Timestamp): int
  {
    t / MsPerDay
  }

  /** The instant a date-only string `YYYY-MM-DD` denotes: midnight at the start of that day. */
  function Midnight(day: int): Timestamp
  {
    day * MsPerDay
  }

  /** Every instant of a day lies in `[Midnight(d), Midnight(d + 1))`. */
  lemma DayBounds(t: Timestamp)
    ensures Midnight(Day(t)) <= t < Midnight(Day(t) + 1)
  {
  }

  /** Two instants share a calendar day exactly when they lie in the same day-long interval. */
  lemma {:induction false} DayOfInstant(d: int, t: Timestamp)
    ensures Day(t) == d <==> Midnight(d) <= t < Midnight(d + 1)
  {
    DayBounds(t);
    if Day(t) < d {
      assert Midnight(Day(t) + 1) <= Midnight(d);
    } else if Day(t) > d {
      assert Midnight(d + 1) <= Midnight(Day(t));
    }
  }

  /** `getDay()`: 0 for Sunday up to 6 for Saturday; 1970-01-01 was a Thursday. */
  function Weekday(t: Timestamp): (w: int)
    ensures 0 <= w < 7
  {
    (Day(t) + 4) % 7
  }

  /** Moving forward by one day moves to the next weekday, Saturday wrapping round to Sunday. */
  lemma WeekdayNextDay(t: Timestamp)
    ensures Weekday(t + MsPerDay) == (Weekday(t) + 1) % 7
  {
    DayOfInstant(Day(t) + 1, t + MsPerDay);
    DayBounds(t);
    assert Day(t + MsPerDay) == Day(t) + 1;
  }

  /** `getFullYear() * 12 + getMonth()`: the months since January of year 0. */
  function MonthIndex(t: Timestamp): int
  {
    MonthOfDay(Day(t))
  }

  /** The month a day number falls in, by the proleptic Gregorian calendar (days-to-civil
      conversion on 400-year eras). */
  function MonthOfDay(day: int): int
  {
    var z := day + 719468;
    var era := z / 146097;
    var doe := z - era * 146097;
    var yoe := (doe - doe / 1460 + doe / 36524 - doe / 146096) / 365;
    var doy := doe - (365 * yoe + yoe / 4 - yoe / 100);
    var mp := (5 * doy + 2) / 153;
    var month := if mp < 10 then mp + 3 else mp - 9;
    var year := yoe + era * 400 + (if month <= 2 then 1 else 0);
    year * 12 + (month - 1)
  }

  /** 1970-01-01, the first day, is in January 1970. */
  lemma EpochMonth()
    ensures MonthOfDay(0) == 1970 * 12
  {
    assert 719468 / 146097 == 4;
    assert 135080 / 1460 == 92 && 135080 / 36524 == 3 && 135080 / 146096 == 0;
    assert 134991 / 365 == 369 && 369 / 4 == 92 && 369 / 100 == 3;
    assert 1532 / 153 == 10;
  }

  /** Day 59 is 1970-03-01: 1970 is not a leap year, so February had 28 days. */
  lemma March1970Month()
    ensures MonthOfDay(59) == 1970 * 12 + 2
  {
    assert 719527 / 146097 == 4;
    assert 135139 / 1460 == 92 && 135139 / 36524 == 3 && 135139 / 146096 == 0;
    assert 135050 / 365 == 370 && 370 / 4 == 92 && 370 / 100 == 3;
    assert 2 / 153 == 0;
  }

  /** Day 19782 is 2024-02-29, in February 2024. */
  lemma LeapDay2024Month()
    ensures MonthOfDay(19782) == 2024 * 12 + 1
  {
    assert 739250 / 146097 == 5;
    assert 8765 / 1460 == 6 && 8765 / 36524 == 0 && 8765 / 146096 == 0;
    assert 8759 / 365 == 23 && 23 / 4 == 5 && 23 / 100 == 0;
    assert 1827 / 153 == 11;
  }

  /** Day 19783, the day after, is 2024-03-01. */
  lemma March2024Month()
    ensures MonthOfDay(19783) == 2024 * 12 + 2
  {
    assert 739251 / 146097 == 5;
    assert 8766 / 1460 == 6 && 8766 / 36524 == 0 && 8766 / 146096 == 0;
    assert 8760 / 365 == 24 && 24 / 4 == 6 && 24 / 100 == 0;
    assert 2 / 153 == 0;
  }

  /** Moving by `n` whole days moves the calendar day by `n`. */
  lemma DayShift(t: Timestamp, n: int)
    ensures Day(t + n * MsPerDay) == Day(t) + n
  {
    DayBounds(t);
    DayOfInstant(Day(t) + n, t + n * MsPerDay);
  }

  /** A week later it is the same weekday. */
  lemma WeekdayWeekLater(t: Timestamp)
    ensures Weekday(t + 7 * MsPerDay) == Weekday(t)
  {
    DayShift(t, 7);
  }
}
