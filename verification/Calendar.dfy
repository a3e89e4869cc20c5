/** Bucket arithmetic: which candle a moment belongs to. Moments are microseconds since
    midnight of 1 January of year 1, a Monday. */
module Calendar {

  datatype Timeframe =
    OneMinute | FiveMinute | FifteenMinute | ThirtyMinute | OneHour | FourHour | OneDay | OneWeek | OneMonth

  const SECOND: nat := 1_000_000
  const MINUTE: nat := 60_000_000
  const HOUR: nat := 3_600_000_000
  const DAY: nat := 86_400_000_000

  /** The fields of a naive date and time; `day` counts days from the first. */
  datatype Moment = Moment(day: nat, hour: nat, minute: nat, second: nat, micro: nat)

  function Fields(t: nat): Moment {
    Moment(t / DAY, t / HOUR % 24, t / MINUTE % 60, t / SECOND % 60, t % SECOND)
  }

  function Instant(m: Moment): nat {
    m.day * DAY + m.hour * HOUR + m.minute * MINUTE + m.second * SECOND + m.micro
  }

  // ---- months -----------------------------------------------------------------------

  predicate IsLeap(year: nat) {
    year % 4 == 0 && (year % 100 != 0 || year % 400 == 0)
  }

  /** The length of the month-th month, counted from January of year 1. */
  function DaysInMonth(month: nat): nat {
    var of := month % 12;
    if of == 1 then (if IsLeap(month / 12 + 1) then 29 else 28)
    else if of in {3, 5, 8, 10} then 30
    else 31
  }

  /** The first day of the month-th month. */
  function MonthStart(month: nat): nat {
    if month == 0 then 0 else MonthStart(month - 1) + DaysInMonth(month - 1)
  }

  /** The month a day falls in, searching forward from `from`. */
  function MonthFrom(day: nat, from: nat): (m: nat)
    requires MonthStart(from) <= day
    ensures MonthStart(m) <= day < MonthStart(m + 1)
    decreases day - MonthStart(from)
  {
    if day < MonthStart(from + 1) then from else MonthFrom(day, from + 1)
  }

  function MonthOf(day: nat): nat {
    MonthFrom(day, 0)
  }

  // ---- the two functions ---------------------------------------------------------------

  /** The start of the bucket, by resetting fields. */
  function Align(tf: Timeframe, t: nat): nat {
    var m := Fields(t);
    match tf
    case OneMinute => Instant(m.(second := 0, micro := 0))
    case FiveMinute => Instant(m.(minute := m.minute / 5 * 5, second := 0, micro := 0))
    case FifteenMinute => Instant(m.(minute := m.minute / 15 * 15, second := 0, micro := 0))
    case ThirtyMinute => Instant(m.(minute := m.minute / 30 * 30, second := 0, micro := 0))
    case OneHour => Instant(m.(minute := 0, second := 0, micro := 0))
    case FourHour => Instant(m.(hour := m.hour / 4 * 4, minute := 0, second := 0, micro := 0))
    case OneDay => Instant(m.(hour := 0, minute := 0, second := 0, micro := 0))
    case OneWeek => Instant(Fields(t - m.day % 7 * DAY).(hour := 0, minute := 0, second := 0, micro := 0))
    case OneMonth => Instant(Moment(MonthStart(MonthOf(m.day)), 0, 0, 0, 0))
  }

  /** What is added to a start to get its end; for a month the day is reset first. */
  function BucketEnd(tf: Timeframe, start: nat): nat {
    match tf
    case OneMinute => start + MINUTE
    case FiveMinute => start + 5 * MINUTE
    case FifteenMinute => start + 15 * MINUTE
    case ThirtyMinute => start + 30 * MINUTE
    case OneHour => start + HOUR
    case FourHour => start + 4 * HOUR
    case OneDay => start + DAY
    case OneWeek => start + 7 * DAY
    case OneMonth => Instant(Fields(start).(day := MonthStart(MonthOf(Fields(start).day)))) + 31 * DAY
  }

  // ---- the reference: floors ---------------------------------------------------------------

  function Width(tf: Timeframe): nat
    requires !tf.OneMonth?
    ensures Width(tf) > 0
  {
    match tf
    case OneMinute => MINUTE
    case FiveMinute => 5 * MINUTE
    case FifteenMinute => 15 * MINUTE
    case ThirtyMinute => 30 * MINUTE
    case OneHour => HOUR
    case FourHour => 4 * HOUR
    case OneDay => DAY
    case OneWeek => 7 * DAY
  }

  lemma SecondsOf(t: nat)
    ensures t == t / SECOND * SECOND + t % SECOND
    ensures t / MINUTE == t / SECOND / 60 && t / HOUR == t / SECOND / 3600 && t / DAY == t / SECOND / 86400
  {
  }

  lemma SecondsSplit(s: nat)
    ensures s == s / 86400 * 86400 + s / 3600 % 24 * 3600 + s / 60 % 60 * 60 + s % 60
  {
    assert s / 60 == s / 3600 * 60 + s / 60 % 60;
    assert s / 3600 == s / 86400 * 24 + s / 3600 % 24;
  }

  lemma FieldsRoundTrip(t: nat)
    ensures Instant(Fields(t)) == t
  {
    SecondsOf(t);
    SecondsSplit(t / SECOND);
  }

  /** The multiple of w below t is unique. */
  lemma FloorIsUnique(t: nat, w: nat, k: nat)
    requires w > 0 && k * w <= t < k * w + w
    ensures k * w == t - t % w
  {
    var q := t / w;
    assert t == q * w + t % w;
    if q < k {
      MulLe(q + 1, k, w);
    } else if k < q {
      MulLe(k + 1, q, w);
    }
  }

  lemma MulLe(a: nat, b: nat, w: nat)
    requires a <= b
    ensures a * w <= b * w
  {
  }

  /** How many whole buckets precede a moment. */
  function Index(tf: Timeframe, m: Moment): nat
    requires !tf.OneMonth?
  {
    match tf
    case OneMinute => m.day * 1440 + m.hour * 60 + m.minute
    case FiveMinute => m.day * 288 + m.hour * 12 + m.minute / 5
    case FifteenMinute => m.day * 96 + m.hour * 4 + m.minute / 15
    case ThirtyMinute => m.day * 48 + m.hour * 2 + m.minute / 30
    case OneHour => m.day * 24 + m.hour
    case FourHour => m.day * 6 + m.hour / 4
    case OneDay => m.day
    case OneWeek => m.day / 7
  }

  predicate InRange(m: Moment) {
    m.hour < 24 && m.minute < 60 && m.second < 60 && m.micro < SECOND
  }

  lemma MinutesClear(m: Moment, n: nat, k: nat)
    requires n == 1 || n == 5 || n == 15 || n == 30
    requires InRange(m) && k == m.minute / n * n
    ensures var r := Instant(m.(minute := k, second := 0, micro := 0));
            && r <= Instant(m) < r + n * MINUTE
            && r == (m.day * (1440 / n) + m.hour * (60 / n) + m.minute / n) * (n * MINUTE)
  {
    assert k <= m.minute < k + n;
    InstantSplit(m.day, m.hour, m.minute, m.second, m.micro);
    var j := m.minute / n;
    if n == 1 {
      assert k == j;
    } else if n == 5 {
      assert k == 5 * j;
    } else if n == 15 {
      assert k == 15 * j;
    } else {
      assert k == 30 * j;
    }
  }

  lemma HoursClear(m: Moment, n: nat, k: nat)
    requires n == 1 || n == 4
    requires InRange(m) && k == m.hour / n * n
    ensures var r := Instant(m.(hour := k, minute := 0, second := 0, micro := 0));
            && r <= Instant(m) < r + n * HOUR
            && r == (m.day * (24 / n) + m.hour / n) * (n * HOUR)
  {
    assert m.hour < k + n;
    InstantSplit(m.day, m.hour, m.minute, m.second, m.micro);
  }

  lemma DaysClear(m: Moment)
    requires InRange(m)
    ensures var r := Instant(m.(hour := 0, minute := 0, second := 0, micro := 0));
            r <= Instant(m) < r + DAY && r == m.day * DAY
  {
    InstantSplit(m.day, m.hour, m.minute, m.second, m.micro);
  }

  lemma FieldsInRange(t: nat)
    ensures InRange(Fields(t))
  {
  }

  lemma MinutesCount(tf: Timeframe, t: nat)
    requires tf.OneMinute? || tf.FiveMinute? || tf.FifteenMinute? || tf.ThirtyMinute?
    ensures Align(tf, t) == Index(tf, Fields(t)) * Width(tf)
    ensures Align(tf, t) <= t < Align(tf, t) + Width(tf)
  {
    hide Fields, Instant;
    var m := Fields(t);
    FieldsRoundTrip(t);
    FieldsInRange(t);
    match tf
    case OneMinute => MinutesClear(m, 1, m.minute);
    case FiveMinute => MinutesClear(m, 5, m.minute / 5 * 5);
    case FifteenMinute => MinutesClear(m, 15, m.minute / 15 * 15);
    case ThirtyMinute => MinutesClear(m, 30, m.minute / 30 * 30);
  }

  lemma AlignCounts(tf: Timeframe, t: nat)
    requires !tf.OneMonth?
    ensures Align(tf, t) == Index(tf, Fields(t)) * Width(tf)
    ensures Align(tf, t) <= t < Align(tf, t) + Width(tf)
  {
    FieldsRoundTrip(t);
    var m := Fields(t);
    assert InRange(m);
    hide Fields, Instant;
    match tf
    case OneHour => HoursClear(m, 1, m.hour); assert m.(hour := m.hour) == m;
    case FourHour => HoursClear(m, 4, m.hour / 4 * 4);
    case OneDay => DaysClear(m);
    case OneWeek => WeekAligns(t);
    case _ => MinutesCount(tf, t);
  }

  lemma InstantSplit(day: nat, hour: nat, minute: nat, second: nat, micro: nat)
    requires hour < 24 && minute < 60 && second < 60 && micro < SECOND
    ensures second * SECOND + micro < MINUTE
    ensures minute * MINUTE + second * SECOND + micro < HOUR
    ensures hour * HOUR + minute * MINUTE + second * SECOND + micro < DAY
  {
  }

  /** Going back to Monday lands on the start of the week. */
  lemma WeekAligns(t: nat)
    ensures Fields(t).day % 7 * DAY <= t && Align(OneWeek, t) == Fields(t).day / 7 * (7 * DAY)
    ensures Align(OneWeek, t) <= t < Align(OneWeek, t) + 7 * DAY
  {
    var day := t / DAY;
    assert day == day / 7 * 7 + day % 7;
    assert t == day * DAY + t % DAY;
    var back := t - day % 7 * DAY;
    assert back == day / 7 * 7 * DAY + t % DAY;
    assert back / DAY == day / 7 * 7;
  }

  /** Resetting the fields is rounding down to a multiple of the width. */
  lemma AlignIsFloor(tf: Timeframe, t: nat)
    requires !tf.OneMonth?
    ensures Align(tf, t) == t - t % Width(tf)
  {
    hide Align, Index, Fields;
    AlignCounts(tf, t);
    FloorIsUnique(t, Width(tf), Index(tf, Fields(t)));
  }

  // ---- months ---------------------------------------------------------------------------------

  lemma {:induction false} MonthStartGrows(a: nat, b: nat)
    requires a < b
    ensures MonthStart(a) + DaysInMonth(a) <= MonthStart(b)
    decreases b
  {
    if a < b - 1 {
      MonthStartGrows(a, b - 1);
    }
  }

  /** A day belongs to one month. */
  lemma MonthIsUnique(day: nat, month: nat)
    requires MonthStart(month) <= day < MonthStart(month + 1)
    ensures MonthOf(day) == month
  {
    var found := MonthOf(day);
    if found < month {
      MonthStartGrows(found, month);
    } else if month < found {
      MonthStartGrows(month, found);
    }
  }

  /** A month bucket starts at midnight of its first day and ends 31 days later, in every month. */
  lemma MonthBucket(t: nat)
    ensures var month := MonthOf(t / DAY);
            && Align(OneMonth, t) == MonthStart(month) * DAY
            && BucketEnd(OneMonth, Align(OneMonth, t)) == (MonthStart(month) + 31) * DAY
            && MonthStart(month) * DAY <= t < (MonthStart(month) + DaysInMonth(month)) * DAY
  {
    var month := MonthOf(t / DAY);
    var first := MonthStart(month);
    MonthIsUnique(first, month);
    Midnight(first);
    assert MonthStart(month + 1) == first + DaysInMonth(month);
  }

  lemma Midnight(day: nat)
    ensures Fields(day * DAY) == Moment(day, 0, 0, 0, 0) && Instant(Moment(day, 0, 0, 0, 0)) == day * DAY
  {
    var t := day * DAY;
    WholeDays(day);
    WholeHours(day * 24);
    WholeMinutes(day * 1440);
    WholeSeconds(day * 86400);
    WholeParts(day);
    assert t == day * 24 * HOUR && t == day * 1440 * MINUTE && t == day * 86400 * SECOND;
  }

  lemma WholeParts(day: nat)
    ensures day * 24 % 24 == 0 && day * 1440 % 60 == 0 && day * 86400 % 60 == 0
  {
  }

  lemma WholeDays(n: nat)
    ensures n * DAY / DAY == n
  {
  }

  lemma WholeHours(n: nat)
    ensures n * HOUR / HOUR == n
  {
  }

  lemma WholeMinutes(n: nat)
    ensures n * MINUTE / MINUTE == n
  {
  }

  lemma WholeSeconds(n: nat)
    ensures n * SECOND / SECOND == n && n * SECOND % SECOND == 0
  {
  }

  /** The 31-day month bucket ends where the next one starts exactly in months of 31 days; after
      every shorter month it reaches into the next bucket. */
  lemma MonthEndsAtNextStartIff(t: nat)
    ensures var month := MonthOf(t / DAY);
            var next := MonthStart(month + 1) * DAY;
            && Align(OneMonth, next) == next
            && (BucketEnd(OneMonth, Align(OneMonth, t)) == next <==> DaysInMonth(month) == 31)
            && (next < BucketEnd(OneMonth, Align(OneMonth, t)) <==> DaysInMonth(month) < 31)
  {
    var month := MonthOf(t / DAY);
    MonthBucket(t);
    Midnight(MonthStart(month + 1));
    MonthIsUnique(MonthStart(month + 1), month + 1);
  }

  /** The calendar of the months is the Gregorian one: before year y + 1 lie 365 days for each year and one
      more for every fourth, less every hundredth, but for every four-hundredth; and within a year the
      months begin where they do in any year, a day later from March on in a leap year. */
  lemma {:induction false} YearsBegin(y: nat)
    ensures MonthStart(12 * y) == 365 * y + y / 4 - y / 100 + y / 400
  {
    if y > 0 {
      hide MonthStart, IsLeap;
      YearsBegin(y - 1);
      MonthsBegin(y - 1, 12);
      LeapDays(y);
    } else {
      assert MonthStart(0) == 0;
    }
  }

  function DaysBefore(month: nat): nat
    requires month <= 12
  {
    [0, 31, 59, 90, 120, 151, 181, 212, 243, 273, 304, 334, 365][month]
  }

  lemma {:induction false} MonthsBegin(y: nat, k: nat)
    requires k <= 12
    ensures MonthStart(12 * y + k) == MonthStart(12 * y) + DaysBefore(k) + (if k >= 2 && IsLeap(y + 1) then 1 else 0)
  {
    hide IsLeap, DaysInMonth, DaysBefore;
    LengthOf(y, k);
    if k > 0 {
      MonthsBegin(y, k - 1);
      LengthOf(y, k - 1);
    }
  }

  lemma LengthOf(y: nat, k: nat)
    requires k <= 12
    ensures DaysBefore(0) == 0
    ensures k < 12 ==> DaysInMonth(12 * y + k) == DaysBefore(k + 1) - DaysBefore(k) + (if k == 1 && IsLeap(y + 1) then 1 else 0)
  {
    hide IsLeap;
    if k < 12 {
      assert (12 * y + k) % 12 == k && (12 * y + k) / 12 == y;
    }
  }

  lemma LeapDays(y: nat)
    requires y > 0
    ensures IsLeap(y) ==> y / 4 - y / 100 + y / 400 == (y - 1) / 4 - (y - 1) / 100 + (y - 1) / 400 + 1
    ensures !IsLeap(y) ==> y / 4 - y / 100 + y / 400 == (y - 1) / 4 - (y - 1) / 100 + (y - 1) / 400
  {
    Passes(y, 4);
    Passes(y, 100);
    Passes(y, 400);
    Multiple(y, 100, 4);
    Multiple(y, 400, 100);
  }

  lemma Passes(y: nat, n: nat)
    requires y > 0 && n > 0
    ensures y / n == (y - 1) / n + (if y % n == 0 then 1 else 0)
  {
    var q, r := (y - 1) / n, (y - 1) % n;
    if r + 1 < n {
      DivisionIs(y, n, q, r + 1);
    } else {
      DivisionIs(y, n, q + 1, 0);
    }
  }

  lemma DivisionIs(y: nat, n: nat, q: nat, r: nat)
    requires n > 0 && y == q * n + r && r < n
    ensures y / n == q && y % n == r
  {
    var p := y / n;
    assert p * n + y % n == q * n + r;
    if p > q {
      Larger(p, q, n);
    } else if p < q {
      Larger(q, p, n);
    }
  }

  lemma Larger(a: nat, b: nat, n: nat)
    requires a > b
    ensures a * n >= b * n + n
  {
    assert a * n == b * n + n + (a - b - 1) * n;
  }

  lemma Multiple(y: nat, n: nat, d: nat)
    requires n > 0 && d > 0 && n % d == 0
    ensures y % n == 0 ==> y % d == 0
  {
    if y % n == 0 {
      var q, m := y / n, n / d;
      assert y == q * n && n == m * d;
      assert y == q * m * d;
      DivisionIs(y, d, q * m, 0);
    }
  }

  /** The bucket of February of year 1 ends three days into March. */
  lemma FebruaryReachesIntoMarch()
    ensures Align(OneMonth, 31 * DAY) == 31 * DAY && Align(OneMonth, 59 * DAY) == 59 * DAY
    ensures BucketEnd(OneMonth, Align(OneMonth, 31 * DAY)) == 62 * DAY
  {
    FirstMonths();
    Midnight(31);
    Midnight(59);
    MonthIsUnique(31, 1);
    MonthIsUnique(59, 2);
  }

  lemma FirstMonths()
    ensures MonthStart(1) == 31 && MonthStart(2) == 59 && MonthStart(3) == 90
  {
    assert MonthStart(0) == 0;
  }

  // ---- buckets and time ---------------------------------------------------------------------------

  /** Every moment lies in its own bucket, for every timeframe. */
  lemma AlignContains(tf: Timeframe, t: nat)
    ensures Align(tf, t) <= t < BucketEnd(tf, Align(tf, t))
  {
    if tf.OneMonth? {
      MonthBucket(t);
    } else {
      hide Align;
      AlignCounts(tf, t);
    }
  }

  /** A moment between a bucket's start and its end has that start. */
  lemma BucketOwnsItsMoments(tf: Timeframe, s: nat, t: nat)
    requires !tf.OneMonth? && Align(tf, s) <= t < BucketEnd(tf, Align(tf, s))
    ensures Align(tf, t) == Align(tf, s)
  {
    hide Align, Index, Fields;
    AlignCounts(tf, s);
    AlignCounts(tf, t);
    FloorIsUnique(t, Width(tf), Index(tf, Fields(s)));
    FloorIsUnique(t, Width(tf), Index(tf, Fields(t)));
  }

  lemma AlignIsIdempotent(tf: Timeframe, t: nat)
    ensures Align(tf, Align(tf, t)) == Align(tf, t)
  {
    if tf.OneMonth? {
      var month := MonthOf(t / DAY);
      MonthBucket(t);
      MonthIsUnique(MonthStart(month), month);
      Midnight(MonthStart(month));
    } else {
      AlignContains(tf, t);
      BucketOwnsItsMoments(tf, t, Align(tf, t));
    }
  }

  lemma AlignIsMonotone(tf: Timeframe, s: nat, t: nat)
    requires s <= t
    ensures Align(tf, s) <= Align(tf, t)
  {
    if tf.OneMonth? {
      MonthBucket(s);
      MonthBucket(t);
      var first, second := MonthOf(s / DAY), MonthOf(t / DAY);
      if second < first {
        MonthStartGrows(second, first);
      } else if first < second {
        MonthStartGrows(first, second);
      }
    } else {
      hide Align;
      AlignContains(tf, s);
      AlignContains(tf, t);
      if Align(tf, t) < Align(tf, s) {
        BucketOwnsItsMoments(tf, t, s);
      }
    }
  }

  /** The buckets of every timeframe but the month tile time: a bucket's end is the next
      bucket's start, and two buckets are equal or disjoint. */
  lemma BucketsTile(tf: Timeframe, s: nat, t: nat)
    requires !tf.OneMonth?
    ensures Align(tf, BucketEnd(tf, Align(tf, s))) == BucketEnd(tf, Align(tf, s))
    ensures || Align(tf, s) == Align(tf, t)
            || BucketEnd(tf, Align(tf, s)) <= Align(tf, t)
            || BucketEnd(tf, Align(tf, t)) <= Align(tf, s)
  {
    hide Align, Index, Fields;
    AlignCounts(tf, s);
    var end := BucketEnd(tf, Align(tf, s));
    AlignCounts(tf, end);
    FloorIsUnique(end, Width(tf), Index(tf, Fields(s)) + 1);
    FloorIsUnique(end, Width(tf), Index(tf, Fields(end)));
    AlignIsIdempotent(tf, s);
    AlignIsIdempotent(tf, t);
    if Align(tf, s) <= Align(tf, t) < end {
      BucketOwnsItsMoments(tf, s, Align(tf, t));
    } else if Align(tf, t) <= Align(tf, s) < BucketEnd(tf, Align(tf, t)) {
      BucketOwnsItsMoments(tf, t, Align(tf, s));
    }
  }
}
