/**
 Date groups: which bucket a day falls into, seen from today (src/group_projection.rs:386-475, 497-499).
 */
module DateBuckets {
  import opened Prelude
  import opened Calendar

  // ---- instants and local days ----

  /** An instant, `seconds` and a fraction away from the epoch, on either side of it. */
  datatype Time = Time(before: bool, seconds: nat, nanos: nat)

  function Signed(time: Time): int
  {
    if time.before then 0 - time.seconds else time.seconds
  }

  const MAX_I64: int := 0x7FFF_FFFF_FFFF_FFFF

  function Saturated(x: int): int
  {
    if x > MAX_I64 then MAX_I64 else if x < -MAX_I64 - 1 then -MAX_I64 - 1 else x
  }

  /** `local_day`: seconds before the epoch are truncated toward it. */
  function LocalDay(time: Time, offset: int): int
  {
    var magnitude := if time.seconds > MAX_I64 then MAX_I64 else time.seconds;
    var seconds := if time.before then -magnitude else magnitude;
    Saturated(seconds + offset) / 86_400
  }

  /** Saturating gives the nearest number that fits 64 bits. */
  lemma SaturatedIsNearest(x: int, y: int)
    requires -0x8000_0000_0000_0000 <= y < 0x8000_0000_0000_0000
    ensures -0x8000_0000_0000_0000 <= Saturated(x) < 0x8000_0000_0000_0000
    ensures if x <= y then x <= Saturated(x) <= y else y <= Saturated(x) <= x
  {
  }

  /** A time whose seconds do not fit counts as the last second that does, on either side of the epoch. */
  lemma FarTimes(time: Time, offset: int)
    ensures time.seconds >= 0x8000_0000_0000_0000 ==>
              LocalDay(time, offset) == LocalDay(time.(seconds := 0x7FFF_FFFF_FFFF_FFFF), offset)
    ensures var s := Saturated(Signed(time) + offset);
            time.seconds < 0x8000_0000_0000_0000 ==> 86_400 * LocalDay(time, offset) <= s
                                                     < 86_400 * LocalDay(time, offset) + 86_400
  {
  }

  /** Nanoseconds since the epoch on the local clock, and the day that contains them. */
  function LocalNanos(time: Time, offset: int): int
  {
    (if time.before then -(time.seconds * 1_000_000_000 + time.nanos) else time.seconds * 1_000_000_000 + time.nanos)
    + offset * 1_000_000_000
  }

  function TrueDay(time: Time, offset: int): int
  {
    LocalNanos(time, offset) / 86_400_000_000_000
  }

  lemma DayOfNanos(seconds: int, nanos: nat)
    requires nanos < 1_000_000_000
    ensures (seconds * 1_000_000_000 + nanos) / 86_400_000_000_000 == seconds / 86_400
  {
    var q, r := seconds / 86_400, seconds % 86_400;
    assert seconds == 86_400 * q + r;
    DivUnique(seconds * 1_000_000_000 + nanos, 86_400_000_000_000, q, r * 1_000_000_000 + nanos);
  }

  /**
   For times within the range of the machine the day is right exactly unless the time lies a
   fraction of a second before a local midnight before the epoch.
   */
  lemma LocalDayRightExactly(time: Time, offset: int)
    requires time.nanos < 1_000_000_000 && time.seconds <= MAX_I64 && -MAX_I64 - 1 <= offset
    requires -MAX_I64 - 1 <= Signed(time) + offset <= MAX_I64
    ensures LocalDay(time, offset) == TrueDay(time, offset)
       <==> !(time.before && time.nanos > 0 && (Signed(time) + offset) % 86_400 == 0)
  {
    if time.before && time.nanos > 0 {
      var s := Signed(time) + offset;
      assert LocalNanos(time, offset) == (s - 1) * 1_000_000_000 + (1_000_000_000 - time.nanos);
      DayOfNanos(s - 1, 1_000_000_000 - time.nanos);
      DivStep(s, 86_400);
    } else if time.before {
      DayOfNanos(Signed(time) + offset, 0);
    } else {
      DayOfNanos(Signed(time) + offset, time.nanos);
    }
  }

  /** Half a second before the epoch, in UTC, is a time of the day before but is counted to day 0. */
  lemma BeforeTheEpoch()
    ensures var time := Time(true, 0, 500_000_000); LocalDay(time, 0) == 0 && TrueDay(time, 0) == -1
  {
  }

  /** Later times never fall on earlier days, whatever is truncated or saturated. */
  lemma LocalDayRises(a: Time, b: Time, offset: int)
    requires a.nanos < 1_000_000_000 && b.nanos < 1_000_000_000
    requires LocalNanos(a, offset) <= LocalNanos(b, offset)
    ensures LocalDay(a, offset) <= LocalDay(b, offset)
  {
    assert Signed(a) <= Signed(b);
  }

  // ---- weekdays ----

  /** `weekday_from_monday`. */
  function Weekday(day: int): int
  {
    (day + 3) % 7
  }

  /** Weeks begin on Monday; the epoch was a Thursday. */
  function Week(day: int): int
  {
    (day + 3) / 7
  }

  lemma WeekdaysTurn(day: int)
    ensures Weekday(0) == 3 && 0 <= Weekday(day) < 7 && Weekday(day + 1) == (Weekday(day) + 1) % 7
    ensures Weekday(day - Weekday(day)) == 0 && Week(day - Weekday(day)) == Week(day)
  {
    assert day + 3 == 7 * Week(day) + Weekday(day);
    DivUnique(day - Weekday(day) + 3, 7, Week(day), 0);
  }

  // ---- buckets ----

  datatype Bucket = Future | Today | Yesterday | EarlierThisWeek | LastWeek | EarlierThisMonth | LastMonth
        | EarlierThisYear | LongAgo | Unspecified

  function Rank(b: Bucket): nat
  {
    match b
    case Future => 0
    case Today => 10
    case Yesterday => 20
    case EarlierThisWeek => 30
    case LastWeek => 40
    case EarlierThisMonth => 50
    case LastMonth => 60
    case EarlierThisYear => 70
    case LongAgo => 80
    case Unspecified => 900
  }

  /** `date_bucket` on day numbers. */
  function BucketOf(today: int, day: int): Bucket
  {
    if day > today then Future
    else if day == today then Today
    else if day == today - 1 then Yesterday
    else
      var now, date := Civil(today), Civil(day);
      var weekStart := today - Weekday(today);
      if day >= weekStart then EarlierThisWeek
      else if day >= weekStart - 7 then LastWeek
      else if date.year == now.year && date.month == now.month then EarlierThisMonth
      else
        var previous := if now.month == 1 then CivilDate(now.year - 1, 12) else CivilDate(now.year, now.month - 1);
        if date.year == previous.year && date.month == previous.month then LastMonth
        else if date.year == now.year then EarlierThisYear
        else LongAgo
  }

  function DateBucket(value: Option<Time>, now: Time, offset: int): Bucket
  {
    match value
    case None => Unspecified
    case Some(time) => BucketOf(LocalDay(now, offset), LocalDay(time, offset))
  }

  /** Months counted through the years. */
  function MonthNumber(date: CivilDate): int
  {
    12 * date.year + date.month - 1
  }

  lemma MonthsAge(older: int, newer: int)
    requires older <= newer
    ensures MonthNumber(Civil(older)) <= MonthNumber(Civil(newer))
  {
    hide Civil, MonthStart, MonthLength;
    var d := CivilIsNear(older);
    var e := CivilIsNear(newer);
    var a, b := Civil(older), Civil(newer);
    if older < newer && MonthNumber(a) > MonthNumber(b) {
      MonthsInOrder(b.year, b.month, a.year, a.month);
    }
  }

  lemma MonthsAreMonths(day: int)
    ensures 1 <= Civil(day).month <= 12
  {
    hide Civil, MonthStart, MonthLength;
    var near := CivilIsNear(day);
  }

  /** Months and years decide the bucket of days before last week. */
  function OldBucket(now: int, date: int): Bucket
  {
    if date == now then EarlierThisMonth
    else if date == now - 1 then LastMonth
    else if date / 12 == now / 12 then EarlierThisYear
    else LongAgo
  }

  lemma OldBucketIs(today: int, day: int)
    requires day < today - Weekday(today) - 7
    ensures BucketOf(today, day) == OldBucket(MonthNumber(Civil(today)), MonthNumber(Civil(day)))
  {
    hide Civil;
    MonthsAreMonths(today);
    MonthsAreMonths(day);
    WeekdaysTurn(today);
    var now, date := Civil(today), Civil(day);
    DivUnique(MonthNumber(now), 12, now.year, now.month - 1);
    DivUnique(MonthNumber(date), 12, date.year, date.month - 1);
  }

  lemma OldBucketAges(now: int, older: int, newer: int)
    requires older <= newer <= now
    ensures Rank(OldBucket(now, older)) >= Rank(OldBucket(now, newer)) >= 50
  {
  }

  lemma RecentRank(today: int, day: int)
    ensures var start := today - Weekday(today);
            && (day >= start - 7 ==> Rank(BucketOf(today, day)) <= 40)
            && (day < start - 7 ==> Rank(BucketOf(today, day)) >= 50)
  {
    hide Civil;
    WeekdaysTurn(today);
  }

  lemma RecentAges(today: int, older: int, newer: int)
    requires today - Weekday(today) - 7 <= older <= newer
    ensures Rank(BucketOf(today, older)) >= Rank(BucketOf(today, newer))
  {
    hide Civil;
    WeekdaysTurn(today);
  }

  /** The rank never falls as a day gets older, across weeks, months and years. */
  lemma RankNeverFalls(today: int, older: int, newer: int)
    requires older <= newer
    ensures Rank(BucketOf(today, older)) >= Rank(BucketOf(today, newer))
  {
    hide Civil, BucketOf, OldBucket, Rank;
    var start := today - Weekday(today);
    WeekdaysTurn(today);
    RecentRank(today, older);
    RecentRank(today, newer);
    if newer < start - 7 {
      OldBucketIs(today, older);
      OldBucketIs(today, newer);
      MonthsAge(older, newer);
      MonthsAge(newer, today);
      OldBucketAges(MonthNumber(Civil(today)), MonthNumber(Civil(older)), MonthNumber(Civil(newer)));
    } else if older >= start - 7 {
      RecentAges(today, older, newer);
    }
  }

  /** The rank of `date_bucket` never falls as a time gets older, and an unknown time ranks last. */
  lemma OlderRanksHigher(older: Time, newer: Time, now: Time, offset: int)
    requires older.nanos < 1_000_000_000 && newer.nanos < 1_000_000_000
    requires LocalNanos(older, offset) <= LocalNanos(newer, offset)
    ensures Rank(DateBucket(None, now, offset)) > Rank(DateBucket(Some(older), now, offset))
    ensures Rank(DateBucket(Some(older), now, offset)) >= Rank(DateBucket(Some(newer), now, offset))
  {
    hide BucketOf, LocalDay, LocalNanos;
    LocalDayRises(older, newer, offset);
    RankNeverFalls(LocalDay(now, offset), LocalDay(older, offset), LocalDay(newer, offset));
    KnownDays(LocalDay(now, offset), LocalDay(older, offset));
  }

  lemma KnownDays(today: int, day: int)
    ensures !BucketOf(today, day).Unspecified?
  {
    hide Civil;
  }

  // ---- what the buckets mean ----

  ghost predicate SameMonth(a: int, b: int)
  {
    exists y, m :: InMonth(a, y, m) && InMonth(b, y, m)
  }

  /** `a` lies in the month before that of `b`. */
  ghost predicate MonthBefore(a: int, b: int)
  {
    exists y, m, z, n :: InMonth(a, y, m) && InMonth(b, z, n) && 12 * y + m + 1 == 12 * z + n
  }

  ghost predicate SameYear(a: int, b: int)
  {
    exists y, m, n :: InMonth(a, y, m) && InMonth(b, y, n)
  }

  /** Which days a bucket is for, in terms of the calendar alone. */
  ghost predicate Belongs(bucket: Bucket, today: int, day: int)
  {
    var past := Week(day) < Week(today) - 1;
    match bucket
    case Future => day > today
    case Today => day == today
    case Yesterday => day == today - 1
    case EarlierThisWeek => day < today - 1 && Week(day) == Week(today)
    case LastWeek => day < today - 1 && Week(day) == Week(today) - 1
    case EarlierThisMonth => past && SameMonth(day, today)
    case LastMonth => past && MonthBefore(day, today)
    case EarlierThisYear => past && !SameMonth(day, today) && !MonthBefore(day, today) && SameYear(day, today)
    case LongAgo => past && !MonthBefore(day, today) && !SameYear(day, today)
    case Unspecified => false
  }

  /** Months and years of days whose dates are right, read off the dates. */
  lemma MonthsCompared(day: int, today: int)
    requires CivilRight(day) && CivilRight(today)
    ensures SameMonth(day, today) <==> Civil(day) == Civil(today)
    ensures MonthBefore(day, today) <==> MonthNumber(Civil(day)) + 1 == MonthNumber(Civil(today))
    ensures SameYear(day, today) <==> Civil(day).year == Civil(today).year
  {
    hide Civil, MonthStart, MonthLength;
    var c, d := Civil(day), Civil(today);
    assert InMonth(day, c.year, c.month) && InMonth(today, d.year, d.month);
    forall y, m | InMonth(day, y, m) ensures y == c.year && m == c.month {
      OneMonth(day, y, m, c.year, c.month);
    }
    forall y, m | InMonth(today, y, m) ensures y == d.year && m == d.month {
      OneMonth(today, y, m, d.year, d.month);
    }
  }

  /** The number of a month gives back its year and tells dates apart. */
  lemma MonthNumbers(a: int, b: int)
    ensures MonthNumber(Civil(a)) / 12 == Civil(a).year
    ensures MonthNumber(Civil(a)) == MonthNumber(Civil(b)) <==> Civil(a) == Civil(b)
  {
    hide Civil;
    MonthsAreMonths(a);
    MonthsAreMonths(b);
    DivUnique(MonthNumber(Civil(a)), 12, Civil(a).year, Civil(a).month - 1);
  }

  lemma OldBelongs(today: int, day: int, bucket: Bucket)
    requires CivilRight(day) && CivilRight(today) && Week(day) < Week(today) - 1
    ensures BucketOf(today, day) == bucket <==> Belongs(bucket, today, day)
  {
    WeekBounds(today, day);
    MonthsCompared(day, today);
    OldBucketIs(today, day);
    MonthNumbers(day, today);
    MonthNumbers(today, day);
    hide Civil, CivilRight, MonthNumber, BucketOf, SameMonth, MonthBefore, SameYear, Week, Weekday;
  }

  /**
   A day has the bucket it belongs to, for every bucket: whatever the dates as far as it goes by days
   and weeks, and by months and years where the dates are right.
   */
  lemma BucketsMean(today: int, day: int, bucket: Bucket)
    ensures bucket in {Future, Today, Yesterday, EarlierThisWeek, LastWeek, Unspecified}
            || (CivilRight(day) && CivilRight(today)) ==>
              (BucketOf(today, day) == bucket <==> Belongs(bucket, today, day))
  {
    WeekBounds(today, day);
    if Week(day) < Week(today) - 1 && CivilRight(day) && CivilRight(today) {
      OldBelongs(today, day, bucket);
    }
    hide Civil, CivilRight, SameMonth, MonthBefore, SameYear;
  }

  /** A time in the range of the machine, and not a fraction of a second before a local midnight before the epoch. */
  ghost predicate Ordinary(time: Time, offset: int)
  {
    && time.nanos < 1_000_000_000 && time.seconds <= MAX_I64
    && -MAX_I64 - 1 <= offset && -MAX_I64 - 1 <= Signed(time) + offset <= MAX_I64
    && !(time.before && time.nanos > 0 && (Signed(time) + offset) % 86_400 == 0)
  }

  /** The same of `date_bucket` on times: the day a time truly falls on has the bucket it belongs to. */
  lemma TimesBelong(time: Time, now: Time, offset: int, bucket: Bucket)
    requires Ordinary(time, offset) && Ordinary(now, offset)
    requires -719_468 <= TrueDay(time, offset) && -719_468 <= TrueDay(now, offset)
    ensures DateBucket(Some(time), now, offset) == bucket
       <==> Belongs(bucket, TrueDay(now, offset), TrueDay(time, offset))
    ensures DateBucket(None, now, offset) == Unspecified
  {
    LocalDayRightExactly(time, offset);
    LocalDayRightExactly(now, offset);
    hide Civil, Belongs, BucketOf, LocalDay, TrueDay;
    CivilIsRight(TrueDay(time, offset));
    CivilIsRight(TrueDay(now, offset));
    BucketsMean(TrueDay(now, offset), TrueDay(time, offset), bucket);
  }

  lemma WeekBounds(today: int, day: int)
    ensures var start := today - Weekday(today);
            && (day >= start <==> Week(day) >= Week(today)) && (day >= start - 7 <==> Week(day) >= Week(today) - 1)
            && (Week(day) > Week(today) ==> day > today)
  {
    assert today + 3 == 7 * Week(today) + Weekday(today) && day + 3 == 7 * Week(day) + Weekday(day);
  }
}
