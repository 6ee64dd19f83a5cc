/**
 From a day number to its year and month (src/group_projection.rs:477-499), against the proleptic
 Gregorian calendar of ISO 8601:2004 section 3.2.1, counted year by year from 1970.
 */
module Calendar {

  // ---- the calendar ----

  predicate Leap(y: int)
  {
    y % 4 == 0 && (y % 100 != 0 || y % 400 == 0)
  }

  function YearLength(y: int): nat
  {
    if Leap(y) then 366 else 365
  }

  function MonthLength(y: int, m: int): nat
  {
    if m == 2 then (if Leap(y) then 29 else 28)
    else if m == 4 || m == 6 || m == 9 || m == 11 then 30
    else 31
  }

  /** The day number of January 1. */
  function YearStart(y: int): int
    decreases if y < 1970 then 1970 - y else y - 1970
  {
    if y == 1970 then 0
    else if y > 1970 then YearStart(y - 1) + YearLength(y - 1)
    else YearStart(y + 1) - YearLength(y)
  }

  function DaysBefore(y: int, m: int): nat
    decreases m
  {
    if m <= 1 then 0 else DaysBefore(y, m - 1) + MonthLength(y, m - 1)
  }

  /** The day number of the first of a month. */
  function MonthStart(y: int, m: int): int
  {
    YearStart(y) + DaysBefore(y, m)
  }

  predicate InMonth(day: int, y: int, m: int)
  {
    1 <= m <= 12 && MonthStart(y, m) <= day < MonthStart(y, m) + MonthLength(y, m)
  }

  // ---- the algorithm ----

  datatype CivilDate = CivilDate(year: int, month: int)

  /** Division that truncates toward zero. */
  function Quotient(a: int, b: int): int
    requires b > 0
  {
    if a >= 0 then a / b else -((-a) / b)
  }

  function YearOfEra(dayOfEra: int): int
  {
    Quotient(dayOfEra - Quotient(dayOfEra, 1_460) + Quotient(dayOfEra, 36_524) - Quotient(dayOfEra, 146_096), 365)
  }

  /** `civil_from_days`. */
  function Civil(daysSinceEpoch: int): CivilDate
  {
    var days := daysSinceEpoch + 719_468;
    var era := (if days >= 0 then days else days - 146_096) / 146_097;
    var dayOfEra := days - era * 146_097;
    var yearOfEra := YearOfEra(dayOfEra);
    var dayOfYear := dayOfEra - (365 * yearOfEra + Quotient(yearOfEra, 4) - Quotient(yearOfEra, 100));
    var piece := Quotient(5 * dayOfYear + 2, 153);
    var month := piece + if piece < 10 then 3 else -9;
    CivilDate(yearOfEra + era * 400 + (if month <= 2 then 1 else 0), month)
  }

  // ---- counting years ----

  /** Leap days before January 1 of a year. */
  function Leaps(y: int): int
  {
    (y - 1) / 4 - (y - 1) / 100 + (y - 1) / 400
  }

  lemma DivStep(y: int, k: int)
    requires k > 0
    ensures y / k == (y - 1) / k + if y % k == 0 then 1 else 0
  {
    var q, r := (y - 1) / k, (y - 1) % k;
    assert y - 1 == k * q + r;
    if r == k - 1 {
      assert y == k * (q + 1);
      DivUnique(y, k, q + 1, 0);
    } else {
      assert y == k * q + (r + 1);
      DivUnique(y, k, q, r + 1);
    }
  }

  function Product(k: int, n: int): int
  {
    k * n
  }

  lemma ProductFacts(k: int, a: int, q: int)
    requires k > 0
    ensures Product(k, a) - Product(k, q) == Product(k, a - q)
    ensures a - q >= 1 ==> Product(k, a - q) >= k
    ensures a - q <= -1 ==> Product(k, a - q) <= -k
  {
    var d := a - q;
    assert k * a - k * q == k * d;
    if d >= 1 {
      assert k * d == k * (d - 1) + k && k * (d - 1) >= 0;
    }
    if d <= -1 {
      assert k * (-(d + 1)) >= 0;
      assert k * (d + 1) == -(k * (-(d + 1))) && k * d == k * (d + 1) - k;
    }
  }

  lemma DivUnique(y: int, k: int, q: int, r: int)
    requires k > 0 && y == k * q + r && 0 <= r < k
    ensures y / k == q && y % k == r
  {
    var a := y / k;
    assert Product(k, a) + y % k == y && Product(k, q) + r == y;
    ProductFacts(k, a, q);
    hide Product;
  }

  lemma LeapsStep(y: int)
    ensures Leaps(y + 1) == Leaps(y) + if Leap(y) then 1 else 0
  {
    DivStep(y, 4);
    DivStep(y, 100);
    DivStep(y, 400);
    assert y % 100 == 0 ==> y % 4 == 0;
    assert y % 400 == 0 ==> y % 100 == 0;
  }

  lemma {:induction false} YearStartIs(y: int)
    ensures YearStart(y) == 365 * (y - 1970) + Leaps(y) - 477
    decreases if y < 1970 then 1970 - y else y - 1970
  {
    hide Leaps;
    if y == 1970 {
      assert Leaps(1970) == 477 by { LeapsAtEpoch(); }
    } else if y > 1970 {
      YearStartIs(y - 1);
      LeapsStep(y - 1);
    } else {
      YearStartIs(y + 1);
      LeapsStep(y);
    }
  }

  lemma LeapsAtEpoch()
    ensures Leaps(1970) == 477
  {
  }

  /** Year follows year, and month follows month, without a gap. */
  lemma NextYear(y: int)
    ensures YearStart(y + 1) == YearStart(y) + YearLength(y)
  {
    YearStartIs(y);
    YearStartIs(y + 1);
    LeapsStep(y);
  }

  lemma MonthTable(y: int)
    ensures DaysBefore(y, 1) == 0 && DaysBefore(y, 2) == 31
    ensures var l := if Leap(y) then 60 else 59;
            && DaysBefore(y, 3) == l && DaysBefore(y, 4) == l + 31 && DaysBefore(y, 5) == l + 61
            && DaysBefore(y, 6) == l + 92
            && DaysBefore(y, 7) == l + 122 && DaysBefore(y, 8) == l + 153 && DaysBefore(y, 9) == l + 184
            && DaysBefore(y, 10) == l + 214
            && DaysBefore(y, 11) == l + 245 && DaysBefore(y, 12) == l + 275 && DaysBefore(y, 13) == YearLength(y)
  {
    assert DaysBefore(y, 2) == DaysBefore(y, 1) + 31;
    assert DaysBefore(y, 4) == DaysBefore(y, 3) + 31;
    assert DaysBefore(y, 5) == DaysBefore(y, 4) + 30;
    assert DaysBefore(y, 6) == DaysBefore(y, 5) + 31;
    assert DaysBefore(y, 7) == DaysBefore(y, 6) + 30;
    assert DaysBefore(y, 8) == DaysBefore(y, 7) + 31;
    assert DaysBefore(y, 9) == DaysBefore(y, 8) + 31;
    assert DaysBefore(y, 10) == DaysBefore(y, 9) + 30;
    assert DaysBefore(y, 11) == DaysBefore(y, 10) + 31;
    assert DaysBefore(y, 12) == DaysBefore(y, 11) + 30;
    assert DaysBefore(y, 13) == DaysBefore(y, 12) + 31;
  }

  // ---- years that begin in March ----

  /** Days before year `z` of an era, when years begin on March 1 and the era's own leap day is not counted. */
  function EraDays(z: int): int
  {
    365 * z + z / 4 - z / 100
  }

  /** March 1 of a year, in days since 0000-03-01 of the era it falls into. */
  lemma MarchIs(era: int, z: int)
    requires 0 <= z <= 400
    ensures MonthStart(era * 400 + z, 3) == era * 146_097 + EraDays(z) + (if z == 400 then 1 else 0) - 719_468
  {
    hide YearStart, DaysBefore;
    var y := era * 400 + z;
    YearStartIs(y + 1);
    NextYear(y);
    MonthTable(y);
    assert MonthStart(y, 3) == YearStart(y + 1) - 306;
    assert y / 4 == era * 100 + z / 4 by { DivUnique(y, 4, era * 100 + z / 4, z % 4); }
    assert y / 100 == era * 4 + z / 100 by { DivUnique(y, 100, era * 4 + z / 100, z % 100); }
    assert y / 400 == era + z / 400 by { DivUnique(y, 400, era + z / 400, z % 400); }
  }

  // ---- the year within an era ----

  /** The numerator of `YearOfEra`. */
  function Counted(doe: int): int
  {
    doe - doe / 1_460 + doe / 36_524 - doe / 146_096
  }

  lemma CountedRises(a: int, b: int)
    requires 0 <= a <= b
    ensures Counted(a) <= Counted(b)
  {
    assert a - a / 1_460 <= b - b / 1_460;
    CenturiesRise(a, b);
  }

  lemma CenturiesRise(a: int, b: int)
    requires 0 <= a <= b
    ensures a / 36_524 - a / 146_096 <= b / 36_524 - b / 146_096
  {
    var c, d := a / 36_524, b / 36_524;
    assert a / 146_096 == c / 4 && b / 146_096 == d / 4;
    assert c <= d;
  }

  /** At the start of a March year, and one day before it. */
  lemma CountedAt(z: int)
    requires 0 <= z <= 800
    ensures EraDays(z) / 1_460 == z / 4 && EraDays(z) / 36_524 == z / 100 && EraDays(z) / 146_096 == z / 400
    ensures Counted(EraDays(z)) == 365 * z - z / 400
  {
    var p, s := z / 4, z % 4;
    assert z == 4 * p + s;
    assert z / 100 == p / 25;
    assert EraDays(z) == 1_460 * p + (365 * s + p - p / 25);
    DivUnique(EraDays(z), 1_460, p, 365 * s + p - p / 25);
    var c, t := z / 100, z % 100;
    assert z == 100 * c + t && z / 4 == 25 * c + t / 4;
    assert EraDays(z) == 36_524 * c + (365 * t + t / 4);
    DivUnique(EraDays(z), 36_524, c, 365 * t + t / 4);
    assert z / 400 == c / 4;
    assert EraDays(z) / 146_096 == c / 4;
  }

  lemma CountedNear(z: int)
    requires 1 <= z <= 800
    ensures Counted(EraDays(z) - 1) < 365 * z
    ensures z < 800 ==> Counted(EraDays(z) + 1) >= 365 * z - z / 400 + 1
  {
    CountedAt(z);
    var e := EraDays(z);
    var p, s := z / 4, z % 4;
    assert z == 4 * p + s && z / 100 == p / 25;
    assert e == 1_460 * p + (365 * s + p - p / 25);
    assert 0 < 365 * s + p - p / 25 < 1_459;
    DivUnique(e - 1, 1_460, p, 365 * s + p - p / 25 - 1);
    DivUnique(e + 1, 1_460, p, 365 * s + p - p / 25 + 1);
    CenturiesRise(e - 1, e);
    CenturiesRise(e, e + 1);
  }

  /** Within the first era the formula finds the March year of the day. */
  lemma YearFound(doe: int)
    requires 0 <= doe < 146_097
    ensures 0 <= YearOfEra(doe) < 400
    ensures EraDays(YearOfEra(doe)) <= doe
    ensures YearOfEra(doe) < 399 ==> doe < EraDays(YearOfEra(doe) + 1)
  {
    hide EraDays, Counted;
    var z := YearOfEra(doe);
    CountedRises(0, doe);
    CountedRises(doe, 146_096);
    CountedEnds();
    assert z == Counted(doe) / 365 by { assert YearOfEra(doe) == Quotient(Counted(doe), 365) by { SpellOut(doe); } }
    if doe < EraDays(z) {
      assert z >= 1 by { if z == 0 { EraStarts(); } }
      CountedNear(z);
      CountedRises(doe, EraDays(z) - 1);
    }
    if z < 399 && EraDays(z + 1) <= doe {
      EraGrows(z + 1);
      CountedAt(z + 1);
      CountedRises(EraDays(z + 1), doe);
    }
  }

  lemma SpellOut(doe: int)
    requires doe >= 0
    ensures YearOfEra(doe) == Quotient(Counted(doe), 365)
  {
  }

  lemma EraStarts()
    ensures EraDays(0) == 0 && EraDays(400) == 146_096 && EraDays(800) == 292_192
  {
  }

  lemma EraGrows(z: int)
    requires z >= 0
    ensures EraDays(z) >= 0
  {
  }

  lemma CountedEnds()
    ensures Counted(0) == 0 && Counted(146_096) == 145_999
  {
  }

  /** One era further on the formula still finds the year, though the days are counted one too many. */
  lemma YearFoundLate(doe: int)
    requires 0 <= doe < 146_096
    ensures YearOfEra(doe + 146_097) == 400 + YearOfEra(doe)
  {
    hide EraDays, Counted;
    var y := YearOfEra(doe);
    YearFound(doe);
    var z := 400 + y;
    LateDays(y);
    EraStarts();
    var late := doe + 146_097;
    assert EraDays(z) + 1 <= late <= EraDays(z + 1) by { if y < 399 { LateDays(y + 1); } }
    EraGrows(z);
    CountedNear(z);
    CountedRises(EraDays(z) + 1, late);
    CountedAt(z + 1);
    CountedRises(late, EraDays(z + 1));
    SpellOut(late);
    assert 365 * z <= Counted(late) < 365 * (z + 1);
  }

  lemma LateDays(y: int)
    requires 0 <= y <= 400
    ensures EraDays(400 + y) == 146_096 + EraDays(y)
  {
  }

  // ---- the month within a year ----

  /** Days of a March year before its month `p`, `p` counted from zero. */
  function Before(p: int): int
  {
    (153 * p + 2) / 5
  }

  function MonthOf(p: int): int
  {
    p + if p < 10 then 3 else -9
  }

  lemma PieceFound(doy: int)
    requires 0 <= doy <= 366
    ensures var p := (5 * doy + 2) / 153; 0 <= p <= 11 && Before(p) <= doy && (p < 11 ==> doy < Before(p + 1))
  {
  }

  /** The calendar months of a March year begin where `Before` says. */
  lemma MonthPlace(y: int, p: int)
    requires 0 <= p <= 11
    ensures var m := MonthOf(p); var year := y + (if m <= 2 then 1 else 0);
            && 1 <= m <= 12 && MonthStart(year, m) == MonthStart(y, 3) + Before(p)
            && (p < 11 ==> MonthLength(year, m) == Before(p + 1) - Before(p))
            && (p == 11 ==> MonthStart(year, m) + MonthLength(year, m) == MonthStart(y + 1, 3))
  {
    hide YearStart, DaysBefore;
    MonthTable(y);
    MonthTable(y + 1);
    NextYear(y);
  }

  /** A day of a March year lies in the month its day of the year falls into. */
  lemma DayInMonth(day: int, y: int, doy: int)
    requires 0 <= doy <= 366 && day == MonthStart(y, 3) + doy && day < MonthStart(y + 1, 3)
    ensures var m := MonthOf((5 * doy + 2) / 153); InMonth(day, y + (if m <= 2 then 1 else 0), m)
  {
    hide MonthStart, Before, MonthLength;
    PieceFound(doy);
    MonthPlace(y, (5 * doy + 2) / 153);
  }

  // ---- the theorem ----

  /** Era, year of the era and day of the year of a day number, as the algorithm means them. */
  lemma Located(day: int) returns (era: int, yoe: int, doy: int)
    ensures var doe := day + 719_468 - era * 146_097;
            && era == (day + 719_468) / 146_097 && 0 <= doe < 146_097 && yoe == YearOfEra(doe) && 0 <= yoe < 400
            && doy == doe - EraDays(yoe) && 0 <= doy <= 365
    ensures day == MonthStart(era * 400 + yoe, 3) + doy && day < MonthStart(era * 400 + yoe + 1, 3)
  {
    hide MonthStart, EraDays, YearOfEra;
    era := (day + 719_468) / 146_097;
    var doe := day + 719_468 - era * 146_097;
    assert 0 <= doe < 146_097;
    yoe := YearOfEra(doe);
    YearFound(doe);
    doy := doe - EraDays(yoe);
    MarchIs(era, yoe);
    MarchIs(era, yoe + 1);
    EraStarts();
    assert era * 400 + (yoe + 1) == era * 400 + yoe + 1;
    EraYear(yoe);
  }

  lemma EraYear(z: int)
    requires z >= 0
    ensures EraDays(z + 1) - EraDays(z) <= if z == 399 then 365 else 366
  {
  }

  /** The date the algorithm gives from the bound on. */
  lemma OnTimeCivil(day: int, era: int, doe: int, yoe: int, doy: int)
    requires day + 719_468 >= 0 && era == (day + 719_468) / 146_097
    requires doe == day + 719_468 - era * 146_097 && 0 <= doe < 146_097
    requires yoe == YearOfEra(doe) && 0 <= yoe < 400 && doy == doe - EraDays(yoe) && 0 <= doy <= 365
    ensures var m := MonthOf((5 * doy + 2) / 153);
            Civil(day) == CivilDate(era * 400 + yoe + (if m <= 2 then 1 else 0), m)
  {
    hide YearOfEra;
  }

  /** From day -719468 on, the algorithm finds the month the day lies in. */
  lemma CivilIsRight(day: int)
    requires day >= -719_468
    ensures InMonth(day, Civil(day).year, Civil(day).month)
  {
    hide MonthStart, YearOfEra, InMonth, Civil, EraDays;
    var era, yoe, doy := Located(day);
    OnTimeCivil(day, era, day + 719_468 - era * 146_097, yoe, doy);
    DayInMonth(day, era * 400 + yoe, doy);
  }

  // ---- before that ----

  lemma MarchYear(y: int)
    ensures 365 <= MonthStart(y + 1, 3) - MonthStart(y, 3) <= 366
  {
    hide YearStart, DaysBefore;
    NextYear(y);
    MonthTable(y);
    MonthTable(y + 1);
  }

  lemma {:induction false} MarchesRise(y: int, z: int)
    requires y < z
    ensures MonthStart(y, 3) < MonthStart(z, 3)
    decreases z - y
  {
    hide MonthStart;
    MarchYear(z - 1);
    if y < z - 1 {
      MarchesRise(y, z - 1);
    }
  }

  ghost predicate FirstOfMarch(day: int)
  {
    exists y :: day == MonthStart(y, 3)
  }

  lemma NotMarch(day: int, y: int)
    requires MonthStart(y, 3) < day < MonthStart(y + 1, 3)
    ensures !FirstOfMarch(day)
  {
    hide MonthStart;
    forall z ensures day != MonthStart(z, 3) {
      if z < y {
        MarchesRise(z, y);
      } else if z > y + 1 {
        MarchesRise(y + 1, z);
      }
    }
  }

  lemma LastPiece(doy: int)
    requires 364 <= doy <= 365
    ensures (5 * doy + 2) / 153 == 11 && (5 * (doy + 1) + 2) / 153 == 11
  {
  }

  /** The date the algorithm gives before the bound, inside an era: one day late. */
  lemma LateCivil(day: int, era: int, doe: int, yoe: int, doy: int)
    requires day + 719_468 < 0 && doe == day + 719_468 - era * 146_097 && 0 <= doe < 146_096
    requires YearOfEra(doe + 146_097) == 400 + yoe && 0 <= yoe < 400 && doy == doe - EraDays(yoe) && 0 <= doy <= 365
    ensures var m := MonthOf((5 * (doy + 1) + 2) / 153);
            Civil(day) == CivilDate(era * 400 + yoe + (if m <= 2 then 1 else 0), m)
  {
    hide YearOfEra;
    var days := day + 719_468;
    DivUnique(days - 146_096, 146_097, era - 1, doe + 1);
    LateDays(yoe);
  }

  /** Before the bound it finds the month of the next day, unless the next day is March 1. */
  lemma CivilIsLate(day: int)
    requires day < -719_468
    ensures var c := Civil(day);
            if FirstOfMarch(day + 1) then InMonth(day, c.year, c.month) else InMonth(day + 1, c.year, c.month)
  {
    hide MonthStart, YearOfEra, Civil, InMonth, FirstOfMarch, EraDays;
    var era, yoe, doy := Located(day);
    var y := era * 400 + yoe;
    var doe := day + 719_468 - era * 146_097;
    if doe == 146_096 {
      LastOfEra(day, era, yoe, doy);
    } else {
      YearFoundLate(doe);
      LateCivil(day, era, doe, yoe, doy);
      if day + 1 == MonthStart(y + 1, 3) {
        MarchYear(y);
        LastPiece(doy);
        DayInMonth(day, y, doy);
        ItIsMarch(day + 1, y + 1);
      } else {
        NotMarch(day + 1, y);
        DayInMonth(day + 1, y, doy + 1);
      }
    }
  }

  lemma ItIsMarch(day: int, y: int)
    requires day == MonthStart(y, 3)
    ensures FirstOfMarch(day)
  {
  }

  /** The last day of an era, February 29, is found as after the bound. */
  lemma LastOfEra(day: int, era: int, yoe: int, doy: int)
    requires day + 719_468 < 0 && day + 719_468 - era * 146_097 == 146_096
    requires yoe == YearOfEra(146_096) && 0 <= yoe < 400 && doy == 146_096 - EraDays(yoe) && 0 <= doy <= 365
    requires day == MonthStart(era * 400 + yoe, 3) + doy && day < MonthStart(era * 400 + yoe + 1, 3)
    ensures FirstOfMarch(day + 1) && InMonth(day, Civil(day).year, Civil(day).month)
  {
    hide MonthStart, YearOfEra, InMonth;
    DivUnique(day + 719_468 - 146_096, 146_097, era, 0);
    MarchIs(era, 400);
    EraStarts();
    ItIsMarch(day + 1, era * 400 + 400);
    DayInMonth(day, era * 400 + yoe, doy);
  }

  // ---- exactly when it is right ----

  /** Months do not overlap, whatever their years. */
  lemma {:induction false} MonthsInOrder(y: int, m: int, z: int, n: int)
    requires 1 <= m <= 12 && 1 <= n <= 12 && (y < z || (y == z && m < n))
    ensures MonthStart(y, m) + MonthLength(y, m) <= MonthStart(z, n)
    decreases 12 * (z - y) + n - m
  {
    hide YearStart, DaysBefore;
    MonthTable(y);
    if m < 12 {
      if y < z || m + 1 < n {
        MonthsInOrder(y, m + 1, z, n);
      }
      MonthFollows(y, m);
    } else {
      NextYear(y);
      MonthTable(y + 1);
      if y + 1 < z || 1 < n {
        MonthsInOrder(y + 1, 1, z, n);
      }
    }
  }

  lemma MonthFollows(y: int, m: int)
    requires 1 <= m < 12
    ensures MonthStart(y, m + 1) == MonthStart(y, m) + MonthLength(y, m)
  {
    hide YearStart;
  }

  lemma OneMonth(day: int, y: int, m: int, z: int, n: int)
    requires InMonth(day, y, m) && InMonth(day, z, n)
    ensures y == z && m == n
  {
    hide MonthStart, MonthLength;
    if y < z || (y == z && m < n) {
      MonthsInOrder(y, m, z, n);
    } else if z < y || (y == z && n < m) {
      MonthsInOrder(z, n, y, m);
    }
  }

  lemma FirstIsInMonth(y: int, m: int)
    requires 1 <= m <= 12
    ensures InMonth(MonthStart(y, m), y, m)
  {
    hide MonthStart;
  }

  /** The day is the last of its month, and that month is not February. */
  ghost predicate EndsMonthButFebruary(day: int)
  {
    exists y, m :: 1 <= m <= 12 && m != 3 && day + 1 == MonthStart(y, m)
  }

  predicate CivilRight(day: int)
  {
    InMonth(day, Civil(day).year, Civil(day).month)
  }

  /** The date is right from day -719468 on; before, on every day but the last of a month other than February. */
  lemma CivilRightExactly(day: int)
    ensures CivilRight(day) <==> day >= -719_468 || !EndsMonthButFebruary(day)
  {
    hide MonthStart, MonthLength, Civil;
    if day >= -719_468 {
      CivilIsRight(day);
    } else {
      var c := Civil(day);
      CivilIsLate(day);
      if FirstOfMarch(day + 1) {
        var z :| day + 1 == MonthStart(z, 3);
        forall y, m | 1 <= m <= 12 && day + 1 == MonthStart(y, m) ensures m == 3 {
          FirstIsInMonth(y, m);
          FirstIsInMonth(z, 3);
          OneMonth(day + 1, y, m, z, 3);
        }
      } else {
        forall y, m | 1 <= m <= 12 && day + 1 == MonthStart(y, m) ensures y == c.year && m == c.month {
          FirstIsInMonth(y, m);
          OneMonth(day + 1, y, m, c.year, c.month);
        }
        assert c.month == 3 ==> day + 1 != MonthStart(c.year, c.month);
      }
    }
  }

  /** Always the date is that of the day or of the day after. */
  lemma CivilIsNear(day: int) returns (near: int)
    ensures day <= near <= day + 1 && InMonth(near, Civil(day).year, Civil(day).month)
  {
    hide MonthStart, MonthLength, Civil;
    near := day;
    if day >= -719_468 {
      CivilIsRight(day);
    } else {
      CivilIsLate(day);
      if !FirstOfMarch(day + 1) {
        near := day + 1;
      }
    }
  }

  lemma YearZero()
    ensures YearStart(0) == -719_528
  {
    hide YearStart;
    YearStartIs(0);
  }

  lemma CivilThere()
    ensures Civil(-719_498) == CivilDate(0, 2)
  {
    assert Counted(292_164) == 291_970;
    SpellOut(292_164);
    assert YearOfEra(292_164) == 799;
    hide YearOfEra;
    assert (-30 - 146_096) / 146_097 == -2;
  }

  /** January 31 of year 0 is taken for February. */
  lemma JanuaryTakenForFebruary()
    ensures Civil(-719_498) == CivilDate(0, 2) && InMonth(-719_498, 0, 1) && !CivilRight(-719_498)
  {
    hide YearStart, Civil;
    YearZero();
    CivilThere();
    assert DaysBefore(0, 1) == 0;
  }
}
