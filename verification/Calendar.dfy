/** Calendar dates from seconds, against the definition of the Gregorian calendar. */
module Calendar {

  datatype Civil = Civil(year: nat, month: nat, day: nat, hour: nat, minute: nat, second: nat)

  // ── the algorithm ───────────────────────────────────────────────────────────

  /** Year within a 400-year era, from the day of the era. */
  function YearOfEra(doe: nat): nat {
    (doe - doe / 1_460 + doe / 36_524 - doe / 146_096) / 365
  }

  datatype Date = Date(year: nat, month: nat, day: nat)

  /** Year, month and day from the day number. */
  function DaysToDate(days: nat): Date {
    var z := days + 719_468;
    var era := z / 146_097;
    DateInEra(era, z - era * 146_097)
  }

  /** The date a day of an era falls on, counting years from the first of March. */
  function DateInEra(era: nat, doe: nat): Date
    requires doe < 146_097
  {
    EraBounds(doe);
    var yoe := YearOfEra(doe);
    var doy := doe - (365 * yoe + yoe / 4 - yoe / 100);
    MonthBounds(doy);
    var mp := (5 * doy + 2) / 153;
    var month := if mp < 10 then mp + 3 else mp - 9;
    Date((yoe + era * 400) + if month <= 2 then 1 else 0, month, doy - (153 * mp + 2) / 5 + 1)
  }

  function SecsToCivil(secs: nat): Civil {
    var date, time := DaysToDate(secs / 86_400), secs % 86_400;
    Civil(date.year, date.month, date.day, time / 3_600, (time % 3_600) / 60, time % 60)
  }

  // ── the calendar ────────────────────────────────────────────────────────────

  /** Days from 0000-01-01 to 1970-01-01. */
  const EPOCH := 719_528

  predicate Leap(y: nat) {
    y % 4 == 0 && (y % 100 != 0 || y % 400 == 0)
  }

  function DaysInMonth(y: nat, m: nat): nat {
    if m == 2 then (if Leap(y) then 29 else 28)
    else if m == 4 || m == 6 || m == 9 || m == 11 then 30
    else 31
  }

  /** Days from 0000-01-01 to the first of January of `y`. */
  function YearStart(y: nat): nat {
    if y == 0 then 0 else YearStart(y - 1) + if Leap(y - 1) then 366 else 365
  }

  /** Days of `y` before the first of month `m`. */
  function MonthStart(y: nat, m: nat): nat {
    if m <= 1 then 0 else MonthStart(y, m - 1) + DaysInMonth(y, m - 1)
  }

  predicate ValidCivil(c: Civil) {
    && 1 <= c.month <= 12
    && 1 <= c.day <= DaysInMonth(c.year, c.month)
    && c.hour < 24 && c.minute < 60 && c.second < 60
  }

  /** Seconds from 0000-01-01T00:00:00. */
  function Seconds(c: Civil): int {
    (YearStart(c.year) + MonthStart(c.year, c.month) + c.day - 1) * 86_400 + c.hour * 3_600 + c.minute * 60 + c.second
  }

  // ── days to years ───────────────────────────────────────────────────────────

  /** The three corrections the algorithm divides out. */
  lemma EraQuotients(doe: nat, k: nat, j: nat, i: nat, t: nat) returns (carry: nat)
    requires k <= 3 && j <= 24 && i <= 3 && t <= 365 && (t == 365 ==> i == 3)
    requires doe == 36_524 * k + 1_461 * j + 365 * i + t < 146_097
    requires t == 365 && j == 24 ==> k == 3
    ensures carry == if 24 * k + j + 365 * i + t >= 1_460 then 1 else 0
    ensures doe / 1_460 == 25 * k + j + carry
    ensures doe / 36_524 - doe / 146_096 == k
  {
    var left := 24 * k + j + 365 * i + t;
    carry := if left >= 1_460 then 1 else 0;
    QuotientIs(doe, 1_460, 25 * k + j + carry, left - 1_460 * carry);
    var rest := 1_461 * j + 365 * i + t;
    if doe != 146_096 {
      QuotientIs(doe, 146_096, 0, doe);
      QuotientIs(doe, 36_524, k, rest);
    }
  }

  /** A day of the era as century, four-year cycle, year of the cycle and day of the year. */
  lemma EraYear(doe: nat, k: nat, j: nat, i: nat, t: nat)
    requires k <= 3 && j <= 24 && i <= 3 && t <= 365 && (t == 365 ==> i == 3)
    requires doe == 36_524 * k + 1_461 * j + 365 * i + t < 146_097
    requires t == 365 && j == 24 ==> k == 3
    ensures YearOfEra(doe) == 100 * k + 4 * j + i
    ensures doe - (365 * YearOfEra(doe) + YearOfEra(doe) / 4 - YearOfEra(doe) / 100) == t
  {
    var y := 100 * k + 4 * j + i;
    var carry := EraQuotients(doe, k, j, i, t);
    assert doe - doe / 1_460 + doe / 36_524 - doe / 146_096 == 365 * y + t - carry;
    assert 0 <= t - carry < 365;
    assert y / 4 == 25 * k + j && y / 100 == k;
  }

  /** Every day of an era has such a decomposition. */
  lemma EraSplit(doe: nat) returns (k: nat, j: nat, i: nat, t: nat)
    requires doe < 146_097
    ensures k <= 3 && j <= 24 && i <= 3 && t <= 365 && (t == 365 ==> i == 3)
    ensures doe == 36_524 * k + 1_461 * j + 365 * i + t
    ensures t == 365 && j == 24 ==> k == 3
  {
    k := if doe == 146_096 then 3 else doe / 36_524;
    var r := doe - 36_524 * k;
    j := r / 1_461;
    var q := r - 1_461 * j;
    i := if q == 1_460 then 3 else q / 365;
    t := q - 365 * i;
  }

  lemma EraBounds(doe: nat)
    requires doe < 146_097
    ensures YearOfEra(doe) <= 399
    ensures 0 <= doe - (365 * YearOfEra(doe) + YearOfEra(doe) / 4 - YearOfEra(doe) / 100) <= 365
  {
    var k, j, i, t := EraSplit(doe);
    EraYear(doe, k, j, i, t);
  }

  /** The year after the last of a four-year cycle is leap, century cycles excepted. */
  lemma CycleEndsInLeap(k: nat, j: nat, era: nat)
    requires k <= 3 && j <= 24 && (j == 24 ==> k == 3)
    ensures Leap(100 * k + 4 * (j + 1) + 400 * era)
  {
    var y := 100 * k + 4 * (j + 1) + 400 * era;
    QuotientIs(y, 4, 25 * k + j + 1 + 100 * era, 0);
    if j == 24 {
      QuotientIs(y, 400, era + 1, 0);
    } else {
      QuotientIs(y, 100, k + 4 * era, 4 * (j + 1));
    }
  }

  /** A day of the year numbered 365 occurs only before a leap day's anniversary: in March-based leap years. */
  lemma LastDayIsLeap(doe: nat, era: nat)
    requires doe < 146_097
    ensures doe - (365 * YearOfEra(doe) + YearOfEra(doe) / 4 - YearOfEra(doe) / 100) == 365 ==>
              Leap(YearOfEra(doe) + era * 400 + 1)
  {
    hide YearOfEra, Leap;
    var k, j, i, t := EraSplit(doe);
    EraYear(doe, k, j, i, t);
    if t == 365 {
      assert YearOfEra(doe) + era * 400 + 1 == 100 * k + 4 * (j + 1) + 400 * era;
      CycleEndsInLeap(k, j, era);
    }
  }

  /** Leap days before the first of March of `y`. */
  lemma {:induction false} YearStartClosed(y: nat)
    ensures YearStart(y + 1) == 365 * (y + 1) + y / 4 - y / 100 + y / 400 + 1
  {
    if y == 0 {
      assert YearStart(1) == YearStart(0) + 366;
    } else {
      hide Leap;
      YearStartClosed(y - 1);
      LeapStep(y);
      assert YearStart(y + 1) == YearStart(y) + if Leap(y) then 366 else 365;
    }
  }

  lemma LeapStep(y: nat)
    requires y > 0
    ensures y / 4 - y / 100 + y / 400 ==
            (y - 1) / 4 - (y - 1) / 100 + (y - 1) / 400 + if Leap(y) then 1 else 0
  {
    QuotientStep(y, 4);
    QuotientStep(y, 100);
    QuotientStep(y, 400);
    Divides(y, 400, 4, 100);
    Divides(y, 100, 25, 4);
  }

  /** A multiple of a multiple is a multiple. */
  lemma Divides(y: nat, n: nat, a: nat, b: nat)
    requires a > 0 && b > 0 && n == a * b
    ensures y % n == 0 ==> y % b == 0
  {
    if y % n == 0 {
      var q := y / n;
      assert y == (a * b) * q == b * (a * q);
      QuotientIs(y, b, a * q, 0);
    }
  }

  lemma QuotientStep(y: nat, n: nat)
    requires y > 0 && n > 1
    ensures y / n == (y - 1) / n + if y % n == 0 then 1 else 0
  {
    var q, r := y / n, y % n;
    assert y == n * q + r;
    if r == 0 {
      assert y - 1 == n * (q - 1) + (n - 1);
      QuotientIs(y - 1, n, q - 1, n - 1);
    } else {
      assert y - 1 == n * q + (r - 1);
      QuotientIs(y - 1, n, q, r - 1);
    }
  }

  lemma QuotientIs(x: nat, n: nat, q: int, r: nat)
    requires n > 0 && r < n && x == n * q + r
    ensures x / n == q && x % n == r
  {
    var p, d := x / n, x / n - q;
    assert x == n * p + x % n;
    assert n * p == n * q + n * d;
    if d > 0 {
      AtLeastOnce(n, d);
    } else if d < 0 {
      AtLeastOnce(n, -d);
    }
  }

  lemma AtLeastOnce(n: nat, d: int)
    requires d >= 1
    ensures n * d >= n && n * -d + n <= 0
  {
    assert n * d == n + n * (d - 1);
  }

  lemma MonthStarts(y: nat)
    ensures MonthStart(y, 1) == 0 && MonthStart(y, 2) == 31
    ensures var f := if Leap(y) then 60 else 59;
            && MonthStart(y, 3) == f && MonthStart(y, 4) == f + 31 && MonthStart(y, 5) == f + 61
            && MonthStart(y, 6) == f + 92 && MonthStart(y, 7) == f + 122 && MonthStart(y, 8) == f + 153
            && MonthStart(y, 9) == f + 184 && MonthStart(y, 10) == f + 214 && MonthStart(y, 11) == f + 245
            && MonthStart(y, 12) == f + 275
  {
    hide Leap;
    assert MonthStart(y, 1) == 0;
    assert MonthStart(y, 2) == 31;
    assert MonthStart(y, 3) == 31 + DaysInMonth(y, 2);
    assert MonthStart(y, 4) == MonthStart(y, 3) + 31;
    assert MonthStart(y, 5) == MonthStart(y, 4) + 30;
    assert MonthStart(y, 6) == MonthStart(y, 5) + 31;
    assert MonthStart(y, 7) == MonthStart(y, 6) + 30;
    assert MonthStart(y, 8) == MonthStart(y, 7) + 31;
    assert MonthStart(y, 9) == MonthStart(y, 8) + 31;
    assert MonthStart(y, 10) == MonthStart(y, 9) + 30;
    assert MonthStart(y, 11) == MonthStart(y, 10) + 31;
    assert MonthStart(y, 12) == MonthStart(y, 11) + 30;
  }

  lemma MonthBounds(doy: nat)
    requires doy <= 365
    ensures (5 * doy + 2) / 153 <= 11
    ensures 0 <= doy - (153 * ((5 * doy + 2) / 153) + 2) / 5 <= 30
  {
  }

  /** The month found by the algorithm is the one the calendar puts that day in. */
  lemma MonthIsRight(y: nat, doy: nat)
    requires doy <= 365 && (doy == 365 ==> Leap(y + 1))
    ensures var mp := (5 * doy + 2) / 153;
            var offset := (153 * mp + 2) / 5;
            var (year, month) := if mp < 10 then (y, mp + 3) else (y + 1, mp - 9);
            && 1 <= month <= 12
            && YearStart(year) + MonthStart(year, month) == YearStart(y) + MonthStart(y, 3) + offset
            && 0 <= doy - offset < DaysInMonth(year, month)
  {
    hide Leap;
    MonthStarts(y);
    MonthStarts(y + 1);
    assert YearStart(y + 1) == YearStart(y) + if Leap(y) then 366 else 365;
    var mp := (5 * doy + 2) / 153;
    assert 153 * mp <= 5 * doy + 2 < 153 * mp + 153;
    if mp == 0 {
    } else if mp == 1 {
    } else if mp == 2 {
    } else if mp == 3 {
    } else if mp == 4 {
    } else if mp == 5 {
    } else if mp == 6 {
    } else if mp == 7 {
    } else if mp == 8 {
    } else if mp == 9 {
    } else if mp == 10 {
    } else {
      assert mp == 11;
    }
  }

  /** Days before the first of March of a year, counted by eras. */
  lemma MarchStart(era: nat, yoe: nat)
    requires yoe <= 399
    ensures var y := yoe + era * 400;
            YearStart(y) + MonthStart(y, 3) == 60 + era * 146_097 + 365 * yoe + yoe / 4 - yoe / 100
  {
    var y := yoe + era * 400;
    MonthStarts(y);
    YearStartClosed(y);
    assert YearStart(y + 1) == YearStart(y) + if Leap(y) then 366 else 365;
    assert y / 4 == yoe / 4 + era * 100;
    assert y / 100 == yoe / 100 + era * 4;
    assert y / 400 == era;
  }

  lemma TimeParts(time: nat)
    requires time < 86_400
    ensures time / 3_600 < 24 && (time % 3_600) / 60 < 60 && time % 60 < 60
    ensures (time / 3_600) * 3_600 + ((time % 3_600) / 60) * 60 + time % 60 == time
  {
  }

  /** The date found in an era is valid and lies as many days after the era's first of March. */
  lemma DateInEraIsExact(era: nat, doe: nat)
    requires doe < 146_097
    ensures var d := DateInEra(era, doe);
            && 1 <= d.month <= 12 && 1 <= d.day <= DaysInMonth(d.year, d.month)
            && YearStart(d.year) + MonthStart(d.year, d.month) + d.day - 1 == 60 + era * 146_097 + doe
  {
    hide YearOfEra, YearStart, MonthStart, DaysInMonth, Leap;
    var yoe := YearOfEra(doe);
    EraBounds(doe);
    var doy := doe - (365 * yoe + yoe / 4 - yoe / 100);
    LastDayIsLeap(doe, era);
    MonthIsRight(yoe + era * 400, doy);
    MonthBounds(doy);
    MarchStart(era, yoe);
  }

  /** Every number of seconds yields a valid date, and the date names exactly that second. */
  lemma CivilIsExact(secs: nat)
    ensures ValidCivil(SecsToCivil(secs))
    ensures Seconds(SecsToCivil(secs)) == EPOCH * 86_400 + secs
  {
    hide YearStart, MonthStart, DaysInMonth, DateInEra;
    var z := secs / 86_400 + 719_468;
    DateInEraIsExact(z / 146_097, z - (z / 146_097) * 146_097);
    TimeParts(secs % 86_400);
  }

  // ── order ───────────────────────────────────────────────────────────────────

  /** Lexicographic order of hour, minute and second. */
  predicate TimeBefore(a: Civil, b: Civil) {
    || a.hour < b.hour
    || (a.hour == b.hour && a.minute < b.minute)
    || (a.hour == b.hour && a.minute == b.minute && a.second < b.second)
  }

  /** Lexicographic order of the six fields. */
  predicate CivilBefore(a: Civil, b: Civil) {
    || a.year < b.year
    || (a.year == b.year && a.month < b.month)
    || (a.year == b.year && a.month == b.month && a.day < b.day)
    || (a.year == b.year && a.month == b.month && a.day == b.day && TimeBefore(a, b))
  }

  function TimeOf(c: Civil): nat {
    c.hour * 3_600 + c.minute * 60 + c.second
  }

  /** Time of day compares as its three fields do. */
  lemma TimeIsLexicographic(a: Civil, b: Civil)
    requires ValidCivil(a) && ValidCivil(b)
    ensures TimeOf(a) < TimeOf(b) <==> TimeBefore(a, b)
  {
  }

  lemma {:induction false} YearsGrow(a: nat, b: nat)
    requires a < b
    ensures YearStart(a) + (if Leap(a) then 366 else 365) <= YearStart(b)
  {
    if a + 1 < b {
      YearsGrow(a, b - 1);
    }
  }

  lemma {:induction false} MonthsGrow(y: nat, m: nat, n: nat)
    requires 1 <= m < n
    ensures MonthStart(y, m) + DaysInMonth(y, m) <= MonthStart(y, n)
  {
    if m + 1 < n {
      MonthsGrow(y, m, n - 1);
    }
  }

  lemma DateFitsYear(y: nat, m: nat)
    requires 1 <= m <= 12
    ensures MonthStart(y, m) + DaysInMonth(y, m) <= if Leap(y) then 366 else 365
  {
    MonthStarts(y);
    if m < 12 {
      MonthsGrow(y, m, 12);
    }
  }

  /** A lexicographically earlier valid date is an earlier second. */
  lemma EarlierDateIsEarlier(a: Civil, b: Civil)
    requires ValidCivil(a) && ValidCivil(b) && CivilBefore(a, b)
    ensures Seconds(a) < Seconds(b)
  {
    hide YearStart, MonthStart, DaysInMonth, Leap, TimeBefore;
    assert TimeOf(a) < 86_400 && TimeOf(b) < 86_400;
    TimeIsLexicographic(a, b);
    if a.year < b.year {
      YearsGrow(a.year, b.year);
      DateFitsYear(a.year, a.month);
    } else if a.month < b.month {
      MonthsGrow(a.year, a.month, b.month);
    }
  }

  /** Later seconds give lexicographically later dates. */
  lemma CivilIsIncreasing(x: nat, y: nat)
    requires x < y
    ensures CivilBefore(SecsToCivil(x), SecsToCivil(y))
  {
    hide SecsToCivil, Seconds;
    CivilIsExact(x);
    CivilIsExact(y);
    var a, b := SecsToCivil(x), SecsToCivil(y);
    if !CivilBefore(a, b) {
      if CivilBefore(b, a) {
        EarlierDateIsEarlier(b, a);
      } else {
        SameFields(a, b);
      }
    }
  }

  lemma SameFields(a: Civil, b: Civil)
    requires ValidCivil(a) && ValidCivil(b) && !CivilBefore(a, b) && !CivilBefore(b, a)
    ensures Seconds(a) == Seconds(b)
  {
    hide YearStart, MonthStart, DaysInMonth;
  }

  const U64_LIMIT := 0x1_0000_0000_0000_0000

  /** Every sum and product of the 64-bit computation stays below the limit, and no difference below zero. */
  lemma FitsIn64Bits(secs: nat)
    requires secs < U64_LIMIT
    ensures var z := secs / 86_400 + 719_468;
            var era := z / 146_097;
            && z < U64_LIMIT && era * 146_097 <= z && z - era * 146_097 < 146_097
            && era * 400 + 399 + 1 < U64_LIMIT
            && SecsToCivil(secs).year < U64_LIMIT
  {
    hide YearOfEra;
    var z := secs / 86_400 + 719_468;
    EraBounds(z - (z / 146_097) * 146_097);
  }

  lemma FitsWithinEra(doe: nat)
    requires doe < 146_097
    ensures doe / 1_460 <= doe && doe - doe / 1_460 + doe / 36_524 < U64_LIMIT
    ensures doe / 146_096 <= doe - doe / 1_460 + doe / 36_524
    ensures var yoe := YearOfEra(doe);
            && yoe <= 399 && 365 * yoe + yoe / 4 < U64_LIMIT && yoe / 100 <= 365 * yoe + yoe / 4
            && 365 * yoe + yoe / 4 - yoe / 100 <= doe
            && var doy := doe - (365 * yoe + yoe / 4 - yoe / 100);
               var mp := (5 * doy + 2) / 153;
               && 5 * doy + 2 < U64_LIMIT && 153 * mp + 2 < U64_LIMIT && (153 * mp + 2) / 5 <= doy
               && mp <= 11
  {
    EraBounds(doe);
    var yoe := YearOfEra(doe);
    MonthBounds(doe - (365 * yoe + yoe / 4 - yoe / 100));
  }
}
