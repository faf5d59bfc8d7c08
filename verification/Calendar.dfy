/** Dates and timestamps as text (write_date32 and write_timestamp_micros in src/csv.rs), against
    the Gregorian calendar counted out from 1970-01-01. */
module Calendar {

  datatype Date = Date(year: int, month: int, day: int)

  // ---------------------------------------------------------------------
  // the calendar
  // ---------------------------------------------------------------------

  predicate Leap(y: int) {
    y % 4 == 0 && (y % 100 != 0 || y % 400 == 0)
  }

  function DaysInMonth(y: int, m: int): int {
    if m == 2 then (if Leap(y) then 29 else 28)
    else if m == 4 || m == 6 || m == 9 || m == 11 then 30
    else 31
  }

  predicate ValidDate(d: Date) {
    1 <= d.month <= 12 && 1 <= d.day <= DaysInMonth(d.year, d.month)
  }

  function NextDay(d: Date): Date {
    if d.day < DaysInMonth(d.year, d.month) then Date(d.year, d.month, d.day + 1)
    else if d.month < 12 then Date(d.year, d.month + 1, 1)
    else Date(d.year + 1, 1, 1)
  }

  /** Leap days before the end of year `y`, counted from a fixed point. */
  function LeapDays(y: int): int {
    y / 4 - y / 100 + y / 400
  }

  function MonthStart(y: int, m: int): int {
    if m <= 1 then 0 else MonthStart(y, m - 1) + DaysInMonth(y, m - 1)
  }

  /** Days since 1970-01-01. */
  function DayNumber(d: Date): int {
    365 * (d.year - 1970) + LeapDays(d.year - 1) - LeapDays(1969) + MonthStart(d.year, d.month) + d.day - 1
  }

  lemma QuotientStep(y: int, k: int)
    requires k > 1
    ensures y / k - (y - 1) / k == if y % k == 0 then 1 else 0
  {
    var q := y / k;
    Divides(y - 1, k, if y % k == 0 then q - 1 else q);
  }

  lemma Multiples(y: int)
    ensures y % 400 == 0 ==> y % 100 == 0
    ensures y % 100 == 0 ==> y % 4 == 0
  {
    if y % 400 == 0 { Divides(y, 100, 4 * (y / 400)); }
    if y % 100 == 0 { Divides(y, 4, 25 * (y / 100)); }
  }

  lemma LeapDaysStep(y: int)
    ensures LeapDays(y) == LeapDays(y - 1) + (if Leap(y) then 1 else 0)
  {
    QuotientStep(y, 4);
    QuotientStep(y, 100);
    QuotientStep(y, 400);
    Multiples(y);
  }

  /** The day numbers count the days: 0 is 1970-01-01 and the next day has the next number. */
  lemma DayNumberCounts(d: Date)
    requires ValidDate(d)
    ensures DayNumber(Date(1970, 1, 1)) == 0
    ensures ValidDate(NextDay(d)) && DayNumber(NextDay(d)) == DayNumber(d) + 1
  {
    if d.day == DaysInMonth(d.year, d.month) && d.month == 12 {
      LeapDaysStep(d.year);
      YearLength(d.year);
    }
  }

  lemma YearLength(y: int)
    ensures MonthStart(y, 12) + 31 == 365 + (if Leap(y) then 1 else 0)
  {
    MonthStarts(y, 12);
  }

  /** Where the months of a year start, January and February apart. */
  lemma MonthStarts(y: int, m: int)
    requires 1 <= m <= 12
    ensures MonthStart(y, m) ==
              if m == 1 then 0 else if m == 2 then 31
              else 59 + (if Leap(y) then 1 else 0) + (153 * (m - 3) + 2) / 5
  {
    assert MonthStart(y, 1) == 0 && MonthStart(y, 2) == 31;
    if m > 2 {
      assert MonthStart(y, 3) == 59 + (if Leap(y) then 1 else 0);
      if m > 3 { MonthStarts(y, m - 1); }
    }
  }

  // ---------------------------------------------------------------------
  // civil-from-days
  // ---------------------------------------------------------------------

  /** Division that truncates toward zero. */
  function Quot(a: int, b: int): int
    requires b > 0
  {
    if a >= 0 then a / b else -((-a) / b)
  }

  /** The arithmetic of write_date32: days of an era, of a year that starts in March, of a month. */
  function Civil(days: int): Date {
    var z := days + 719_468;
    var era := Quot(if z >= 0 then z else z - 146_096, 146_097);
    CivilInEra(era, z - era * 146_097)
  }

  function CivilInEra(era: int, doe: int): Date {
    var yoe := (doe - doe / 1460 + doe / 36524 - doe / 146096) / 365;
    CivilInYear(yoe + era * 400, doe - (365 * yoe + yoe / 4 - yoe / 100))
  }

  function CivilInYear(y: int, doy: int): Date {
    var mp := (5 * doy + 2) / 153;
    var d := doy - (153 * mp + 2) / 5 + 1;
    var m := if mp < 10 then mp + 3 else mp - 9;
    Date(if m <= 2 then y + 1 else y, m, d)
  }

  method CivilFromDays(days: int) returns (y: int, m: int, d: int)
    ensures Date(y, m, d) == Civil(days)
  {
    var z := days + 719_468;
    var era := Quot(if z >= 0 then z else z - 146_096, 146_097);
    hide Quot;
    var doe := z - era * 146_097;
    assert Civil(days) == CivilInEra(era, doe);
    y, m, d := CivilOfEra(era, doe);
  }

  method CivilOfEra(era: int, doe: int) returns (y: int, m: int, d: int)
    ensures Date(y, m, d) == CivilInEra(era, doe)
  {
    var yoe := (doe - doe / 1460 + doe / 36524 - doe / 146096) / 365;
    y := yoe + era * 400;
    var doy := doe - (365 * yoe + yoe / 4 - yoe / 100);
    var mp := (5 * doy + 2) / 153;
    d := doy - (153 * mp + 2) / 5 + 1;
    m := if mp < 10 then mp + 3 else mp - 9;
    y := if m <= 2 then y + 1 else y;
  }

  lemma EraIsFloor(z: int)
    ensures Quot(if z >= 0 then z else z - 146_096, 146_097) == z / 146_097
  {
  }

  /** A day of the 400-year era by century, four-year cycle, year and day; years start in March. */
  lemma EraDay(doe: int) returns (c: int, q: int, r: int, doy: int)
    requires 0 <= doe < 146_097
    ensures 0 <= c <= 3 && 0 <= q <= 24 && 0 <= r <= 3 && 0 <= doy <= 365
    ensures doe == 36524 * c + 1461 * q + 365 * r + doy
    ensures doy == 365 ==> r == 3 && (q < 24 || c == 3)
  {
    c := if doe == 146_096 then 3 else doe / 36524;
    var inCentury := doe - 36524 * c;
    q := inCentury / 1461;
    var inCycle := inCentury - 1461 * q;
    r := if inCycle == 1460 then 3 else inCycle / 365;
    doy := inCycle - 365 * r;
  }

  lemma Divides(n: int, d: int, q: int)
    requires d > 0 && d * q <= n < d * q + d
    ensures n / d == q
  {
    var k := n / d - q;
    assert d * (n / d) + n % d == n;
    assert d * k == d * (n / d) - d * q;
    if k >= 1 {
      AtLeastOnce(d, k);
    } else if k <= -1 {
      AtLeastOnce(d, -k);
    }
  }

  lemma AtLeastOnce(d: int, k: int)
    requires d > 0 && k >= 1
    ensures d * k >= d && d * -k == -(d * k)
  {
  }

  lemma YearOfEra(doe: int, c: int, q: int, r: int, doy: int)
    requires 0 <= c <= 3 && 0 <= q <= 24 && 0 <= r <= 3 && 0 <= doy <= 365
    requires doe == 36524 * c + 1461 * q + 365 * r + doy
    requires doy == 365 ==> r == 3 && (q < 24 || c == 3)
    ensures (doe - doe / 1460 + doe / 36524 - doe / 146096) / 365 == 100 * c + 4 * q + r
  {
    var extra := 24 * c + q + 365 * r + doy;
    var e1 := if extra >= 1460 then 1 else 0;
    var last := if doe == 146_096 then 1 else 0;
    Divides(doe, 1460, 25 * c + q + e1);
    Divides(doe, 36524, c + last);
    Divides(doe, 146096, last);
    Divides(doe - doe / 1460 + doe / 36524 - doe / 146096, 365, 100 * c + 4 * q + r);
  }

  /** Years that start in March: the day number of day `doy` of March-year `y`. */
  lemma MarchYear(y: int, doy: int)
    requires 0 <= doy <= 365 && (doy == 365 ==> Leap(y + 1))
    ensures ValidDate(CivilInYear(y, doy)) && DayNumber(CivilInYear(y, doy)) == 365 * y + LeapDays(y) + doy - 719_468
  {
    var mp := (5 * doy + 2) / 153;
    var m := if mp < 10 then mp + 3 else mp - 9;
    MarchMonth(doy, mp);
    LeapDaysStep(y);
    MonthStarts(if m <= 2 then y + 1 else y, m);
    assert LeapDays(1969) == 477;
    hide LeapDays, MonthStart;
  }

  /** The months of a March-year. */
  lemma MarchMonth(doy: int, mp: int)
    requires 0 <= doy <= 365 && mp == (5 * doy + 2) / 153
    ensures 0 <= mp <= 11
    ensures var d := doy - (153 * mp + 2) / 5 + 1;
            && 1 <= d
            && (mp == 11 ==> d <= 29 && (doy < 365 ==> d <= 28))
            && (mp == 1 || mp == 3 || mp == 6 || mp == 8 ==> d <= 30)
            && d <= 31
  {
  }

  lemma EraIsExact(era: int, doe: int)
    requires 0 <= doe < 146_097
    ensures ValidDate(CivilInEra(era, doe)) && DayNumber(CivilInEra(era, doe)) == era * 146_097 + doe - 719_468
  {
    hide CivilInYear, DayNumber, ValidDate, LeapDays, Leap;
    var c, q, r, doy := EraDay(doe);
    YearOfEra(doe, c, q, r, doy);
    var yoe := 100 * c + 4 * q + r;
    Divides(yoe, 4, 25 * c + q);
    Divides(yoe, 100, c);
    assert CivilInEra(era, doe) == CivilInYear(yoe + era * 400, doy);
    hide CivilInEra;
    LeapDaysOfEra(era, yoe);
    LastDayIsLeap(era, c, q, r, doy);
    MarchYear(yoe + era * 400, doy);
  }

  /** For every day count the result is a valid date of the proleptic Gregorian calendar and its
      day number is the input. */
  lemma CivilIsExact(days: int)
    ensures ValidDate(Civil(days)) && DayNumber(Civil(days)) == days
  {
    hide CivilInEra, Quot, DayNumber, ValidDate;
    var z := days + 719_468;
    EraIsFloor(z);
    var era := z / 146_097;
    assert Civil(days) == CivilInEra(era, z - era * 146_097);
    hide Civil;
    EraIsExact(era, z - era * 146_097);
  }

  lemma LeapDaysOfEra(era: int, yoe: int)
    requires 0 <= yoe < 400
    ensures LeapDays(yoe + era * 400) == yoe / 4 - yoe / 100 + era * 97
  {
    var y := yoe + era * 400;
    Divides(y, 400, era);
    Divides(y, 4, yoe / 4 + 100 * era);
    Divides(y, 100, yoe / 100 + 4 * era);
  }

  lemma LastDayIsLeap(era: int, c: int, q: int, r: int, doy: int)
    requires doy == 365 ==> r == 3 && (q < 24 || c == 3)
    requires 0 <= c <= 3 && 0 <= q <= 24
    ensures doy == 365 ==> Leap(100 * c + 4 * q + r + era * 400 + 1)
  {
    if doy == 365 {
      var y := 100 * c + 4 * q + 4 + era * 400;
      Divides(y, 4, 25 * c + q + 1 + 100 * era);
      if q < 24 {
        Divides(y, 100, c + 4 * era);
      } else {
        Divides(y, 400, era + 1);
      }
    }
  }

  /** No two days have the same date. */
  lemma DatesDiffer(a: int, b: int)
    requires Civil(a) == Civil(b)
    ensures a == b
  {
    CivilIsExact(a);
    CivilIsExact(b);
  }
}
