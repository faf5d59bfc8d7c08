/** The text of dates and timestamps (src/csv.rs), and reading it back. */
module CalendarText {
  import opened Base
  import opened Naming
  import opened Calendar

  /** `{n:0w}`: the sign counts towards the width. */
  function PadSigned(n: int, w: nat): string
    requires w > 0
  {
    if n < 0 then "-" + Pad(-n, w - 1) else Pad(n, w)
  }

  function DateText(days: int): string {
    var d := Civil(days);
    CivilIsExact(days);
    Field(PadSigned(d.year, 4), '-', Field(Pad(d.month, 2), '-', Pad(d.day, 2)))
  }

  // ---------------------------------------------------------------------
  // reading a date
  // ---------------------------------------------------------------------

  function ReadNumber(s: string): Option<nat> {
    if s == "" || !AllDigits(s) then None else Some(Value(s))
  }

  function ReadUnsignedDate(s: string): Option<Date> {
    var parts := Split(s, '-');
    if |parts| != 3 then None
    else
      var y, m, d := ReadNumber(parts[0]), ReadNumber(parts[1]), ReadNumber(parts[2]);
      if y.None? || m.None? || d.None? then None else Some(Date(y.value, m.value, d.value))
  }

  function ReadDate(s: string): Option<Date> {
    if s != "" && s[0] == '-' then
      match ReadUnsignedDate(s[1..])
      case Some(d) => Some(Date(-d.year, d.month, d.day))
      case None => None
    else ReadUnsignedDate(s)
  }

  lemma ReadThreeNumbers(y: string, m: string, d: string)
    requires AllDigits(y) && AllDigits(m) && AllDigits(d) && y != "" && m != "" && d != ""
    ensures ReadUnsignedDate(Field(y, '-', Field(m, '-', d))) == Some(Date(Value(y), Value(m), Value(d)))
  {
    hide Value;
    SplitAtFirst(y, '-', Field(m, '-', d));
    SplitAtFirst(m, '-', d);
    SplitNone(d, '-');
  }

  /** The text of a date reads back as that date: the day number is the one rendered. */
  lemma DateRoundTrip(days: int)
    ensures ReadDate(DateText(days)) == Some(Civil(days))
    ensures ReadDate(DateText(days)).Some? && DayNumber(ReadDate(DateText(days)).value) == days
  {
    CivilIsExact(days);
    var d := Civil(days);
    hide Civil, DayNumber, Pad, Field, ReadUnsignedDate;
    if d.year < 0 {
      ReadThreeNumbers(Pad(-d.year, 3), Pad(d.month, 2), Pad(d.day, 2));
      FieldStart(Pad(-d.year, 3), Field(Pad(d.month, 2), '-', Pad(d.day, 2)));
    } else {
      ReadThreeNumbers(Pad(d.year, 4), Pad(d.month, 2), Pad(d.day, 2));
      FieldStart(Pad(d.year, 4), Field(Pad(d.month, 2), '-', Pad(d.day, 2)));
    }
  }

  lemma FieldStart(a: string, rest: string)
    ensures Field("-" + a, '-', rest) != "" && Field("-" + a, '-', rest)[0] == '-'
    ensures Field("-" + a, '-', rest)[1..] == Field(a, '-', rest)
    ensures AllDigits(a) && a != "" ==> Field(a, '-', rest) != "" && Field(a, '-', rest)[0] != '-'
  {
  }

  lemma TwoDigits(n: nat)
    requires n < 100
    ensures |Pad(n, 2)| == 2
  {
    assert Pow10(2) == 100;
    PadWidth(n, 2);
  }

  /** In the years 0 to 9999 a date is four digits, two and two, between dashes. */
  lemma DateWidths(days: int)
    requires 0 <= Civil(days).year <= 9999
    ensures var s := DateText(days);
            |s| == 10 && s[4] == '-' && s[7] == '-' && forall i :: 0 <= i < 10 && i != 4 && i != 7 ==> IsDigit(s[i])
  {
    CivilIsExact(days);
    var d := Civil(days);
    assert d.month <= 12 && d.day <= 31;
    assert Pow10(4) == 10_000;
    PadWidth(d.year, 4);
    TwoDigits(d.month);
    TwoDigits(d.day);
    hide Pad, Civil;
  }

  /** Dates use digits and '-' only. */
  lemma DateCharacters(days: int)
    ensures forall i :: 0 <= i < |DateText(days)| ==> IsDigit(DateText(days)[i]) || DateText(days)[i] == '-'
  {
    CivilIsExact(days);
    hide Civil, DayNumber, Pad;
  }

  // ---------------------------------------------------------------------
  // timestamps
  // ---------------------------------------------------------------------

  const DAY_MICROS: int := 86_400_000_000

  /** A fraction of `width` digits without its trailing zeros. */
  function TrimmedFraction(frac: nat, width: nat): string
    requires 0 < frac < Pow10(width)
  {
    if frac % 10 == 0 then TrimmedFraction(frac / 10, width - 1) else Pad(frac, width)
  }

  function FractionText(frac: nat): string
    requires frac < 1_000_000
  {
    MillionIsPow10();
    if frac == 0 then "" else "." + TrimmedFraction(frac, 6)
  }

  lemma MillionIsPow10()
    ensures Pow10(6) == 1_000_000
  {
    assert Pow10(3) == 1000;
  }

  function SecondsText(whole: nat, frac: nat): string
    requires frac < 1_000_000
  {
    Pad(whole, 2) + FractionText(frac)
  }

  function ClockText(inDay: nat): string {
    var secs := inDay / 1_000_000;
    Field(Pad(secs / 3600, 2), ':', Field(Pad(secs % 3600 / 60, 2), ':', SecondsText(secs % 60, inDay % 1_000_000)))
  }

  function TimestampText(micros: int, withOffset: bool): string {
    Field(DateText(micros / DAY_MICROS), ' ', ClockText(micros % DAY_MICROS) + (if withOffset then "+00" else ""))
  }

  /** The day count of every i64 fits the i32 it is cast to. */
  lemma DaysFit(micros: int)
    requires I64_MIN <= micros <= I64_MAX
    ensures -0x8000_0000 <= micros / DAY_MICROS < 0x8000_0000
  {
  }

  method WriteDate32(out: string, days: int) returns (r: string)
    requires -0x8000_0000 <= days < 0x8000_0000
    ensures r == out + DateText(days)
  {
    var y, m, d := CivilFromDays(days);
    hide DateText, Pad;
    DateParts(days, y, m, d);
    r := out + Field(PadSigned(y, 4), '-', Field(Pad(m, 2), '-', Pad(d, 2)));
  }

  lemma DateParts(days: int, y: int, m: int, d: int)
    requires Date(y, m, d) == Civil(days)
    ensures m >= 0 && d >= 0 && DateText(days) == Field(PadSigned(y, 4), '-', Field(Pad(m, 2), '-', Pad(d, 2)))
  {
    CivilIsExact(days);
    hide Civil, DayNumber;
  }

  /** The loop that trims the fraction. */
  method WriteFraction(out: string, micros: nat) returns (r: string)
    requires micros < 1_000_000
    ensures r == out + FractionText(micros)
  {
    hide Pad, Pow10;
    MillionIsPow10();
    if micros == 0 {
      assert out + "" == out;
      return out;
    }
    var frac, width := micros, 6;
    while frac % 10 == 0
      invariant width >= 0 && 0 < frac < Pow10(width)
      invariant TrimmedFraction(frac, width) == TrimmedFraction(micros, 6)
      decreases frac
    {
      TrimStep(frac, width);
      frac := frac / 10;
      width := width - 1;
    }
    r := out + ("." + Pad(frac, width));
  }

  method WriteTimestampMicros(out: string, micros: int, withOffset: bool) returns (r: string)
    requires I64_MIN <= micros <= I64_MAX
    ensures r == out + TimestampText(micros, withOffset)
  {
    DaysFit(micros);
    var inDay: nat := micros % DAY_MICROS;
    var date := WriteDate32("", micros / DAY_MICROS);
    hide DateText, Pad, FractionText;
    var secs := inDay / 1_000_000;
    var seconds := WriteFraction(Pad(secs % 60, 2), inDay % 1_000_000);
    var clock := Field(Pad(secs / 3600, 2), ':', Field(Pad(secs % 3600 / 60, 2), ':', seconds));
    assert clock == ClockText(inDay);
    hide ClockText, Field;
    assert date == DateText(micros / DAY_MICROS);
    r := out + Field(date, ' ', clock + (if withOffset then "+00" else ""));
  }

  lemma TrimStep(frac: nat, width: nat)
    requires 0 < frac < Pow10(width) && frac % 10 == 0
    ensures width > 0 && 0 < frac / 10 < Pow10(width - 1)
    ensures TrimmedFraction(frac, width) == TrimmedFraction(frac / 10, width - 1)
  {
  }

  // ---------------------------------------------------------------------
  // reading a timestamp
  // ---------------------------------------------------------------------

  function ReadFraction(s: string): Option<nat> {
    if s == "" || |s| > 6 || !AllDigits(s) then None else Some(Value(s) * Pow10(6 - |s|))
  }

  function ReadSeconds(s: string): Option<nat> {
    var parts := Split(s, '.');
    var whole := ReadNumber(parts[0]);
    if whole.None? || |parts| > 2 then None
    else if |parts| == 1 then Some(whole.value * 1_000_000)
    else
      var frac := ReadFraction(parts[1]);
      if frac.None? then None else Some(whole.value * 1_000_000 + frac.value)
  }

  function ReadClock(s: string): Option<nat> {
    var parts := Split(s, ':');
    if |parts| != 3 then None
    else
      var h, m, sec := ReadNumber(parts[0]), ReadNumber(parts[1]), ReadSeconds(parts[2]);
      if h.None? || m.None? || sec.None? then None
      else Some((h.value * 60 + m.value) * 60_000_000 + sec.value)
  }

  /** Microseconds since the epoch; a timestamp with offset must end in `+00`. */
  function ReadTimestamp(s: string, withOffset: bool): Option<int> {
    var parts := Split(s, ' ');
    if |parts| != 2 || (withOffset && !EndsWith(parts[1], "+00")) then None
    else
      var date := ReadDate(parts[0]);
      var clock := ReadClock(if withOffset then parts[1][..|parts[1]| - 3] else parts[1]);
      if date.None? || clock.None? then None else Some(DayNumber(date.value) * DAY_MICROS + clock.value)
  }

  /** The trimmed digits stand for the same fraction, and the last one is not a zero. */
  lemma {:induction false} TrimmedValue(frac: nat, width: nat)
    requires 0 < frac < Pow10(width)
    ensures var t := TrimmedFraction(frac, width);
            && AllDigits(t) && 0 < |t| <= width && Value(t) * Pow10(width - |t|) == frac && t[|t| - 1] != '0'
  {
    var t := TrimmedFraction(frac, width);
    if frac % 10 == 0 {
      TrimStep(frac, width);
      TrimmedValue(frac / 10, width - 1);
      MulTen(Value(t), Pow10(width - 1 - |t|));
    } else {
      PadWidth(frac, width);
      assert Value(t) % 10 == DigitValue(t[|t| - 1]);
      assert Pow10(0) == 1;
    }
  }

  lemma PadWidth(n: nat, w: nat)
    requires n < Pow10(w) && w > 0
    ensures |Pad(n, w)| == w
  {
    DigitsLength(n, w);
  }

  lemma ReadWholeSeconds(a: string)
    requires AllDigits(a) && a != ""
    ensures ReadSeconds(a) == Some(Value(a) * 1_000_000)
  {
    hide Value;
    SplitNone(a, '.');
  }

  lemma ReadSplitSeconds(a: string, t: string)
    requires AllDigits(a) && a != "" && AllDigits(t) && 0 < |t| <= 6
    ensures ReadSeconds(Field(a, '.', t)) == Some(Value(a) * 1_000_000 + Value(t) * Pow10(6 - |t|))
  {
    hide Value, Pow10, Field, Split;
    SplitAtFirst(a, '.', t);
    SplitNone(t, '.');
    assert Split(Field(a, '.', t), '.') == [a, t];
  }

  lemma SecondsRoundTrip(whole: nat, frac: nat)
    requires frac < 1_000_000
    ensures ReadSeconds(SecondsText(whole, frac)) == Some(whole * 1_000_000 + frac)
    ensures ':' !in SecondsText(whole, frac) && ' ' !in SecondsText(whole, frac)
  {
    MillionIsPow10();
    hide Pad, Value, Pow10, ReadSeconds, TrimmedFraction;
    if frac == 0 {
      assert SecondsText(whole, frac) == Pad(whole, 2);
      ReadWholeSeconds(Pad(whole, 2));
    } else {
      TrimmedValue(frac, 6);
      var t := TrimmedFraction(frac, 6);
      assert SecondsText(whole, frac) == Field(Pad(whole, 2), '.', t);
      ReadSplitSeconds(Pad(whole, 2), t);
    }
  }

  lemma ReadThreeParts(h: string, m: string, s: string, n: nat)
    requires AllDigits(h) && h != "" && AllDigits(m) && m != "" && ':' !in s && ReadSeconds(s) == Some(n)
    ensures ReadClock(Field(h, ':', Field(m, ':', s))) == Some((Value(h) * 60 + Value(m)) * 60_000_000 + n)
  {
    hide Value, ReadSeconds, Field;
    SplitAtFirst(h, ':', Field(m, ':', s));
    SplitAtFirst(m, ':', s);
    SplitNone(s, ':');
  }

  lemma ThreePartsHaveNoSpace(h: string, m: string, s: string)
    requires AllDigits(h) && AllDigits(m) && ' ' !in s
    ensures ' ' !in Field(h, ':', Field(m, ':', s))
  {
  }

  lemma ClockRoundTrip(inDay: nat)
    requires inDay < DAY_MICROS
    ensures ReadClock(ClockText(inDay)) == Some(inDay)
    ensures ' ' !in ClockText(inDay)
  {
    hide Pad, SecondsText, ReadSeconds, Value, ReadClock, Field;
    var secs := inDay / 1_000_000;
    var h, m := Pad(secs / 3600, 2), Pad(secs % 3600 / 60, 2);
    var s := SecondsText(secs % 60, inDay % 1_000_000);
    SecondsRoundTrip(secs % 60, inDay % 1_000_000);
    ReadThreeParts(h, m, s, secs % 60 * 1_000_000 + inDay % 1_000_000);
    ThreePartsHaveNoSpace(h, m, s);
    ClockAdds(inDay);
  }

  lemma ClockAdds(inDay: nat)
    requires inDay < DAY_MICROS
    ensures var secs := inDay / 1_000_000;
            (secs / 3600 * 60 + secs % 3600 / 60) * 60_000_000 + (secs % 60 * 1_000_000 + inDay % 1_000_000) == inDay
  {
    var secs := inDay / 1_000_000;
    assert secs % 3600 % 60 == secs % 60;
  }

  lemma SecondsWidths(whole: nat, frac: nat)
    requires whole < 60 && frac < 1_000_000
    ensures var s := SecondsText(whole, frac);
            && |s| >= 2 && IsDigit(s[0]) && IsDigit(s[1]) && (|s| == 2 <==> frac == 0)
            && (|s| > 2 ==> s[2] == '.' && s[|s| - 1] != '0')
  {
    MillionIsPow10();
    TwoDigits(whole);
    if frac > 0 { TrimmedValue(frac, 6); }
    hide Pad, TrimmedFraction, Pow10, Value;
  }

  lemma ThreeWidths(h: string, m: string, s: string)
    requires AllDigits(h) && AllDigits(m) && |h| == 2 && |m| == 2 && |s| >= 2 && IsDigit(s[0]) && IsDigit(s[1])
    ensures var t := Field(h, ':', Field(m, ':', s));
            && |t| == 6 + |s| && t[2] == ':' && t[5] == ':' && (|s| > 2 ==> t[8] == s[2]) && t[|t| - 1] == s[|s| - 1]
            && forall i :: 0 <= i < 8 && i != 2 && i != 5 ==> IsDigit(t[i])
  {
  }

  /** Hour, minute and second take two digits each; a fraction follows only behind a point. */
  lemma ClockWidths(inDay: nat)
    requires inDay < DAY_MICROS
    ensures var s := ClockText(inDay);
            && |s| >= 8 && s[2] == ':' && s[5] == ':' && (|s| == 8 <==> inDay % 1_000_000 == 0)
            && (|s| > 8 ==> s[8] == '.' && s[|s| - 1] != '0')
            && forall i :: 0 <= i < 8 && i != 2 && i != 5 ==> IsDigit(s[i])
  {
    hide Pad, SecondsText, Field;
    var secs := inDay / 1_000_000;
    TwoDigits(secs / 3600);
    TwoDigits(secs % 3600 / 60);
    SecondsWidths(secs % 60, inDay % 1_000_000);
    ThreeWidths(Pad(secs / 3600, 2), Pad(secs % 3600 / 60, 2), SecondsText(secs % 60, inDay % 1_000_000));
  }

  lemma ReadDateAndClock(date: string, clock: string, withOffset: bool, d: Date, n: nat)
    requires ' ' !in date && ' ' !in clock && ReadDate(date) == Some(d) && ReadClock(clock) == Some(n)
    ensures ReadTimestamp(Field(date, ' ', clock + (if withOffset then "+00" else "")), withOffset)
         == Some(DayNumber(d) * DAY_MICROS + n)
  {
    hide ReadDate, ReadClock, DayNumber, Field;
    var rest := clock + (if withOffset then "+00" else "");
    SplitAtFirst(date, ' ', rest);
    SplitNone(rest, ' ');
    assert withOffset ==> EndsWith(rest, "+00") && rest[..|rest| - 3] == clock;
    assert !withOffset ==> rest == clock;
  }

  /** Every timestamp reads back: date, hour, minute, second and fraction, before the epoch too. */
  lemma TimestampRoundTrip(micros: int, withOffset: bool)
    ensures ReadTimestamp(TimestampText(micros, withOffset), withOffset) == Some(micros)
  {
    hide DateText, ClockText, ReadDate, ReadClock, DayNumber, ReadTimestamp;
    DateRoundTrip(micros / DAY_MICROS);
    DateCharacters(micros / DAY_MICROS);
    ClockRoundTrip(micros % DAY_MICROS);
    ReadDateAndClock(DateText(micros / DAY_MICROS), ClockText(micros % DAY_MICROS), withOffset,
                     ReadDate(DateText(micros / DAY_MICROS)).value, micros % DAY_MICROS);
  }
}
