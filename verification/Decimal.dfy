/** Plain decimal rendering of Decimal128 (write_decimal128 in src/csv.rs), and reading it back. */
module Decimal {
  import opened Base
  import opened Naming
  import V = Values

  function Abs(n: int): nat {
    if n < 0 then -n else n
  }

  function SignedDigits(n: int): string {
    if n < 0 then "-" + Digits(-n) else Digits(n)
  }

  /** Digits with a point before the last `scale` of them, filled up with zeros. */
  function Pointed(digits: string, scale: nat): string {
    if |digits| > scale then Field(digits[..|digits| - scale], '.', digits[|digits| - scale..])
    else Field("0", '.', Zeros(scale - |digits|) + digits)
  }

  function DecimalText(raw: int, scale: int): string {
    if scale <= 0 then SignedDigits(raw) + Zeros(-scale)
    else if raw < 0 then "-" + Pointed(Digits(-raw), scale)
    else Pointed(Digits(raw), scale)
  }

  const TEN_POW_39: int := 1_000_000_000_000_000_000_000_000_000_000_000_000_000

  lemma TenPow39()
    ensures Pow10(39) == TEN_POW_39
  {
    assert Pow10(10) == 10_000_000_000;
    assert Pow10(20) == 100_000_000_000_000_000_000;
    assert Pow10(30) == 1_000_000_000_000_000_000_000_000_000_000;
  }

  /** The digits of `m` still to come, and those written already. */
  function Assembled(m: nat, tail: string): string {
    if m > 0 then Digits(m) + tail else tail
  }

  lemma AssembledStep(m: nat, tail: string)
    requires m > 0
    ensures Assembled(m, tail) == Assembled(m / 10, [Digit(m % 10)] + tail)
  {
    if m >= 10 {
      assert Digits(m / 10) + [Digit(m % 10)] + tail == Digits(m / 10) + ([Digit(m % 10)] + tail);
    }
  }

  lemma SpaceStep(m: nat, start: nat)
    requires 0 < m < Pow10(start)
    ensures start > 0 && m / 10 < Pow10(start - 1)
  {
  }

  /** The digit loop, from the end of the buffer towards its beginning, which it never passes. */
  method FillDigits(buf: array<char>, n: nat) returns (start: nat)
    requires 0 < n < Pow10(buf.Length)
    modifies buf
    ensures start <= buf.Length && buf[start..] == Digits(n)
  {
    hide Pow10, Digits, Digit, Assembled;
    start := buf.Length;
    var m: nat := n;
    assert buf[start..] == "";
    AssembledEnds(n, "");
    while m > 0
      invariant start <= buf.Length && m < Pow10(start)
      invariant Assembled(m, buf[start..]) == Digits(n)
    {
      SpaceStep(m, start);
      AssembledStep(m, buf[start..]);
      ghost var tail := buf[start..];
      start := start - 1;
      buf[start] := Digit(m % 10);
      assert buf[start..] == [Digit(m % 10)] + tail;
      m := m / 10;
    }
    AssembledEnds(0, buf[start..]);
  }

  lemma AssembledEnds(n: nat, tail: string)
    ensures n > 0 ==> Assembled(n, "") == Digits(n)
    ensures Assembled(0, tail) == tail
  {
  }

  /** The 40-byte buffer holds the digits of every i128. */
  method DigitBuffer(n: nat) returns (digits: string)
    requires n < TEN_POW_39
    ensures digits == Digits(n) && |digits| <= 39
  {
    var buf := new char[40](_ => '0');
    var start := buf.Length - 1;
    TenPow39();
    assert Pow10(40) == 10 * Pow10(39);
    hide Pow10;
    DigitsLength(n, 39);
    if n > 0 {
      start := FillDigits(buf, n);
    } else {
      assert buf[39..] == "0" == Digits(0);
    }
    digits := buf[start..];
  }

  method PushZeros(out: string, n: nat) returns (r: string)
    ensures r == out + Zeros(n)
  {
    r := out;
    for i := 0 to n
      invariant r == out + Zeros(i)
    {
      r := r + "0";
    }
  }

  method PushPointed(out: string, digits: string, scale: nat) returns (r: string)
    ensures r == out + Pointed(digits, scale)
  {
    if |digits| > scale {
      r := out + digits[..|digits| - scale];
      r := r + ".";
      r := r + digits[|digits| - scale..];
      PushField(out, digits[..|digits| - scale], digits[|digits| - scale..]);
    } else {
      r := out + "0" + ".";
      r := PushZeros(r, scale - |digits|);
      r := r + digits;
      PushField(out, "0", Zeros(scale - |digits|) + digits);
      assert out + "0" + "." + Zeros(scale - |digits|) + digits == out + "0" + "." + (Zeros(scale - |digits|) + digits);
    }
  }

  lemma PushField(out: string, a: string, b: string)
    ensures out + a + "." + b == out + Field(a, '.', b)
  {
  }

  method WriteDecimal128(out: string, raw: int, scale: int) returns (r: string)
    requires V.I128_MIN <= raw <= V.I128_MAX && -128 < scale <= 127
    ensures r == out + DecimalText(raw, scale)
  {
    hide Digits, Pow10, Pointed, Zeros;
    if scale <= 0 {
      r := PushZeros(out + SignedDigits(raw), -scale);
      return;
    }
    r := if raw < 0 then out + "-" else out;
    var digits := DigitBuffer(Abs(raw));
    r := PushPointed(r, digits, scale);
  }

  // ---------------------------------------------------------------------
  // reading
  // ---------------------------------------------------------------------

  /** The digits as one number, and how many of them stand behind the point. */
  datatype Number = Number(unscaled: int, scale: nat)

  function ReadUnsigned(s: string): Option<Number> {
    var parts := Split(s, '.');
    if |parts| > 2 || parts[0] == "" || !AllDigits(parts[0]) then None
    else if |parts| == 1 then Some(Number(Value(parts[0]), 0))
    else if parts[1] == "" || !AllDigits(parts[1]) then None
    else Some(Number(Value(parts[0] + parts[1]), |parts[1]|))
  }

  function ReadDecimal(s: string): Option<Number> {
    if s != "" && s[0] == '-' then
      match ReadUnsigned(s[1..])
      case Some(v) => Some(Number(-v.unscaled, v.scale))
      case None => None
    else ReadUnsigned(s)
  }

  lemma ReadWhole(s: string)
    requires AllDigits(s) && s != ""
    ensures ReadUnsigned(s) == Some(Number(Value(s), 0))
  {
    SplitNone(s, '.');
  }

  lemma ReadField(a: string, b: string)
    requires AllDigits(a) && a != "" && AllDigits(b) && b != ""
    ensures ReadUnsigned(Field(a, '.', b)) == Some(Number(Value(a + b), |b|))
  {
    SplitAtFirst(a, '.', b);
    SplitNone(b, '.');
  }

  lemma ZerosInFront(n: nat, s: string)
    requires AllDigits(s)
    ensures AllDigits(Zeros(n) + s) && Value(Zeros(n) + s) == Value(s)
  {
    ValueOfConcat(Zeros(n), s);
  }

  lemma PointInside(digits: string, scale: nat)
    requires AllDigits(digits) && |digits| > scale > 0
    ensures ReadUnsigned(Pointed(digits, scale)) == Some(Number(Value(digits), scale))
    ensures Pointed(digits, scale) != "" && Pointed(digits, scale)[0] != '-'
  {
    hide ReadUnsigned, Value, Field;
    var a, b := digits[..|digits| - scale], digits[|digits| - scale..];
    ReadField(a, b);
    assert a + b == digits;
    FieldStart(a, b);
  }

  lemma PointInFront(digits: string, scale: nat)
    requires AllDigits(digits) && 0 < |digits| <= scale
    ensures ReadUnsigned(Pointed(digits, scale)) == Some(Number(Value(digits), scale))
    ensures Pointed(digits, scale) != "" && Pointed(digits, scale)[0] != '-'
  {
    hide ReadUnsigned, Value, Zeros, Field;
    var rest := Zeros(scale - |digits|) + digits;
    ZerosInFront(scale - |digits|, digits);
    ReadField("0", rest);
    LeadingZero(rest);
    FieldStart("0", rest);
  }

  lemma PointedValue(digits: string, scale: nat)
    requires AllDigits(digits) && digits != "" && scale > 0
    ensures ReadUnsigned(Pointed(digits, scale)) == Some(Number(Value(digits), scale))
    ensures Pointed(digits, scale) != "" && Pointed(digits, scale)[0] != '-'
  {
    hide ReadUnsigned, Value, Pointed;
    if |digits| > scale {
      PointInside(digits, scale);
    } else {
      PointInFront(digits, scale);
    }
  }

  lemma FieldStart(a: string, b: string)
    requires AllDigits(a) && a != ""
    ensures Field(a, '.', b) != "" && Field(a, '.', b)[0] != '-'
  {
  }

  lemma LeadingZero(s: string)
    requires AllDigits(s)
    ensures AllDigits("0" + s) && Value("0" + s) == Value(s)
  {
    assert Zeros(1) == "0";
    ZerosInFront(1, s);
  }

  /** The value of a digit string with zeros behind it. */
  lemma ZerosBehind(s: string, n: nat)
    requires AllDigits(s)
    ensures AllDigits(s + Zeros(n)) && Value(s + Zeros(n)) == Value(s) * Pow10(n)
  {
    ValueOfConcat(s, Zeros(n));
  }

  /** The text denotes raw divided by ten to the scale: with a positive scale it reads back as the
      same integer with exactly that many fraction digits, otherwise as the integer multiplied. */
  lemma DecimalRoundTrip(raw: int, scale: int)
    ensures scale > 0 ==> ReadDecimal(DecimalText(raw, scale)) == Some(Number(raw, scale))
    ensures scale <= 0 ==> ReadDecimal(DecimalText(raw, scale)) == Some(Number(raw * Pow10(-scale), 0))
  {
    hide Digits, Pow10, ReadUnsigned, Pointed, Zeros, Value;
    var digits := Digits(Abs(raw));
    if scale > 0 {
      PointedValue(digits, scale);
      assert raw < 0 ==> DecimalText(raw, scale)[1..] == Pointed(digits, scale);
    } else {
      ZerosBehind(digits, -scale);
      ReadWhole(digits + Zeros(-scale));
      assert raw < 0 ==> DecimalText(raw, scale)[1..] == digits + Zeros(-scale);
      NegateProduct(Abs(raw), Pow10(-scale));
    }
  }

  lemma NegateProduct(a: int, b: int)
    ensures -(a * b) == -a * b
  {
  }
}
