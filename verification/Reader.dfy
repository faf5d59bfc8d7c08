/** Reading the cells of a staged file by column type, as the server that loads it does: booleans,
    signed integers, decimals, dates, timestamps, hexadecimal bytes and text. */
module Reader {
  import opened Base
  import opened Values
  import opened Csv
  import opened Calendar
  import opened Render
  import N = Naming
  import C = CalendarText
  import D = Decimal

  /** How floats are written and read; the standard libraries on both sides decide that. */
  datatype FloatCodec = FloatCodec(show: FloatText, read: (ColumnType, string) -> int)

  /** The value of a hexadecimal digit. */
  function HexValue(c: char): Option<nat> {
    if '0' <= c <= '9' then Some((c - '0') as nat)
    else if 'a' <= c <= 'f' then Some((c - 'a') as nat + 10)
    else None
  }

  /** Two digits a byte. */
  function ReadHex(s: string): Option<seq<Byte>> {
    if s == "" then Some([])
    else if |s| == 1 then None
    else
      var n := |s| - 2;
      var head, high, low := ReadHex(s[..n]), HexValue(s[n]), HexValue(s[n + 1]);
      if head.None? || high.None? || low.None? || high.value * 16 + low.value > 255 then None
      else Some(head.value + [high.value * 16 + low.value])
  }

  function ReadBytes(s: string): Option<Value> {
    if |s| < 2 || s[0] != '\\' || s[1] != 'x' then None
    else
      match ReadHex(s[2..])
      case None => None
      case Some(bs) => Some(Bytes(bs))
  }

  function ReadInteger(s: string): Option<Value> {
    match D.ReadDecimal(s)
    case None => None
    case Some(v) => if v.scale != 0 then None else Some(Number(v.unscaled))
  }

  /** A decimal of this scale, as its unscaled number. */
  function ReadScaled(s: string, scale: int): Option<Value> {
    match D.ReadDecimal(s)
    case None => None
    case Some(v) =>
      if scale > 0 then (if v.scale == scale then Some(Number(v.unscaled)) else None)
      else if v.scale == 0 && v.unscaled % N.Pow10(-scale) == 0 then Some(Number(v.unscaled / N.Pow10(-scale)))
      else None
  }

  function ReadDay(s: string): Option<Value> {
    match C.ReadDate(s)
    case None => None
    case Some(d) => Some(Number(DayNumber(d)))
  }

  /** Microseconds. */
  function ReadInstant(s: string, withOffset: bool): Option<Value> {
    match C.ReadTimestamp(s, withOffset)
    case None => None
    case Some(n) => Some(Number(n))
  }

  function ReadCell(s: string, t: ColumnType, floats: FloatCodec): Option<Value> {
    match t
    case TBool => if s == "t" then Some(Flag(true)) else if s == "f" then Some(Flag(false)) else None
    case TI8 => ReadInteger(s)
    case TI16 => ReadInteger(s)
    case TI32 => ReadInteger(s)
    case TI64 => ReadInteger(s)
    case TF32 => Some(Number(floats.read(t, s)))
    case TF64 => Some(Number(floats.read(t, s)))
    case TText => Some(Text(s))
    case TLargeText => Some(Text(s))
    case TBinary => ReadBytes(s)
    case TLargeBinary => ReadBytes(s)
    case TDate => ReadDay(s)
    case TMicros(tz) => ReadInstant(s, tz)
    case TMillis(tz) => ReadInstant(s, tz)
    case TDecimal(scale) => ReadScaled(s, scale)
  }

  /** A bare empty field is NULL. */
  function ReadField(f: Field, t: ColumnType, floats: FloatCodec): Option<Cell> {
    if f.None? then Some(None)
    else
      match ReadCell(f.value, t, floats)
      case None => None
      case Some(v) => Some(Some(v))
  }

  /** A record with one field per column, each readable. */
  function ReadRow(record: seq<Field>, schema: seq<ColumnType>, floats: FloatCodec): Option<Row> {
    if |record| != |schema| || exists i :: 0 <= i < |record| && ReadField(record[i], schema[i], floats).None? then None
    else Some(seq(|record|, i requires 0 <= i < |record| => ReadField(record[i], schema[i], floats).value))
  }

  function ReadRows(records: seq<seq<Field>>, schema: seq<ColumnType>, floats: FloatCodec): Option<seq<Row>> {
    if exists i :: 0 <= i < |records| && ReadRow(records[i], schema, floats).None? then None
    else Some(seq(|records|, i requires 0 <= i < |records| => ReadRow(records[i], schema, floats).value))
  }

  // ---------------------------------------------------------------------
  // what a cell means
  // ---------------------------------------------------------------------

  predicate IsFloat(t: ColumnType) {
    t.TF32? || t.TF64?
  }

  /** The value the server gets for a cell: what it denotes, and for a float what its text reads as. */
  function Meaning(c: Cell, t: ColumnType, floats: FloatCodec): Cell
    requires c.Some? ==> HasType(c.value, t)
  {
    if c.Some? && IsFloat(t) then Some(Number(floats.read(t, floats.show(t, c.value.n)))) else Denoted(c, t)
  }

  function MeaningOf(row: Row, schema: seq<ColumnType>, floats: FloatCodec): Row
    requires TypedRow(row, schema)
  {
    seq(|row|, i requires 0 <= i < |row| => Meaning(row[i], schema[i], floats))
  }

  function MeaningsOf(rows: seq<Row>, schema: seq<ColumnType>, floats: FloatCodec): seq<Row>
    requires TypedRows(rows, schema)
  {
    seq(|rows|, i requires 0 <= i < |rows| => MeaningOf(rows[i], schema, floats))
  }

  // ---------------------------------------------------------------------
  // reading back
  // ---------------------------------------------------------------------

  lemma DigitReadsBack(n: nat)
    requires n < 16
    ensures HexValue(HexDigit(n)) == Some(n)
  {
  }

  lemma ReadHexSnoc(h: string, a: char, b: char)
    requires ReadHex(h).Some? && HexValue(a).Some? && HexValue(b).Some?
    ensures ReadHex(h + [a, b]) == Some(ReadHex(h).value + [HexValue(a).value * 16 + HexValue(b).value])
  {
    var s := h + [a, b];
    assert s[..|s| - 2] == h;
    hide HexValue;
    assert 0 <= HexValue(a).value * 16 + HexValue(b).value <= 255 by { SmallDigits(a, b); }
  }

  lemma SmallDigits(a: char, b: char)
    requires HexValue(a).Some? && HexValue(b).Some?
    ensures HexValue(a).value * 16 + HexValue(b).value <= 255
  {
  }

  lemma HexUnfolds(bs: seq<Byte>)
    requires bs != []
    ensures var n := |bs| - 1;
            HexBytes(bs) == HexBytes(bs[..n]) + [HexDigit(bs[n] / 16), HexDigit(bs[n] % 16)]
  {
    hide HexDigit;
  }

  lemma LastByte(bs: seq<Byte>)
    requires bs != []
    ensures bs == bs[..|bs| - 1] + [bs[|bs| - 1]]
  {
  }

  lemma SixteenTimes(n: nat)
    ensures n / 16 * 16 + n % 16 == n
  {
  }

  lemma {:induction false} HexReadsBack(bs: seq<Byte>)
    ensures ReadHex(HexBytes(bs)) == Some(bs)
  {
    if bs != [] {
      hide HexDigit, HexBytes, HexValue, ReadHex;
      var n := |bs| - 1;
      HexReadsBack(bs[..n]);
      DigitReadsBack(bs[n] / 16);
      DigitReadsBack(bs[n] % 16);
      HexUnfolds(bs);
      LastByte(bs);
      SixteenTimes(bs[n]);
      ReadHexSnoc(HexBytes(bs[..n]), HexDigit(bs[n] / 16), HexDigit(bs[n] % 16));
    }
  }

  lemma BytesReadBack(bs: seq<Byte>)
    ensures ReadBytes("\\x" + HexBytes(bs)) == Some(Bytes(bs))
  {
    hide HexBytes, ReadHex;
    HexReadsBack(bs);
    assert ("\\x" + HexBytes(bs))[2..] == HexBytes(bs);
  }

  lemma IntegerReadsBack(n: int)
    ensures ReadInteger(D.SignedDigits(n)) == Some(Number(n))
  {
    hide D.ReadDecimal, D.SignedDigits;
    D.DecimalRoundTrip(n, 0);
    assert D.DecimalText(n, 0) == D.SignedDigits(n) + N.Zeros(0) == D.SignedDigits(n);
    assert N.Pow10(0) == 1;
  }

  lemma NoMultipleBetween(k: int, p: nat, r: nat)
    requires k * p == r && r < p
    ensures k == 0
  {
    if k > 0 { ProductPositive(k, p); assert k * p == p + (k - 1) * p; ProductNotNegative(k - 1, p); }
    if k < 0 { ProductPositive(-k, p); }
  }

  lemma ProductNotNegative(k: nat, p: nat)
    ensures k * p >= 0
  {
  }

  lemma QuotientOf(n: int, p: nat)
    requires p > 0
    ensures n * p % p == 0 && n * p / p == n
  {
    var m := n * p;
    var q, r := m / p, m % p;
    assert m == q * p + r;
    assert (n - q) * p == r;
    NoMultipleBetween(n - q, p, r);
  }

  lemma ScaledReadsBack(n: int, scale: int)
    ensures ReadScaled(D.DecimalText(n, scale), scale) == Some(Number(n))
  {
    hide D.ReadDecimal, D.DecimalText, N.Pow10;
    D.DecimalRoundTrip(n, scale);
    if scale <= 0 { QuotientOf(n, N.Pow10(-scale)); }
  }

  lemma DayReadsBack(days: int)
    ensures ReadDay(C.DateText(days)) == Some(Number(days))
  {
    hide C.ReadDate, C.DateText, DayNumber;
    C.DateRoundTrip(days);
  }

  lemma InstantReadsBack(micros: int, withOffset: bool)
    ensures ReadInstant(C.TimestampText(micros, withOffset), withOffset) == Some(Number(micros))
  {
    hide C.ReadTimestamp, C.TimestampText;
    C.TimestampRoundTrip(micros, withOffset);
  }

  /** What is written for a value is read as what it denotes. */
  lemma ValueReadsBack(v: Value, t: ColumnType, floats: FloatCodec)
    requires HasType(v, t) && !IsFloat(t)
    ensures ReadCell(Shown(v, t, floats.show), t, floats) ==
              if v.Text? then Some(v) else if t.TMillis? then Some(Number(Wrap64(v.n * 1000))) else Some(v)
  {
    hide ReadInteger, ReadScaled, ReadDay, ReadInstant, ReadBytes, D.SignedDigits, C.DateText, C.TimestampText,
      D.DecimalText, HexBytes, Wrap64;
    match t
    case TBool =>
    case TText =>
    case TLargeText =>
    case TI8 => IntegerReadsBack(v.n);
    case TI16 => IntegerReadsBack(v.n);
    case TI32 => IntegerReadsBack(v.n);
    case TI64 => IntegerReadsBack(v.n);
    case TDate => DayReadsBack(v.n);
    case TMicros(tz) => InstantReadsBack(v.n, tz);
    case TMillis(tz) => InstantReadsBack(Wrap64(v.n * 1000), tz);
    case TDecimal(scale) => ScaledReadsBack(v.n, scale);
    case TBinary => BytesReadBack(v.bs);
    case TLargeBinary => BytesReadBack(v.bs);
  }

  /** The text of any cell, as the loader finds it, reads as what the cell means: for every type
      outside the floats the value it denotes. */
  lemma CellReadsBack(v: Value, t: ColumnType, floats: FloatCodec)
    requires HasType(v, t) && PlainFloats(floats.show)
    ensures ReadCell(Strip(Shown(v, t, floats.show)), t, floats) == Meaning(Some(v), t, floats)
    ensures !IsFloat(t) ==> Meaning(Some(v), t, floats) == Denoted(Some(v), t)
  {
    hide Shown, ReadCell, Strip, Meaning, Denoted, HasType, PlainFloats;
    MeaningOfValue(v, t, floats);
    if v.Text? {
      TextMeansItself(v, t, floats);
    } else {
      NothingToStrip(v, t, floats);
      if IsFloat(t) {
        FloatReads(v, t, floats);
      } else {
        ValueReadsBack(v, t, floats);
      }
    }
  }

  lemma MeaningOfValue(v: Value, t: ColumnType, floats: FloatCodec)
    requires HasType(v, t)
    ensures IsFloat(t) ==> !v.Text? && Meaning(Some(v), t, floats) == Some(Number(floats.read(t, floats.show(t, v.n))))
    ensures !IsFloat(t) ==> Meaning(Some(v), t, floats) == Denoted(Some(v), t)
    ensures !IsFloat(t) && v.Text? ==> Meaning(Some(v), t, floats) == Some(Text(Strip(v.s)))
    ensures !IsFloat(t) && !v.Text? ==>
              Meaning(Some(v), t, floats) == Some(if t.TMillis? then Number(Wrap64(v.n * 1000)) else v)
  {
    hide Strip, Wrap64;
  }

  lemma NothingToStrip(v: Value, t: ColumnType, floats: FloatCodec)
    requires HasType(v, t) && PlainFloats(floats.show) && !v.Text?
    ensures Strip(Shown(v, t, floats.show)) == Shown(v, t, floats.show)
  {
    hide Shown, Strip, HasType, PlainFloats;
    ShownPlain(v, t, floats.show);
    PlainNeedsNoEscape(Shown(v, t, floats.show));
  }

  lemma FloatReads(v: Value, t: ColumnType, floats: FloatCodec)
    requires HasType(v, t) && IsFloat(t)
    ensures ReadCell(Shown(v, t, floats.show), t, floats) == Some(Number(floats.read(t, floats.show(t, v.n))))
  {
  }

  lemma TextMeansItself(v: Value, t: ColumnType, floats: FloatCodec)
    requires HasType(v, t) && v.Text?
    ensures ReadCell(Strip(Shown(v, t, floats.show)), t, floats) == Some(Text(Strip(v.s)))
  {
    hide Strip;
  }

  lemma FieldReadsBack(c: Cell, t: ColumnType, floats: FloatCodec)
    requires (c.Some? ==> HasType(c.value, t)) && PlainFloats(floats.show)
    ensures ReadField(Stripped(FieldOf(c, t, floats.show)), t, floats) == Some(Meaning(c, t, floats))
  {
    hide Shown, ReadCell, Strip, HasType;
    if c.Some? {
      CellReadsBack(c.value, t, floats);
    }
  }

  /** A record of a body reads as what its row means. */
  lemma RowReadsBack(row: Row, schema: seq<ColumnType>, floats: FloatCodec)
    requires TypedRow(row, schema) && PlainFloats(floats.show)
    ensures ReadRow(StrippedAll(FieldsOf(row, schema, floats.show)), schema, floats)
         == Some(MeaningOf(row, schema, floats))
  {
    hide ReadField, FieldOf, Stripped, Meaning, HasType, PlainFloats;
    var record := StrippedAll(FieldsOf(row, schema, floats.show));
    forall i | 0 <= i < |row|
      ensures ReadField(record[i], schema[i], floats) == Some(Meaning(row[i], schema[i], floats))
    {
      FieldReadsBack(row[i], schema[i], floats);
    }
    assert ReadRow(record, schema, floats).value == MeaningOf(row, schema, floats);
  }

  lemma RowsReadBack(rows: seq<Row>, schema: seq<ColumnType>, floats: FloatCodec)
    requires TypedRows(rows, schema) && PlainFloats(floats.show)
    ensures ReadRows(StrippedRecords(RecordsOf(rows, schema, floats.show)), schema, floats)
         == Some(MeaningsOf(rows, schema, floats))
  {
    hide ReadRow, FieldsOf, StrippedAll, MeaningOf, TypedRow, PlainFloats;
    var records := StrippedRecords(RecordsOf(rows, schema, floats.show));
    forall i | 0 <= i < |rows| ensures ReadRow(records[i], schema, floats) == Some(MeaningOf(rows[i], schema, floats)) {
      RowReadsBack(rows[i], schema, floats);
    }
    assert ReadRows(records, schema, floats).value == MeaningsOf(rows, schema, floats);
  }

  // ---------------------------------------------------------------------
  // cells that mean themselves
  // ---------------------------------------------------------------------

  /** Text without NUL, no milliseconds, no float. */
  predicate Verbatim(row: Row, schema: seq<ColumnType>)
    requires TypedRow(row, schema)
  {
    forall i :: 0 <= i < |row| && row[i].Some? ==>
      && !IsFloat(schema[i]) && !schema[i].TMillis? && (row[i].value.Text? ==> '\0' !in row[i].value.s)
  }

  /** Such a row arrives as it is. */
  lemma VerbatimMeansItself(row: Row, schema: seq<ColumnType>, floats: FloatCodec)
    requires TypedRow(row, schema) && Verbatim(row, schema)
    ensures MeaningOf(row, schema, floats) == row
  {
    hide HasType;
    forall i | 0 <= i < |row| ensures Meaning(row[i], schema[i], floats) == row[i] {
      if row[i].Some? && row[i].value.Text? {
        NoNulStays(row[i].value.s);
      }
    }
  }
}
