/** CSV serialization (src/csv.rs) and a reader of its dialect: RFC 4180 section 2, rules 5 to 7,
    with LF record ends and the bare empty field for NULL. */
module Csv {
  import opened Base
  import opened Values
  import N = Naming
  import C = CalendarText
  import D = Decimal
  import M = DedupMeaning

  // ---------------------------------------------------------------------
  // quoting
  // ---------------------------------------------------------------------

  /** The text between the quotes: quotes doubled, NUL dropped. */
  function Escape(s: string): string {
    if s == "" then ""
    else if s[0] == '\0' then Escape(s[1..])
    else if s[0] == '"' then "\"\"" + Escape(s[1..])
    else [s[0]] + Escape(s[1..])
  }

  function Quoted(s: string): string {
    "\"" + Escape(s) + "\""
  }

  /** The value the loader gets: the text without NUL. */
  function Strip(s: string): string {
    if s == "" then "" else if s[0] == '\0' then Strip(s[1..]) else [s[0]] + Strip(s[1..])
  }

  predicate Plain(s: string) {
    '"' !in s && '\0' !in s
  }

  lemma {:induction false} PlainNeedsNoEscape(s: string)
    requires Plain(s)
    ensures Escape(s) == s && Strip(s) == s
  {
    if s != "" {
      assert s == [s[0]] + s[1..];
      PlainNeedsNoEscape(s[1..]);
    }
  }

  lemma {:induction false} EscapeSnoc(s: string, c: char)
    ensures Escape(s + [c]) == Escape(s) + (if c == '\0' then "" else if c == '"' then "\"\"" else [c])
  {
    if s != "" {
      assert (s + [c])[1..] == s[1..] + [c];
      EscapeSnoc(s[1..], c);
    } else {
      assert (s + [c])[1..] == "";
      assert Escape(s + [c]) == (if c == '\0' then "" else if c == '"' then "\"\"" else [c]) + Escape("");
    }
  }

  /** Fast path and slow path write the same. */
  method QuoteInto(out: string, value: string) returns (r: string)
    ensures r == out + Quoted(value)
  {
    var body := "";
    if '"' !in value && '\0' !in value {
      PlainNeedsNoEscape(value);
      body := value;
    } else {
      for i := 0 to |value|
        invariant body == Escape(value[..i])
      {
        assert value[..i + 1] == value[..i] + [value[i]];
        EscapeSnoc(value[..i], value[i]);
        if value[i] == '\0' {
        } else if value[i] == '"' {
          body := body + "\"\"";
        } else {
          body := body + [value[i]];
        }
      }
      assert value[..|value|] == value;
    }
    r := out + ("\"" + body + "\"");
  }

  // ---------------------------------------------------------------------
  // cells
  // ---------------------------------------------------------------------

  /** The Display of a float, by its bit pattern; it contains neither a quote nor NUL. */
  type FloatText = (ColumnType, int) -> string

  ghost predicate PlainFloats(floats: FloatText) {
    forall t, n :: Plain(floats(t, n))
  }

  function HexDigit(n: nat): char
    requires n < 16
  {
    if n < 10 then '0' + n as char else 'a' + (n - 10) as char
  }

  function HexBytes(bs: seq<Byte>): string {
    if bs == [] then "" else HexBytes(bs[..|bs| - 1]) + [HexDigit(bs[|bs| - 1] / 16), HexDigit(bs[|bs| - 1] % 16)]
  }

  method WriteHexBytea(out: string, bs: seq<Byte>) returns (r: string)
    ensures r == out + ("\\x" + HexBytes(bs))
  {
    var hex := "\\x";
    for i := 0 to |bs|
      invariant hex == "\\x" + HexBytes(bs[..i])
    {
      assert bs[..i + 1][..i] == bs[..i];
      hex := hex + [HexDigit(bs[i] / 16), HexDigit(bs[i] % 16)];
    }
    assert bs[..|bs|] == bs;
    r := out + hex;
  }

  /** i64 arithmetic past its range wraps around. */
  function Wrap64(n: int): (r: int)
    ensures I64_MIN <= r <= I64_MAX
    ensures I64_MIN <= n <= I64_MAX ==> r == n
  {
    (n - I64_MIN) % 0x1_0000_0000_0000_0000 + I64_MIN
  }

  predicate RenderedScale(t: ColumnType) {
    t.TDecimal? ==> -128 < t.scale <= 127
  }

  /** The text of a non-NULL cell before quoting. */
  function Shown(v: Value, t: ColumnType, floats: FloatText): string
    requires HasType(v, t)
  {
    match t
    case TBool => if v.b then "t" else "f"
    case TI8 => D.SignedDigits(v.n)
    case TI16 => D.SignedDigits(v.n)
    case TI32 => D.SignedDigits(v.n)
    case TI64 => D.SignedDigits(v.n)
    case TF32 => floats(t, v.n)
    case TF64 => floats(t, v.n)
    case TText => v.s
    case TLargeText => v.s
    case TBinary => "\\x" + HexBytes(v.bs)
    case TLargeBinary => "\\x" + HexBytes(v.bs)
    case TDate => C.DateText(v.n)
    case TMicros(tz) => C.TimestampText(v.n, tz)
    case TMillis(tz) => C.TimestampText(Wrap64(v.n * 1000), tz)
    case TDecimal(scale) => D.DecimalText(v.n, scale)
  }

  type Field = Option<string>

  /** A field as written: bare and empty for NULL, otherwise quoted. */
  function FieldText(f: Field): string {
    if f.None? then "" else Quoted(f.value)
  }

  function FieldOf(c: Cell, t: ColumnType, floats: FloatText): Field
    requires c.Some? ==> HasType(c.value, t)
  {
    if c.None? then None else Some(Shown(c.value, t, floats))
  }

  // ---------------------------------------------------------------------
  // plain texts need no quoting pass
  // ---------------------------------------------------------------------

  predicate PlainChar(c: char) {
    c != '"' && c != '\0'
  }

  predicate AllPlain(s: string) {
    forall i :: 0 <= i < |s| ==> PlainChar(s[i])
  }

  lemma PlainOf(s: string)
    requires AllPlain(s)
    ensures Plain(s)
  {
  }

  lemma DigitsPlain(s: string)
    requires N.AllDigits(s)
    ensures AllPlain(s)
  {
  }

  lemma SignedPlain(n: int)
    ensures AllPlain(D.SignedDigits(n))
  {
    hide N.Digits;
    DigitsPlain(N.Digits(if n < 0 then -n else n));
  }

  lemma DecimalPlain(raw: int, scale: int)
    ensures AllPlain(D.DecimalText(raw, scale))
  {
    hide N.Digits, N.Zeros;
    SignedPlain(raw);
    var digits := N.Digits(D.Abs(raw));
    DigitsPlain(digits);
    if scale > 0 {
      PointedPlain(digits, scale);
    }
  }

  lemma PointedPlain(digits: string, scale: nat)
    requires AllPlain(digits)
    ensures AllPlain(D.Pointed(digits, scale))
  {
    hide N.Zeros;
    if |digits| <= scale { DigitsPlain(N.Zeros(scale - |digits|)); }
  }

  lemma ConcatPlain(a: string, b: string)
    requires AllPlain(a) && AllPlain(b)
    ensures AllPlain(a + b)
  {
  }

  lemma FieldPlain(a: string, c: char, b: string)
    requires AllPlain(a) && PlainChar(c) && AllPlain(b)
    ensures AllPlain(N.Field(a, c, b))
  {
  }

  lemma DatePlain(days: int)
    ensures AllPlain(C.DateText(days))
  {
    hide C.DateText;
    C.DateCharacters(days);
  }

  lemma TimestampPlain(micros: int, withOffset: bool)
    ensures AllPlain(C.TimestampText(micros, withOffset))
  {
    hide C.DateText, C.ClockText, N.Field;
    DatePlain(micros / C.DAY_MICROS);
    ClockPlain(micros % C.DAY_MICROS);
    ConcatPlain(C.ClockText(micros % C.DAY_MICROS), if withOffset then "+00" else "");
    var clock := C.ClockText(micros % C.DAY_MICROS) + (if withOffset then "+00" else "");
    FieldPlain(C.DateText(micros / C.DAY_MICROS), ' ', clock);
  }

  lemma ClockPlain(inDay: nat)
    ensures AllPlain(C.ClockText(inDay))
  {
    hide N.Pad, C.SecondsText, N.Field;
    var secs := inDay / 1_000_000;
    DigitsPlain(N.Pad(secs / 3600, 2));
    DigitsPlain(N.Pad(secs % 3600 / 60, 2));
    SecondsPlain(secs % 60, inDay % 1_000_000);
    FieldPlain(N.Pad(secs % 3600 / 60, 2), ':', C.SecondsText(secs % 60, inDay % 1_000_000));
    var tail := N.Field(N.Pad(secs % 3600 / 60, 2), ':', C.SecondsText(secs % 60, inDay % 1_000_000));
    FieldPlain(N.Pad(secs / 3600, 2), ':', tail);
  }

  lemma SecondsPlain(whole: nat, frac: nat)
    requires frac < 1_000_000
    ensures AllPlain(C.SecondsText(whole, frac))
  {
    C.MillionIsPow10();
    hide N.Pad, N.Pow10, C.TrimmedFraction, N.Value;
    DigitsPlain(N.Pad(whole, 2));
    if frac > 0 {
      C.TrimmedValue(frac, 6);
      DigitsPlain(C.TrimmedFraction(frac, 6));
    }
  }

  lemma {:induction false} HexPlain(bs: seq<Byte>)
    ensures AllPlain(HexBytes(bs))
  {
    if bs != [] { HexPlain(bs[..|bs| - 1]); }
  }

  /** Everything but text is written between two quotes as it is. */
  lemma ShownPlain(v: Value, t: ColumnType, floats: FloatText)
    requires HasType(v, t) && PlainFloats(floats) && !v.Text?
    ensures Plain(Shown(v, t, floats))
  {
    hide D.SignedDigits, C.DateText, C.TimestampText, D.DecimalText, HexBytes, AllPlain, Wrap64;
    match t
    case TBool =>
    case TF32 =>
    case TF64 =>
    case TDate => DatePlain(v.n); PlainOf(Shown(v, t, floats));
    case TMicros(tz) => TimestampPlain(v.n, tz); PlainOf(Shown(v, t, floats));
    case TMillis(tz) => TimestampPlain(Wrap64(v.n * 1000), tz); PlainOf(Shown(v, t, floats));
    case TDecimal(scale) => DecimalPlain(v.n, scale); PlainOf(Shown(v, t, floats));
    case TBinary => HexTextPlain(v.bs); PlainOf(Shown(v, t, floats));
    case TLargeBinary => HexTextPlain(v.bs); PlainOf(Shown(v, t, floats));
    case TI8 => SignedPlain(v.n); PlainOf(Shown(v, t, floats));
    case TI16 => SignedPlain(v.n); PlainOf(Shown(v, t, floats));
    case TI32 => SignedPlain(v.n); PlainOf(Shown(v, t, floats));
    case TI64 => SignedPlain(v.n); PlainOf(Shown(v, t, floats));
  }

  lemma HexTextPlain(bs: seq<Byte>)
    ensures AllPlain("\\x" + HexBytes(bs))
  {
    HexPlain(bs);
    ConcatPlain("\\x", HexBytes(bs));
  }

  /** One cell, by the column's type. */
  method WriteCell(out: string, c: Cell, t: ColumnType, floats: FloatText) returns (r: string)
    requires c.Some? ==> HasType(c.value, t)
    requires PlainFloats(floats) && RenderedScale(t)
    ensures r == out + FieldText(FieldOf(c, t, floats))
  {
    if c.None? {
      return out + "";
    }
    var v := c.value;
    if v.Text? {
      r := QuoteInto(out, v.s);
      return;
    }
    ShownPlain(v, t, floats);
    PlainNeedsNoEscape(Shown(v, t, floats));
    var text;
    hide D.SignedDigits, C.DateText, C.TimestampText, D.DecimalText, HexBytes, Wrap64, Escape;
    match t {
      case TBool => text := if v.b then "t" else "f";
      case TF32 => text := floats(t, v.n);
      case TF64 => text := floats(t, v.n);
      case TDate => text := C.WriteDate32("", v.n);
      case TMicros(tz) => text := C.WriteTimestampMicros("", v.n, tz);
      case TMillis(tz) => text := C.WriteTimestampMicros("", Wrap64(v.n * 1000), tz);
      case TDecimal(scale) => text := D.WriteDecimal128("", v.n, scale);
      case TBinary => text := WriteHexBytea("", v.bs);
      case TLargeBinary => text := WriteHexBytea("", v.bs);
      case TI8 => text := D.SignedDigits(v.n);
      case TI16 => text := D.SignedDigits(v.n);
      case TI32 => text := D.SignedDigits(v.n);
      case TI64 => text := D.SignedDigits(v.n);
    }
    assert text == Shown(v, t, floats);
    r := out + ("\"" + text + "\"");
  }

  // ---------------------------------------------------------------------
  // lines
  // ---------------------------------------------------------------------

  predicate Delimiter(c: char) {
    c != '"' && c != '\n' && c != '\r'
  }

  function Joined(fields: seq<Field>, delim: char): string {
    if fields == [] then ""
    else if |fields| == 1 then FieldText(fields[0])
    else Joined(fields[..|fields| - 1], delim) + [delim] + FieldText(fields[|fields| - 1])
  }

  function Line(fields: seq<Field>, delim: char): string {
    Joined(fields, delim) + "\n"
  }

  function Lines(records: seq<seq<Field>>, delim: char): string {
    if records == [] then "" else Lines(records[..|records| - 1], delim) + Line(records[|records| - 1], delim)
  }

  function NamesOf(names: seq<string>): seq<Field> {
    seq(|names|, i requires 0 <= i < |names| => Some(names[i]))
  }

  function FieldsOf(row: Row, schema: seq<ColumnType>, floats: FloatText): seq<Field>
    requires TypedRow(row, schema)
  {
    seq(|row|, i requires 0 <= i < |row| => FieldOf(row[i], schema[i], floats))
  }

  predicate TypedRows(rows: seq<Row>, schema: seq<ColumnType>) {
    forall i :: 0 <= i < |rows| ==> TypedRow(rows[i], schema)
  }

  function RecordsOf(rows: seq<Row>, schema: seq<ColumnType>, floats: FloatText): seq<seq<Field>>
    requires TypedRows(rows, schema)
  {
    seq(|rows|, i requires 0 <= i < |rows| => FieldsOf(rows[i], schema, floats))
  }

  lemma JoinedSnoc(fields: seq<Field>, i: nat, delim: char)
    requires i < |fields|
    ensures Joined(fields[..i + 1], delim)
        == (if i > 0 then Joined(fields[..i], delim) + [delim] else "") + FieldText(fields[i])
  {
    assert fields[..i + 1][..i] == fields[..i];
  }

  method Header(names: seq<string>, delim: char) returns (out: string)
    ensures out == Line(NamesOf(names), delim)
  {
    hide Quoted;
    out := "";
    ghost var fields := NamesOf(names);
    for i := 0 to |names|
      invariant out == Joined(fields[..i], delim)
    {
      JoinedSnoc(fields, i, delim);
      if i > 0 {
        out := out + [delim];
      }
      out := QuoteInto(out, names[i]);
    }
    assert fields[..|names|] == fields;
    out := out + "\n";
  }

  method WriteRow(out: string, row: Row, schema: seq<ColumnType>, delim: char, floats: FloatText) returns (r: string)
    requires TypedRow(row, schema) && PlainFloats(floats) && forall t :: t in schema ==> RenderedScale(t)
    ensures r == out + Line(FieldsOf(row, schema, floats), delim)
  {
    hide FieldText, FieldOf;
    ghost var fields := FieldsOf(row, schema, floats);
    var line := "";
    for i := 0 to |row|
      invariant line == Joined(fields[..i], delim)
    {
      JoinedSnoc(fields, i, delim);
      if i > 0 {
        line := line + [delim];
      }
      line := WriteCell(line, row[i], schema[i], floats);
    }
    assert fields[..|row|] == fields;
    r := out + (line + "\n");
  }

  lemma {:induction false} LinesConcat(a: seq<seq<Field>>, b: seq<seq<Field>>, delim: char)
    ensures Lines(a + b, delim) == Lines(a, delim) + Lines(b, delim)
  {
    hide Line;
    if b == [] {
      assert a + b == a;
    } else {
      var n := |b| - 1;
      assert (a + b)[..|a + b| - 1] == a + b[..n];
      LinesConcat(a, b[..n], delim);
    }
  }

  /** The rows named by `rows`, in that order. */
  method FormatRows(out: string, batch: seq<Row>, rows: seq<nat>, schema: seq<ColumnType>, delim: char,
      floats: FloatText)
    returns (r: string)
    requires TypedRows(batch, schema) && PlainFloats(floats) && forall t :: t in schema ==> RenderedScale(t)
    requires forall j :: 0 <= j < |rows| ==> rows[j] < |batch|
    ensures TypedRows(M.Pick(batch, rows), schema)
    ensures r == out + Lines(RecordsOf(M.Pick(batch, rows), schema, floats), delim)
  {
    hide Line, FieldsOf;
    ghost var records := RecordsOf(M.Pick(batch, rows), schema, floats);
    var text := "";
    for j := 0 to |rows|
      invariant text == Lines(records[..j], delim)
    {
      assert records[..j + 1][..j] == records[..j];
      text := WriteRow(text, batch[rows[j]], schema, delim, floats);
    }
    assert records[..|rows|] == records;
    r := out + text;
  }

  // ---------------------------------------------------------------------
  // the reader
  // ---------------------------------------------------------------------

  datatype Mode = Start | Inside(acc: string) | Closing(acc: string)

  function AddRecord(record: seq<Field>, rest: Option<seq<seq<Field>>>): Option<seq<seq<Field>>> {
    match rest
    case None => None
    case Some(records) => Some([record] + records)
  }

  /** Records of fields, one character at a time; a bare field must be empty. */
  function Read(text: string, delim: char, record: seq<Field>, mode: Mode): Option<seq<seq<Field>>> {
    if text == "" then (if mode.Start? && record == [] then Some([]) else None)
    else
      var c, rest := text[0], text[1..];
      match mode
      case Start =>
        if c == '"' then Read(rest, delim, record, Inside(""))
        else if c == delim then Read(rest, delim, record + [None], Start)
        else if c == '\n' then AddRecord(record + [None], Read(rest, delim, [], Start))
        else None
      case Inside(acc) =>
        if c == '"' then Read(rest, delim, record, Closing(acc)) else Read(rest, delim, record, Inside(acc + [c]))
      case Closing(acc) =>
        if c == '"' then Read(rest, delim, record, Inside(acc + "\""))
        else if c == delim then Read(rest, delim, record + [Some(acc)], Start)
        else if c == '\n' then AddRecord(record + [Some(acc)], Read(rest, delim, [], Start))
        else None
  }

  function ReadCsv(text: string, delim: char): Option<seq<seq<Field>>> {
    Read(text, delim, [], Start)
  }

  lemma ReadOne(c: char, rest: string, delim: char, record: seq<Field>, mode: Mode)
    ensures Read([c] + rest, delim, record, mode) ==
              match mode
              case Start =>
                if c == '"' then Read(rest, delim, record, Inside(""))
                else if c == delim then Read(rest, delim, record + [None], Start)
                else if c == '\n' then AddRecord(record + [None], Read(rest, delim, [], Start))
                else None
              case Inside(acc) =>
                if c == '"' then Read(rest, delim, record, Closing(acc))
                else Read(rest, delim, record, Inside(acc + [c]))
              case Closing(acc) =>
                if c == '"' then Read(rest, delim, record, Inside(acc + "\""))
                else if c == delim then Read(rest, delim, record + [Some(acc)], Start)
                else if c == '\n' then AddRecord(record + [Some(acc)], Read(rest, delim, [], Start))
                else None
  {
    assert ([c] + rest)[1..] == rest;
  }

  /** Inside quotes the reader collects the value and stops behind the closing quote. */
  lemma {:induction false} ReadEscaped(s: string, rest: string, delim: char, record: seq<Field>, acc: string)
    ensures Read(Escape(s) + ("\"" + rest), delim, record, Inside(acc))
         == Read(rest, delim, record, Closing(acc + Strip(s)))
  {
    hide Read;
    if s == "" {
      assert Escape(s) + ("\"" + rest) == "\"" + rest;
      assert acc + "" == acc;
      ReadOne('"', rest, delim, record, Inside(acc));
    } else if s[0] == '\0' {
      ReadEscaped(s[1..], rest, delim, record, acc);
    } else {
      ReadEscaped(s[1..], rest, delim, record, acc + [s[0]]);
      EscapedFront(s, "\"" + rest, acc);
      ReadCharacter(s[0], Escape(s[1..]) + ("\"" + rest), delim, record, acc);
    }
  }

  lemma EscapedFront(s: string, rest: string, acc: string)
    requires s != "" && s[0] != '\0'
    ensures acc + [s[0]] + Strip(s[1..]) == acc + Strip(s)
    ensures Escape(s) + rest ==
              if s[0] == '"' then "\"" + ("\"" + (Escape(s[1..]) + rest)) else [s[0]] + (Escape(s[1..]) + rest)
  {
    EscapeUnfolds(s);
    Associate(acc, [s[0]], Strip(s[1..]));
    hide Escape, Strip;
    var a := Escape(s[1..]);
    if s[0] == '"' {
      Associate("\"\"", a, rest);
      TwoQuotes(a + rest);
    } else {
      Associate([s[0]], a, rest);
    }
  }

  lemma EscapeUnfolds(s: string)
    requires s != "" && s[0] != '\0'
    ensures Strip(s) == [s[0]] + Strip(s[1..])
    ensures Escape(s) == (if s[0] == '"' then "\"\"" else [s[0]]) + Escape(s[1..])
  {
  }

  lemma TwoQuotes(s: string)
    ensures "\"\"" + s == "\"" + ("\"" + s)
  {
  }

  lemma ReadCharacter(c: char, tail: string, delim: char, record: seq<Field>, acc: string)
    ensures Read(if c == '"' then "\"" + ("\"" + tail) else [c] + tail, delim, record, Inside(acc))
         == Read(tail, delim, record, Inside(acc + [c]))
  {
    hide Read;
    ReadOne(c, if c == '"' then "\"" + tail else tail, delim, record, Inside(acc));
    ReadOne(c, tail, delim, record, Closing(acc));
  }

  function Stripped(f: Field): Field {
    if f.None? then None else Some(Strip(f.value))
  }

  function StrippedAll(fields: seq<Field>): seq<Field> {
    seq(|fields|, i requires 0 <= i < |fields| => Stripped(fields[i]))
  }

  lemma ReadField(f: Field, end: char, rest: string, delim: char, record: seq<Field>)
    requires Delimiter(delim) && (end == delim || end == '\n')
    ensures Read(FieldText(f) + ([end] + rest), delim, record, Start) ==
              if end == delim then Read(rest, delim, record + [Stripped(f)], Start)
              else AddRecord(record + [Stripped(f)], Read(rest, delim, [], Start))
  {
    hide Read, Escape;
    if f.None? {
      assert FieldText(f) + ([end] + rest) == [end] + rest;
      ReadOne(end, rest, delim, record, Start);
    } else {
      var inner := Escape(f.value) + ("\"" + ([end] + rest));
      assert FieldText(f) + ([end] + rest) == "\"" + inner;
      ReadOne('"', inner, delim, record, Start);
      ReadEscaped(f.value, [end] + rest, delim, record, "");
      assert "" + Strip(f.value) == Strip(f.value);
      ReadOne(end, rest, delim, record, Closing(Strip(f.value)));
    }
  }

  lemma {:induction false} ReadJoined(fields: seq<Field>, end: char, rest: string, delim: char, record: seq<Field>)
    requires Delimiter(delim) && (end == delim || end == '\n') && fields != []
    ensures Read(Joined(fields, delim) + ([end] + rest), delim, record, Start) ==
              if end == delim then Read(rest, delim, record + StrippedAll(fields), Start)
              else AddRecord(record + StrippedAll(fields), Read(rest, delim, [], Start))
  {
    hide Read, FieldText;
    var n := |fields| - 1;
    if n == 0 {
      ReadField(fields[0], end, rest, delim, record);
      assert StrippedAll(fields) == [Stripped(fields[0])];
    } else {
      var init := fields[..n];
      var tail := FieldText(fields[n]) + ([end] + rest);
      assert Joined(fields, delim) + ([end] + rest) == Joined(init, delim) + ([delim] + tail);
      ReadJoined(init, delim, tail, delim, record);
      ReadField(fields[n], end, rest, delim, record + StrippedAll(init));
      assert record + StrippedAll(init) + [Stripped(fields[n])] == record + StrippedAll(fields);
    }
  }

  function StrippedRecords(records: seq<seq<Field>>): seq<seq<Field>> {
    seq(|records|, i requires 0 <= i < |records| => StrippedAll(records[i]))
  }

  function Prepend(records: seq<seq<Field>>, rest: Option<seq<seq<Field>>>): Option<seq<seq<Field>>> {
    if rest.None? then None else Some(records + rest.value)
  }

  lemma {:induction false} ReadLines(records: seq<seq<Field>>, rest: string, delim: char)
    requires Delimiter(delim) && forall i :: 0 <= i < |records| ==> records[i] != []
    ensures ReadCsv(Lines(records, delim) + rest, delim) == Prepend(StrippedRecords(records), ReadCsv(rest, delim))
  {
    hide ReadCsv, StrippedRecords, StrippedAll, Line, AddRecord, Prepend;
    if records == [] {
      assert Lines(records, delim) + rest == rest;
      NothingPrepended(ReadCsv(rest, delim));
    } else {
      var n := |records| - 1;
      assert Lines(records, delim) + rest == Lines(records[..n], delim) + (Line(records[n], delim) + rest);
      ReadLines(records[..n], Line(records[n], delim) + rest, delim);
      ReadLine(records[n], rest, delim);
      PrependOne(records, ReadCsv(rest, delim));
    }
  }

  lemma NothingPrepended(rest: Option<seq<seq<Field>>>)
    ensures Prepend(StrippedRecords([]), rest) == rest
  {
    if rest.Some? { assert StrippedRecords([]) + rest.value == rest.value; }
  }

  lemma ReadLine(record: seq<Field>, rest: string, delim: char)
    requires Delimiter(delim) && record != []
    ensures ReadCsv(Line(record, delim) + rest, delim) == AddRecord(StrippedAll(record), ReadCsv(rest, delim))
  {
    hide Read, Joined, StrippedAll, AddRecord;
    assert Line(record, delim) + rest == Joined(record, delim) + (['\n'] + rest);
    ReadJoined(record, '\n', rest, delim, []);
    assert [] + StrippedAll(record) == StrippedAll(record);
  }

  lemma PrependOne(records: seq<seq<Field>>, rest: Option<seq<seq<Field>>>)
    requires records != []
    ensures var n := |records| - 1;
            Prepend(StrippedRecords(records[..n]), AddRecord(StrippedAll(records[n]), rest))
            == Prepend(StrippedRecords(records), rest)
  {
    var n := |records| - 1;
    hide StrippedAll;
    assert StrippedRecords(records) == StrippedRecords(records[..n]) + [StrippedAll(records[n])];
    if rest.Some? {
      assert StrippedRecords(records[..n]) + ([StrippedAll(records[n])] + rest.value)
          == StrippedRecords(records) + rest.value;
    }
  }

  /** For every allowed delimiter and any records of at least one field, reading what was written
      gives the records back: order, NULL against empty string, and every text without its NULs. */
  lemma CsvRoundTrip(records: seq<seq<Field>>, delim: char)
    requires Delimiter(delim) && forall i :: 0 <= i < |records| ==> records[i] != []
    ensures ReadCsv(Lines(records, delim), delim) == Some(StrippedRecords(records))
  {
    ReadLines(records, "", delim);
    assert Lines(records, delim) + "" == Lines(records, delim);
    assert StrippedRecords(records) + [] == StrippedRecords(records);
  }
}
