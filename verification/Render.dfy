/** The body of one staged file (`render` in src/table.rs), and what the loader finds in it. */
module Render {
  import opened Base
  import opened Values
  import opened Csv
  import N = Naming
  import opened Calendar
  import C = CalendarText
  import D = Decimal
  import Dd = Dedup
  import M = DedupMeaning

  /** The rows a file keeps: with a key, the last one of each key; without, all of them. */
  ghost predicate Keeps(batches: seq<seq<Row>>, schema: seq<ColumnType>, pk: Option<seq<nat>>, keep: seq<seq<nat>>)
    requires Dd.TypedBatches(batches, schema) && (pk.Some? ==> Dd.ValidPk(pk.value, schema))
  {
    if pk.Some? then M.KeepsLatest(batches, schema, pk.value, keep)
    else |keep| == |batches| && forall b :: 0 <= b < |batches| ==> keep[b] == AllOf(|batches[b]|)
  }

  function AllOf(n: nat): seq<nat> {
    seq(n, i => i)
  }

  /** Header, then the kept rows. */
  function Body(rows: seq<Row>, schema: seq<ColumnType>, names: seq<string>, delim: char, floats: FloatText): string
    requires TypedRows(rows, schema)
  {
    Lines([NamesOf(names)] + RecordsOf(rows, schema, floats), delim)
  }

  predicate Renders(batches: seq<seq<Row>>, keep: seq<seq<nat>>, schema: seq<ColumnType>, names: seq<string>,
                    delim: char, floats: FloatText, out: (string, nat))
    requires Dd.TypedBatches(batches, schema)
  {
    M.Fits(batches, keep) &&
    var rows := M.KeptFrom(batches, keep, 0);
    TypedRows(rows, schema) && out == (Body(rows, schema, names, delim, floats), |rows|)
  }

  /** Which rows to keep. */
  method ChooseRows(batches: seq<seq<Row>>, schema: seq<ColumnType>, pk: Option<seq<nat>>)
      returns (r: Result<seq<seq<nat>>, Error>)
    requires Dd.TypedBatches(batches, schema) && (pk.Some? ==> Dd.ValidPk(pk.value, schema))
    ensures r.Err? <==> pk.Some? && exists p :: Dd.IsPlace(batches, p) && Dd.KeyAt(batches, schema, pk.value, p).Err?
    ensures r.Ok? ==> Keeps(batches, schema, pk, r.value) && M.Fits(batches, r.value)
  {
    hide Dd.Latest, Dd.KeyAt;
    match pk {
      case Some(columns) =>
        r := Dd.DedupLastWins(batches, schema, columns);
        if r.Ok? {
          M.KeepFits(batches, schema, columns, r.value);
        }
      case None =>
        r := Ok(seq(|batches|, b requires 0 <= b < |batches| => AllOf(|batches[b]|)));
    }
  }

  /** The loop over the batches, behind the header. */
  method FormatBatches(batches: seq<seq<Row>>, keep: seq<seq<nat>>, schema: seq<ColumnType>, names: seq<string>,
                       delim: char, floats: FloatText)
    returns (body: string, count: nat)
    requires Dd.TypedBatches(batches, schema) && M.Fits(batches, keep)
    requires PlainFloats(floats) && forall t :: t in schema ==> RenderedScale(t)
    ensures Renders(batches, keep, schema, names, delim, floats, (body, count))
  {
    KeptTyped(batches, schema, keep, 0);
    ghost var all := M.KeptFrom(batches, keep, 0);
    ghost var done: seq<Row> := [];
    hide Line, Lines, M.Pick, RecordsOf, NamesOf, M.Fits, M.KeptFrom, Dd.TypedBatches, TypedRows, SplitsInto;
    SplitStart(all);
    body := Header(names, delim);
    count := 0;
    FirstLine(names, delim);
    NoRows(schema);
    for b := 0 to |batches|
      invariant TypedRows(done, schema) && count == |done|
      invariant SplitsInto(all, done, M.KeptFrom(batches, keep, b))
      invariant body == Lines([NamesOf(names)] + RecordsOf(done, schema, floats), delim)
    {
      BatchFits(batches, keep, schema, b);
      ghost var more := M.Pick(batches[b], keep[b]);
      count := count + |keep[b]|;
      body := FormatRows(body, batches[b], keep[b], schema, delim, floats);
      MoreLines(names, done, more, schema, delim, floats);
      NextKept(batches, keep, b, all, done);
      done := done + more;
    }
    NoneKept(batches, keep, all, done);
  }

  predicate SplitsInto(all: seq<Row>, done: seq<Row>, rest: seq<Row>) {
    all == done + rest
  }

  lemma SplitStart(all: seq<Row>)
    ensures SplitsInto(all, [], all)
  {
    assert [] + all == all;
  }

  lemma NextKept(batches: seq<seq<Row>>, keep: seq<seq<nat>>, b: nat, all: seq<Row>, done: seq<Row>)
    requires M.Fits(batches, keep) && b < |batches| && SplitsInto(all, done, M.KeptFrom(batches, keep, b))
    ensures SplitsInto(all, done + M.Pick(batches[b], keep[b]), M.KeptFrom(batches, keep, b + 1))
  {
    hide M.Pick;
    assert M.KeptFrom(batches, keep, b) == M.Pick(batches[b], keep[b]) + M.KeptFrom(batches, keep, b + 1);
  }

  lemma NoneKept(batches: seq<seq<Row>>, keep: seq<seq<nat>>, all: seq<Row>, done: seq<Row>)
    requires M.Fits(batches, keep) && SplitsInto(all, done, M.KeptFrom(batches, keep, |batches|))
    ensures all == done
  {
  }

  lemma NoRows(schema: seq<ColumnType>)
    ensures TypedRows([], schema)
  {
  }

  /** Dedup and serialization: the CSV body and the number of surviving rows. */
  method Render(batches: seq<seq<Row>>, schema: seq<ColumnType>, pk: Option<seq<nat>>, names: seq<string>, delim: char,
                floats: FloatText) returns (r: Result<(string, nat), Error>)
    requires Dd.TypedBatches(batches, schema) && (pk.Some? ==> Dd.ValidPk(pk.value, schema))
    requires PlainFloats(floats) && forall t :: t in schema ==> RenderedScale(t)
    ensures r.Err? <==> pk.Some? && exists p :: Dd.IsPlace(batches, p) && Dd.KeyAt(batches, schema, pk.value, p).Err?
    ensures r.Ok? ==> exists keep ::
              Keeps(batches, schema, pk, keep) && Renders(batches, keep, schema, names, delim, floats, r.value)
  {
    hide Keeps, Renders, Dd.KeyAt, Dd.TypedBatches;
    var keep := ChooseRows(batches, schema, pk);
    if keep.Err? {
      return Err(keep.error);
    }
    var body, count := FormatBatches(batches, keep.value, schema, names, delim, floats);
    r := Ok((body, count));
  }

  lemma FirstLine(names: seq<string>, delim: char)
    ensures forall schema, floats ::
              Lines([NamesOf(names)] + RecordsOf([], schema, floats), delim) == Line(NamesOf(names), delim)
  {
    var first := [NamesOf(names)];
    assert first[..0] == [];
    forall schema, floats ensures first + RecordsOf([], schema, floats) == first {
    }
  }

  lemma BatchFits(batches: seq<seq<Row>>, keep: seq<seq<nat>>, schema: seq<ColumnType>, b: nat)
    requires M.Fits(batches, keep) && b < |batches| && Dd.TypedBatches(batches, schema)
    ensures |keep| == |batches| && TypedRows(batches[b], schema)
    ensures forall j :: 0 <= j < |keep[b]| ==> keep[b][j] < |batches[b]|
    ensures TypedRows(M.Pick(batches[b], keep[b]), schema) && |M.Pick(batches[b], keep[b])| == |keep[b]|
  {
  }

  lemma MoreLines(names: seq<string>, a: seq<Row>, b: seq<Row>, schema: seq<ColumnType>, delim: char, floats: FloatText)
    requires TypedRows(a, schema) && TypedRows(b, schema)
    ensures TypedRows(a + b, schema)
    ensures Lines([NamesOf(names)] + RecordsOf(a + b, schema, floats), delim)
         == Lines([NamesOf(names)] + RecordsOf(a, schema, floats), delim) + Lines(RecordsOf(b, schema, floats), delim)
  {
    hide Lines, NamesOf, FieldsOf;
    assert RecordsOf(a + b, schema, floats) == RecordsOf(a, schema, floats) + RecordsOf(b, schema, floats);
    LinesConcat([NamesOf(names)] + RecordsOf(a, schema, floats), RecordsOf(b, schema, floats), delim);
    assert [NamesOf(names)] + RecordsOf(a + b, schema, floats)
        == [NamesOf(names)] + RecordsOf(a, schema, floats) + RecordsOf(b, schema, floats);
  }

  lemma {:induction false} KeptTyped(batches: seq<seq<Row>>, schema: seq<ColumnType>, keep: seq<seq<nat>>, b: nat)
    requires Dd.TypedBatches(batches, schema) && M.Fits(batches, keep) && b <= |batches|
    ensures TypedRows(M.KeptFrom(batches, keep, b), schema)
    decreases |batches| - b
  {
    if b < |batches| { KeptTyped(batches, schema, keep, b + 1); }
  }

  // ---------------------------------------------------------------------
  // what the loader reads
  // ---------------------------------------------------------------------

  /** The loader reads back the header and, row by row, the text of every cell without its NULs. */
  lemma BodyReadsBack(rows: seq<Row>, schema: seq<ColumnType>, names: seq<string>, delim: char, floats: FloatText)
    requires TypedRows(rows, schema) && Delimiter(delim) && |names| == |schema| > 0
    ensures ReadCsv(Body(rows, schema, names, delim, floats), delim)
         == Some(StrippedRecords([NamesOf(names)] + RecordsOf(rows, schema, floats)))
  {
    CsvRoundTrip([NamesOf(names)] + RecordsOf(rows, schema, floats), delim);
  }

  // ---------------------------------------------------------------------
  // rendered keys
  // ---------------------------------------------------------------------

  /** The value a rendered cell denotes: text loses its NULs, milliseconds become microseconds in
      64 bits, everything else is exact. */
  function Denoted(c: Cell, t: ColumnType): Cell
    requires c.Some? ==> HasType(c.value, t)
  {
    if c.None? then None
    else if c.value.Text? then Some(Text(Strip(c.value.s)))
    else if t.TMillis? then Some(Number(Wrap64(c.value.n * 1000)))
    else c
  }

  predicate KeyType(t: ColumnType) {
    !t.TF32? && !t.TF64?
  }

  lemma SameHexDigits(a: Byte, b: Byte)
    requires HexDigit(a / 16) == HexDigit(b / 16) && HexDigit(a % 16) == HexDigit(b % 16)
    ensures a == b
  {
  }

  lemma HexSnoc(a: seq<Byte>)
    requires a != []
    ensures var x, n := HexBytes(a), |a| - 1;
            && |x| >= 2 && x[..|x| - 2] == HexBytes(a[..n])
            && x[|x| - 2] == HexDigit(a[n] / 16) && x[|x| - 1] == HexDigit(a[n] % 16)
            && a == a[..n] + [a[n]]
  {
    hide HexDigit;
    var n := |a| - 1;
    LastTwo(HexBytes(a[..n]), HexDigit(a[n] / 16), HexDigit(a[n] % 16));
    assert HexBytes(a) == HexBytes(a[..n]) + [HexDigit(a[n] / 16), HexDigit(a[n] % 16)];
    hide HexBytes;
  }

  lemma LastTwo(h: string, p: char, q: char)
    ensures var x := h + [p, q]; x[..|x| - 2] == h && x[|x| - 2] == p && x[|x| - 1] == q
  {
  }

  lemma {:induction false} HexInjective(a: seq<Byte>, b: seq<Byte>)
    requires HexBytes(a) == HexBytes(b)
    ensures a == b
  {
    if a != [] { HexSnoc(a); }
    if b != [] { HexSnoc(b); }
    if a != [] && b != [] {
      hide HexBytes, HexDigit;
      HexInjective(a[..|a| - 1], b[..|b| - 1]);
      SameHexDigits(a[|a| - 1], b[|b| - 1]);
    }
  }

  lemma SignedDigitsInjective(n: int, m: int)
    requires D.SignedDigits(n) == D.SignedDigits(m)
    ensures n == m
  {
    D.DecimalRoundTrip(n, 0);
    D.DecimalRoundTrip(m, 0);
    assert D.DecimalText(n, 0) == D.DecimalText(m, 0);
    assert N.Pow10(0) == 1;
  }

  lemma DecimalInjective(n: int, m: int, scale: int)
    requires D.DecimalText(n, scale) == D.DecimalText(m, scale)
    ensures n == m
  {
    hide D.DecimalText;
    D.DecimalRoundTrip(n, scale);
    D.DecimalRoundTrip(m, scale);
    if scale <= 0 { SameFactor(n, m, N.Pow10(-scale)); }
  }

  lemma SameFactor(n: int, m: int, p: nat)
    requires p > 0 && n * p == m * p
    ensures n == m
  {
    assert (n - m) * p == 0;
    if n > m {
      ProductPositive(n - m, p);
    } else if n < m {
      ProductPositive(m - n, p);
    }
  }

  lemma ProductPositive(k: int, p: int)
    requires k > 0 && p > 0
    ensures k * p > 0 && -k * p < 0
  {
  }

  lemma DropHexPrefix(a: seq<Byte>, b: seq<Byte>)
    requires "\\x" + HexBytes(a) == "\\x" + HexBytes(b)
    ensures a == b
  {
    assert HexBytes(a) == ("\\x" + HexBytes(a))[2..] == ("\\x" + HexBytes(b))[2..] == HexBytes(b);
    HexInjective(a, b);
  }

  lemma SameTextSameValue(u: Value, v: Value, t: ColumnType, floats: FloatText)
    requires HasType(u, t) && HasType(v, t) && KeyType(t) && !u.Text?
    requires Shown(u, t, floats) == Shown(v, t, floats)
    ensures Denoted(Some(u), t) == Denoted(Some(v), t)
  {
    hide D.SignedDigits, C.DateText, C.TimestampText, D.DecimalText, HexBytes, Wrap64, C.ReadDate, C.ReadTimestamp,
      DayNumber;
    match t
    case TBool =>
    case TI8 => SignedDigitsInjective(u.n, v.n);
    case TI16 => SignedDigitsInjective(u.n, v.n);
    case TI32 => SignedDigitsInjective(u.n, v.n);
    case TI64 => SignedDigitsInjective(u.n, v.n);
    case TDate =>
      C.DateRoundTrip(u.n);
      C.DateRoundTrip(v.n);
    case TMicros(tz) =>
      C.TimestampRoundTrip(u.n, tz);
      C.TimestampRoundTrip(v.n, tz);
    case TMillis(tz) =>
      C.TimestampRoundTrip(Wrap64(u.n * 1000), tz);
      C.TimestampRoundTrip(Wrap64(v.n * 1000), tz);
    case TDecimal(scale) => DecimalInjective(u.n, v.n, scale);
    case TBinary => DropHexPrefix(u.bs, v.bs);
    case TLargeBinary => DropHexPrefix(u.bs, v.bs);
  }

  lemma SameValueSameText(u: Value, v: Value, t: ColumnType, floats: FloatText)
    requires HasType(u, t) && HasType(v, t) && KeyType(t) && !u.Text?
    requires Denoted(Some(u), t) == Denoted(Some(v), t)
    ensures Shown(u, t, floats) == Shown(v, t, floats)
  {
    hide D.SignedDigits, C.DateText, C.TimestampText, D.DecimalText, HexBytes, Wrap64;
  }

  /** For every key type: two values render to one text exactly if they denote the same. */
  lemma ValueText(u: Value, v: Value, t: ColumnType, floats: FloatText)
    requires HasType(u, t) && HasType(v, t) && KeyType(t) && PlainFloats(floats)
    ensures Strip(Shown(u, t, floats)) == Strip(Shown(v, t, floats)) <==> Denoted(Some(u), t) == Denoted(Some(v), t)
  {
    if !u.Text? {
      hide Shown, Denoted, Strip, Plain, Escape, PlainFloats;
      assert !v.Text?;
      ShownPlain(u, t, floats);
      ShownPlain(v, t, floats);
      PlainNeedsNoEscape(Shown(u, t, floats));
      PlainNeedsNoEscape(Shown(v, t, floats));
      if Shown(u, t, floats) == Shown(v, t, floats) {
        SameTextSameValue(u, v, t, floats);
      }
      if Denoted(Some(u), t) == Denoted(Some(v), t) {
        SameValueSameText(u, v, t, floats);
      }
    }
  }

  lemma CellText(c: Cell, d: Cell, t: ColumnType, floats: FloatText)
    requires (c.Some? ==> HasType(c.value, t)) && (d.Some? ==> HasType(d.value, t)) && KeyType(t) && PlainFloats(floats)
    ensures Stripped(FieldOf(c, t, floats)) == Stripped(FieldOf(d, t, floats)) <==> Denoted(c, t) == Denoted(d, t)
  {
    if c.Some? && d.Some? { ValueText(c.value, d.value, t, floats); }
  }

  predicate KeyTypes(schema: seq<ColumnType>, pk: seq<nat>) {
    Dd.ValidPk(pk, schema) && forall i :: 0 <= i < |pk| ==> KeyType(schema[pk[i]])
  }

  /** The key of a row as the loader reads it, and the values it denotes. */
  function RenderedKey(row: Row, schema: seq<ColumnType>, pk: seq<nat>, floats: FloatText): seq<Field>
    requires TypedRow(row, schema) && Dd.ValidPk(pk, schema)
  {
    seq(|pk|, i requires 0 <= i < |pk| => Stripped(FieldOf(row[pk[i]], schema[pk[i]], floats)))
  }

  function DenotedKey(row: Row, schema: seq<ColumnType>, pk: seq<nat>): seq<Cell>
    requires TypedRow(row, schema) && Dd.ValidPk(pk, schema)
  {
    seq(|pk|, i requires 0 <= i < |pk| => Denoted(row[pk[i]], schema[pk[i]]))
  }

  lemma KeyText(r: Row, s: Row, schema: seq<ColumnType>, pk: seq<nat>, floats: FloatText)
    requires TypedRow(r, schema) && TypedRow(s, schema) && KeyTypes(schema, pk) && PlainFloats(floats)
    ensures RenderedKey(r, schema, pk, floats) == RenderedKey(s, schema, pk, floats) <==>
              DenotedKey(r, schema, pk) == DenotedKey(s, schema, pk)
  {
    hide Stripped, FieldOf, Denoted, HasType;
    var a, b := RenderedKey(r, schema, pk, floats), RenderedKey(s, schema, pk, floats);
    var x, y := DenotedKey(r, schema, pk), DenotedKey(s, schema, pk);
    forall i | 0 <= i < |pk| ensures a[i] == b[i] <==> x[i] == y[i] {
      CellText(r[pk[i]], s[pk[i]], schema[pk[i]], floats);
    }
  }

  /** Key text that no loader would alter: no NUL, and milliseconds that fit as microseconds. */
  predicate ExactCell(c: Cell, t: ColumnType)
    requires c.Some? ==> HasType(c.value, t)
  {
    c.Some? ==>
      && (c.value.Text? ==> '\0' !in c.value.s)
      && (t.TMillis? ==> I64_MIN <= c.value.n * 1000 <= I64_MAX)
  }

  predicate ExactKeys(rows: seq<Row>, schema: seq<ColumnType>, pk: seq<nat>)
    requires TypedRows(rows, schema) && Dd.ValidPk(pk, schema)
  {
    forall i, k :: 0 <= i < |rows| && 0 <= k < |pk| ==> ExactCell(rows[i][pk[k]], schema[pk[k]])
  }

  lemma {:induction false} NoNulStays(s: string)
    requires '\0' !in s
    ensures Strip(s) == s
  {
    if s != "" { NoNulStays(s[1..]); }
  }

  lemma ExactCells(c: Cell, d: Cell, t: ColumnType)
    requires (c.Some? ==> HasType(c.value, t)) && (d.Some? ==> HasType(d.value, t))
    requires ExactCell(c, t) && ExactCell(d, t)
    ensures Denoted(c, t) == Denoted(d, t) <==> c == d
  {
    if c.Some? && c.value.Text? { NoNulStays(c.value.s); }
    if d.Some? && d.value.Text? { NoNulStays(d.value.s); }
  }

  lemma ExactKey(r: Row, s: Row, schema: seq<ColumnType>, pk: seq<nat>)
    requires TypedRow(r, schema) && TypedRow(s, schema) && Dd.ValidPk(pk, schema)
    requires forall k :: 0 <= k < |pk| ==> ExactCell(r[pk[k]], schema[pk[k]]) && ExactCell(s[pk[k]], schema[pk[k]])
    ensures DenotedKey(r, schema, pk) == DenotedKey(s, schema, pk) <==> Dd.Project(r, pk) == Dd.Project(s, pk)
  {
    hide Denoted, ExactCell, HasType;
    var x, y := DenotedKey(r, schema, pk), DenotedKey(s, schema, pk);
    var a, b := Dd.Project(r, pk), Dd.Project(s, pk);
    forall i | 0 <= i < |pk| ensures x[i] == y[i] <==> a[i] == b[i] {
      assert ExactCell(r[pk[i]], schema[pk[i]]) && ExactCell(s[pk[i]], schema[pk[i]]);
      ExactCells(r[pk[i]], s[pk[i]], schema[pk[i]]);
    }
  }

  /** Without that condition different keys can have one text: keys that differ only in NUL, and
      milliseconds so large that the product wraps around. */
  lemma DistinctKeysCanCollide(floats: FloatText)
    ensures FieldOf(Some(Text("a")), TText, floats) != FieldOf(Some(Text("a\0")), TText, floats)
    ensures Stripped(FieldOf(Some(Text("a")), TText, floats)) == Stripped(FieldOf(Some(Text("a\0")), TText, floats))
    ensures FieldOf(Some(Number(0)), TMillis(false), floats)
        == FieldOf(Some(Number(0x2000_0000_0000_0000)), TMillis(false), floats)
  {
    assert "a\0"[1..] == "\0" && "a"[1..] == "" && "\0"[1..] == "";
    assert Strip("a\0") == "a" == Strip("a");
    hide C.TimestampText;
    assert Wrap64(0x2000_0000_0000_0000 * 1000) == 0 == Wrap64(0);
  }
}
