/** Cells, rows and batches. A row is one cell per column; NULL is `None`. */
module Values {
  import opened Base

  type Byte = b: int | 0 <= b < 256

  datatype ColumnType =
    | TBool | TI8 | TI16 | TI32 | TI64 | TF32 | TF64
    | TText | TLargeText | TBinary | TLargeBinary
    | TDate
    | TMicros(micTz: bool) | TMillis(milTz: bool)
    | TDecimal(scale: int)

  /** The contents of one non-NULL cell. Floats are kept as their bit pattern. */
  datatype Value =
    | Flag(b: bool)
    | Number(n: int)
    | Text(s: string)
    | Bytes(bs: seq<Byte>)

  type Cell = Option<Value>
  type Row = seq<Cell>

  /** The values an Arrow array of the type can hold. */
  predicate HasType(v: Value, t: ColumnType) {
    match t
    case TBool => v.Flag?
    case TI8 => v.Number? && -0x80 <= v.n < 0x80
    case TI16 => v.Number? && -0x8000 <= v.n < 0x8000
    case TI32 => v.Number? && -0x8000_0000 <= v.n < 0x8000_0000
    case TI64 => v.Number? && I64_MIN <= v.n <= I64_MAX
    case TF32 => v.Number?
    case TF64 => v.Number?
    case TText => v.Text?
    case TLargeText => v.Text?
    case TBinary => v.Bytes? && |v.bs| < 0x8000_0000
    case TLargeBinary => v.Bytes?
    case TDate => v.Number? && -0x8000_0000 <= v.n < 0x8000_0000
    case TMicros(_) => v.Number? && I64_MIN <= v.n <= I64_MAX
    case TMillis(_) => v.Number? && I64_MIN <= v.n <= I64_MAX
    case TDecimal(_) => v.Number? && I128_MIN <= v.n <= I128_MAX
  }

  const I128_MIN: int := -0x8000_0000_0000_0000_0000_0000_0000_0000
  const I128_MAX: int := 0x7FFF_FFFF_FFFF_FFFF_FFFF_FFFF_FFFF_FFFF

  predicate TypedRow(row: Row, schema: seq<ColumnType>) {
    && |row| == |schema|
    && forall i :: 0 <= i < |row| && row[i].Some? ==> HasType(row[i].value, schema[i])
  }

  /** One `append`: its rows and the Kafka offsets [start, end] they cover. */
  datatype Batch = Batch(rows: seq<Row>, start: int, end: int, bytes: nat)
}
