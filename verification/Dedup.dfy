/** Last-wins deduplication inside one staged file, and what it means for the table
    (src/dedup.rs). */
module Dedup {
  import opened Base
  import opened Naming
  import opened Values

  // ---------------------------------------------------------------------
  // key bytes
  // ---------------------------------------------------------------------

  function Pow256(w: nat): (p: nat)
    ensures p > 0
  {
    if w == 0 then 1 else 256 * Pow256(w - 1)
  }

  /** The low `w` bytes, most significant first. */
  function BigEndian(n: nat, w: nat): (bs: seq<Byte>)
    ensures |bs| == w
  {
    if w == 0 then [] else BigEndian(n / 256, w - 1) + [n % 256]
  }

  lemma {:induction false} BigEndianInjective(n: nat, m: nat, w: nat)
    requires n < Pow256(w) && m < Pow256(w) && BigEndian(n, w) == BigEndian(m, w)
    ensures n == m
  {
    if w > 0 {
      var a, b := BigEndian(n / 256, w - 1), BigEndian(m / 256, w - 1);
      assert a == BigEndian(n, w)[..w - 1] && b == BigEndian(m, w)[..w - 1];
      assert n % 256 == BigEndian(n, w)[w - 1] == m % 256;
      BigEndianInjective(n / 256, m / 256, w - 1);
    }
  }

  const TWO_POW_64: int := 0x1_0000_0000_0000_0000
  const TWO_POW_128: int := 0x1_0000_0000_0000_0000_0000_0000_0000_0000

  /** to_be_bytes of an i64 and of an i128: two's complement. */
  function I64Bytes(n: int): (bs: seq<Byte>)
    requires I64_MIN <= n <= I64_MAX
    ensures |bs| == 8
  {
    BigEndian(if n < 0 then n + TWO_POW_64 else n, 8)
  }

  function I128Bytes(n: int): (bs: seq<Byte>)
    requires I128_MIN <= n <= I128_MAX
    ensures |bs| == 16
  {
    BigEndian(if n < 0 then n + TWO_POW_128 else n, 16)
  }

  /** The bytes of one Unicode scalar value. */
  function Utf8Char(c: char): (bs: seq<Byte>)
    ensures 1 <= |bs| <= 4
  {
    var n := c as int;
    if n < 0x80 then [n]
    else if n < 0x800 then [0xC0 + n / 64, 0x80 + n % 64]
    else if n < 0x1_0000 then [0xE0 + n / 64 / 64, 0x80 + n / 64 % 64, 0x80 + n % 64]
    else [0xF0 + n / 64 / 64 / 64, 0x80 + n / 64 / 64 % 64, 0x80 + n / 64 % 64, 0x80 + n % 64]
  }

  function Utf8(s: string): seq<Byte> {
    if s == "" then [] else Utf8Char(s[0]) + Utf8(s[1..])
  }

  /** No character's bytes begin another's. */
  lemma Utf8CharPrefixFree(c: char, d: char, x: seq<Byte>, y: seq<Byte>)
    requires Utf8Char(c) + x == Utf8Char(d) + y
    ensures c == d && x == y
  {
    var a, b := Utf8Char(c), Utf8Char(d);
    var s := a + x;
    assert s[0] == a[0] == b[0];
    assert |a| == |b|;
    assert a == s[..|a|] == b;
    SameUtf8Char(c, d);
    assert x == s[|a|..] == y;
  }

  lemma SameSixBits(n: nat, m: nat)
    requires n / 64 == m / 64 && n % 64 == m % 64
    ensures n == m
  {
  }

  lemma SameUtf8Char(c: char, d: char)
    requires Utf8Char(c) == Utf8Char(d)
    ensures c == d
  {
    var a, b := Utf8Char(c), Utf8Char(d);
    var n, m := c as int, d as int;
    assert a[0] == b[0];
    assert |a| > 1 ==> a[1] == b[1];
    assert |a| > 2 ==> a[2] == b[2];
    assert |a| > 3 ==> a[3] == b[3];
    if |a| == 4 { SameSixBits(n / 64 / 64, m / 64 / 64); }
    if |a| >= 3 { SameSixBits(n / 64, m / 64); }
    if |a| >= 2 { SameSixBits(n, m); }
  }

  lemma {:induction false} Utf8Injective(s: string, t: string)
    requires Utf8(s) == Utf8(t)
    ensures s == t
  {
    if s != "" && t != "" {
      Utf8CharPrefixFree(s[0], t[0], Utf8(s[1..]), Utf8(t[1..]));
      Utf8Injective(s[1..], t[1..]);
    }
  }

  /** A length as u32, cut off above, and the bytes. */
  function Prefixed(bs: seq<Byte>): seq<Byte> {
    BigEndian(|bs| % (U32_MAX + 1), 4) + bs
  }

  function ValueBytes(v: Value, t: ColumnType): Result<seq<Byte>, Error>
    requires HasType(v, t)
  {
    match t
    case TBool => Ok([if v.b then 1 else 0])
    case TI8 => Ok(I64Bytes(v.n))
    case TI16 => Ok(I64Bytes(v.n))
    case TI32 => Ok(I64Bytes(v.n))
    case TI64 => Ok(I64Bytes(v.n))
    case TDate => Ok(I64Bytes(v.n))
    case TMicros(_) => Ok(I64Bytes(v.n))
    case TMillis(_) => Ok(I64Bytes(v.n))
    case TDecimal(_) => Ok(I128Bytes(v.n))
    case TText => Ok(Prefixed(Utf8(v.s)))
    case TLargeText => Ok(Prefixed(Utf8(v.s)))
    case TBinary => Ok(Prefixed(v.bs))
    case TLargeBinary => Ok(Prefixed(v.bs))
    case TF32 => Err(Error.Schema)
    case TF64 => Err(Error.Schema)
  }

  predicate ValidPk(pk: seq<nat>, schema: seq<ColumnType>) {
    forall i :: 0 <= i < |pk| ==> pk[i] < |schema|
  }

  /** NULL tag, or value tag, bytes and separator. */
  function FieldBytes(c: Cell, t: ColumnType): Result<seq<Byte>, Error>
    requires c.Some? ==> HasType(c.value, t)
  {
    if c.None? then Ok([0])
    else
      match ValueBytes(c.value, t)
      case Ok(bs) => Ok([1] + bs + [0xff])
      case Err(e) => Err(e)
  }

  function PkKey(row: Row, schema: seq<ColumnType>, pk: seq<nat>): Result<seq<Byte>, Error>
    requires TypedRow(row, schema) && ValidPk(pk, schema)
  {
    if pk == [] then Ok([])
    else
      var n := |pk| - 1;
      match PkKey(row, schema, pk[..n])
      case Err(e) => Err(e)
      case Ok(bs) =>
        match FieldBytes(row[pk[n]], schema[pk[n]])
        case Err(e) => Err(e)
        case Ok(field) => Ok(bs + field)
  }

  /** The loop over the key columns. */
  method BuildKey(row: Row, schema: seq<ColumnType>, pk: seq<nat>) returns (r: Result<seq<Byte>, Error>)
    requires TypedRow(row, schema) && ValidPk(pk, schema)
    ensures r == PkKey(row, schema, pk)
  {
    var key: seq<Byte> := [];
    for i := 0 to |pk|
      invariant PkKey(row, schema, pk[..i]) == Ok(key)
    {
      assert pk[..i + 1][..i] == pk[..i];
      var cell := row[pk[i]];
      if cell.None? {
        key := key + [0];
      } else {
        match ValueBytes(cell.value, schema[pk[i]]) {
          case Err(e) =>
            FirstErrorStays(row, schema, pk, i + 1);
            return Err(e);
          case Ok(bs) =>
            key := key + ([1] + bs + [0xff]);
        }
      }
    }
    assert pk[..|pk|] == pk;
    r := Ok(key);
  }

  lemma {:induction false} FirstErrorStays(row: Row, schema: seq<ColumnType>, pk: seq<nat>, k: nat)
    requires TypedRow(row, schema) && ValidPk(pk, schema) && k <= |pk| && PkKey(row, schema, pk[..k]).Err?
    ensures PkKey(row, schema, pk) == PkKey(row, schema, pk[..k])
  {
    if k == |pk| {
      assert pk[..k] == pk;
    } else {
      var n := |pk| - 1;
      assert pk[..n][..k] == pk[..k];
      FirstErrorStays(row, schema, pk[..n], k);
    }
  }

  // ---------------------------------------------------------------------
  // injectivity
  // ---------------------------------------------------------------------

  /** The length prefix holds the length of binary data. Text needs no such limit: its bytes never
      contain the separator. */
  predicate ShortCell(c: Cell) {
    c.Some? && c.value.Bytes? ==> |c.value.bs| <= U32_MAX
  }

  function Project<T>(row: seq<T>, pk: seq<nat>): (key: seq<T>)
    requires forall i :: 0 <= i < |pk| ==> pk[i] < |row|
    ensures |key| == |pk|
  {
    seq(|pk|, i requires 0 <= i < |pk| => row[pk[i]])
  }

  predicate ShortKey(row: Row, pk: seq<nat>)
    requires forall i :: 0 <= i < |pk| ==> pk[i] < |row|
  {
    forall i :: 0 <= i < |pk| ==> ShortCell(row[pk[i]])
  }

  lemma PrefixedShape(a: seq<Byte>)
    requires |a| <= U32_MAX
    ensures Prefixed(a) == BigEndian(|a|, 4) + a && |a| < Pow256(4)
  {
    assert Pow256(4) == U32_MAX + 1;
  }

  lemma PrefixedPrefixFree(a: seq<Byte>, b: seq<Byte>, x: seq<Byte>, y: seq<Byte>)
    requires |a| <= U32_MAX && |b| <= U32_MAX && Prefixed(a) + x == Prefixed(b) + y
    ensures a == b && x == y
  {
    hide BigEndian, Pow256, Prefixed;
    var p, q := BigEndian(|a|, 4), BigEndian(|b|, 4);
    PrefixedShape(a);
    PrefixedShape(b);
    Associate(p, a, x);
    Associate(q, b, y);
    PrefixSplits(p, q, a + x, b + y);
    BigEndianInjective(|a|, |b|, 4);
    PrefixSplits(a, b, x, y);
  }

  lemma {:induction false} Utf8HasNoSeparator(s: string)
    ensures 0xff !in Utf8(s)
  {
    if s != "" {
      Utf8HasNoSeparator(s[1..]);
    }
  }

  /** Texts of any length are told apart by their bytes and the separator behind them, even if
      their lengths have the same prefix. */
  lemma TextPrefixFree(a: seq<Byte>, b: seq<Byte>, x: seq<Byte>, y: seq<Byte>)
    requires 0xff !in a && 0xff !in b && x != [] && y != [] && x[0] == 0xff == y[0]
    requires Prefixed(a) + x == Prefixed(b) + y
    ensures a == b && x == y
  {
    var p, q := BigEndian(|a| % (U32_MAX + 1), 4), BigEndian(|b| % (U32_MAX + 1), 4);
    hide BigEndian;
    Associate(p, a, x);
    Associate(q, b, y);
    PrefixSplits(p, q, a + x, b + y);
    var bytes := a + x;
    assert bytes[|a|] == 0xff == (b + y)[|b|];
    assert |a| == |b|;
    PrefixSplits(a, b, x, y);
  }

  lemma I64BytesInjective(n: int, m: int)
    requires I64_MIN <= n <= I64_MAX && I64_MIN <= m <= I64_MAX && I64Bytes(n) == I64Bytes(m)
    ensures n == m
  {
    assert Pow256(8) == TWO_POW_64;
    BigEndianInjective(if n < 0 then n + TWO_POW_64 else n, if m < 0 then m + TWO_POW_64 else m, 8);
  }

  lemma I128BytesInjective(n: int, m: int)
    requires I128_MIN <= n <= I128_MAX && I128_MIN <= m <= I128_MAX && I128Bytes(n) == I128Bytes(m)
    ensures n == m
  {
    assert Pow256(8) == TWO_POW_64;
    assert Pow256(9) == 256 * TWO_POW_64 && Pow256(10) == 0x1_0000 * TWO_POW_64 &&
        Pow256(11) == 0x100_0000 * TWO_POW_64;
    assert Pow256(12) == 0x1_0000_0000 * TWO_POW_64 && Pow256(13) == 0x100_0000_0000 * TWO_POW_64;
    assert Pow256(14) == 0x1_0000_0000_0000 * TWO_POW_64 && Pow256(15) == 0x100_0000_0000_0000 * TWO_POW_64;
    assert Pow256(16) == TWO_POW_128;
    BigEndianInjective(if n < 0 then n + TWO_POW_128 else n, if m < 0 then m + TWO_POW_128 else m, 16);
  }

  lemma PrefixSplits(a: seq<Byte>, b: seq<Byte>, x: seq<Byte>, y: seq<Byte>)
    requires |a| == |b| && a + x == b + y
    ensures a == b && x == y
  {
    assert a == (a + x)[..|a|] && x == (a + x)[|a|..];
    assert b == (b + y)[..|a|] && y == (b + y)[|a|..];
  }

  /** Two values of one column are told apart by their bytes and the separator, wherever they end. */
  lemma ValuePrefixFree(u: Value, v: Value, t: ColumnType, x: seq<Byte>, y: seq<Byte>)
    requires HasType(u, t) && HasType(v, t) && ShortCell(Some(u)) && ShortCell(Some(v))
    requires ValueBytes(u, t).Ok? && ValueBytes(v, t).Ok? && x != [] && y != [] && x[0] == 0xff == y[0]
    requires ValueBytes(u, t).value + x == ValueBytes(v, t).value + y
    ensures u == v && x == y
  {
    hide I64Bytes, I128Bytes, Prefixed, Utf8;
    if u.Text? {
      Utf8HasNoSeparator(u.s);
      Utf8HasNoSeparator(v.s);
      TextPrefixFree(Utf8(u.s), Utf8(v.s), x, y);
      Utf8Injective(u.s, v.s);
    } else if u.Bytes? {
      PrefixedPrefixFree(u.bs, v.bs, x, y);
    } else {
      PrefixSplits(ValueBytes(u, t).value, ValueBytes(v, t).value, x, y);
      if t.TDecimal? {
        I128BytesInjective(u.n, v.n);
      } else if u.Number? {
        I64BytesInjective(u.n, v.n);
      } else {
        assert ValueBytes(u, t).value[0] == ValueBytes(v, t).value[0];
      }
    }
  }

  lemma FieldPrefixFree(c: Cell, d: Cell, t: ColumnType, x: seq<Byte>, y: seq<Byte>)
    requires (c.Some? ==> HasType(c.value, t)) && (d.Some? ==> HasType(d.value, t))
    requires ShortCell(c) && ShortCell(d)
    requires FieldBytes(c, t).Ok? && FieldBytes(d, t).Ok?
    requires FieldBytes(c, t).value + x == FieldBytes(d, t).value + y
    ensures c == d && x == y
  {
    hide ValueBytes;
    var a, b := FieldBytes(c, t).value, FieldBytes(d, t).value;
    assert a[0] == (a + x)[0] == (b + y)[0] == b[0];
    if c.None? {
      PrefixSplits(a, b, x, y);
    } else {
      var u, v := ValueBytes(c.value, t).value, ValueBytes(d.value, t).value;
      assert a + x == [1] + (u + ([0xff] + x)) && b + y == [1] + (v + ([0xff] + y));
      PrefixSplits([1], [1], u + ([0xff] + x), v + ([0xff] + y));
      ValuePrefixFree(c.value, d.value, t, [0xff] + x, [0xff] + y);
      PrefixSplits([0xff], [0xff], x, y);
    }
  }

  lemma {:induction false} KeyPrefixFree(r: Row, s: Row, schema: seq<ColumnType>, pk: seq<nat>, x: seq<Byte>,
      y: seq<Byte>)
    requires TypedRow(r, schema) && TypedRow(s, schema) && ValidPk(pk, schema) && ShortKey(r, pk) && ShortKey(s, pk)
    requires PkKey(r, schema, pk).Ok? && PkKey(s, schema, pk).Ok?
    requires PkKey(r, schema, pk).value + x == PkKey(s, schema, pk).value + y
    ensures Project(r, pk) == Project(s, pk) && x == y
  {
    hide FieldBytes, ShortCell, HasType, Project, ShortKey, TypedRow, PkKey;
    if pk != [] {
      var n := |pk| - 1;
      KeySnoc(r, schema, pk);
      KeySnoc(s, schema, pk);
      var a, b := PkKey(r, schema, pk[..n]).value, PkKey(s, schema, pk[..n]).value;
      var f, g := FieldBytes(r[pk[n]], schema[pk[n]]).value, FieldBytes(s[pk[n]], schema[pk[n]]).value;
      assert a + (f + x) == (a + f) + x == (b + g) + y == b + (g + y);
      KeyPrefixFree(r, s, schema, pk[..n], f + x, g + y);
      FieldPrefixFree(r[pk[n]], s[pk[n]], schema[pk[n]], x, y);
      ProjectSnoc(r, pk);
      ProjectSnoc(s, pk);
    } else {
      EmptyKey(r, schema);
      EmptyKey(s, schema);
      var none: seq<Byte> := [];
      assert none + x == x && none + y == y;
    }
  }

  lemma EmptyKey(r: Row, schema: seq<ColumnType>)
    requires TypedRow(r, schema)
    ensures PkKey(r, schema, []) == Ok([]) && Project(r, []) == []
  {
  }

  lemma KeySnoc(r: Row, schema: seq<ColumnType>, pk: seq<nat>)
    requires TypedRow(r, schema) && ValidPk(pk, schema) && pk != [] && PkKey(r, schema, pk).Ok? && ShortKey(r, pk)
    ensures var n := |pk| - 1;
            && |r| == |schema| && ShortKey(r, pk[..n]) && ShortCell(r[pk[n]])
            && (r[pk[n]].Some? ==> HasType(r[pk[n]].value, schema[pk[n]]))
            && PkKey(r, schema, pk[..n]).Ok? && FieldBytes(r[pk[n]], schema[pk[n]]).Ok?
            && PkKey(r, schema, pk).value == PkKey(r, schema, pk[..n]).value + FieldBytes(r[pk[n]], schema[pk[n]]).value
  {
    hide FieldBytes, HasType, ShortCell;
  }

  lemma ProjectSnoc(r: Row, pk: seq<nat>)
    requires pk != [] && forall i :: 0 <= i < |pk| ==> pk[i] < |r|
    ensures Project(r, pk) == Project(r, pk[..|pk| - 1]) + [r[pk[|pk| - 1]]]
  {
  }

  /** Rows with equal key bytes have equal key cells, and the other way round. */
  lemma KeyIsInjective(r: Row, s: Row, schema: seq<ColumnType>, pk: seq<nat>)
    requires TypedRow(r, schema) && TypedRow(s, schema) && ValidPk(pk, schema) && ShortKey(r, pk) && ShortKey(s, pk)
    requires PkKey(r, schema, pk).Ok? && PkKey(s, schema, pk).Ok?
    ensures PkKey(r, schema, pk) == PkKey(s, schema, pk) <==> Project(r, pk) == Project(s, pk)
  {
    hide FieldBytes, PkKey;
    if PkKey(r, schema, pk) == PkKey(s, schema, pk) {
      KeyPrefixFree(r, s, schema, pk, [], []);
    }
    if Project(r, pk) == Project(s, pk) {
      SameCellsSameKey(r, s, schema, pk);
    }
  }

  lemma {:induction false} SameCellsSameKey(r: Row, s: Row, schema: seq<ColumnType>, pk: seq<nat>)
    requires TypedRow(r, schema) && TypedRow(s, schema) && ValidPk(pk, schema) && Project(r, pk) == Project(s, pk)
    ensures PkKey(r, schema, pk) == PkKey(s, schema, pk)
  {
    if pk != [] {
      var n := |pk| - 1;
      hide HasType, FieldBytes;
      assert r[pk[n]] == Project(r, pk)[n] == Project(s, pk)[n] == s[pk[n]];
      assert Project(r, pk[..n]) == Project(r, pk)[..n] == Project(s, pk)[..n] == Project(s, pk[..n]);
      SameCellsSameKey(r, s, schema, pk[..n]);
    }
  }

  /** A row has a key exactly if none of its key cells is a float. */
  lemma {:induction false} KeyExists(r: Row, schema: seq<ColumnType>, pk: seq<nat>)
    requires TypedRow(r, schema) && ValidPk(pk, schema)
    ensures PkKey(r, schema, pk).Ok? <==>
              forall i :: 0 <= i < |pk| ==> r[pk[i]].None? || !(schema[pk[i]].TF32? || schema[pk[i]].TF64?)
  {
    if pk != [] {
      var n := |pk| - 1;
      KeyExists(r, schema, pk[..n]);
      assert forall i :: 0 <= i < n ==> pk[..n][i] == pk[i];
    }
  }

  // ---------------------------------------------------------------------
  // the limit of the length prefix
  // ---------------------------------------------------------------------

  /** One byte beyond what the prefix can hold is one too many: two rows of two LargeBinary cells,
      one of them 4 GiB long, with different keys and the same key bytes. */
  lemma KeysCollide(z: seq<Byte>) returns (r: Row, s: Row)
    requires |z| == U32_MAX - 5
    ensures var schema := [TLargeBinary, TLargeBinary];
            && TypedRow(r, schema) && TypedRow(s, schema) && r != s
            && PkKey(r, schema, [0, 1]).Ok? && PkKey(r, schema, [0, 1]) == PkKey(s, schema, [0, 1])
  {
    var head: seq<Byte> := [0xff, 1, 0, 0, 0, 0];
    var tail: seq<Byte> := [0xff, 1, 0, 0, 0, 0];
    var empty: seq<Byte> := [];
    r := [Some(Bytes(head + z)), Some(Bytes(empty))];
    s := [Some(Bytes(empty)), Some(Bytes(z + tail))];
    TwoFieldKey(head + z, empty);
    TwoFieldKey(empty, z + tail);
    ZeroPrefix();
    var zeros: seq<Byte> := [0, 0, 0, 0];
    assert |head + z| == U32_MAX + 1 && |z + tail| == U32_MAX + 1;
    assert Prefixed(head + z) == zeros + (head + z) && Prefixed(z + tail) == zeros + (z + tail) &&
        Prefixed(empty) == zeros + empty;
    SameBytes(zeros, z);
    hide PkKey, Prefixed;
    assert r[1].value.bs != s[1].value.bs;
  }

  lemma SameBytes(zeros: seq<Byte>, z: seq<Byte>)
    requires zeros == [0, 0, 0, 0]
    ensures var cut: seq<Byte> := [0xff, 1, 0, 0, 0, 0];
            var empty: seq<Byte> := [];
            [1] + (zeros + (cut + z)) + [0xff] + ([1] + (zeros + empty) + [0xff])
              == [1] + (zeros + empty) + [0xff] + ([1] + (zeros + (z + cut)) + [0xff])
  {
    var cut: seq<Byte> := [0xff, 1, 0, 0, 0, 0];
    assert cut == [0xff] + ([1] + zeros);
  }

  lemma ZeroPrefix()
    ensures BigEndian(0, 4) == [0, 0, 0, 0]
  {
    assert BigEndian(0, 1) == [0] && BigEndian(0, 2) == [0, 0] && BigEndian(0, 3) == [0, 0, 0];
  }

  lemma TwoFieldKey(a: seq<Byte>, b: seq<Byte>)
    ensures PkKey([Some(Bytes(a)), Some(Bytes(b))], [TLargeBinary, TLargeBinary], [0, 1])
         == Ok([1] + Prefixed(a) + [0xff] + ([1] + Prefixed(b) + [0xff]))
  {
    hide Prefixed;
    var r, schema := [Some(Bytes(a)), Some(Bytes(b))], [TLargeBinary, TLargeBinary];
    var pk: seq<nat> := [0, 1];
    assert pk[..1] == [0] && pk[..1][..0] == [];
    assert PkKey(r, schema, pk[..1][..0]) == Ok([]);
    var none: seq<Byte> := [];
    assert none + ([1] + Prefixed(a) + [0xff]) == [1] + Prefixed(a) + [0xff];
    assert PkKey(r, schema, pk[..1]) == Ok([1] + Prefixed(a) + [0xff]);
  }

  // ---------------------------------------------------------------------
  // the pass over the batches of a file
  // ---------------------------------------------------------------------

  type Place = (nat, nat)

  predicate TypedBatches(batches: seq<seq<Row>>, schema: seq<ColumnType>) {
    forall b, r :: 0 <= b < |batches| && 0 <= r < |batches[b]| ==> TypedRow(batches[b][r], schema)
  }

  predicate IsPlace(batches: seq<seq<Row>>, p: Place) {
    p.0 < |batches| && p.1 < |batches[p.0]|
  }

  function KeyAt(batches: seq<seq<Row>>, schema: seq<ColumnType>, pk: seq<nat>, p: Place): Result<seq<Byte>, Error>
    requires TypedBatches(batches, schema) && ValidPk(pk, schema) && IsPlace(batches, p)
  {
    PkKey(batches[p.0][p.1], schema, pk)
  }

  /** The row at `p` is the last one of its key among the rows before `limit`. */
  ghost predicate Latest(batches: seq<seq<Row>>, schema: seq<ColumnType>, pk: seq<nat>, p: Place, limit: Place)
    requires TypedBatches(batches, schema) && ValidPk(pk, schema)
  {
    && IsPlace(batches, p) && PairLess(p, limit)
    && forall q :: IsPlace(batches, q) && PairLess(p, q) && PairLess(q, limit) ==>
         KeyAt(batches, schema, pk, q) != KeyAt(batches, schema, pk, p)
  }

  ghost predicate IsIndex(batches: seq<seq<Row>>, schema: seq<ColumnType>, pk: seq<nat>,
                          latest: map<seq<Byte>, Place>, limit: Place)
    requires TypedBatches(batches, schema) && ValidPk(pk, schema)
  {
    && (forall k :: k in latest ==>
          Latest(batches, schema, pk, latest[k], limit) && KeyAt(batches, schema, pk, latest[k]) == Ok(k))
    && (forall p :: IsPlace(batches, p) && PairLess(p, limit) ==>
          KeyAt(batches, schema, pk, p).Ok? && KeyAt(batches, schema, pk, p).value in latest)
  }

  lemma IndexNext(batches: seq<seq<Row>>, schema: seq<ColumnType>, pk: seq<nat>, latest: map<seq<Byte>, Place>,
                  b: nat, r: nat, key: seq<Byte>)
    requires TypedBatches(batches, schema) && ValidPk(pk, schema) && IsPlace(batches, (b, r))
    requires IsIndex(batches, schema, pk, latest, (b, r)) && KeyAt(batches, schema, pk, (b, r)) == Ok(key)
    ensures IsIndex(batches, schema, pk, latest[key := (b, r)], (b, r + 1))
  {
    hide TypedBatches, KeyAt, ValidPk;
    var next := latest[key := (b, r)];
    forall k | k in next
      ensures Latest(batches, schema, pk, next[k], (b, r + 1)) && KeyAt(batches, schema, pk, next[k]) == Ok(k)
    {
      if k != key { assert Latest(batches, schema, pk, latest[k], (b, r)); }
    }
  }

  lemma IndexNextBatch(batches: seq<seq<Row>>, schema: seq<ColumnType>, pk: seq<nat>, latest: map<seq<Byte>, Place>,
      b: nat)
    requires TypedBatches(batches, schema) && ValidPk(pk, schema) && b < |batches|
    requires IsIndex(batches, schema, pk, latest, (b, |batches[b]|))
    ensures IsIndex(batches, schema, pk, latest, (b + 1, 0))
  {
    hide TypedBatches, KeyAt, ValidPk;
    forall p | IsPlace(batches, p) ensures PairLess(p, (b + 1, 0)) <==> PairLess(p, (b, |batches[b]|)) {
    }
  }

  predicate Ascending(xs: seq<Place>) {
    forall i, j :: 0 <= i < j < |xs| ==> PairLess(xs[i], xs[j])
  }

  method InsertPlace(xs: seq<Place>, p: Place) returns (ys: seq<Place>)
    requires Ascending(xs) && p !in xs
    ensures Ascending(ys) && forall q :: q in ys <==> q in xs || q == p
  {
    var k := |xs|;
    while k > 0 && PairLess(p, xs[k - 1])
      invariant 0 <= k <= |xs|
      invariant forall j :: k <= j < |xs| ==> PairLess(p, xs[j])
    {
      k := k - 1;
    }
    ys := xs[..k] + [p] + xs[k..];
    InsertKeepsAscending(xs, k, p);
    InsertMembers(xs, k, p);
  }

  lemma InsertMembers(xs: seq<Place>, k: nat, p: Place)
    requires k <= |xs|
    ensures forall q :: q in xs[..k] + [p] + xs[k..] <==> q in xs || q == p
  {
    assert xs == xs[..k] + xs[k..];
  }

  lemma InsertKeepsAscending(xs: seq<Place>, k: nat, p: Place)
    requires Ascending(xs) && p !in xs && k <= |xs|
    requires forall j :: k <= j < |xs| ==> PairLess(p, xs[j])
    requires k > 0 ==> !PairLess(p, xs[k - 1])
    ensures Ascending(xs[..k] + [p] + xs[k..])
  {
    var ys := xs[..k] + [p] + xs[k..];
    if k > 0 { assert xs[k - 1] in xs && PairLess(xs[k - 1], p); }
    forall i, j | 0 <= i < j < |ys| ensures PairLess(ys[i], ys[j]) {
      if j == k {
        assert ys[i] == xs[i];
        if i < k - 1 { assert PairLess(xs[i], xs[k - 1]); }
      } else if i == k {
        assert ys[j] == xs[j - 1];
      } else {
        assert ys[i] == xs[if i < k then i else i - 1] && ys[j] == xs[if j < k then j else j - 1];
      }
    }
  }

  /** The values of the index, sorted. */
  method SortedPlaces(latest: map<seq<Byte>, Place>) returns (winners: seq<Place>)
    requires forall j, k :: j in latest && k in latest && j != k ==> latest[j] != latest[k]
    ensures Ascending(winners) && forall p :: p in winners <==> p in latest.Values
  {
    winners := [];
    var left := latest.Keys;
    while left != {}
      invariant left <= latest.Keys && Ascending(winners)
      invariant forall p :: p in winners <==> exists k :: k in latest && k !in left && latest[k] == p
      decreases |left|
    {
      var k :| k in left;
      winners := InsertPlace(winners, latest[k]);
      left := left - {k};
    }
  }

  predicate AscendingRows(rows: seq<nat>) {
    forall i, j :: 0 <= i < j < |rows| ==> rows[i] < rows[j]
  }

  /** `keep` lists the winners, batch by batch. */
  ghost predicate Lists(keep: seq<seq<nat>>, winners: seq<Place>) {
    && (forall b :: 0 <= b < |keep| ==> AscendingRows(keep[b]))
    && (forall b, r :: 0 <= b < |keep| ==> (r in keep[b] <==> (b, r) in winners))
  }

  method Distribute(winners: seq<Place>, n: nat) returns (keep: seq<seq<nat>>)
    requires Ascending(winners) && forall p :: p in winners ==> p.0 < n
    ensures |keep| == n && Lists(keep, winners)
  {
    keep := seq(n, _ => []);
    for i := 0 to |winners|
      invariant |keep| == n && Lists(keep, winners[..i])
    {
      var (b, r) := winners[i];
      assert winners[i] in winners;
      ListsNext(keep, winners, i);
      keep := keep[b := keep[b] + [r]];
    }
    assert winners[..|winners|] == winners;
  }

  lemma ListsNext(keep: seq<seq<nat>>, winners: seq<Place>, i: nat)
    requires Ascending(winners) && i < |winners| && winners[i].0 < |keep| && Lists(keep, winners[..i])
    ensures var (b, r) := winners[i]; Lists(keep[b := keep[b] + [r]], winners[..i + 1])
  {
    var (b, r) := winners[i];
    forall r' | r' in keep[b] ensures r' < r {
      assert (b, r') in winners[..i];
      var j :| 0 <= j < i && winners[j] == (b, r');
      assert PairLess(winners[j], winners[i]);
    }
    assert winners[..i + 1] == winners[..i] + [winners[i]];
    var next := keep[b := keep[b] + [r]];
    forall c, r' | 0 <= c < |next| ensures r' in next[c] <==> (c, r') in winners[..i + 1] {
      if c == b { assert r' in next[c] <==> r' in keep[b] || r' == r; }
    }
    assert forall x :: 0 <= x < |keep[b]| ==> keep[b][x] in keep[b];
  }

  /** Per batch, the rows that are the last of their key in the whole file, ascending; or an error
      if some row has a key cell of an unusable type. */
  method DedupLastWins(batches: seq<seq<Row>>, schema: seq<ColumnType>, pk: seq<nat>)
      returns (r: Result<seq<seq<nat>>, Error>)
    requires TypedBatches(batches, schema) && ValidPk(pk, schema)
    ensures r.Ok? <==> forall p :: IsPlace(batches, p) ==> KeyAt(batches, schema, pk, p).Ok?
    ensures r.Ok? ==> |r.value| == |batches| && forall b :: 0 <= b < |batches| ==> AscendingRows(r.value[b])
    ensures r.Ok? ==> forall b, i :: 0 <= b < |batches| ==>
              (i in r.value[b] <==> Latest(batches, schema, pk, (b, i), (|batches|, 0)))
  {
    var latest: map<seq<Byte>, Place> := map[];
    for b := 0 to |batches|
      invariant IsIndex(batches, schema, pk, latest, (b, 0))
    {
      for i := 0 to |batches[b]|
        invariant IsIndex(batches, schema, pk, latest, (b, i))
      {
        var key := BuildKey(batches[b][i], schema, pk);
        if key.Err? {
          assert KeyAt(batches, schema, pk, (b, i)).Err?;
          return Err(key.error);
        }
        IndexNext(batches, schema, pk, latest, b, i, key.value);
        latest := latest[key.value := (b, i)];
      }
      IndexNextBatch(batches, schema, pk, latest, b);
    }
    var winners := SortedPlaces(latest);
    var keep := Distribute(winners, |batches|);
    WinnersAreLatest(batches, schema, pk, latest, winners);
    r := Ok(keep);
  }

  lemma WinnersAreLatest(batches: seq<seq<Row>>, schema: seq<ColumnType>, pk: seq<nat>, latest: map<seq<Byte>, Place>,
                         winners: seq<Place>)
    requires TypedBatches(batches, schema) && ValidPk(pk, schema)
    requires IsIndex(batches, schema, pk, latest, (|batches|, 0))
    requires forall p :: p in winners <==> p in latest.Values
    ensures forall p :: p in winners <==> Latest(batches, schema, pk, p, (|batches|, 0))
  {
    hide TypedBatches, KeyAt, ValidPk;
    forall p | Latest(batches, schema, pk, p, (|batches|, 0)) ensures p in latest.Values {
      var k := KeyAt(batches, schema, pk, p).value;
      var q := latest[k];
      assert Latest(batches, schema, pk, q, (|batches|, 0));
      assert !PairLess(p, q) && !PairLess(q, p);
      assert p == q;
    }
  }
}
