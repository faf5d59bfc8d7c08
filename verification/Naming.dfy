/** Object names, serial sequence numbers and job identifiers (src/naming.rs). */
module Naming {
  import opened Base

  // ---------------------------------------------------------------------
  // serial_seq: 43 bits of epoch above 20 bits of seq
  // ---------------------------------------------------------------------

  const SEQ_SPAN: nat := 0x10_0000
  const MAX_SEQ: nat := SEQ_SPAN - 1
  const MAX_EPOCH_MS: nat := 0x7FF_FFFF_FFFF
  const U64_SPAN: nat := 0x1_0000_0000_0000_0000

  /** The shift-and-or of the source; the two bit ranges are disjoint, so it is a sum. */
  function Pack(epoch: nat, num: nat): int {
    epoch * SEQ_SPAN + num
  }

  function EncodeSerialSeq(epoch: nat, num: nat): (r: Result<int, Error>)
    ensures r.Ok? <==> epoch <= MAX_EPOCH_MS && num <= MAX_SEQ
    ensures r.Ok? ==> 0 <= r.value <= I64_MAX
  {
    if epoch > MAX_EPOCH_MS then Err(Error.Naming)
    else if num > MAX_SEQ then Err(Error.Naming)
    else Ok(Pack(epoch, num))
  }

  /** The cast to u64 reads a negative number as its two's complement. */
  function DecodeSerialSeq(serial: int): (nat, nat)
    requires I64_MIN <= serial <= I64_MAX
  {
    var v: nat := if serial < 0 then serial + U64_SPAN else serial;
    (v / SEQ_SPAN, v % SEQ_SPAN)
  }

  predicate PairLess(a: (nat, nat), b: (nat, nat)) {
    a.0 < b.0 || (a.0 == b.0 && a.1 < b.1)
  }

  /** An operator reading a serial_seq back gets the pair it was made from. */
  lemma DecodeInvertsEncode(epoch: nat, num: nat)
    requires epoch <= MAX_EPOCH_MS && num <= MAX_SEQ
    ensures EncodeSerialSeq(epoch, num).Ok? && DecodeSerialSeq(EncodeSerialSeq(epoch, num).value) == (epoch, num)
  {
    assert Pack(epoch, num) / SEQ_SPAN == epoch && Pack(epoch, num) % SEQ_SPAN == num;
  }

  /** Every non-negative i64 is the code of exactly one encodable pair. */
  lemma EncodeInvertsDecode(serial: int)
    requires 0 <= serial <= I64_MAX
    ensures var (e, q) := DecodeSerialSeq(serial); EncodeSerialSeq(e, q) == Ok(serial)
  {
    var (e, q) := DecodeSerialSeq(serial);
    assert serial == e * SEQ_SPAN + q;
  }

  lemma PackOrder(e: nat, q: nat, e': nat, q': nat)
    requires q <= MAX_SEQ && q' <= MAX_SEQ
    ensures PairLess((e, q), (e', q')) <==> Pack(e, q) < Pack(e', q')
  {
  }

  // ---------------------------------------------------------------------
  // decimal text
  // ---------------------------------------------------------------------

  predicate IsDigit(c: char) { '0' <= c <= '9' }

  predicate AllDigits(s: string) { forall i :: 0 <= i < |s| ==> IsDigit(s[i]) }

  function Digit(n: nat): (c: char)
    requires n < 10
    ensures IsDigit(c)
  {
    '0' + n as char
  }

  function DigitValue(c: char): (n: nat)
    requires IsDigit(c)
    ensures n < 10 && Digit(n) == c
  {
    (c - '0') as nat
  }

  /** Decimal digits of `n`, most significant first, no leading zero. */
  function Digits(n: nat): (s: string)
    ensures |s| > 0 && AllDigits(s)
    ensures Value(s) == n
  {
    if n < 10 then [Digit(n)]
    else
      var s := Digits(n / 10) + [Digit(n % 10)];
      assert s[..|s| - 1] == Digits(n / 10);
      s
  }

  function Value(s: string): nat
    requires AllDigits(s)
  {
    if s == "" then 0 else 10 * Value(s[..|s| - 1]) + DigitValue(s[|s| - 1])
  }

  function Pow10(n: nat): (p: nat)
    ensures p > 0
  {
    if n == 0 then 1 else 10 * Pow10(n - 1)
  }

  function Zeros(n: nat): (s: string)
    ensures |s| == n && AllDigits(s) && Value(s) == 0
  {
    if n == 0 then ""
    else
      var s := Zeros(n - 1) + "0";
      assert s[..|s| - 1] == Zeros(n - 1);
      s
  }

  /** `{n:0w}`: at least `w` digits, zero padded on the left. */
  function Pad(n: nat, w: nat): (s: string)
    ensures AllDigits(s) && |s| >= w && |s| > 0
    ensures Value(s) == n
  {
    var d := Digits(n);
    if |d| >= w then d
    else ValueOfConcat(Zeros(w - |d|), d); Zeros(w - |d|) + d
  }

  lemma {:induction false} ValueOfConcat(a: string, b: string)
    requires AllDigits(a) && AllDigits(b)
    ensures AllDigits(a + b)
    ensures Value(a + b) == Value(a) * Pow10(|b|) + Value(b)
  {
    if b == "" {
      assert a + b == a;
    } else {
      var b' := b[..|b| - 1];
      ValueOfConcat(a, b');
      assert (a + b)[..|a + b| - 1] == a + b';
      MulTen(Value(a), Pow10(|b'|));
    }
  }

  lemma MulTen(x: nat, y: nat)
    ensures x * (10 * y) == 10 * (x * y)
  {
  }

  /** A number below 10^w takes at most w digits. */
  lemma {:induction false} DigitsLength(n: nat, w: nat)
    requires w > 0 && n < Pow10(w)
    ensures |Digits(n)| <= w
  {
    if n >= 10 {
      assert w > 1;
      DigitsLength(n / 10, w - 1);
    }
  }

  /** Two digit strings of one length and one value are the same string. */
  lemma {:induction false} ValueInjective(a: string, b: string)
    requires AllDigits(a) && AllDigits(b) && |a| == |b| && Value(a) == Value(b)
    ensures a == b
  {
    if a != "" {
      var n := |a| - 1;
      assert DigitValue(a[n]) == Value(a) % 10 == DigitValue(b[n]);
      ValueInjective(a[..n], b[..n]);
      assert a == a[..n] + [a[n]] && b == b[..n] + [b[n]];
    }
  }

  // ---------------------------------------------------------------------
  // lexicographic order of keys
  // ---------------------------------------------------------------------

  /** `a` and `b` agree before position `k`, and at `k` string `a` is the smaller. */
  predicate LessAt(a: string, b: string, k: nat) {
    k < |a| && k < |b| && a[..k] == b[..k] && a[k] < b[k]
  }

  ghost predicate LexLess(a: string, b: string) {
    (|a| < |b| && a == b[..|a|]) || exists k: nat :: LessAt(a, b, k)
  }

  lemma LessAtOneWay(a: string, b: string, k: nat, k': nat)
    requires LessAt(a, b, k)
    ensures !LessAt(b, a, k')
  {
    assert forall i :: 0 <= i < k ==> a[i] == a[..k][i] == b[..k][i] == b[i];
    if k' < |a| && k' < |b| && k < k' {
      assert a[..k'][k] == a[k] && b[..k'][k] == b[k];
    }
  }

  lemma LexLessAsymmetric(a: string, b: string, k: nat)
    requires LessAt(a, b, k)
    ensures !LexLess(b, a)
  {
    forall k': nat ensures !LessAt(b, a, k') {
      LessAtOneWay(a, b, k, k');
    }
    if |b| < |a| {
      assert k < |b|;
      assert a[..|b|][k] == a[k];
    }
  }

  /** On digit strings of one length, the first difference decides as the values do. */
  lemma {:induction false} DigitOrder(a: string, b: string) returns (k: nat)
    requires AllDigits(a) && AllDigits(b) && |a| == |b| && Value(a) < Value(b)
    ensures LessAt(a, b, k)
  {
    var n := |a| - 1;
    if Value(a[..n]) == Value(b[..n]) {
      ValueInjective(a[..n], b[..n]);
      k := n;
    } else {
      k := DigitOrder(a[..n], b[..n]);
      assert a[..n][..k] == a[..k] && b[..n][..k] == b[..k];
    }
  }

  /** A text field, its separator, and the rest of the text. */
  function Field(a: string, c: char, rest: string): string {
    a + [c] + rest
  }

  lemma LessAtField(a: string, b: string, c: char, x: string, y: string, k: nat)
    requires LessAt(a, b, k)
    ensures LessAt(Field(a, c, x), Field(b, c, y), k)
  {
    assert Field(a, c, x)[..k] == a[..k] && Field(b, c, y)[..k] == b[..k];
  }

  lemma LessAtBehind(p: string, x: string, y: string, k: nat)
    requires LessAt(x, y, k)
    ensures LessAt(p + x, p + y, |p| + k)
  {
    assert (p + x)[..|p| + k] == p + x[..k] && (p + y)[..|p| + k] == p + y[..k];
  }

  lemma LessAtNextField(a: string, c: char, x: string, y: string, k: nat)
    requires LessAt(x, y, k)
    ensures LessAt(Field(a, c, x), Field(a, c, y), |a| + 1 + k)
  {
    LessAtBehind(a + [c], x, y, k);
  }

  lemma FieldAppend(a: string, c: char, x: string, y: string)
    ensures Field(a, c, x) + y == Field(a, c, x + y)
  {
  }

  // ---------------------------------------------------------------------
  // identities and keys
  // ---------------------------------------------------------------------

  const WRITER_ID_MAX_LEN: nat := 64
  const IDENTIFIER_MAX_LEN: nat := 128
  const U32_MAX: nat := 0xFFFF_FFFF
  const EPOCH_PAD: nat := 13
  const SEQ_PAD: nat := 7

  predicate SegmentChar(c: char) {
    'A' <= c <= 'Z' || 'a' <= c <= 'z' || IsDigit(c) || c == '.' || c == '_' || c == '-'
  }

  /** validate_path_segment: the rules of every staging path segment. */
  predicate ValidSegment(s: string) {
    && 0 < |s| <= WRITER_ID_MAX_LEN
    && (exists i :: 0 <= i < |s| && s[i] != '.')
    && (forall i :: 0 <= i < |s| ==> SegmentChar(s[i]))
  }

  predicate ValidWriterId(s: string) {
    ValidSegment(s) && s[0] != '_'
  }

  datatype WriterIdentity = WriterIdentity(clusterId: string, dbOid: nat, relOid: nat, writerId: string) {
    predicate Valid() {
      && ValidSegment(clusterId) && ValidWriterId(writerId)
      && dbOid <= U32_MAX && relOid <= U32_MAX
    }

    /** The path below `staging/`, followed by `name`. */
    function Path(name: string): string {
      Field(clusterId, '/', Field(Digits(dbOid), '/', Field(Digits(relOid), '/', Field(writerId, '/', name))))
    }

    function SerialGroup(): string {
      Field(Digits(dbOid), ':', Field(Digits(relOid), ':', writerId))
    }
  }

  datatype StagedFile = StagedFile(epoch: nat, num: nat, start: int, end: int, compressed: bool) {
    /** The names `append` and `seal` can give out. */
    predicate Encodable() {
      epoch <= MAX_EPOCH_MS && num <= MAX_SEQ && 0 <= start <= I64_MAX && 0 <= end <= I64_MAX
    }

    function SerialSeq(): Result<int, Error> {
      EncodeSerialSeq(epoch, num)
    }

    function Serial(): int {
      Pack(epoch, num)
    }

    function Key(): (nat, nat) {
      (epoch, num)
    }

    function Extension(): string {
      if compressed then ".csv.gz" else ".csv"
    }

    function Offsets(): string
      requires Encodable()
    {
      Field("o" + Digits(start), '-', Digits(end))
    }

    function Basename(): string
      requires Encodable()
    {
      Field(Pad(epoch, EPOCH_PAD), '-', Field(Pad(num, SEQ_PAD), '-', Offsets() + Extension()))
    }

    function ObjectKey(ident: WriterIdentity): string
      requires Encodable()
    {
      "staging/" + ident.Path(Basename())
    }

    function IdentifierText(ident: WriterIdentity): string {
      Field(Digits(ident.dbOid), ':', Field(Digits(ident.relOid), ':', Field(ident.writerId, ':',
        Field(Digits(epoch), ':', Digits(num)))))
    }

    function Identifier(ident: WriterIdentity): Result<string, Error> {
      if |IdentifierText(ident)| > IDENTIFIER_MAX_LEN then Err(Error.Naming) else Ok(IdentifierText(ident))
    }
  }

  // ---------------------------------------------------------------------
  // parsing a basename
  // ---------------------------------------------------------------------

  function Split(s: string, c: char): (r: seq<string>)
    ensures |r| > 0
  {
    if s == "" then [""]
    else
      var r := Split(s[1..], c);
      if s[0] == c then [""] + r else [[s[0]] + r[0]] + r[1..]
  }

  /** Integer parsing of the standard library: an optional `+`, then digits within range.
      A `-` sign cannot occur, because the stem was split on it. */
  function ParseUnsigned(s: string, max: nat): Option<nat> {
    var t := if |s| > 1 && s[0] == '+' then s[1..] else s;
    if t == "" || !AllDigits(t) || Value(t) > max then None else Some(Value(t))
  }

  predicate EndsWith(s: string, suffix: string) {
    |suffix| <= |s| && s[|s| - |suffix|..] == suffix
  }

  function ParseBasename(name: string): Option<StagedFile> {
    if EndsWith(name, ".csv.gz") then ParseStem(name[..|name| - 7], true)
    else if EndsWith(name, ".csv") then ParseStem(name[..|name| - 4], false)
    else None
  }

  function ParseStem(stem: string, compressed: bool): Option<StagedFile> {
    var parts := Split(stem, '-');
    if |parts| != 4 || |parts[2]| == 0 || parts[2][0] != 'o' then None
    else
      var epoch := ParseUnsigned(parts[0], U64_SPAN - 1);
      var num := ParseUnsigned(parts[1], U32_MAX);
      var start := ParseUnsigned(parts[2][1..], I64_MAX);
      var end := ParseUnsigned(parts[3], I64_MAX);
      if epoch.None? || num.None? || start.None? || end.None? then None
      else Some(StagedFile(epoch.value, num.value, start.value, end.value, compressed))
  }

  lemma {:induction false} SplitAtFirst(a: string, c: char, b: string)
    requires c !in a
    ensures Split(Field(a, c, b), c) == [a] + Split(b, c)
  {
    var s := Field(a, c, b);
    if a == "" {
      assert s[1..] == b;
    } else {
      assert s[1..] == Field(a[1..], c, b);
      SplitAtFirst(a[1..], c, b);
      assert [a[0]] + a[1..] == a;
    }
  }

  lemma {:induction false} SplitNone(a: string, c: char)
    requires c !in a
    ensures Split(a, c) == [a]
  {
    if a != "" {
      SplitNone(a[1..], c);
      assert [a[0]] + a[1..] == a;
    }
  }

  lemma DigitsHaveNo(s: string, c: char)
    requires AllDigits(s) && !IsDigit(c)
    ensures c !in s
  {
  }

  lemma ParseOfDigits(s: string, max: nat)
    requires AllDigits(s) && |s| > 0 && Value(s) <= max
    ensures ParseUnsigned(s, max) == Some(Value(s))
  {
    assert IsDigit(s[0]);
  }

  /** Four '-'-free fields come back as four parts. */
  lemma SplitFour(a: string, b: string, c: string, d: string)
    requires '-' !in a && '-' !in b && '-' !in c && '-' !in d
    ensures Split(Field(a, '-', Field(b, '-', Field(c, '-', d))), '-') == [a, b, c, d]
  {
    SplitAtFirst(a, '-', Field(b, '-', Field(c, '-', d)));
    SplitAtFirst(b, '-', Field(c, '-', d));
    SplitAtFirst(c, '-', d);
    SplitNone(d, '-');
  }

  lemma ParseOfStem(e: string, q: string, s: string, d: string, compressed: bool)
    requires AllDigits(e) && AllDigits(q) && AllDigits(s) && AllDigits(d)
    requires |e| > 0 && |q| > 0 && |s| > 0 && |d| > 0
    requires Value(e) < U64_SPAN && Value(q) <= U32_MAX && Value(s) <= I64_MAX && Value(d) <= I64_MAX
    ensures ParseStem(Field(e, '-', Field(q, '-', Field("o" + s, '-', d))), compressed)
         == Some(StagedFile(Value(e), Value(q), Value(s), Value(d), compressed))
  {
    hide Field, Split, Value, AllDigits, ParseUnsigned;
    DigitsHaveNo(e, '-');
    DigitsHaveNo(q, '-');
    DigitsHaveNo(s, '-');
    DigitsHaveNo(d, '-');
    SplitFour(e, q, "o" + s, d);
    assert ("o" + s)[1..] == s;
    ParseOfDigits(e, U64_SPAN - 1);
    ParseOfDigits(q, U32_MAX);
    ParseOfDigits(s, I64_MAX);
    ParseOfDigits(d, I64_MAX);
  }

  /** Printing a name and parsing it gives the file back. */
  lemma ParseInvertsPrint(f: StagedFile)
    requires f.Encodable()
    ensures ParseBasename(f.Basename()) == Some(f)
  {
    var e, q := Pad(f.epoch, EPOCH_PAD), Pad(f.num, SEQ_PAD);
    var stem := Field(e, '-', Field(q, '-', f.Offsets()));
    assert f.Basename() == stem + f.Extension() by {
      FieldAppend(e, '-', Field(q, '-', f.Offsets()), f.Extension());
      FieldAppend(q, '-', f.Offsets(), f.Extension());
    }
    StripExtension(stem, f.compressed, f.Extension());
    ParseOfStem(e, q, Digits(f.start), Digits(f.end), f.compressed);
  }

  lemma StripExtension(stem: string, compressed: bool, ext: string)
    requires ext == if compressed then ".csv.gz" else ".csv"
    ensures ParseBasename(stem + ext) == ParseStem(stem, compressed)
  {
    var name := stem + ext;
    assert name[|name| - |ext|..] == ext && name[..|name| - |ext|] == stem;
    if !compressed && |name| >= 7 {
      assert name[|name| - 7..][6] == 'v';
    }
  }

  /** `parse_basename` also takes names `object_key` never prints: an epoch with one more leading
      zero reads as the same file, so parsing is not injective. */
  lemma ParseIgnoresPadding(e: string, f: StagedFile)
    requires f.Encodable() && AllDigits(e) && |e| > 0 && Value(e) == f.epoch
    ensures ParseBasename(Field(e, '-', Field(Pad(f.num, SEQ_PAD), '-', f.Offsets())) + f.Extension()) == Some(f)
  {
    var q := Pad(f.num, SEQ_PAD);
    StripExtension(Field(e, '-', Field(q, '-', f.Offsets())), f.compressed, f.Extension());
    ParseOfStem(e, q, Digits(f.start), Digits(f.end), f.compressed);
  }

  // ---------------------------------------------------------------------
  // the three orders agree
  // ---------------------------------------------------------------------

  lemma PaddedLengths(f: StagedFile)
    requires f.Encodable()
    ensures |Pad(f.epoch, EPOCH_PAD)| == EPOCH_PAD && |Pad(f.num, SEQ_PAD)| == SEQ_PAD
  {
    assert Pow10(7) == 10_000_000 by { assert Pow10(4) == 10_000; }
    assert Pow10(13) == 10_000_000_000_000 by { assert Pow10(10) == 10_000_000_000; }
    DigitsLength(f.epoch, EPOCH_PAD);
    DigitsLength(f.num, SEQ_PAD);
  }

  /** Within one stream, key order is (epoch, seq) order is serial_seq order. */
  lemma OrdersAgree(f: StagedFile, g: StagedFile, ident: WriterIdentity)
    requires f.Encodable() && g.Encodable() && f.Key() != g.Key()
    ensures PairLess(f.Key(), g.Key()) <==> f.Serial() < g.Serial()
    ensures PairLess(f.Key(), g.Key()) <==> LexLess(f.ObjectKey(ident), g.ObjectKey(ident))
  {
    PackOrder(f.epoch, f.num, g.epoch, g.num);
    if PairLess(f.Key(), g.Key()) {
      var k := SmallerKeyFirst(f, g, ident);
    } else {
      var k := SmallerKeyFirst(g, f, ident);
      LexLessAsymmetric(g.ObjectKey(ident), f.ObjectKey(ident), k);
    }
  }

  lemma SmallerBasenameFirst(f: StagedFile, g: StagedFile) returns (k: nat)
    requires f.Encodable() && g.Encodable() && PairLess(f.Key(), g.Key())
    ensures LessAt(f.Basename(), g.Basename(), k)
  {
    PaddedLengths(f);
    PaddedLengths(g);
    var e, e' := Pad(f.epoch, EPOCH_PAD), Pad(g.epoch, EPOCH_PAD);
    var q, q' := Pad(f.num, SEQ_PAD), Pad(g.num, SEQ_PAD);
    var x, x' := f.Offsets() + f.Extension(), g.Offsets() + g.Extension();
    if f.epoch < g.epoch {
      k := DigitOrder(e, e');
      LessAtField(e, e', '-', Field(q, '-', x), Field(q', '-', x'), k);
    } else {
      k := DigitOrder(q, q');
      LessAtField(q, q', '-', x, x', k);
      LessAtNextField(e, '-', Field(q, '-', x), Field(q', '-', x'), k);
      k := |e| + 1 + k;
    }
  }

  lemma LessAtFourFields(a: string, b: string, c: string, d: string, x: string, y: string, k: nat)
    requires LessAt(x, y, k)
    ensures LessAt(Field(a, '/', Field(b, '/', Field(c, '/', Field(d, '/', x)))),
                   Field(a, '/', Field(b, '/', Field(c, '/', Field(d, '/', y)))),
                   |a| + 1 + (|b| + 1 + (|c| + 1 + (|d| + 1 + k))))
  {
    LessAtNextField(d, '/', x, y, k);
    var x1, y1 := Field(d, '/', x), Field(d, '/', y);
    LessAtNextField(c, '/', x1, y1, |d| + 1 + k);
    var x2, y2 := Field(c, '/', x1), Field(c, '/', y1);
    LessAtNextField(b, '/', x2, y2, |c| + 1 + (|d| + 1 + k));
    LessAtNextField(a, '/', Field(b, '/', x2), Field(b, '/', y2), |b| + 1 + (|c| + 1 + (|d| + 1 + k)));
  }

  lemma PathOrder(ident: WriterIdentity, x: string, y: string, k: nat) returns (k': nat)
    requires LessAt(x, y, k)
    ensures LessAt(ident.Path(x), ident.Path(y), k')
  {
    var a, b, c, d := ident.clusterId, Digits(ident.dbOid), Digits(ident.relOid), ident.writerId;
    LessAtFourFields(a, b, c, d, x, y, k);
    k' := |a| + 1 + (|b| + 1 + (|c| + 1 + (|d| + 1 + k)));
  }

  lemma SmallerKeyFirst(f: StagedFile, g: StagedFile, ident: WriterIdentity) returns (k: nat)
    requires f.Encodable() && g.Encodable() && PairLess(f.Key(), g.Key())
    ensures LessAt(f.ObjectKey(ident), g.ObjectKey(ident), k)
  {
    var x, y := f.Basename(), g.Basename();
    var k0 := SmallerBasenameFirst(f, g);
    var k1 := PathOrder(ident, x, y, k0);
    LessAtBehind("staging/", ident.Path(x), ident.Path(y), k1);
    k := |"staging/"| + k1;
  }

  // ---------------------------------------------------------------------
  // no key is a prefix of a key of another file
  // ---------------------------------------------------------------------

  lemma SeparatorsAlign(a: string, x: string, b: string, y: string, c: char)
    requires c !in a && c !in b
    requires Field(a, c, x) <= Field(b, c, y)
    ensures |a| == |b|
  {
    var s, t := Field(a, c, x), Field(b, c, y);
    assert s[|a|] == c && t[|a|] == c && t[|b|] == c;
    assert forall i :: 0 <= i < |a| ==> s[i] == a[i];
    assert forall i :: 0 <= i < |b| ==> t[i] == b[i];
  }

  /** Fields that cannot hold the separator line up when one text is a prefix of the other. */
  lemma PrefixFields(a: string, x: string, b: string, y: string, c: char)
    requires c !in a && c !in b
    requires Field(a, c, x) <= Field(b, c, y)
    ensures a == b && x <= y
  {
    SeparatorsAlign(a, x, b, y, c);
    var s, t := Field(a, c, x), Field(b, c, y);
    assert a == s[..|a|] == t[..|a|] == b;
    PrefixDrop(a + [c], x, y);
  }

  lemma PrefixDrop(p: string, x: string, y: string)
    requires p + x <= p + y
    ensures x <= y
  {
    assert x == (p + x)[|p|..] && y == (p + y)[|p|..];
    forall i | 0 <= i < |x| ensures x[i] == y[i] {
      assert x[i] == (p + x)[|p| + i] == (p + y)[|p| + i] == y[i];
    }
  }

  lemma SegmentHasNoSeparator(s: string)
    requires ValidSegment(s)
    ensures '/' !in s && ':' !in s
  {
  }

  lemma SameDigits(n: nat, m: nat)
    requires Digits(n) == Digits(m)
    ensures n == m
  {
  }

  /** A staged key is a prefix of another only when both name the same stream, epoch, seq and
      offset range: the master consumes sources by prefix and never picks up a second file. */
  lemma KeysPrefixFree(f: StagedFile, i: WriterIdentity, g: StagedFile, j: WriterIdentity)
    requires f.Encodable() && g.Encodable() && i.Valid() && j.Valid()
    requires f.ObjectKey(i) <= g.ObjectKey(j)
    ensures i == j
    ensures f == g || f == g.(compressed := false)
  {
    SegmentHasNoSeparator(i.clusterId);
    SegmentHasNoSeparator(j.clusterId);
    SegmentHasNoSeparator(i.writerId);
    SegmentHasNoSeparator(j.writerId);
    var x1, y1 := f.Basename(), g.Basename();
    var x2, y2 := Field(i.writerId, '/', x1), Field(j.writerId, '/', y1);
    var x3, y3 := Field(Digits(i.relOid), '/', x2), Field(Digits(j.relOid), '/', y2);
    var x4, y4 := Field(Digits(i.dbOid), '/', x3), Field(Digits(j.dbOid), '/', y3);
    PrefixDrop("staging/", i.Path(x1), j.Path(y1));
    PrefixFields(i.clusterId, x4, j.clusterId, y4, '/');
    PrefixFields(Digits(i.dbOid), x3, Digits(j.dbOid), y3, '/');
    PrefixFields(Digits(i.relOid), x2, Digits(j.relOid), y2, '/');
    PrefixFields(i.writerId, x1, j.writerId, y1, '/');
    SameDigits(i.dbOid, j.dbOid);
    SameDigits(i.relOid, j.relOid);
    BasenamesPrefixFree(f, g);
  }

  lemma BasenamesPrefixFree(f: StagedFile, g: StagedFile)
    requires f.Encodable() && g.Encodable() && f.Basename() <= g.Basename()
    ensures f == g || f == g.(compressed := false)
  {
    var x2, y2 := f.Offsets() + f.Extension(), g.Offsets() + g.Extension();
    var x1, y1 := Field(Pad(f.num, SEQ_PAD), '-', x2), Field(Pad(g.num, SEQ_PAD), '-', y2);
    PrefixFields(Pad(f.epoch, EPOCH_PAD), x1, Pad(g.epoch, EPOCH_PAD), y1, '-');
    PrefixFields(Pad(f.num, SEQ_PAD), x2, Pad(g.num, SEQ_PAD), y2, '-');
    OffsetsPrefixFree(Digits(f.start), Digits(f.end), f.Extension(), Digits(g.start), Digits(g.end), g.Extension());
    SameDigits(f.start, g.start);
    SameDigits(f.end, g.end);
  }

  lemma OffsetsPrefixFree(s: string, d: string, ext: string, s': string, d': string, ext': string)
    requires AllDigits(s) && AllDigits(d) && AllDigits(s') && AllDigits(d')
    requires |ext| > 0 && |ext'| > 0 && ext[0] == '.' && ext'[0] == '.'
    requires Field("o" + s, '-', d) + ext <= Field("o" + s', '-', d') + ext'
    ensures s == s' && d == d' && |ext| <= |ext'|
  {
    FieldAppend("o" + s, '-', d, ext);
    FieldAppend("o" + s', '-', d', ext');
    PrefixFields("o" + s, d + ext, "o" + s', d' + ext', '-');
    assert s == ("o" + s)[1..] && s' == ("o" + s')[1..];
    assert d + ext == Field(d, '.', ext[1..]) && d' + ext' == Field(d', '.', ext'[1..]);
    PrefixFields(d, ext[1..], d', ext'[1..], '.');
  }

  // ---------------------------------------------------------------------
  // identifiers
  // ---------------------------------------------------------------------

  lemma EqualFields(a: string, x: string, b: string, y: string, c: char)
    requires c !in a && c !in b
    requires Field(a, c, x) == Field(b, c, y)
    ensures a == b && x == y
  {
    PrefixFields(a, x, b, y, c);
    PrefixFields(b, y, a, x, c);
  }

  /** The idempotency key is exactly the (group, serial_seq) the server orders by. */
  lemma IdentifierIsGroupAndSerial(f: StagedFile, i: WriterIdentity, g: StagedFile, j: WriterIdentity)
    requires f.Encodable() && g.Encodable() && i.Valid() && j.Valid()
    ensures f.IdentifierText(i) == g.IdentifierText(j) <==>
            i.SerialGroup() == j.SerialGroup() && f.Serial() == g.Serial()
  {
    PackOrder(f.epoch, f.num, g.epoch, g.num);
    PackOrder(g.epoch, g.num, f.epoch, f.num);
    SegmentHasNoSeparator(i.writerId);
    SegmentHasNoSeparator(j.writerId);
    var x1, y1 := Field(Digits(f.epoch), ':', Digits(f.num)), Field(Digits(g.epoch), ':', Digits(g.num));
    if f.IdentifierText(i) == g.IdentifierText(j) {
      SameThreeFields(i, Field(i.writerId, ':', x1), j, Field(j.writerId, ':', y1));
      EqualFields(i.writerId, x1, j.writerId, y1, ':');
      EqualFields(Digits(f.epoch), Digits(f.num), Digits(g.epoch), Digits(g.num), ':');
      SameDigits(f.epoch, g.epoch);
      SameDigits(f.num, g.num);
    }
    if i.SerialGroup() == j.SerialGroup() {
      SameThreeFields(i, i.writerId, j, j.writerId);
    }
  }

  lemma SameThreeFields(i: WriterIdentity, x: string, j: WriterIdentity, y: string)
    requires Field(Digits(i.dbOid), ':', Field(Digits(i.relOid), ':', x)) ==
             Field(Digits(j.dbOid), ':', Field(Digits(j.relOid), ':', y))
    ensures i.dbOid == j.dbOid && i.relOid == j.relOid && x == y
  {
    var x', y' := Field(Digits(i.relOid), ':', x), Field(Digits(j.relOid), ':', y);
    EqualFields(Digits(i.dbOid), x', Digits(j.dbOid), y', ':');
    EqualFields(Digits(i.relOid), x, Digits(j.relOid), y, ':');
    SameDigits(i.dbOid, j.dbOid);
    SameDigits(i.relOid, j.relOid);
  }

  // ---------------------------------------------------------------------
  // reading keys and identifiers
  // ---------------------------------------------------------------------

  function ReadOid(s: string): Option<nat> {
    if s == "" || !AllDigits(s) then None else Some(Value(s))
  }

  /** `staging/<cluster>/<database>/<relation>/<writer>/<name>`. */
  function ReadKey(key: string): Option<(WriterIdentity, StagedFile)> {
    if |key| < 8 || key[..8] != "staging/" then None
    else
      var parts := Split(key[8..], '/');
      if |parts| != 5 then None
      else
        var db, rel, file := ReadOid(parts[1]), ReadOid(parts[2]), ParseBasename(parts[4]);
        if db.None? || rel.None? || file.None? then None
        else Some((WriterIdentity(parts[0], db.value, rel.value, parts[3]), file.value))
  }

  /** `<database>:<relation>:<writer>`, and behind it `:<epoch>:<seq>`. */
  function ReadGroup(parts: seq<string>): Option<(nat, nat, string)> {
    if |parts| < 3 then None
    else
      var db, rel := ReadOid(parts[0]), ReadOid(parts[1]);
      if db.None? || rel.None? then None else Some((db.value, rel.value, parts[2]))
  }

  function ReadIdentifier(s: string): Option<((nat, nat, string), (nat, nat))> {
    var parts := Split(s, ':');
    if |parts| != 5 then None
    else
      var group, epoch, num := ReadGroup(parts), ReadOid(parts[3]), ReadOid(parts[4]);
      if group.None? || epoch.None? || num.None? then None else Some((group.value, (epoch.value, num.value)))
  }

  lemma SplitFive(a: string, b: string, c: string, d: string, e: string, sep: char)
    requires sep !in a && sep !in b && sep !in c && sep !in d && sep !in e
    ensures Split(Field(a, sep, Field(b, sep, Field(c, sep, Field(d, sep, e)))), sep) == [a, b, c, d, e]
  {
    hide Field;
    SplitAtFirst(a, sep, Field(b, sep, Field(c, sep, Field(d, sep, e))));
    SplitAtFirst(b, sep, Field(c, sep, Field(d, sep, e)));
    SplitAtFirst(c, sep, Field(d, sep, e));
    SplitAtFirst(d, sep, e);
    SplitNone(e, sep);
  }

  lemma BasenameHasNoSlash(f: StagedFile)
    requires f.Encodable()
    ensures '/' !in f.Basename()
  {
    hide Pad, Digits;
    DigitsHaveNo(Pad(f.epoch, EPOCH_PAD), '/');
    DigitsHaveNo(Pad(f.num, SEQ_PAD), '/');
    DigitsHaveNo(Digits(f.start), '/');
    DigitsHaveNo(Digits(f.end), '/');
  }

  /** An object key reads back as the stream and the file it was made for. */
  lemma KeyReadsBack(f: StagedFile, ident: WriterIdentity)
    requires f.Encodable() && ident.Valid()
    ensures ReadKey(f.ObjectKey(ident)) == Some((ident, f))
  {
    SegmentHasNoSeparator(ident.clusterId);
    SegmentHasNoSeparator(ident.writerId);
    BasenameHasNoSlash(f);
    ParseInvertsPrint(f);
    hide Digits, ParseBasename, StagedFile.Basename, Field, Value, Split;
    DigitsHaveNo(Digits(ident.dbOid), '/');
    DigitsHaveNo(Digits(ident.relOid), '/');
    SplitFive(ident.clusterId, Digits(ident.dbOid), Digits(ident.relOid), ident.writerId, f.Basename(), '/');
    var key := f.ObjectKey(ident);
    assert key[..8] == "staging/" && key[8..] == ident.Path(f.Basename());
  }

  /** A serial group and an identifier read back as database, relation and writer, and the identifier
      as the file's epoch and seq behind them. */
  lemma IdentifierReadsBack(f: StagedFile, ident: WriterIdentity)
    requires f.Encodable() && ident.Valid()
    ensures ReadGroup(Split(ident.SerialGroup(), ':')) == Some((ident.dbOid, ident.relOid, ident.writerId))
    ensures ReadIdentifier(f.IdentifierText(ident)) ==
              Some(((ident.dbOid, ident.relOid, ident.writerId), (f.epoch, f.num)))
  {
    SegmentHasNoSeparator(ident.writerId);
    hide Digits, Field, Value, Split;
    var db, rel := Digits(ident.dbOid), Digits(ident.relOid);
    DigitsHaveNo(db, ':');
    DigitsHaveNo(rel, ':');
    DigitsHaveNo(Digits(f.epoch), ':');
    DigitsHaveNo(Digits(f.num), ':');
    SplitFive(db, rel, ident.writerId, Digits(f.epoch), Digits(f.num), ':');
    SplitAtFirst(db, ':', Field(rel, ':', ident.writerId));
    SplitAtFirst(rel, ':', ident.writerId);
    SplitNone(ident.writerId, ':');
  }

  /** The defensive length check never fires: 86 bytes of group, 108 of identifier. */
  lemma IdentifierAlwaysFits(f: StagedFile, ident: WriterIdentity)
    requires f.Encodable() && ident.Valid()
    ensures |ident.SerialGroup()| <= 86
    ensures f.Identifier(ident) == Ok(f.IdentifierText(ident)) && |f.IdentifierText(ident)| <= 108
  {
    assert Pow10(7) == 10_000_000 by { assert Pow10(4) == 10_000; }
    assert Pow10(10) == 10_000_000_000 by { assert Pow10(7) == 10_000_000; }
    assert Pow10(13) == 10_000_000_000_000 by { assert Pow10(10) == 10_000_000_000; }
    DigitsLength(ident.dbOid, 10);
    DigitsLength(ident.relOid, 10);
    DigitsLength(f.epoch, 13);
    DigitsLength(f.num, 7);
  }
}
