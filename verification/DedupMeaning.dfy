/** The index-based pass of dedup_last_wins picks exactly the rows that are the last of their key. */
module DedupMeaning {
  import opened Base
  import opened Naming
  import opened Values
  import opened Dedup
  import opened Upsert

  /** The rows from row `i` of batch `b` on. */
  function RowsFrom(batches: seq<seq<Row>>, b: nat, i: nat): seq<Row>
    requires b < |batches| && i <= |batches[b]|
    decreases |batches| - b
  {
    batches[b][i..] + (if b + 1 < |batches| then RowsFrom(batches, b + 1, 0) else [])
  }

  function AllRows(batches: seq<seq<Row>>): seq<Row> {
    if batches == [] then [] else RowsFrom(batches, 0, 0)
  }

  function Pick(batch: seq<Row>, rows: seq<nat>): seq<Row>
    requires forall j :: 0 <= j < |rows| ==> rows[j] < |batch|
  {
    seq(|rows|, j requires 0 <= j < |rows| => batch[rows[j]])
  }

  predicate Fits(batches: seq<seq<Row>>, keep: seq<seq<nat>>) {
    |keep| == |batches| && forall b :: 0 <= b < |keep| ==> forall j :: 0 <= j < |keep[b]| ==> keep[b][j] < |batches[b]|
  }

  /** What `render` formats: the kept rows of batch `b` and of the batches after it. */
  function KeptFrom(batches: seq<seq<Row>>, keep: seq<seq<nat>>, b: nat): seq<Row>
    requires Fits(batches, keep) && b <= |batches|
    decreases |batches| - b
  {
    if b == |batches| then [] else Pick(batches[b], keep[b]) + KeptFrom(batches, keep, b + 1)
  }

  /** The entries of an ascending list that are at least `i`. */
  function AtLeast(rows: seq<nat>, i: nat): (r: seq<nat>)
    ensures forall j :: 0 <= j < |r| ==> r[j] in rows
  {
    if rows == [] then [] else if rows[0] >= i then rows else AtLeast(rows[1..], i)
  }

  lemma RestAbove(rows: seq<nat>)
    requires AscendingRows(rows) && rows != []
    ensures AscendingRows(rows[1..]) && forall y :: y in rows[1..] ==> y > rows[0]
  {
    forall y | y in rows[1..] ensures y > rows[0] {
      var j :| 0 <= j < |rows[1..]| && rows[1..][j] == y;
      assert rows[j + 1] == y;
    }
  }

  lemma {:induction false} AtLeastStep(rows: seq<nat>, i: nat)
    requires AscendingRows(rows)
    ensures AtLeast(rows, i) == if i in rows then [i] + AtLeast(rows, i + 1) else AtLeast(rows, i + 1)
  {
    hide AscendingRows, AtLeast;
    if rows == [] {
      NothingAtLeast(i);
      NothingAtLeast(i + 1);
    } else {
      RestAbove(rows);
      AtLeastUnfolds(rows, i);
      AtLeastUnfolds(rows, i + 1);
      if rows[0] < i {
        AtLeastStep(rows[1..], i);
        MemberSplit(rows, i);
      } else {
        AtLeastHead(rows, i);
      }
    }
  }

  lemma AtLeastHead(rows: seq<nat>, i: nat)
    requires rows != [] && rows[0] >= i && forall y :: y in rows[1..] ==> y > rows[0]
    ensures rows == if i in rows then [i] + AtLeast(rows, i + 1) else AtLeast(rows, i + 1)
  {
    hide AtLeast;
    MemberSplit(rows, i);
    AtLeastUnfolds(rows, i + 1);
    if rows[0] == i {
      AllAtLeast(rows[1..], i + 1);
    }
  }

  lemma AtLeastUnfolds(rows: seq<nat>, i: nat)
    requires rows != []
    ensures AtLeast(rows, i) == if rows[0] >= i then rows else AtLeast(rows[1..], i)
  {
  }

  lemma NothingAtLeast(i: nat)
    ensures AtLeast([], i) == []
  {
  }

  lemma MemberSplit(rows: seq<nat>, i: nat)
    requires rows != []
    ensures rows == [rows[0]] + rows[1..] && (i in rows <==> i == rows[0] || i in rows[1..])
  {
    assert rows == [rows[0]] + rows[1..];
  }

  lemma AllAtLeast(rows: seq<nat>, i: nat)
    requires forall x :: x in rows ==> x >= i
    ensures AtLeast(rows, i) == rows
  {
    if rows != [] { assert rows[0] in rows; }
  }

  lemma {:induction false} NoneAtLeast(rows: seq<nat>, i: nat)
    requires forall j :: 0 <= j < |rows| ==> rows[j] < i
    ensures AtLeast(rows, i) == []
  {
    if rows != [] { NoneAtLeast(rows[1..], i); }
  }

  /** `y` is at a place of batch `b`, from row `i` on, or of a later batch. */
  ghost predicate Placed(batches: seq<seq<Row>>, b: nat, i: nat, y: Row) {
    exists q: Place :: IsPlace(batches, q) && !PairLess(q, (b, i)) && batches[q.0][q.1] == y
  }

  lemma PlacedHere(batches: seq<seq<Row>>, b: nat, i: nat, y: Row)
    requires b < |batches| && i <= |batches[b]|
    ensures y in batches[b][i..] ==> Placed(batches, b, i, y)
    ensures Placed(batches, b, i, y) ==> y in batches[b][i..] || Placed(batches, b + 1, 0, y)
    ensures Placed(batches, b + 1, 0, y) ==> Placed(batches, b, i, y)
  {
    var here := batches[b][i..];
    if y in here {
      var j :| 0 <= j < |here| && here[j] == y;
      var q: Place := (b, i + j);
      assert IsPlace(batches, q) && !PairLess(q, (b, i)) && batches[q.0][q.1] == y;
    }
    if q: Place :| IsPlace(batches, q) && !PairLess(q, (b, i)) && batches[q.0][q.1] == y {
      if q.0 == b {
        assert here[q.1 - i] == y;
      } else {
        assert !PairLess(q, (b + 1, 0));
      }
    }
  }

  /** A row is in the rest of the file exactly if it has a place there. */
  lemma {:induction false} RestMember(batches: seq<seq<Row>>, b: nat, i: nat, y: Row)
    requires b < |batches| && i <= |batches[b]|
    ensures y in RowsFrom(batches, b, i) <==>
              exists q: Place :: IsPlace(batches, q) && !PairLess(q, (b, i)) && batches[q.0][q.1] == y
    decreases |batches| - b
  {
    PlacedHere(batches, b, i, y);
    if b + 1 < |batches| {
      RestMember(batches, b + 1, 0, y);
    }
  }

  predicate ShortKeys(batches: seq<seq<Row>>, pk: seq<nat>) {
    forall b, r :: 0 <= b < |batches| && 0 <= r < |batches[b]| ==>
      KeyedRow(batches[b][r], pk) && ShortKey(batches[b][r], pk)
  }

  predicate AllKeyed(batches: seq<seq<Row>>, schema: seq<ColumnType>, pk: seq<nat>)
    requires TypedBatches(batches, schema) && ValidPk(pk, schema)
  {
    forall b, r :: 0 <= b < |batches| && 0 <= r < |batches[b]| ==> KeyAt(batches, schema, pk, (b, r)).Ok?
  }

  lemma SameKeyMeans(batches: seq<seq<Row>>, schema: seq<ColumnType>, pk: seq<nat>, p: Place, q: Place)
    requires TypedBatches(batches, schema) && ValidPk(pk, schema) && ShortKeys(batches, pk)
    requires AllKeyed(batches, schema, pk) && IsPlace(batches, p) && IsPlace(batches, q)
    ensures KeyedRow(batches[p.0][p.1], pk) && KeyedRow(batches[q.0][q.1], pk)
    ensures KeyAt(batches, schema, pk, p) == KeyAt(batches, schema, pk, q) <==>
              Project(batches[p.0][p.1], pk) == Project(batches[q.0][q.1], pk)
  {
    hide PkKey, Project, TypedRow, ShortKey;
    KeyIsInjective(batches[p.0][p.1], batches[q.0][q.1], schema, pk);
    assert KeyAt(batches, schema, pk, (p.0, p.1)).Ok? && KeyAt(batches, schema, pk, (q.0, q.1)).Ok?;
  }

  lemma LaterPlace(batches: seq<seq<Row>>, pk: seq<nat>, b: nat, i: nat, key: seq<Cell>) returns (q: Place)
    requires b < |batches| && i < |batches[b]| && Keyed(RowsFrom(batches, b, i + 1), pk)
    requires Writes(RowsFrom(batches, b, i + 1), pk, key)
    ensures IsPlace(batches, q) && PairLess((b, i), q) && KeyedRow(batches[q.0][q.1], pk)
    ensures Project(batches[q.0][q.1], pk) == key
  {
    var rest := RowsFrom(batches, b, i + 1);
    var j :| 0 <= j < |rest| && Project(rest[j], pk) == key;
    hide RowsFrom, Project, Writes;
    RestMember(batches, b, i + 1, rest[j]);
    q :| IsPlace(batches, q) && !PairLess(q, (b, i + 1)) && batches[q.0][q.1] == rest[j];
  }

  lemma WrittenAgain(batches: seq<seq<Row>>, schema: seq<ColumnType>, pk: seq<nat>, b: nat, i: nat)
    requires TypedBatches(batches, schema) && ValidPk(pk, schema) && ShortKeys(batches, pk)
    requires AllKeyed(batches, schema, pk) && IsPlace(batches, (b, i)) && Keyed(RowsFrom(batches, b, i + 1), pk)
    requires KeyedRow(batches[b][i], pk)
    requires Writes(RowsFrom(batches, b, i + 1), pk, Project(batches[b][i], pk))
    ensures !Latest(batches, schema, pk, (b, i), (|batches|, 0))
  {
    hide KeyAt, Project, TypedBatches, ShortKeys, AllKeyed, RowsFrom, Writes, Keyed;
    var q := LaterPlace(batches, pk, b, i, Project(batches[b][i], pk));
    SameKeyMeans(batches, schema, pk, (b, i), q);
    assert PairLess(q, (|batches|, 0));
  }

  lemma NotWrittenAgain(batches: seq<seq<Row>>, schema: seq<ColumnType>, pk: seq<nat>, b: nat, i: nat)
    requires TypedBatches(batches, schema) && ValidPk(pk, schema) && ShortKeys(batches, pk)
    requires AllKeyed(batches, schema, pk) && IsPlace(batches, (b, i)) && Keyed(RowsFrom(batches, b, i + 1), pk)
    requires KeyedRow(batches[b][i], pk)
    requires !Writes(RowsFrom(batches, b, i + 1), pk, Project(batches[b][i], pk))
    ensures Latest(batches, schema, pk, (b, i), (|batches|, 0))
  {
    hide KeyAt, Project, TypedBatches, ShortKeys, AllKeyed, RowsFrom;
    forall q: Place | IsPlace(batches, q) && PairLess((b, i), q)
      ensures KeyAt(batches, schema, pk, q) != KeyAt(batches, schema, pk, (b, i))
    {
      assert !PairLess(q, (b, i + 1));
      RestMember(batches, b, i + 1, batches[q.0][q.1]);
      SameKeyMeans(batches, schema, pk, (b, i), q);
    }
  }

  /** Being the last of its key is having no later row with the same key cells. */
  lemma LatestMeans(batches: seq<seq<Row>>, schema: seq<ColumnType>, pk: seq<nat>, b: nat, i: nat)
    requires TypedBatches(batches, schema) && ValidPk(pk, schema) && ShortKeys(batches, pk)
    requires AllKeyed(batches, schema, pk) && IsPlace(batches, (b, i)) && Keyed(RowsFrom(batches, b, i + 1), pk)
    requires KeyedRow(batches[b][i], pk)
    ensures Latest(batches, schema, pk, (b, i), (|batches|, 0)) <==>
              !Writes(RowsFrom(batches, b, i + 1), pk, Project(batches[b][i], pk))
  {
    hide Latest, Writes, TypedBatches, ShortKeys, AllKeyed, Keyed, RowsFrom, Project;
    if Writes(RowsFrom(batches, b, i + 1), pk, Project(batches[b][i], pk)) {
      WrittenAgain(batches, schema, pk, b, i);
    } else {
      NotWrittenAgain(batches, schema, pk, b, i);
    }
  }

  lemma {:induction false} RestKeyed(batches: seq<seq<Row>>, pk: seq<nat>, b: nat, i: nat)
    requires ShortKeys(batches, pk) && b < |batches| && i <= |batches[b]|
    ensures Keyed(RowsFrom(batches, b, i), pk)
    decreases |batches| - b
  {
    if b + 1 < |batches| { RestKeyed(batches, pk, b + 1, 0); }
  }

  ghost predicate KeepsLatest(batches: seq<seq<Row>>, schema: seq<ColumnType>, pk: seq<nat>, keep: seq<seq<nat>>)
    requires TypedBatches(batches, schema) && ValidPk(pk, schema)
  {
    && |keep| == |batches| && (forall b :: 0 <= b < |batches| ==> AscendingRows(keep[b]))
    && (forall b, i :: 0 <= b < |batches| ==> (i in keep[b] <==> Latest(batches, schema, pk, (b, i), (|batches|, 0))))
  }

  lemma KeepFits(batches: seq<seq<Row>>, schema: seq<ColumnType>, pk: seq<nat>, keep: seq<seq<nat>>)
    requires TypedBatches(batches, schema) && ValidPk(pk, schema) && KeepsLatest(batches, schema, pk, keep)
    ensures Fits(batches, keep)
  {
    hide TypedBatches, KeyAt;
    forall b, j | 0 <= b < |keep| && 0 <= j < |keep[b]| ensures keep[b][j] < |batches[b]| {
      assert keep[b][j] in keep[b];
    }
  }

  /** From any row on: the kept rows are the last ones of their keys. */
  lemma {:induction false} KeptIsLastWins(batches: seq<seq<Row>>, schema: seq<ColumnType>, pk: seq<nat>,
                                          keep: seq<seq<nat>>, b: nat, i: nat)
    requires TypedBatches(batches, schema) && ValidPk(pk, schema) && ShortKeys(batches, pk)
    requires AllKeyed(batches, schema, pk)
    requires KeepsLatest(batches, schema, pk, keep) && Fits(batches, keep)
    requires b < |batches| && i <= |batches[b]| && Keyed(RowsFrom(batches, b, i), pk)
    ensures AtLeastFits(batches, keep, b, i)
    ensures LastWins(RowsFrom(batches, b, i), pk)
        == Pick(batches[b], AtLeast(keep[b], i)) + KeptFrom(batches, keep, b + 1)
    decreases |batches| - b, |batches[b]| - i
  {
    hide TypedBatches, KeyAt, Latest, Writes, Project, ShortKeys, AllKeyed, KeepsLatest, Fits, Keyed, RowsFrom,
      LastWins, Pick, AtLeast, KeptFrom, ValidPk, AtLeastFits;
    KeepFacts(batches, schema, pk, keep, b, i);
    if i == |batches[b]| {
      PickEnd(batches[b], keep[b], i);
      if b + 1 < |batches| {
        RestKeyed(batches, pk, b + 1, 0);
        KeptIsLastWins(batches, schema, pk, keep, b + 1, 0);
        NextBatch(batches, keep, b);
      } else {
        LastBatch(batches, keep, b);
      }
    } else {
      RestKeyed(batches, pk, b, i + 1);
      KeptIsLastWins(batches, schema, pk, keep, b, i + 1);
      KeptStep(batches, schema, pk, keep, b, i);
    }
  }

  lemma KeptStep(batches: seq<seq<Row>>, schema: seq<ColumnType>, pk: seq<nat>, keep: seq<seq<nat>>, b: nat, i: nat)
    requires TypedBatches(batches, schema) && ValidPk(pk, schema) && ShortKeys(batches, pk)
    requires AllKeyed(batches, schema, pk)
    requires KeepsLatest(batches, schema, pk, keep) && Fits(batches, keep)
    requires b < |batches| && i < |batches[b]| && Keyed(RowsFrom(batches, b, i), pk)
    requires Keyed(RowsFrom(batches, b, i + 1), pk)
    requires AtLeastFits(batches, keep, b, i + 1) && AtLeastFits(batches, keep, b, i)
    requires LastWins(RowsFrom(batches, b, i + 1), pk)
        == Pick(batches[b], AtLeast(keep[b], i + 1)) + KeptFrom(batches, keep, b + 1)
    ensures LastWins(RowsFrom(batches, b, i), pk)
        == Pick(batches[b], AtLeast(keep[b], i)) + KeptFrom(batches, keep, b + 1)
  {
    hide TypedBatches, KeyAt, Latest, Writes, Project, ShortKeys, AllKeyed, KeepsLatest, Fits, Keyed, RowsFrom,
      LastWins, Pick, AtLeast, KeptFrom, ValidPk, AtLeastFits, AscendingRows;
    KeepFacts(batches, schema, pk, keep, b, i);
    KeyedAt(batches, pk, b, i);
    LatestMeans(batches, schema, pk, b, i);
    PickStep(batches[b], keep[b], i);
    RowsStep(batches, b, i);
    LastWinsStep(RowsFrom(batches, b, i), pk);
    if i in keep[b] {
      Associate([batches[b][i]], Pick(batches[b], AtLeast(keep[b], i + 1)), KeptFrom(batches, keep, b + 1));
    }
  }

  predicate AtLeastFits(batches: seq<seq<Row>>, keep: seq<seq<nat>>, b: nat, i: nat) {
    b < |batches| && b < |keep| && forall j :: 0 <= j < |AtLeast(keep[b], i)| ==> AtLeast(keep[b], i)[j] < |batches[b]|
  }

  lemma KeepFacts(batches: seq<seq<Row>>, schema: seq<ColumnType>, pk: seq<nat>, keep: seq<seq<nat>>, b: nat, i: nat)
    requires TypedBatches(batches, schema) && ValidPk(pk, schema)
    requires KeepsLatest(batches, schema, pk, keep) && Fits(batches, keep) && b < |batches| && i <= |batches[b]|
    ensures |keep| == |batches| && AscendingRows(keep[b]) && AtLeastFits(batches, keep, b, i)
    ensures AtLeastFits(batches, keep, b, 0)
    ensures forall j :: 0 <= j < |keep[b]| ==> keep[b][j] < |batches[b]|
    ensures forall j :: 0 <= j < |AtLeast(keep[b], i)| ==> AtLeast(keep[b], i)[j] < |batches[b]|
    ensures i in keep[b] <==> Latest(batches, schema, pk, (b, i), (|batches|, 0))
  {
    hide TypedBatches, Latest, AtLeast;
  }

  lemma PickEnd(batch: seq<Row>, rows: seq<nat>, i: nat)
    requires i == |batch| && forall j :: 0 <= j < |rows| ==> rows[j] < |batch|
    ensures AtLeast(rows, i) == [] && Pick(batch, AtLeast(rows, i)) == []
  {
    NoneAtLeast(rows, i);
  }

  lemma NextBatch(batches: seq<seq<Row>>, keep: seq<seq<nat>>, b: nat)
    requires Fits(batches, keep) && b + 1 < |batches|
    ensures RowsFrom(batches, b, |batches[b]|) == RowsFrom(batches, b + 1, 0)
    ensures AtLeast(keep[b + 1], 0) == keep[b + 1]
    ensures KeptFrom(batches, keep, b + 1) == Pick(batches[b + 1], keep[b + 1]) + KeptFrom(batches, keep, b + 2)
  {
    AllAtLeast(keep[b + 1], 0);
    hide Pick, AtLeast;
  }

  lemma LastBatch(batches: seq<seq<Row>>, keep: seq<seq<nat>>, b: nat)
    requires Fits(batches, keep) && b + 1 == |batches|
    ensures RowsFrom(batches, b, |batches[b]|) == [] && KeptFrom(batches, keep, b + 1) == []
    ensures forall pk :: LastWins<Cell>([], pk) == []
  {
  }

  lemma KeyedAt(batches: seq<seq<Row>>, pk: seq<nat>, b: nat, i: nat)
    requires ShortKeys(batches, pk) && b < |batches| && i < |batches[b]|
    ensures KeyedRow(batches[b][i], pk)
  {
  }

  lemma LastWinsStep(rows: seq<Row>, pk: seq<nat>)
    requires Keyed(rows, pk) && rows != [] && Keyed(rows[1..], pk) && KeyedRow(rows[0], pk)
    ensures LastWins(rows, pk) ==
              if Writes(rows[1..], pk, Project(rows[0], pk)) then LastWins(rows[1..], pk)
              else [rows[0]] + LastWins(rows[1..], pk)
  {
    hide Writes, Project;
  }

  lemma RowsStep(batches: seq<seq<Row>>, b: nat, i: nat)
    requires b < |batches| && i < |batches[b]|
    ensures var r := RowsFrom(batches, b, i); r != [] && r[0] == batches[b][i] && r[1..] == RowsFrom(batches, b, i + 1)
  {
  }

  lemma PickStep(batch: seq<Row>, rows: seq<nat>, i: nat)
    requires AscendingRows(rows) && i < |batch| && forall j :: 0 <= j < |rows| ==> rows[j] < |batch|
    ensures Pick(batch, AtLeast(rows, i)) ==
              if i in rows then [batch[i]] + Pick(batch, AtLeast(rows, i + 1)) else Pick(batch, AtLeast(rows, i + 1))
  {
    hide AtLeast, AscendingRows;
    AtLeastStep(rows, i);
    if i in rows {
      PickCons(batch, i, AtLeast(rows, i + 1));
    }
  }

  lemma PickCons(batch: seq<Row>, i: nat, rows: seq<nat>)
    requires i < |batch| && forall j :: 0 <= j < |rows| ==> rows[j] < |batch|
    ensures forall j :: 0 <= j < |[i] + rows| ==> ([i] + rows)[j] < |batch|
    ensures Pick(batch, [i] + rows) == [batch[i]] + Pick(batch, rows)
  {
  }

  /** What dedup_last_wins keeps of a file is the last row of each key, in the order of the file. */
  lemma DedupIsLastWins(batches: seq<seq<Row>>, schema: seq<ColumnType>, pk: seq<nat>, keep: seq<seq<nat>>)
    requires TypedBatches(batches, schema) && ValidPk(pk, schema) && ShortKeys(batches, pk)
    requires AllKeyed(batches, schema, pk)
    requires KeepsLatest(batches, schema, pk, keep)
    ensures Fits(batches, keep) && Keyed(AllRows(batches), pk)
    ensures KeptFrom(batches, keep, 0) == LastWins(AllRows(batches), pk)
  {
    KeepFits(batches, schema, pk, keep);
    if batches != [] {
      RestKeyed(batches, pk, 0, 0);
      KeptIsLastWins(batches, schema, pk, keep, 0, 0);
      AllAtLeast(keep[0], 0);
    }
  }
}
