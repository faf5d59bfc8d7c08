/** The server's load of staged upsert files: what it makes of the bodies that `render` wrote. */
module Loader {
  import opened Base
  import opened Values
  import opened Csv
  import opened Render
  import opened Reader
  import Dd = Dedup
  import M = DedupMeaning
  import U = Upsert

  type Store = U.Table<Cell>

  /** What the loader finds in a body: the header is skipped, the cells are read by column type. */
  function RowsIn(body: string, schema: seq<ColumnType>, delim: char, floats: FloatCodec): Option<seq<Row>> {
    match ReadCsv(body, delim)
    case None => None
    case Some(records) => if records == [] then None else ReadRows(records[1..], schema, floats)
  }

  /** The load of one body: refused as a whole if it cannot be read, a row lacks a key column, or a
      key occurs twice. */
  function LoadFile(t: Store, body: string, schema: seq<ColumnType>, pk: seq<nat>, delim: char, floats: FloatCodec)
    : Option<Store>
  {
    match RowsIn(body, schema, delim, floats)
    case None => None
    case Some(rows) => if !U.Keyed(rows, pk) then None else U.Load(t, rows, pk)
  }

  /** Bodies loaded one after the other. */
  function LoadFiles(t: Store, bodies: seq<string>, schema: seq<ColumnType>, pk: seq<nat>, delim: char,
                     floats: FloatCodec)
    : Option<Store>
  {
    if bodies == [] then Some(t)
    else
      var n := |bodies| - 1;
      match LoadFiles(t, bodies[..n], schema, pk, delim, floats)
      case None => None
      case Some(u) => LoadFile(u, bodies[n], schema, pk, delim, floats)
  }

  // ---------------------------------------------------------------------
  // rows and what they mean
  // ---------------------------------------------------------------------

  /** The key the loader reads is the one the row's key cells denote. */
  lemma MeantKey(row: Row, schema: seq<ColumnType>, pk: seq<nat>, floats: FloatCodec)
    requires TypedRow(row, schema) && KeyTypes(schema, pk)
    ensures U.KeyedRow(row, pk) && U.KeyedRow(MeaningOf(row, schema, floats), pk)
    ensures Dd.Project(MeaningOf(row, schema, floats), pk) == DenotedKey(row, schema, pk)
  {
    hide HasType, Denoted;
  }

  lemma MeantKeyed(row: Row, schema: seq<ColumnType>, pk: seq<nat>, floats: FloatCodec)
    requires TypedRow(row, schema) && Dd.ValidPk(pk, schema)
    ensures U.KeyedRow(row, pk) && U.KeyedRow(MeaningOf(row, schema, floats), pk)
  {
    hide HasType, Meaning;
  }

  lemma SameCellsSameMeaning(r: Row, s: Row, schema: seq<ColumnType>, pk: seq<nat>)
    requires TypedRow(r, schema) && TypedRow(s, schema) && Dd.ValidPk(pk, schema)
    requires Dd.Project(r, pk) == Dd.Project(s, pk)
    ensures DenotedKey(r, schema, pk) == DenotedKey(s, schema, pk)
  {
    hide Denoted, HasType;
    assert forall i :: 0 <= i < |pk| ==> Dd.Project(r, pk)[i] == r[pk[i]] && Dd.Project(s, pk)[i] == s[pk[i]];
  }

  /** Two rows with different key cells that denote the same key. */
  predicate Clashes(r: Row, s: Row, schema: seq<ColumnType>, pk: seq<nat>)
    requires TypedRow(r, schema) && TypedRow(s, schema) && Dd.ValidPk(pk, schema)
  {
    Dd.Project(r, pk) != Dd.Project(s, pk) && DenotedKey(r, schema, pk) == DenotedKey(s, schema, pk)
  }

  predicate Clash(rows: seq<Row>, schema: seq<ColumnType>, pk: seq<nat>)
    requires TypedRows(rows, schema) && Dd.ValidPk(pk, schema)
  {
    exists i, j :: 0 <= i < |rows| && 0 <= j < |rows| && Clashes(rows[i], rows[j], schema, pk)
  }

  /** The loader takes two rows for the same exactly if they have the same key cells or clash. */
  lemma LoaderKeys(r: Row, s: Row, schema: seq<ColumnType>, pk: seq<nat>, floats: FloatCodec)
    requires TypedRow(r, schema) && TypedRow(s, schema) && KeyTypes(schema, pk)
    ensures U.KeyedRow(MeaningOf(r, schema, floats), pk) && U.KeyedRow(MeaningOf(s, schema, floats), pk)
    ensures Dd.Project(MeaningOf(r, schema, floats), pk) == Dd.Project(MeaningOf(s, schema, floats), pk) <==>
              Dd.Project(r, pk) == Dd.Project(s, pk) || Clashes(r, s, schema, pk)
  {
    hide DenotedKey, MeaningOf, Dd.Project;
    MeantKey(r, schema, pk, floats);
    MeantKey(s, schema, pk, floats);
    if Dd.Project(r, pk) == Dd.Project(s, pk) {
      SameCellsSameMeaning(r, s, schema, pk);
    }
  }

  lemma MeaningsKeyed(rows: seq<Row>, schema: seq<ColumnType>, pk: seq<nat>, floats: FloatCodec)
    requires TypedRows(rows, schema) && Dd.ValidPk(pk, schema)
    ensures U.Keyed(rows, pk) && U.Keyed(MeaningsOf(rows, schema, floats), pk)
  {
    hide MeaningOf;
    forall i | 0 <= i < |rows| ensures U.KeyedRow(MeaningsOf(rows, schema, floats)[i], pk) && U.KeyedRow(rows[i], pk) {
      MeantKeyed(rows[i], schema, pk, floats);
    }
  }

  lemma LastWinsTyped(rows: seq<Row>, schema: seq<ColumnType>, pk: seq<nat>)
    requires TypedRows(rows, schema) && U.Keyed(rows, pk)
    ensures TypedRows(U.LastWins(rows, pk), schema)
  {
    var kept := U.LastWins(rows, pk);
    forall i | 0 <= i < |kept| ensures TypedRow(kept[i], schema) {
      assert kept[i] in kept && kept[i] in rows;
    }
  }

  lemma WritesMeaning(rows: seq<Row>, x: Row, schema: seq<ColumnType>, pk: seq<nat>, floats: FloatCodec)
    requires TypedRows(rows, schema) && TypedRow(x, schema) && KeyTypes(schema, pk)
    requires forall i :: 0 <= i < |rows| ==> !Clashes(rows[i], x, schema, pk)
    ensures U.Keyed(rows, pk) && U.Keyed(MeaningsOf(rows, schema, floats), pk)
    ensures U.KeyedRow(x, pk) && U.KeyedRow(MeaningOf(x, schema, floats), pk)
    ensures U.Writes(MeaningsOf(rows, schema, floats), pk, Dd.Project(MeaningOf(x, schema, floats), pk))
       <==> U.Writes(rows, pk, Dd.Project(x, pk))
  {
    hide MeaningOf, Dd.Project, Clashes;
    MeaningsKeyed(rows, schema, pk, floats);
    MeantKeyed(x, schema, pk, floats);
    var meant := MeaningsOf(rows, schema, floats);
    forall i | 0 <= i < |rows|
      ensures Dd.Project(meant[i], pk) == Dd.Project(MeaningOf(x, schema, floats), pk) <==>
                Dd.Project(rows[i], pk) == Dd.Project(x, pk)
    {
      LoaderKeys(rows[i], x, schema, pk, floats);
    }
  }

  /** Without a clash, deduplicating rows and deduplicating their meant is the same. */
  lemma {:induction false} LastWinsOfMeanings(rows: seq<Row>, schema: seq<ColumnType>, pk: seq<nat>, floats: FloatCodec)
    requires TypedRows(rows, schema) && KeyTypes(schema, pk) && !Clash(rows, schema, pk)
    ensures U.Keyed(rows, pk) && U.Keyed(MeaningsOf(rows, schema, floats), pk)
    ensures TypedRows(U.LastWins(rows, pk), schema)
    ensures MeaningsOf(U.LastWins(rows, pk), schema, floats) == U.LastWins(MeaningsOf(rows, schema, floats), pk)
  {
    hide MeaningOf, Dd.Project, U.Writes, TypedRow, Clashes;
    MeaningsKeyed(rows, schema, pk, floats);
    LastWinsTyped(rows, schema, pk);
    if rows != [] {
      var x, rest := rows[0], rows[1..];
      assert rows == [x] + rest;
      forall i, j | 0 <= i < |rest| && 0 <= j < |rest| ensures !Clashes(rest[i], rest[j], schema, pk) {
        assert rest[i] == rows[i + 1] && rest[j] == rows[j + 1];
      }
      LastWinsOfMeanings(rest, schema, pk, floats);
      forall i | 0 <= i < |rest| ensures !Clashes(rest[i], x, schema, pk) {
        assert rest[i] == rows[i + 1];
      }
      WritesMeaning(rest, x, schema, pk, floats);
      assert MeaningsOf(rows, schema, floats)[1..] == MeaningsOf(rest, schema, floats);
    }
  }

  /** Deduplicating drops no key. */
  lemma KeysStay<T>(rows: seq<seq<T>>, pk: seq<nat>, k: seq<T>)
    requires U.Keyed(rows, pk) && U.Writes(rows, pk, k)
    ensures U.Keyed(U.LastWins(rows, pk), pk) && U.Writes(U.LastWins(rows, pk), pk, k)
  {
    U.LastWinsSameTable(map[], rows, pk);
    U.ApplyAt(map[], map[], rows, pk, k);
    U.ApplyAt(map[], map[], U.LastWins(rows, pk), pk, k);
  }

  /** The kept row with the key of a given one. */
  lemma KeptOfKey(rows: seq<Row>, schema: seq<ColumnType>, pk: seq<nat>, i: nat) returns (a: nat)
    requires TypedRows(rows, schema) && Dd.ValidPk(pk, schema) && U.Keyed(rows, pk) && i < |rows|
    ensures var kept := U.LastWins(rows, pk);
            && TypedRows(kept, schema) && U.Keyed(kept, pk) && a < |kept|
            && Dd.Project(kept[a], pk) == Dd.Project(rows[i], pk)
            && DenotedKey(kept[a], schema, pk) == DenotedKey(rows[i], schema, pk)
  {
    hide Dd.Project, DenotedKey, TypedRow, U.LastWins;
    LastWinsTyped(rows, schema, pk);
    var kept := U.LastWins(rows, pk);
    KeysStay(rows, pk, Dd.Project(rows[i], pk));
    a :| 0 <= a < |kept| && Dd.Project(kept[a], pk) == Dd.Project(rows[i], pk);
    SameCellsSameMeaning(kept[a], rows[i], schema, pk);
  }

  lemma SameKeyTwice(rows: seq<Row>, schema: seq<ColumnType>, pk: seq<nat>, floats: FloatCodec, a: nat, b: nat)
    requires TypedRows(rows, schema) && KeyTypes(schema, pk) && a < |rows| && b < |rows|
    requires Clashes(rows[a], rows[b], schema, pk)
    ensures var meant := MeaningsOf(rows, schema, floats); U.Keyed(meant, pk) && !U.DistinctKeys(meant, pk)
  {
    MeaningsKeyed(rows, schema, pk, floats);
    hide MeaningOf, Dd.Project, DenotedKey, KeyType, HasType;
    LoaderKeys(rows[a], rows[b], schema, pk, floats);
    var meant := MeaningsOf(rows, schema, floats);
    assert meant[a] == MeaningOf(rows[a], schema, floats) && meant[b] == MeaningOf(rows[b], schema, floats);
  }

  /** Two rows that clash leave two records of one key. */
  lemma ClashIsDuplicate(rows: seq<Row>, schema: seq<ColumnType>, pk: seq<nat>, floats: FloatCodec)
    requires TypedRows(rows, schema) && KeyTypes(schema, pk) && Clash(rows, schema, pk)
    ensures U.Keyed(rows, pk) && TypedRows(U.LastWins(rows, pk), schema)
    ensures var meant := MeaningsOf(U.LastWins(rows, pk), schema, floats);
            U.Keyed(meant, pk) && !U.DistinctKeys(meant, pk)
  {
    hide MeaningsOf, Dd.Project, DenotedKey, TypedRow, U.LastWins, U.DistinctKeys, KeyType;
    MeaningsKeyed(rows, schema, pk, floats);
    var i, j :| 0 <= i < |rows| && 0 <= j < |rows| && Clashes(rows[i], rows[j], schema, pk);
    var a := KeptOfKey(rows, schema, pk, i);
    var b := KeptOfKey(rows, schema, pk, j);
    SameKeyTwice(U.LastWins(rows, pk), schema, pk, floats, a, b);
  }

  // ---------------------------------------------------------------------
  // one file
  // ---------------------------------------------------------------------

  /** A body that `render` gives for these batches in upsert mode. */
  ghost predicate Rendered(batches: seq<seq<Row>>, schema: seq<ColumnType>, pk: seq<nat>, names: seq<string>,
                           delim: char, floats: FloatCodec, body: string)
  {
    Dd.TypedBatches(batches, schema) && Dd.ValidPk(pk, schema) &&
    exists keep, n ::
      Keeps(batches, schema, Some(pk), keep) && Renders(batches, keep, schema, names, delim, floats.show, (body, n))
  }

  /** What the server and the format ask of the columns. */
  predicate Loadable(schema: seq<ColumnType>, pk: seq<nat>, names: seq<string>, delim: char) {
    KeyTypes(schema, pk) && Delimiter(delim) && |names| == |schema| && |schema| > 0
  }

  lemma AllKeysExist(batches: seq<seq<Row>>, schema: seq<ColumnType>, pk: seq<nat>)
    requires Dd.TypedBatches(batches, schema) && KeyTypes(schema, pk)
    ensures M.AllKeyed(batches, schema, pk)
  {
    hide Dd.PkKey, TypedRow;
    forall b, r | 0 <= b < |batches| && 0 <= r < |batches[b]| ensures Dd.KeyAt(batches, schema, pk, (b, r)).Ok? {
      Dd.KeyExists(batches[b][r], schema, pk);
    }
  }

  lemma {:induction false} RowsFromTyped(batches: seq<seq<Row>>, schema: seq<ColumnType>, b: nat, i: nat)
    requires Dd.TypedBatches(batches, schema) && b < |batches| && i <= |batches[b]|
    ensures TypedRows(M.RowsFrom(batches, b, i), schema)
    decreases |batches| - b
  {
    hide TypedRow;
    if b + 1 < |batches| { RowsFromTyped(batches, schema, b + 1, 0); }
  }

  lemma AllRowsTyped(batches: seq<seq<Row>>, schema: seq<ColumnType>)
    requires Dd.TypedBatches(batches, schema)
    ensures TypedRows(M.AllRows(batches), schema)
  {
    if batches != [] { RowsFromTyped(batches, schema, 0, 0); }
  }

  /** The rendered rows have pairwise different keys in the file exactly if no two rows of the file
      clash. */
  lemma RenderedKeysAreUnique(batches: seq<seq<Row>>, schema: seq<ColumnType>, pk: seq<nat>, floats: FloatCodec,
                              keep: seq<seq<nat>>)
    requires Dd.TypedBatches(batches, schema) && KeyTypes(schema, pk) && M.ShortKeys(batches, pk)
    requires PlainFloats(floats.show) && M.KeepsLatest(batches, schema, pk, keep)
    ensures M.Fits(batches, keep) && TypedRows(M.AllRows(batches), schema)
    ensures var kept := M.KeptFrom(batches, keep, 0);
            && TypedRows(kept, schema)
            && ((forall i, j :: 0 <= i < j < |kept| ==>
                   RenderedKey(kept[i], schema, pk, floats.show) != RenderedKey(kept[j], schema, pk, floats.show)) <==>
                !Clash(M.AllRows(batches), schema, pk))
  {
    AllKeysExist(batches, schema, pk);
    M.DedupIsLastWins(batches, schema, pk, keep);
    AllRowsTyped(batches, schema);
    KeptLoads(M.AllRows(batches), schema, pk, floats);
    DistinctTexts(U.LastWins(M.AllRows(batches), pk), schema, pk, floats);
  }

  /** Keys differ in what they mean exactly if they differ in their text. */
  lemma DistinctTexts(rows: seq<Row>, schema: seq<ColumnType>, pk: seq<nat>, floats: FloatCodec)
    requires TypedRows(rows, schema) && KeyTypes(schema, pk) && PlainFloats(floats.show)
    ensures U.Keyed(MeaningsOf(rows, schema, floats), pk)
    ensures U.DistinctKeys(MeaningsOf(rows, schema, floats), pk) <==>
              forall i, j :: 0 <= i < j < |rows| ==>
                RenderedKey(rows[i], schema, pk, floats.show) != RenderedKey(rows[j], schema, pk, floats.show)
  {
    MeaningsKeyed(rows, schema, pk, floats);
    hide MeaningOf, Dd.Project, DenotedKey, RenderedKey, PlainFloats, KeyType, HasType;
    var meant := MeaningsOf(rows, schema, floats);
    forall i, j | 0 <= i < j < |rows|
      ensures Dd.Project(meant[i], pk) == Dd.Project(meant[j], pk) <==>
                RenderedKey(rows[i], schema, pk, floats.show) == RenderedKey(rows[j], schema, pk, floats.show)
    {
      MeantKey(rows[i], schema, pk, floats);
      MeantKey(rows[j], schema, pk, floats);
      KeyText(rows[i], rows[j], schema, pk, floats.show);
    }
  }

  lemma KeptLoads(rows: seq<Row>, schema: seq<ColumnType>, pk: seq<nat>, floats: FloatCodec)
    requires TypedRows(rows, schema) && KeyTypes(schema, pk)
    ensures U.Keyed(rows, pk) && U.Keyed(MeaningsOf(rows, schema, floats), pk)
    ensures TypedRows(U.LastWins(rows, pk), schema)
    ensures var meant := MeaningsOf(U.LastWins(rows, pk), schema, floats);
            && U.Keyed(meant, pk) && (U.DistinctKeys(meant, pk) <==> !Clash(rows, schema, pk))
            && (!Clash(rows, schema, pk) ==> meant == U.LastWins(MeaningsOf(rows, schema, floats), pk))
  {
    hide MeaningsOf, U.LastWins, Clash, TypedRows, U.Keyed, U.DistinctKeys;
    MeaningsKeyed(rows, schema, pk, floats);
    LastWinsTyped(rows, schema, pk);
    if Clash(rows, schema, pk) {
      ClashIsDuplicate(rows, schema, pk, floats);
    } else {
      LastWinsOfMeanings(rows, schema, pk, floats);
      U.LastWinsDistinct(MeaningsOf(rows, schema, floats), pk);
    }
  }

  /** The load of a rendered body: refused exactly if two of the file's rows clash, and otherwise
      the table changes as if every row of the file had been applied in order. */
  lemma FileLoads(t: Store, batches: seq<seq<Row>>, schema: seq<ColumnType>, pk: seq<nat>, names: seq<string>,
                  delim: char, floats: FloatCodec, body: string)
    requires Rendered(batches, schema, pk, names, delim, floats, body) && Loadable(schema, pk, names, delim)
    requires PlainFloats(floats.show) && M.ShortKeys(batches, pk)
    ensures TypedRows(M.AllRows(batches), schema) && U.Keyed(MeaningsOf(M.AllRows(batches), schema, floats), pk)
    ensures LoadFile(t, body, schema, pk, delim, floats) ==
              if Clash(M.AllRows(batches), schema, pk) then None
              else Some(U.Apply(t, MeaningsOf(M.AllRows(batches), schema, floats), pk))
  {
    var keep, n :|
      Keeps(batches, schema, Some(pk), keep) && Renders(batches, keep, schema, names, delim, floats.show, (body, n));
    var rows := M.AllRows(batches);
    AllKeysExist(batches, schema, pk);
    M.DedupIsLastWins(batches, schema, pk, keep);
    AllRowsTyped(batches, schema);
    KeptLoads(rows, schema, pk, floats);
    var kept := U.LastWins(rows, pk);
    BodyRows(kept, schema, names, delim, floats);
    hide RowsIn, MeaningsOf, U.LastWins, Clash, TypedRows, U.Keyed, U.DistinctKeys, U.Apply, M.AllRows, M.KeptFrom,
      Body;
    if !Clash(rows, schema, pk) {
      U.LastWinsSameTable(t, MeaningsOf(rows, schema, floats), pk);
    }
  }

  /** A body reads as what its rows mean. */
  lemma BodyRows(rows: seq<Row>, schema: seq<ColumnType>, names: seq<string>, delim: char, floats: FloatCodec)
    requires TypedRows(rows, schema) && Delimiter(delim) && |names| == |schema| > 0 && PlainFloats(floats.show)
    ensures RowsIn(Body(rows, schema, names, delim, floats.show), schema, delim, floats)
         == Some(MeaningsOf(rows, schema, floats))
  {
    hide ReadCsv, Body, FieldsOf, StrippedAll, TypedRow, ReadRows, MeaningsOf, PlainFloats;
    BodyReadsBack(rows, schema, names, delim, floats.show);
    RowsReadBack(rows, schema, floats);
    var records := StrippedRecords([NamesOf(names)] + RecordsOf(rows, schema, floats.show));
    assert records[1..] == StrippedRecords(RecordsOf(rows, schema, floats.show));
  }

  // ---------------------------------------------------------------------
  // one file after the other
  // ---------------------------------------------------------------------

  /** Bodies rendered from the batches of these files. */
  ghost predicate RenderedFiles(files: seq<seq<seq<Row>>>, schema: seq<ColumnType>, pk: seq<nat>, names: seq<string>,
                                delim: char, floats: FloatCodec, bodies: seq<string>)
  {
    && |bodies| == |files|
    && forall i :: 0 <= i < |files| ==> Rendered(files[i], schema, pk, names, delim, floats, bodies[i])
  }

  predicate ShortFiles(files: seq<seq<seq<Row>>>, pk: seq<nat>) {
    forall i :: 0 <= i < |files| ==> M.ShortKeys(files[i], pk)
  }

  predicate TypedFiles(files: seq<seq<seq<Row>>>, schema: seq<ColumnType>) {
    forall i :: 0 <= i < |files| ==> TypedRows(M.AllRows(files[i]), schema)
  }

  function FileMeanings(files: seq<seq<seq<Row>>>, schema: seq<ColumnType>, floats: FloatCodec): seq<seq<Row>>
    requires TypedFiles(files, schema)
  {
    seq(|files|, i requires 0 <= i < |files| => MeaningsOf(M.AllRows(files[i]), schema, floats))
  }

  /** Two rows of one file clash. */
  predicate Poisoned(files: seq<seq<seq<Row>>>, schema: seq<ColumnType>, pk: seq<nat>)
    requires TypedFiles(files, schema) && Dd.ValidPk(pk, schema)
  {
    exists i :: 0 <= i < |files| && Clash(M.AllRows(files[i]), schema, pk)
  }

  lemma FilesTyped(files: seq<seq<seq<Row>>>, schema: seq<ColumnType>, pk: seq<nat>, names: seq<string>, delim: char,
                   floats: FloatCodec, bodies: seq<string>)
    requires RenderedFiles(files, schema, pk, names, delim, floats, bodies) && KeyTypes(schema, pk)
    ensures TypedFiles(files, schema) && U.KeyedFiles(FileMeanings(files, schema, floats), pk)
  {
    hide TypedRow, M.AllRows, U.Keyed, Keeps, Renders;
    forall i | 0 <= i < |files| ensures TypedRows(M.AllRows(files[i]), schema) {
      AllRowsTyped(files[i], schema);
    }
    forall i | 0 <= i < |files| ensures U.Keyed(FileMeanings(files, schema, floats)[i], pk) {
      MeaningsKeyed(M.AllRows(files[i]), schema, pk, floats);
    }
  }

  /** However the rows are cut into files, loading the rendered bodies in order applies all rows in
      order, unless a file is poisoned: then its load fails. */
  lemma {:induction false} BodiesLoad(t: Store, files: seq<seq<seq<Row>>>, schema: seq<ColumnType>, pk: seq<nat>,
      names: seq<string>, delim: char, floats: FloatCodec, bodies: seq<string>)
    requires RenderedFiles(files, schema, pk, names, delim, floats, bodies) && Loadable(schema, pk, names, delim)
    requires PlainFloats(floats.show) && ShortFiles(files, pk)
    ensures TypedFiles(files, schema) && U.Keyed(U.Concat(FileMeanings(files, schema, floats)), pk)
    ensures LoadFiles(t, bodies, schema, pk, delim, floats) ==
              if Poisoned(files, schema, pk) then None
              else Some(U.Apply(t, U.Concat(FileMeanings(files, schema, floats)), pk))
  {
    hide Rendered, RenderedFiles, ShortFiles, TypedFiles, FileMeanings, Poisoned, PlainFloats, LoadFile, U.Load,
      U.Apply, Clash, MeaningsOf, M.AllRows, TypedRows, M.ShortKeys, U.Keyed, U.KeyedFiles, U.Concat;
    FilesTyped(files, schema, pk, names, delim, floats, bodies);
    U.ConcatKeyed(FileMeanings(files, schema, floats), pk);
    if files == [] {
      NoFiles(t, schema, pk, floats, bodies, names, delim);
    } else {
      var n := |files| - 1;
      HeadRendered(files, schema, pk, names, delim, floats, bodies);
      BodiesLoad(t, files[..n], schema, pk, names, delim, floats, bodies[..n]);
      LastMeaning(files, schema, pk, floats);
      if !Poisoned(files[..n], schema, pk) {
        var u := U.Concat(FileMeanings(files[..n], schema, floats));
        FileLoads(U.Apply(t, u, pk), files[n], schema, pk, names, delim, floats, bodies[n]);
        U.ApplyConcat(t, u, MeaningsOf(M.AllRows(files[n]), schema, floats), pk);
      }
    }
  }

  lemma NoFiles(t: Store, schema: seq<ColumnType>, pk: seq<nat>, floats: FloatCodec, bodies: seq<string>,
                names: seq<string>, delim: char)
    requires RenderedFiles([], schema, pk, names, delim, floats, bodies) && Dd.ValidPk(pk, schema)
    ensures bodies == [] && TypedFiles([], schema) && !Poisoned([], schema, pk)
    ensures U.Concat(FileMeanings([], schema, floats)) == [] && U.Apply(t, [], pk) == t
  {
  }

  lemma HeadRendered(files: seq<seq<seq<Row>>>, schema: seq<ColumnType>, pk: seq<nat>, names: seq<string>,
                     delim: char, floats: FloatCodec, bodies: seq<string>)
    requires RenderedFiles(files, schema, pk, names, delim, floats, bodies) && ShortFiles(files, pk) && files != []
    ensures var n := |files| - 1;
            && |bodies| == |files| && RenderedFiles(files[..n], schema, pk, names, delim, floats, bodies[..n])
            && ShortFiles(files[..n], pk)
            && Rendered(files[n], schema, pk, names, delim, floats, bodies[n]) && M.ShortKeys(files[n], pk)
  {
    hide Rendered, M.ShortKeys;
  }

  lemma LastMeaning(files: seq<seq<seq<Row>>>, schema: seq<ColumnType>, pk: seq<nat>, floats: FloatCodec)
    requires TypedFiles(files, schema) && Dd.ValidPk(pk, schema) && files != []
    ensures var n := |files| - 1;
            var head, rows := files[..n], M.AllRows(files[n]);
            && TypedFiles(head, schema) && TypedRows(rows, schema)
            && U.Concat(FileMeanings(files, schema, floats))
            == U.Concat(FileMeanings(head, schema, floats)) + MeaningsOf(rows, schema, floats)
            && (Poisoned(files, schema, pk) <==> Poisoned(head, schema, pk) || Clash(rows, schema, pk))
  {
    hide TypedRows, MeaningsOf, Clash, M.AllRows;
    var n := |files| - 1;
    assert FileMeanings(files, schema, floats)[..n] == FileMeanings(files[..n], schema, floats);
  }

  /** Loading bodies a second time and going on gives the same table. */
  lemma BodiesReplay(t: Store, files: seq<seq<seq<Row>>>, schema: seq<ColumnType>, pk: seq<nat>, names: seq<string>,
                     delim: char, floats: FloatCodec, bodies: seq<string>, k: nat, n: nat)
    requires RenderedFiles(files, schema, pk, names, delim, floats, bodies) && Loadable(schema, pk, names, delim)
    requires PlainFloats(floats.show) && ShortFiles(files, pk) && k <= n <= |bodies|
    requires TypedFiles(files, schema) && !Poisoned(files, schema, pk)
    ensures var loaded := LoadFiles(t, bodies[..n], schema, pk, delim, floats);
            && loaded.Some?
            && LoadFiles(loaded.value, bodies[k..], schema, pk, delim, floats)
            == LoadFiles(t, bodies, schema, pk, delim, floats)
  {
    hide Rendered, TypedRows, MeaningsOf, Clash, LoadFile, M.AllRows, U.Keyed, M.ShortKeys, PlainFloats, U.LastWins,
      U.LoadAll, U.Apply, U.Concat, LoadFiles;
    FilesTyped(files, schema, pk, names, delim, floats, bodies);
    var meant := FileMeanings(files, schema, floats);
    assert FileMeanings(files[..n], schema, floats) == meant[..n];
    assert FileMeanings(files[k..], schema, floats) == meant[k..];
    BodiesLoad(t, files, schema, pk, names, delim, floats, bodies);
    BodiesLoad(t, files[..n], schema, pk, names, delim, floats, bodies[..n]);
    var u := U.Apply(t, U.Concat(meant[..n]), pk);
    BodiesLoad(u, files[k..], schema, pk, names, delim, floats, bodies[k..]);
    SameLoads(t, u, meant, pk, k, n);
  }

  lemma SameLoads(t: Store, u: Store, meant: seq<seq<Row>>, pk: seq<nat>, k: nat, n: nat)
    requires U.KeyedFiles(meant, pk) && k <= n <= |meant|
    requires U.Keyed(U.Concat(meant[..n]), pk) && u == U.Apply(t, U.Concat(meant[..n]), pk)
    ensures U.Keyed(U.Concat(meant), pk) && U.Keyed(U.Concat(meant[k..]), pk)
    ensures U.Apply(u, U.Concat(meant[k..]), pk) == U.Apply(t, U.Concat(meant), pk)
  {
    hide U.LastWins, U.LoadAll, U.Apply, U.Concat, U.Keyed;
    U.ReplayIsHarmless(t, meant, pk, k, n);
    U.CutsDoNotMatter(t, meant, pk);
    U.CutsDoNotMatter(t, meant[..n], pk);
    U.CutsDoNotMatter(u, meant[k..], pk);
    var ds := U.Deduplicated(meant, pk);
    assert ds[..n] == U.Deduplicated(meant[..n], pk) && ds[k..] == U.Deduplicated(meant[k..], pk);
  }

  // ---------------------------------------------------------------------
  // insert-only streams
  // ---------------------------------------------------------------------

  /** Without a key the load appends the rows of each body. */
  function ReadFiles(bodies: seq<string>, schema: seq<ColumnType>, delim: char, floats: FloatCodec): Option<seq<Row>> {
    if bodies == [] then Some([])
    else
      var n := |bodies| - 1;
      match ReadFiles(bodies[..n], schema, delim, floats)
      case None => None
      case Some(before) =>
        match RowsIn(bodies[n], schema, delim, floats)
        case None => None
        case Some(rows) => Some(before + rows)
  }

  /** A body that `render` gives for these batches in insert-only mode. */
  ghost predicate Inserted(batches: seq<seq<Row>>, schema: seq<ColumnType>, names: seq<string>, delim: char,
                           floats: FloatCodec, body: string)
  {
    Dd.TypedBatches(batches, schema) &&
    exists keep, n ::
      Keeps(batches, schema, None, keep) && Renders(batches, keep, schema, names, delim, floats.show, (body, n))
  }

  lemma {:induction false} EveryRowKept(batches: seq<seq<Row>>, keep: seq<seq<nat>>, b: nat)
    requires M.Fits(batches, keep) && b < |batches|
    requires forall i :: 0 <= i < |batches| ==> keep[i] == AllOf(|batches[i]|)
    ensures M.KeptFrom(batches, keep, b) == M.RowsFrom(batches, b, 0)
    decreases |batches| - b
  {
    assert M.Pick(batches[b], keep[b]) == batches[b] == batches[b][0..];
    if b + 1 < |batches| {
      EveryRowKept(batches, keep, b + 1);
    } else {
      assert M.KeptFrom(batches, keep, b + 1) == [];
    }
  }

  /** The body holds every row of the file, in order. */
  lemma InsertedReadsBack(batches: seq<seq<Row>>, schema: seq<ColumnType>, names: seq<string>, delim: char,
                          floats: FloatCodec, body: string)
    requires Inserted(batches, schema, names, delim, floats, body) && Delimiter(delim) && |names| == |schema| > 0
    requires PlainFloats(floats.show)
    ensures TypedRows(M.AllRows(batches), schema)
    ensures RowsIn(body, schema, delim, floats) == Some(MeaningsOf(M.AllRows(batches), schema, floats))
  {
    var keep, n :|
      Keeps(batches, schema, None, keep) && Renders(batches, keep, schema, names, delim, floats.show, (body, n));
    AllRowsTyped(batches, schema);
    if batches != [] {
      EveryRowKept(batches, keep, 0);
    }
    assert M.KeptFrom(batches, keep, 0) == M.AllRows(batches);
    BodyRows(M.AllRows(batches), schema, names, delim, floats);
  }

  ghost predicate InsertedFiles(files: seq<seq<seq<Row>>>, schema: seq<ColumnType>, names: seq<string>, delim: char,
                                floats: FloatCodec, bodies: seq<string>)
  {
    && |bodies| == |files|
    && forall i :: 0 <= i < |files| ==> Inserted(files[i], schema, names, delim, floats, bodies[i])
  }

  /** Reading the bodies one after the other gives what all rows of all files mean, in order. */
  lemma {:induction false} InsertedFilesReadBack(files: seq<seq<seq<Row>>>, schema: seq<ColumnType>,
      names: seq<string>, delim: char, floats: FloatCodec, bodies: seq<string>)
    requires InsertedFiles(files, schema, names, delim, floats, bodies) && Delimiter(delim) && |names| == |schema| > 0
    requires PlainFloats(floats.show)
    ensures TypedFiles(files, schema)
    ensures ReadFiles(bodies, schema, delim, floats) == Some(U.Concat(FileMeanings(files, schema, floats)))
  {
    hide Inserted, TypedRows, MeaningsOf, M.AllRows, RowsIn, PlainFloats;
    forall i | 0 <= i < |files| ensures TypedRows(M.AllRows(files[i]), schema) {
      InsertedReadsBack(files[i], schema, names, delim, floats, bodies[i]);
    }
    if files != [] {
      var n := |files| - 1;
      InsertedFilesReadBack(files[..n], schema, names, delim, floats, bodies[..n]);
      InsertedReadsBack(files[n], schema, names, delim, floats, bodies[n]);
      assert FileMeanings(files, schema, floats)[..n] == FileMeanings(files[..n], schema, floats);
    }
  }

  // ---------------------------------------------------------------------
  // when no file is poisoned
  // ---------------------------------------------------------------------

  /** Keys whose text is exact never clash. */
  lemma ExactKeysDoNotClash(rows: seq<Row>, schema: seq<ColumnType>, pk: seq<nat>)
    requires TypedRows(rows, schema) && Dd.ValidPk(pk, schema) && ExactKeys(rows, schema, pk)
    ensures !Clash(rows, schema, pk)
  {
    hide Dd.Project, DenotedKey, ExactCell, HasType;
    forall i, j | 0 <= i < |rows| && 0 <= j < |rows| ensures !Clashes(rows[i], rows[j], schema, pk) {
      ExactKey(rows[i], rows[j], schema, pk);
    }
  }

  lemma NulClash()
    ensures var r, s: Row := [Some(Text("a"))], [Some(Text("a\0"))];
            TypedRow(r, [TText]) && TypedRow(s, [TText]) && Clashes(r, s, [TText], [0])
  {
    var r, s: Row := [Some(Text("a"))], [Some(Text("a\0"))];
    assert "a\0"[1..] == "\0" && "a"[1..] == "" && "\0"[1..] == "";
    assert Strip("a\0") == "a" == Strip("a");
    assert Dd.Project(r, [0])[0] != Dd.Project(s, [0])[0];
    assert DenotedKey(r, [TText], [0]) == [Some(Text("a"))] == DenotedKey(s, [TText], [0]);
  }

  const NulRows: seq<Row> := [[Some(Text("a"))], [Some(Text("a\0"))]]

  lemma TwoKept(batches: seq<seq<Row>>, schema: seq<ColumnType>, pk: seq<nat>)
    requires Dd.TypedBatches(batches, schema) && Dd.ValidPk(pk, schema) && |batches| == 1 && |batches[0]| == 2
    requires Dd.KeyAt(batches, schema, pk, (0, 0)) != Dd.KeyAt(batches, schema, pk, (0, 1))
    ensures M.KeepsLatest(batches, schema, pk, [[0, 1]]) && M.Fits(batches, [[0, 1]])
    ensures M.KeptFrom(batches, [[0, 1]], 0) == batches[0]
  {
    hide Dd.KeyAt, Dd.TypedBatches;
    var keep: seq<seq<nat>> := [[0, 1]];
    assert M.Pick(batches[0], keep[0]) == batches[0];
    assert M.KeptFrom(batches, keep, 0) == batches[0] + M.KeptFrom(batches, keep, 1) == batches[0];
  }

  lemma NulRowsRendered(delim: char, floats: FloatCodec)
    ensures TypedRows(NulRows, [TText])
    ensures Rendered([NulRows], [TText], [0], ["k"], delim, floats, Body(NulRows, [TText], ["k"], delim, floats.show))
  {
    var batches, schema, pk: seq<nat>, keep: seq<seq<nat>> := [NulRows], [TText], [0], [[0, 1]];
    assert Dd.Project(NulRows[0], pk)[0] != Dd.Project(NulRows[1], pk)[0];
    Dd.KeyExists(NulRows[0], schema, pk);
    Dd.KeyExists(NulRows[1], schema, pk);
    Dd.KeyIsInjective(NulRows[0], NulRows[1], schema, pk);
    hide Dd.PkKey, Body, M.KeepsLatest, M.KeptFrom;
    TwoKept(batches, schema, pk);
    var body := Body(NulRows, schema, ["k"], delim, floats.show);
    assert Renders(batches, keep, schema, ["k"], delim, floats.show, (body, 2));
    assert Keeps(batches, schema, Some(pk), keep);
  }

  /** A file of two rows that the deduplication keeps and the server refuses. */
  lemma DeduplicatedFileRefused(t: Store, floats: FloatCodec, delim: char) returns (body: string)
    requires PlainFloats(floats.show) && Delimiter(delim)
    ensures Rendered([NulRows], [TText], [0], ["k"], delim, floats, body)
    ensures LoadFile(t, body, [TText], [0], delim, floats) == None
  {
    body := Body(NulRows, [TText], ["k"], delim, floats.show);
    NulRowsRendered(delim, floats);
    NulClash();
    hide Clashes, LoadFile, MeaningsOf, TypedRow;
    FileLoads(t, [NulRows], [TText], [0], ["k"], delim, floats, body);
    var rows := M.AllRows([NulRows]);
    assert rows[0] == NulRows[0] && rows[1] == NulRows[1];
  }
}
