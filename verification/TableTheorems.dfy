/** From the log to the table: what an upsert stream has loaded. */
module TableTheorems {
  import opened Base
  import opened Naming
  import opened Values
  import opened Writer
  import opened Sessions
  import opened SessionsInvariant
  import opened Csv
  import opened Render
  import opened Reader
  import opened Loader
  import I = PipelineInvariant
  import T = SessionsTheorems
  import Dd = Dedup
  import M = DedupMeaning
  import U = Upsert

  /** The rows of each object. */
  function FileRows(xs: seq<Sealed>): seq<seq<Row>> {
    seq(|xs|, i requires 0 <= i < |xs| => T.RowsOf(xs[i].batches))
  }

  lemma {:induction false} RowsOfConcat(a: seq<Batch>, b: seq<Batch>)
    ensures T.RowsOf(a + b) == T.RowsOf(a) + T.RowsOf(b)
  {
    if b == [] {
      assert a + b == a;
    } else {
      var n := |b| - 1;
      assert (a + b)[..|a + b| - 1] == a + b[..n];
      RowsOfConcat(a, b[..n]);
    }
  }

  lemma {:induction false} ConcatRows(xs: seq<Sealed>)
    ensures U.Concat(FileRows(xs)) == T.RowsOf(I.Flat(xs))
  {
    if xs != [] {
      var n := |xs| - 1;
      ConcatRows(xs[..n]);
      assert FileRows(xs)[..n] == FileRows(xs[..n]);
      RowsOfConcat(I.Flat(xs[..n]), xs[n].batches);
    }
  }

  lemma {:induction false} PieceOf(files: seq<seq<Row>>, i: nat, x: Row)
    requires i < |files| && x in files[i]
    ensures x in U.Concat(files)
  {
    var n := |files| - 1;
    if i < n {
      PieceOf(files[..n], i, x);
    }
  }

  function BatchRows(bs: seq<Batch>): seq<seq<Row>> {
    seq(|bs|, i requires 0 <= i < |bs| => bs[i].rows)
  }

  /** The batches of each object, as `render` gets them. */
  function FileBatches(xs: seq<Sealed>): seq<seq<seq<Row>>> {
    seq(|xs|, i requires 0 <= i < |xs| => BatchRows(xs[i].batches))
  }

  lemma {:induction false} RowsFromBatch(bs: seq<Batch>, b: nat)
    requires b < |bs|
    ensures M.RowsFrom(BatchRows(bs), b, 0) == T.RowsOf(bs[b..])
    decreases |bs| - b
  {
    hide T.RowsOf;
    assert bs[b..] == [bs[b]] + bs[b + 1..];
    RowsOfConcat([bs[b]], bs[b + 1..]);
    RowsOfOne(bs[b]);
    if b + 1 < |bs| {
      RowsFromBatch(bs, b + 1);
    }
  }

  lemma RowsOfOne(b: Batch)
    ensures T.RowsOf([b]) == b.rows && T.RowsOf([]) == []
  {
  }

  lemma RowsOfFile(bs: seq<Batch>)
    ensures M.AllRows(BatchRows(bs)) == T.RowsOf(bs)
  {
    if bs != [] {
      RowsFromBatch(bs, 0);
      assert bs[0..] == bs;
    }
  }

  /** Every row of every batch is a row of the log. */
  lemma BatchRowIsLogged(log: seq<Row>, xs: seq<Sealed>, upto: nat, i: nat, b: nat, r: nat)
    requires upto <= |log| && U.Concat(FileRows(xs)) == log[..upto]
    requires i < |xs| && b < |xs[i].batches| && r < |xs[i].batches[b].rows|
    ensures xs[i].batches[b].rows[r] in log
  {
    hide T.RowsOf, U.Concat, M.RowsFrom;
    var batches := BatchRows(xs[i].batches);
    var q: Dd.Place := (b, r);
    M.RestMember(batches, 0, 0, batches[b][r]);
    assert Dd.IsPlace(batches, q) && batches[q.0][q.1] == batches[b][r];
    RowsOfFile(xs[i].batches);
    PieceOf(FileRows(xs), i, batches[b][r]);
  }

  lemma FilesShort(log: seq<Row>, xs: seq<Sealed>, upto: nat, pk: seq<nat>)
    requires upto <= |log| && U.Concat(FileRows(xs)) == log[..upto] && M.ShortKeys([log], pk)
    ensures ShortFiles(FileBatches(xs), pk)
  {
    hide Dd.ShortCell, FileRows, U.Concat;
    forall i, b, r | 0 <= i < |xs| && 0 <= b < |xs[i].batches| && 0 <= r < |xs[i].batches[b].rows|
      ensures U.KeyedRow(xs[i].batches[b].rows[r], pk) && Dd.ShortKey(xs[i].batches[b].rows[r], pk)
    {
      BatchRowIsLogged(log, xs, upto, i, b, r);
      var j :| 0 <= j < |log| && log[j] == xs[i].batches[b].rows[r];
      assert [log][0][j] == log[j];
    }
  }

  lemma {:induction false} MeaningsOfFiles(xs: seq<Sealed>, schema: seq<ColumnType>, floats: FloatCodec)
    requires TypedFiles(FileBatches(xs), schema)
    ensures TypedRows(U.Concat(FileRows(xs)), schema)
    ensures U.Concat(FileMeanings(FileBatches(xs), schema, floats))
         == MeaningsOf(U.Concat(FileRows(xs)), schema, floats)
  {
    hide TypedRow, MeaningOf, T.RowsOf, M.AllRows;
    if xs != [] {
      var n := |xs| - 1;
      var files := FileBatches(xs);
      assert FileBatches(xs[..n]) == files[..n] && FileRows(xs[..n]) == FileRows(xs)[..n];
      assert forall i :: 0 <= i < n ==> files[..n][i] == files[i];
      MeaningsOfFiles(xs[..n], schema, floats);
      assert FileMeanings(files, schema, floats)[..n] == FileMeanings(files[..n], schema, floats);
      RowsOfFile(xs[n].batches);
      assert M.AllRows(files[n]) == FileRows(xs)[n];
      var a, b := U.Concat(FileRows(xs[..n])), FileRows(xs)[n];
      assert MeaningsOf(a + b, schema, floats) == MeaningsOf(a, schema, floats) + MeaningsOf(b, schema, floats);
    }
  }

  /** After any run in which no operator skipped a file, loading the rendered bodies of the loaded
      files gives what applying the log up to some offset gives, row by row, last write wins: across
      crashes, cuts, retries and reopens. It fails only if two rows of one file clash. */
  lemma TableIsLogPrefix(log: seq<Row>, w: World, schema: seq<ColumnType>, pk: seq<nat>, names: seq<string>,
                         delim: char, floats: FloatCodec, bodies: seq<string>)
    requires T.Reached(log, w) && !T.Skipped(w)
    requires TypedRows(log, schema) && M.ShortKeys([log], pk)
    requires Loadable(schema, pk, names, delim) && PlainFloats(floats.show)
    requires RenderedFiles(FileBatches(w.loaded), schema, pk, names, delim, floats, bodies)
    ensures var files, upto := FileBatches(w.loaded), Position(I.Flat(w.loaded));
            && 0 <= upto <= |log| && TypedRows(log[..upto], schema) && TypedFiles(files, schema)
            && U.Keyed(MeaningsOf(log[..upto], schema, floats), pk)
            && LoadFiles(map[], bodies, schema, pk, delim, floats)
            == if Poisoned(files, schema, pk) then None
               else Some(U.Apply(map[], MeaningsOf(log[..upto], schema, floats), pk))
  {
    hide T.Reached, T.Skipped, I.Flat, U.Apply, LoadFiles, T.RowsOf, FileBatches, FileRows, Poisoned, TypedFiles,
      MeaningsOf, FileMeanings, RenderedFiles, ShortFiles, Loadable, U.Concat, TypedRow, M.ShortKeys;
    T.ExactlyOnce(log, w);
    var upto := Position(I.Flat(w.loaded));
    ConcatRows(w.loaded);
    FilesShort(log, w.loaded, upto, pk);
    BodiesLoad(map[], FileBatches(w.loaded), schema, pk, names, delim, floats, bodies);
    MeaningsOfFiles(w.loaded, schema, floats);
  }

  /** In insert-only mode the bodies of the loaded files, read one after the other, are exactly what the
      first rows of the log mean: none missing, none twice, in order. */
  lemma InsertedRowsAreLogPrefix(log: seq<Row>, w: World, schema: seq<ColumnType>, names: seq<string>, delim: char,
                                 floats: FloatCodec, bodies: seq<string>)
    requires T.Reached(log, w) && !T.Skipped(w)
    requires TypedRows(log, schema) && Delimiter(delim) && |names| == |schema| > 0 && PlainFloats(floats.show)
    requires InsertedFiles(FileBatches(w.loaded), schema, names, delim, floats, bodies)
    ensures var upto := Position(I.Flat(w.loaded));
            && 0 <= upto <= |log| && TypedRows(log[..upto], schema)
            && ReadFiles(bodies, schema, delim, floats) == Some(MeaningsOf(log[..upto], schema, floats))
  {
    hide T.Reached, T.Skipped, I.Flat, T.RowsOf, FileBatches, FileRows, TypedFiles, MeaningsOf, FileMeanings,
      InsertedFiles, U.Concat, TypedRow, ReadFiles;
    T.ExactlyOnce(log, w);
    ConcatRows(w.loaded);
    InsertedFilesReadBack(FileBatches(w.loaded), schema, names, delim, floats, bodies);
    MeaningsOfFiles(w.loaded, schema, floats);
  }

  lemma SomeRowsExact(log: seq<Row>, rows: seq<Row>, schema: seq<ColumnType>, pk: seq<nat>)
    requires TypedRows(log, schema) && Dd.ValidPk(pk, schema) && ExactKeys(log, schema, pk)
    requires forall x :: x in rows ==> x in log
    ensures TypedRows(rows, schema) && ExactKeys(rows, schema, pk)
  {
    hide HasType, ExactCell;
    forall j | 0 <= j < |rows| ensures exists m :: 0 <= m < |log| && log[m] == rows[j] {
      assert rows[j] in rows;
    }
  }

  /** With keys whose text is exact no file is ever refused. */
  lemma ExactLogLoads(log: seq<Row>, w: World, schema: seq<ColumnType>, pk: seq<nat>)
    requires T.Reached(log, w) && !T.Skipped(w)
    requires TypedRows(log, schema) && Dd.ValidPk(pk, schema) && ExactKeys(log, schema, pk)
    ensures TypedFiles(FileBatches(w.loaded), schema) && !Poisoned(FileBatches(w.loaded), schema, pk)
  {
    hide T.Reached, T.Skipped, I.Flat, T.RowsOf, U.Concat, TypedRow, ExactCell, Clash, M.AllRows;
    T.ExactlyOnce(log, w);
    var files, upto := FileBatches(w.loaded), Position(I.Flat(w.loaded));
    ConcatRows(w.loaded);
    forall i | 0 <= i < |files|
      ensures TypedRows(M.AllRows(files[i]), schema) && !Clash(M.AllRows(files[i]), schema, pk)
    {
      var rows := M.AllRows(files[i]);
      RowsOfFile(w.loaded[i].batches);
      forall x | x in rows ensures x in log {
        PieceOf(FileRows(w.loaded), i, x);
      }
      SomeRowsExact(log, rows, schema, pk);
      ExactKeysDoNotClash(rows, schema, pk);
    }
  }

  predicate VerbatimRows(rows: seq<Row>, schema: seq<ColumnType>)
    requires TypedRows(rows, schema)
  {
    forall i :: 0 <= i < |rows| ==> Verbatim(rows[i], schema)
  }

  lemma VerbatimMeaning(rows: seq<Row>, schema: seq<ColumnType>, pk: seq<nat>, floats: FloatCodec, upto: nat)
    requires TypedRows(rows, schema) && VerbatimRows(rows, schema) && Dd.ValidPk(pk, schema) && upto <= |rows|
    ensures ExactKeys(rows, schema, pk) && TypedRows(rows[..upto], schema)
    ensures MeaningsOf(rows[..upto], schema, floats) == rows[..upto]
  {
    hide MeaningOf, HasType;
    forall i | 0 <= i < |rows| ensures MeaningOf(rows[i], schema, floats) == rows[i] {
      VerbatimMeansItself(rows[i], schema, floats);
    }
  }

  /** A log without floats, milliseconds and NUL arrives as it is: the loaded table is the first rows of
      the log applied in order. */
  lemma VerbatimTableIsLog(log: seq<Row>, w: World, schema: seq<ColumnType>, pk: seq<nat>, names: seq<string>,
                           delim: char, floats: FloatCodec, bodies: seq<string>)
    requires T.Reached(log, w) && !T.Skipped(w)
    requires TypedRows(log, schema) && VerbatimRows(log, schema) && M.ShortKeys([log], pk)
    requires Loadable(schema, pk, names, delim) && PlainFloats(floats.show)
    requires RenderedFiles(FileBatches(w.loaded), schema, pk, names, delim, floats, bodies)
    ensures var upto := Position(I.Flat(w.loaded));
            && 0 <= upto <= |log| && U.Keyed(log[..upto], pk)
            && LoadFiles(map[], bodies, schema, pk, delim, floats) == Some(U.Apply(map[], log[..upto], pk))
  {
    hide T.Reached, T.Skipped, I.Flat, U.Apply, LoadFiles, FileBatches, Poisoned, TypedFiles, MeaningsOf, RenderedFiles,
      TypedRow, M.ShortKeys, VerbatimRows, ExactKeys, PlainFloats;
    TableIsLogPrefix(log, w, schema, pk, names, delim, floats, bodies);
    VerbatimMeaning(log, schema, pk, floats, Position(I.Flat(w.loaded)));
    ExactLogLoads(log, w, schema, pk);
  }
}
