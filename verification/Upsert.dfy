/** What staged files mean for the table in upsert mode: a row replaces the row with its key
    (src/dedup.rs, `render` in src/table.rs). */
module Upsert {
  import opened Base
  import opened Naming
  import opened Values
  import opened Dedup

  /** Rows are sequences of values: cells in the SDK, fields of text in the loader. */
  type Table<T(==)> = map<seq<T>, seq<T>>

  predicate KeyedRow<T(==)>(row: seq<T>, pk: seq<nat>) {
    forall i :: 0 <= i < |pk| ==> pk[i] < |row|
  }

  predicate Keyed<T(==)>(rows: seq<seq<T>>, pk: seq<nat>) {
    forall i :: 0 <= i < |rows| ==> KeyedRow(rows[i], pk)
  }

  /** Every row applied in order, last write wins. */
  function Apply<T(==)>(t: Table<T>, rows: seq<seq<T>>, pk: seq<nat>): Table<T>
    requires Keyed(rows, pk)
  {
    if rows == [] then t
    else
      var n := |rows| - 1;
      Apply(t, rows[..n], pk)[Project(rows[n], pk) := rows[n]]
  }

  predicate Writes<T(==)>(rows: seq<seq<T>>, pk: seq<nat>, k: seq<T>)
    requires Keyed(rows, pk)
  {
    exists i :: 0 <= i < |rows| && Project(rows[i], pk) == k
  }

  predicate DistinctKeys<T(==)>(rows: seq<seq<T>>, pk: seq<nat>)
    requires Keyed(rows, pk)
  {
    forall i, j :: 0 <= i < j < |rows| ==> Project(rows[i], pk) != Project(rows[j], pk)
  }

  /** The server's load of one file: refused as a whole if a key occurs twice. */
  function Load<T(==)>(t: Table<T>, rows: seq<seq<T>>, pk: seq<nat>): Option<Table<T>>
    requires Keyed(rows, pk)
  {
    if DistinctKeys(rows, pk) then Some(Apply(t, rows, pk)) else None
  }

  predicate KeyedFiles<T(==)>(files: seq<seq<seq<T>>>, pk: seq<nat>) {
    forall i :: 0 <= i < |files| ==> Keyed(files[i], pk)
  }

  /** Files loaded one after the other. */
  function LoadAll<T(==)>(t: Table<T>, files: seq<seq<seq<T>>>, pk: seq<nat>): Option<Table<T>>
    requires KeyedFiles(files, pk)
  {
    if files == [] then Some(t)
    else
      var n := |files| - 1;
      match LoadAll(t, files[..n], pk)
      case None => None
      case Some(u) => Load(u, files[n], pk)
  }

  // ---------------------------------------------------------------------
  // last write wins
  // ---------------------------------------------------------------------

  /** Each key's last row, in the order of these rows. */
  function LastWins<T(==)>(rows: seq<seq<T>>, pk: seq<nat>): (r: seq<seq<T>>)
    requires Keyed(rows, pk)
    ensures forall x :: x in r ==> x in rows
  {
    if rows == [] then []
    else if Writes(rows[1..], pk, Project(rows[0], pk)) then LastWins(rows[1..], pk)
    else [rows[0]] + LastWins(rows[1..], pk)
  }

  lemma {:induction false} LastWinsKeyed<T>(rows: seq<seq<T>>, pk: seq<nat>)
    requires Keyed(rows, pk)
    ensures Keyed(LastWins(rows, pk), pk)
  {
    if rows != [] {
      LastWinsKeyed(rows[1..], pk);
    }
  }

  /** The first row of several is applied first. */
  lemma {:induction false} ApplyFront<T>(t: Table<T>, x: seq<T>, rest: seq<seq<T>>, pk: seq<nat>)
    requires KeyedRow(x, pk) && Keyed(rest, pk) && Keyed([x] + rest, pk)
    ensures Apply(t, [x] + rest, pk) == Apply(t[Project(x, pk) := x], rest, pk)
  {
    if rest == [] {
      assert ([x] + rest)[..0] == [];
    } else {
      var n := |rest| - 1;
      assert ([x] + rest)[..n + 1] == [x] + rest[..n];
      ApplyFront(t, x, rest[..n], pk);
    }
  }

  lemma {:induction false} ApplyConcat<T>(t: Table<T>, a: seq<seq<T>>, b: seq<seq<T>>, pk: seq<nat>)
    requires Keyed(a, pk) && Keyed(b, pk) && Keyed(a + b, pk)
    ensures Apply(t, a + b, pk) == Apply(Apply(t, a, pk), b, pk)
  {
    if b == [] {
      assert a + b == a;
    } else {
      var n := |b| - 1;
      assert (a + b)[..|a + b| - 1] == a + b[..n];
      ApplyConcat(t, a, b[..n], pk);
    }
  }

  /** A written key has the row of its last write whatever was there before; the others are as before. */
  lemma {:induction false} ApplyAt<T>(t: Table<T>, u: Table<T>, rows: seq<seq<T>>, pk: seq<nat>, k: seq<T>)
    requires Keyed(rows, pk)
    ensures Writes(rows, pk, k) ==>
              k in Apply(t, rows, pk) && k in Apply(u, rows, pk) && Apply(t, rows, pk)[k] == Apply(u, rows, pk)[k]
    ensures !Writes(rows, pk, k) ==> (k in Apply(t, rows, pk) <==> k in t) && (k in t ==> Apply(t, rows, pk)[k] == t[k])
  {
    if rows != [] {
      var n := |rows| - 1;
      ApplyAt(t, u, rows[..n], pk, k);
      if Project(rows[n], pk) != k && Writes(rows, pk, k) {
        var i :| 0 <= i < |rows| && Project(rows[i], pk) == k;
        assert rows[..n][i] == rows[i];
      }
      if !Writes(rows, pk, k) {
        assert forall i :: 0 <= i < n ==> rows[..n][i] == rows[i];
      }
    }
  }

  /** Two tables with the same rows at all keys are one. */
  lemma SameTable<T>(a: Table<T>, b: Table<T>)
    requires forall k: seq<T> :: (k in a <==> k in b) && (k in a ==> a[k] == b[k])
    ensures a == b
  {
    assert a.Keys == b.Keys;
  }

  /** A write that a later row repeats leaves no trace. */
  lemma Overwritten<T>(t: Table<T>, k: seq<T>, x: seq<T>, rest: seq<seq<T>>, pk: seq<nat>)
    requires Keyed(rest, pk) && Writes(rest, pk, k)
    ensures Apply(t[k := x], rest, pk) == Apply(t, rest, pk)
  {
    var a, b := Apply(t[k := x], rest, pk), Apply(t, rest, pk);
    forall j: seq<T> ensures (j in a <==> j in b) && (j in a ==> a[j] == b[j]) {
      ApplyAt(t[k := x], t, rest, pk, j);
      ApplyAt(t, t[k := x], rest, pk, j);
    }
    SameTable(a, b);
  }

  /** Deduplicating a file does not change what it does to a table. */
  lemma {:induction false} LastWinsSameTable<T>(t: Table<T>, rows: seq<seq<T>>, pk: seq<nat>)
    requires Keyed(rows, pk)
    ensures Keyed(LastWins(rows, pk), pk) && Apply(t, LastWins(rows, pk), pk) == Apply(t, rows, pk)
    decreases rows
  {
    LastWinsKeyed(rows, pk);
    if rows != [] {
      var x, rest := rows[0], rows[1..];
      assert rows == [x] + rest;
      LastWinsKeyed(rest, pk);
      ApplyFront(t, x, rest, pk);
      if Writes(rest, pk, Project(x, pk)) {
        LastWinsSameTable(t, rest, pk);
        Overwritten(t, Project(x, pk), x, rest, pk);
      } else {
        LastWinsSameTable(t[Project(x, pk) := x], rest, pk);
        ApplyFront(t, x, LastWins(rest, pk), pk);
      }
    }
  }

  /** Among deduplicated rows no key occurs twice, as these rows hold their keys. */
  lemma {:induction false} LastWinsDistinct<T>(rows: seq<seq<T>>, pk: seq<nat>)
    requires Keyed(rows, pk)
    ensures Keyed(LastWins(rows, pk), pk) && DistinctKeys(LastWins(rows, pk), pk)
  {
    LastWinsKeyed(rows, pk);
    if rows != [] {
      LastWinsDistinct(rows[1..], pk);
      if !Writes(rows[1..], pk, Project(rows[0], pk)) {
        var r := LastWins(rows[1..], pk);
        forall j | 0 <= j < |r| ensures Project(r[j], pk) != Project(rows[0], pk) {
          assert r[j] in rows[1..];
          var m :| 0 <= m < |rows[1..]| && rows[1..][m] == r[j];
        }
      }
    }
  }

  // ---------------------------------------------------------------------
  // cuts and replays
  // ---------------------------------------------------------------------

  function Concat<T(==)>(files: seq<seq<seq<T>>>): seq<seq<T>> {
    if files == [] then [] else Concat(files[..|files| - 1]) + files[|files| - 1]
  }

  function Deduplicated<T(==)>(files: seq<seq<seq<T>>>, pk: seq<nat>): seq<seq<seq<T>>>
    requires KeyedFiles(files, pk)
  {
    seq(|files|, i requires 0 <= i < |files| => LastWins(files[i], pk))
  }

  lemma {:induction false} ConcatKeyed<T>(files: seq<seq<seq<T>>>, pk: seq<nat>)
    requires KeyedFiles(files, pk)
    ensures Keyed(Concat(files), pk) && KeyedFiles(Deduplicated(files, pk), pk)
  {
    forall i | 0 <= i < |files| ensures Keyed(LastWins(files[i], pk), pk) {
      LastWinsKeyed(files[i], pk);
    }
    if files != [] {
      ConcatKeyed(files[..|files| - 1], pk);
    }
  }

  /** However the stream of rows is cut into files, deduplicating each file and loading them in
      order gives the table of all rows applied in order, as these rows hold their keys. */
  lemma {:induction false} CutsDoNotMatter<T>(t: Table<T>, files: seq<seq<seq<T>>>, pk: seq<nat>)
    requires KeyedFiles(files, pk)
    ensures Keyed(Concat(files), pk) && KeyedFiles(Deduplicated(files, pk), pk)
    ensures LoadAll(t, Deduplicated(files, pk), pk) == Some(Apply(t, Concat(files), pk))
  {
    ConcatKeyed(files, pk);
    if files != [] {
      var n := |files| - 1;
      CutsDoNotMatter(t, files[..n], pk);
      assert Deduplicated(files, pk)[..n] == Deduplicated(files[..n], pk);
      LastWinsDistinct(files[n], pk);
      LastWinsSameTable(Apply(t, Concat(files[..n]), pk), files[n], pk);
      ApplyConcat(t, Concat(files[..n]), files[n], pk);
    }
  }

  /** Rows applied a second time change nothing. */
  lemma ApplyTwice<T>(t: Table<T>, rows: seq<seq<T>>, pk: seq<nat>)
    requires Keyed(rows, pk)
    ensures Apply(Apply(t, rows, pk), rows, pk) == Apply(t, rows, pk)
  {
    var a, b := Apply(Apply(t, rows, pk), rows, pk), Apply(t, rows, pk);
    forall k: seq<T> ensures (k in a <==> k in b) && (k in a ==> a[k] == b[k]) {
      ApplyAt(Apply(t, rows, pk), t, rows, pk, k);
      ApplyAt(t, t, rows, pk, k);
    }
    SameTable(a, b);
  }

  lemma {:induction false} ConcatJoin<T>(a: seq<seq<seq<T>>>, b: seq<seq<seq<T>>>)
    ensures Concat(a + b) == Concat(a) + Concat(b)
  {
    if b == [] {
      assert a + b == a;
    } else {
      var n := |b| - 1;
      assert (a + b)[..|a + b| - 1] == a + b[..n];
      ConcatJoin(a, b[..n]);
    }
  }

  /** Replaying any files loaded already and then going on gives the same table. */
  lemma ReplayIsHarmless<T>(t: Table<T>, files: seq<seq<seq<T>>>, pk: seq<nat>, k: nat, n: nat)
    requires KeyedFiles(files, pk) && k <= n <= |files|
    ensures KeyedFiles(Deduplicated(files, pk), pk)
    ensures KeyedFiles(Deduplicated(files, pk)[..n], pk) && KeyedFiles(Deduplicated(files, pk)[k..], pk)
    ensures var loaded := LoadAll(t, Deduplicated(files, pk)[..n], pk);
            && loaded.Some?
            && LoadAll(loaded.value, Deduplicated(files, pk)[k..], pk) == LoadAll(t, Deduplicated(files, pk), pk)
  {
    var ds := Deduplicated(files, pk);
    ConcatKeyed(files, pk);
    assert ds[..n] == Deduplicated(files[..n], pk) && ds[k..] == Deduplicated(files[k..], pk);
    CutsDoNotMatter(t, files, pk);
    CutsDoNotMatter(t, files[..n], pk);
    var u := Apply(t, Concat(files[..n]), pk);
    CutsDoNotMatter(u, files[k..], pk);
    hide LoadAll, Apply, LastWins, Concat, Writes;
    var a, b, c := Concat(files[..k]), Concat(files[k..n]), Concat(files[n..]);
    ThreeParts(files, pk, k, n);
    ApplyConcat(t, a, b, pk);
    ApplyConcat(u, b, c, pk);
    ApplyTwice(Apply(t, a, pk), b, pk);
    ApplyConcat(t, a + b, c, pk);
  }

  lemma ConcatThree<T>(a: seq<seq<seq<T>>>, b: seq<seq<seq<T>>>, c: seq<seq<seq<T>>>)
    ensures Concat(a + b) == Concat(a) + Concat(b) && Concat(b + c) == Concat(b) + Concat(c)
    ensures Concat(a + b + c) == Concat(a) + Concat(b) + Concat(c)
  {
    hide Concat;
    ConcatJoin(a, b);
    ConcatJoin(b, c);
    ConcatJoin(a + b, c);
  }

  lemma Slices<T>(files: seq<seq<seq<T>>>, k: nat, n: nat)
    requires k <= n <= |files|
    ensures files[..n] == files[..k] + files[k..n] && files[k..] == files[k..n] + files[n..]
    ensures files == files[..k] + files[k..n] + files[n..]
  {
  }

  lemma ThreeParts<T>(files: seq<seq<seq<T>>>, pk: seq<nat>, k: nat, n: nat)
    requires KeyedFiles(files, pk) && k <= n <= |files|
    ensures var a, b, c := Concat(files[..k]), Concat(files[k..n]), Concat(files[n..]);
            && Concat(files[..n]) == a + b && Concat(files[k..]) == b + c && Concat(files) == a + b + c
            && Keyed(a, pk) && Keyed(b, pk) && Keyed(c, pk)
            && Keyed(a + b, pk) && Keyed(b + c, pk) && Keyed(a + b + c, pk)
  {
    hide Concat, Deduplicated, Keyed, KeyedFiles;
    Slices(files, k, n);
    KeyedSlices(files, pk, k, n);
    var x, y, z := files[..k], files[k..n], files[n..];
    ConcatThree(x, y, z);
    ConcatKeyed(x, pk);
    ConcatKeyed(y, pk);
    ConcatKeyed(z, pk);
    KeyedConcat(Concat(x), Concat(y), pk);
    KeyedConcat(Concat(y), Concat(z), pk);
    KeyedConcat(Concat(x) + Concat(y), Concat(z), pk);
  }

  lemma KeyedSlices<T>(files: seq<seq<seq<T>>>, pk: seq<nat>, k: nat, n: nat)
    requires KeyedFiles(files, pk) && k <= n <= |files|
    ensures KeyedFiles(files[..k], pk) && KeyedFiles(files[k..n], pk) && KeyedFiles(files[n..], pk)
  {
  }

  lemma KeyedConcat<T>(a: seq<seq<T>>, b: seq<seq<T>>, pk: seq<nat>)
    requires Keyed(a, pk) && Keyed(b, pk)
    ensures Keyed(a + b, pk)
  {
  }
}
