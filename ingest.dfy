/**
 * Reading the uploaded statements into one batch (process_data in app.py).
 *
 * Each uploaded CSV is a Frame: a header and rows of cells. A Starling-style
 * export names its money column "Amount (GBP)"; such a file has that column
 * renamed to "Amount" and "Spending Category" renamed to "Category". All files
 * are then concatenated, in upload order, into a Batch. As in pandas' outer
 * concatenation, each batch row keeps the header of the file it came from, and
 * a column that file lacks reads as Blank (NaN).
 */
module Ingest {
  import opened Wrappers

  type Column = string

  /** A cell as read from a CSV: empty (NaN), text, or a money value in pence. */
  datatype Cell = Blank | Text(text: string) | Pence(pence: int)

  /** One uploaded file: its header and its rows of cells, by position. */
  datatype Frame = Frame(columns: seq<Column>, rows: seq<seq<Cell>>)

  /** A row of the combined batch, with the header of the file it came from. */
  datatype Row = Row(header: seq<Column>, cells: seq<Cell>)

  /** The combined upload: the union of the headers and every row in upload order. */
  datatype Batch = Batch(columns: seq<Column>, rows: seq<Row>)

  /** What stops the dashboard: a column it indexes is absent, or holds text where a number is needed. */
  datatype Failure = MissingColumn(name: Column) | NotNumeric(name: Column)

  const AmountGbp: Column := "Amount (GBP)"
  const AmountColumn: Column := "Amount"
  const SpendingCategory: Column := "Spending Category"
  const CategoryColumn: Column := "Category"
  const DateColumn: Column := "Date"
  const CounterPartyColumn: Column := "Counter Party"
  const BalanceGbp: Column := "Balance (GBP)"

  const EmptyBatch := Batch([], [])

  /** Position of the first column called `name`, or |cols| when there is none. */
  function FirstIndex(cols: seq<Column>, name: Column): (i: nat)
    ensures i <= |cols|
    ensures i < |cols| ==> cols[i] == name
    ensures forall j :: 0 <= j < i ==> cols[j] != name
    ensures i == |cols| <==> name !in cols
  {
    if cols == [] then 0
    else if cols[0] == name then 0
    else 1 + FirstIndex(cols[1..], name)
  }

  /** The cell of `row` under column `name`; Blank when the row's file has no such column. */
  function CellOf(row: Row, name: Column): (c: Cell)
    ensures name !in row.header ==> c == Blank
  {
    var i := FirstIndex(row.header, name);
    if i < |row.header| && i < |row.cells| then row.cells[i] else Blank
  }

  // ---------------------------------------------------------------------------
  // Column standardisation (app.py:21-22)
  // ---------------------------------------------------------------------------

  /** The rename table applied to Starling-style exports. */
  function RenameColumn(c: Column): (r: Column)
    ensures c != AmountGbp && c != SpendingCategory ==> r == c
    ensures r != c ==> (c == AmountGbp && r == AmountColumn) || (c == SpendingCategory && r == CategoryColumn)
  {
    if c == AmountGbp then AmountColumn
    else if c == SpendingCategory then CategoryColumn
    else c
  }

  /** A file after standardisation: renamed when it carries "Amount (GBP)", otherwise as uploaded. */
  function Standardize(f: Frame): (g: Frame)
    ensures g.rows == f.rows
    ensures |g.columns| == |f.columns|
    ensures AmountGbp !in f.columns ==> g == f
    ensures AmountGbp in f.columns ==>
      forall i :: 0 <= i < |f.columns| ==> g.columns[i] == RenameColumn(f.columns[i])
    ensures forall i :: 0 <= i < |f.columns| && g.columns[i] != f.columns[i] ==>
      (f.columns[i] == AmountGbp && g.columns[i] == AmountColumn) ||
      (f.columns[i] == SpendingCategory && g.columns[i] == CategoryColumn)
    ensures AmountGbp !in g.columns
  {
    if AmountGbp in f.columns then
      Frame(seq(|f.columns|, i requires 0 <= i < |f.columns| => RenameColumn(f.columns[i])), f.rows)
    else
      f
  }

  /**
   * A Starling-style file and a file with the canonical header and the same rows
   * standardise to the same frame.
   */
  lemma AliasFilesAgree(f: Frame, g: Frame)
    requires AmountGbp in f.columns
    requires |g.columns| == |f.columns|
    requires forall i :: 0 <= i < |f.columns| ==> g.columns[i] == RenameColumn(f.columns[i])
    requires g.rows == f.rows
    ensures Standardize(f) == Standardize(g) == g
  {
    var h := Standardize(f);
    assert h.columns == g.columns;
    assert AmountGbp !in g.columns by {
      forall i | 0 <= i < |g.columns| ensures g.columns[i] != AmountGbp {
        assert g.columns[i] == RenameColumn(f.columns[i]);
      }
    }
  }

  /**
   * After standardisation a row reads under the canonical name exactly what it
   * held under the alias, as long as the file did not already use the canonical name.
   */
  lemma AliasCellAgrees(f: Frame, cells: seq<Cell>, alias: Column, canonical: Column)
    requires AmountGbp in f.columns
    requires (alias, canonical) == (AmountGbp, AmountColumn) || (alias, canonical) == (SpendingCategory, CategoryColumn)
    requires canonical !in f.columns
    ensures CellOf(Row(Standardize(f).columns, cells), canonical) == CellOf(Row(f.columns, cells), alias)
  {
    var cols := f.columns;
    var renamed := Standardize(f).columns;
    assert same: forall j :: 0 <= j < |cols| ==> (renamed[j] == canonical <==> cols[j] == alias) by {
      forall j | 0 <= j < |cols| ensures renamed[j] == canonical <==> cols[j] == alias {
        assert renamed[j] == RenameColumn(cols[j]);
        assert cols[j] != canonical;
      }
    }
    assert FirstIndex(renamed, canonical) == FirstIndex(cols, alias);
  }

  /** Standardisation leaves what a row reads under any other column untouched. */
  lemma OtherCellsAgree(f: Frame, cells: seq<Cell>, name: Column)
    requires name !in {AmountGbp, AmountColumn, SpendingCategory, CategoryColumn}
    ensures CellOf(Row(Standardize(f).columns, cells), name) == CellOf(Row(f.columns, cells), name)
  {
    var cols, renamed := f.columns, Standardize(f).columns;
    forall j | 0 <= j < |cols| ensures renamed[j] == name <==> cols[j] == name {
    }
    assert FirstIndex(renamed, name) == FirstIndex(cols, name);
  }

  // ---------------------------------------------------------------------------
  // Concatenation (app.py:23, 28)
  // ---------------------------------------------------------------------------

  /** The rows of one file, each tagged with that file's header. */
  function RowsOf(f: Frame): seq<Row>
  {
    seq(|f.rows|, k requires 0 <= k < |f.rows| => Row(f.columns, f.rows[k]))
  }

  /** `acc` followed by the columns of `cols` it does not already have (the header union of an outer concat). */
  function MergeColumns(acc: seq<Column>, cols: seq<Column>): (r: seq<Column>)
    ensures forall c :: c in r <==> c in acc || c in cols
    ensures |acc| <= |r|
    ensures r[..|acc|] == acc
    decreases |cols|
  {
    if cols == [] then acc
    else MergeColumns(if cols[0] in acc then acc else acc + [cols[0]], cols[1..])
  }

  /** pd.concat of the frames, in order. */
  function Concat(fs: seq<Frame>): (b: Batch)
    ensures fs == [] ==> b == EmptyBatch
    ensures |b.rows| == TotalRows(fs)
  {
    if fs == [] then EmptyBatch
    else
      var prev := Concat(fs[..|fs| - 1]);
      var last := fs[|fs| - 1];
      Batch(MergeColumns(prev.columns, last.columns), prev.rows + RowsOf(last))
  }

  /** Total number of rows over all files. */
  function TotalRows(fs: seq<Frame>): nat
  {
    if fs == [] then 0 else TotalRows(fs[..|fs| - 1]) + |fs[|fs| - 1].rows|
  }

  /** Every file standardised, in upload order. */
  function StandardizeAll(fs: seq<Frame>): seq<Frame>
  {
    seq(|fs|, i requires 0 <= i < |fs| => Standardize(fs[i]))
  }

  /** A column is in the batch exactly when some file has it. */
  lemma {:induction false} ConcatColumns(fs: seq<Frame>)
    ensures forall c :: c in Concat(fs).columns <==> exists i :: 0 <= i < |fs| && c in fs[i].columns
  {
    if fs != [] {
      var n := |fs| - 1;
      var init, last := fs[..n], fs[n];
      ConcatColumns(init);
      var prev := Concat(init);
      assert Concat(fs).columns == MergeColumns(prev.columns, last.columns);
      forall c ensures c in Concat(fs).columns <==> exists i :: 0 <= i < |fs| && c in fs[i].columns {
        if c in Concat(fs).columns {
          if c !in last.columns {
            assert c in prev.columns;
            var i :| 0 <= i < |init| && c in init[i].columns;
            assert c in fs[i].columns;
          } else {
            assert c in fs[n].columns;
          }
        } else {
          forall i | 0 <= i < |fs| ensures c !in fs[i].columns {
            if i < n {
              assert init[i] == fs[i];
            }
          }
        }
      }
    }
  }

  /** Concatenating two runs of uploads puts the rows of the first before those of the second. */
  lemma {:induction false} ConcatAppend(fs: seq<Frame>, gs: seq<Frame>)
    ensures Concat(fs + gs).rows == Concat(fs).rows + Concat(gs).rows
    decreases |gs|
  {
    if gs == [] {
      assert fs + gs == fs;
    } else {
      var n := |gs| - 1;
      var init, g := gs[..n], gs[n];
      assert fs + gs == (fs + init) + [g];
      assert gs == init + [g];
      ConcatSnoc(fs + init, g);
      ConcatSnoc(init, g);
      ConcatAppend(fs, init);
    }
  }

  /** The rows of file j come, in their own order, right after the rows of the files before it. */
  lemma ConcatPlacesFile(fs: seq<Frame>, j: nat, k: nat)
    requires j < |fs| && k < |fs[j].rows|
    ensures TotalRows(fs[..j]) + k < |Concat(fs).rows|
    ensures Concat(fs).rows[TotalRows(fs[..j]) + k] == Row(fs[j].columns, fs[j].rows[k])
  {
    var before, f, rest := fs[..j], fs[j], fs[j + 1..];
    assert fs == before + [f] + rest;
    RowInMiddleFile(before, f, rest, k);
    assert Concat(fs) == Concat(before + [f] + rest);
  }

  lemma RowInMiddleFile(before: seq<Frame>, f: Frame, rest: seq<Frame>, k: nat)
    requires k < |f.rows|
    ensures TotalRows(before) + k < |Concat(before + [f] + rest).rows|
    ensures Concat(before + [f] + rest).rows[TotalRows(before) + k] == Row(f.columns, f.rows[k])
  {
    var n := TotalRows(before);
    var fs := before + [f];
    ConcatSnoc(before, f);
    ConcatAppend(fs, rest);
    var pre, mid, post := Concat(before).rows, RowsOf(f), Concat(rest).rows;
    assert |pre| == n;
    IndexInMiddle(pre, mid, post, n, k);
    assert Concat(fs + rest).rows == pre + mid + post;
  }

  lemma IndexInMiddle<T>(pre: seq<T>, mid: seq<T>, post: seq<T>, n: nat, k: nat)
    requires n == |pre| && k < |mid|
    ensures n + k < |pre + mid + post|
    ensures (pre + mid + post)[n + k] == mid[k]
  {
  }

  /** One more file appends its rows after the batch so far. */
  lemma ConcatSnoc(fs: seq<Frame>, f: Frame)
    ensures Concat(fs + [f]).rows == Concat(fs).rows + RowsOf(f)
  {
    assert (fs + [f])[..|fs|] == fs;
  }

  /** The last row of the batch is the last row of the last file, when that file has rows. */
  lemma LastRowOfBatch(fs: seq<Frame>)
    requires fs != [] && fs[|fs| - 1].rows != []
    ensures Concat(fs).rows != []
    ensures Concat(fs).rows[|Concat(fs).rows| - 1] ==
      Row(fs[|fs| - 1].columns, fs[|fs| - 1].rows[|fs[|fs| - 1].rows| - 1])
  {
  }

  /** Every column of the last file is a column of the batch. */
  lemma LastFileColumns(fs: seq<Frame>, c: Column)
    requires fs != [] && c in fs[|fs| - 1].columns
    ensures c in Concat(fs).columns
  {
    var n := |fs| - 1;
    assert Concat(fs).columns == MergeColumns(Concat(fs[..n]).columns, fs[n].columns);
  }

  /** Standardisation never adds or drops rows. */
  lemma {:induction false} StandardizeAllRows(fs: seq<Frame>)
    ensures TotalRows(StandardizeAll(fs)) == TotalRows(fs)
  {
    if fs != [] {
      var n := |fs| - 1;
      assert StandardizeAll(fs)[..n] == StandardizeAll(fs[..n]);
      StandardizeAllRows(fs[..n]);
    }
  }

  /**
   * process_data: standardise each uploaded file in turn, collect them, and
   * concatenate them; no files give the empty batch, and a non-empty upload
   * without a "Date" column anywhere fails where the dates are converted.
   */
  method ProcessData(files: seq<Frame>) returns (r: Result<Batch, Failure>)
    ensures files == [] ==> r == Success(EmptyBatch)
    ensures files != [] ==> r == (if DateColumn in Concat(StandardizeAll(files)).columns
                                  then Success(Concat(StandardizeAll(files)))
                                  else Failure(MissingColumn(DateColumn)))
    ensures r.Success? ==> |r.value.rows| == TotalRows(files)
    ensures r.Success? ==> forall c :: c in r.value.columns <==>
      exists i :: 0 <= i < |files| && c in Standardize(files[i]).columns
  {
    var allData: seq<Frame> := [];
    for i := 0 to |files|
      invariant |allData| == i
      invariant forall k :: 0 <= k < i ==> allData[k] == Standardize(files[k])
    {
      var df := files[i];
      if AmountGbp in df.columns {
        df := Frame(seq(|df.columns|, j requires 0 <= j < |df.columns| => RenameColumn(df.columns[j])), df.rows);
      }
      assert df == Standardize(files[i]);
      allData := allData + [df];
    }
    assert allData == StandardizeAll(files);
    StandardizeAllRows(files);
    ConcatColumns(allData);
    if allData == [] {
      return Success(EmptyBatch);
    }
    var fullDf := Concat(allData);
    if DateColumn !in fullDf.columns {
      return Failure(MissingColumn(DateColumn));
    }
    return Success(fullDf);
  }
}
