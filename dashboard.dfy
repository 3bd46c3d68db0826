/**
 * What the dashboard computes from the loaded batch (app.py:33-81): the three
 * headline figures, the P&L summary and the balance sheet. Failures stand for
 * the exceptions the script raises when a column it indexes is missing, when an
 * amount it adds up holds text, or when the balance it formats holds text.
 */
module Dashboard {
  import opened Wrappers
  import opened Ingest
  import opened Partition
  import opened Metrics

  /** A figure as pandas holds it: a value in pence, or NaN. */
  datatype Money = Num(pence: int) | NaN

  /** What the page shows: the upload prompt, or the accounts. */
  datatype Report =
    | NoData
    | Accounts(totalIncome: int, operatingExpense: int, netProfit: int, totalAssets: int,
               plSummary: seq<Entry>, cashAtBank: Money, balanceSheetTotal: Money, equity: int)

  /** A numeric cell as an amount; a blank is NaN. */
  function AmountOf(c: Cell): Option<int>
  {
    if c.Pence? then Some(c.pence) else None
  }

  /** The fields the accounting reads from one batch row. */
  function ToTxn(r: Row): Txn
  {
    Txn(CellOf(r, CounterPartyColumn), AmountOf(CellOf(r, AmountColumn)), CellOf(r, CategoryColumn))
  }

  function Txns(b: Batch): seq<Txn>
  {
    seq(|b.rows|, i requires 0 <= i < |b.rows| => ToTxn(b.rows[i]))
  }

  /** No "Amount" cell holds text (pandas' abs() raises on a text column). */
  predicate AmountsNumeric(b: Batch)
  {
    forall i :: 0 <= i < |b.rows| ==> !CellOf(b.rows[i], AmountColumn).Text?
  }

  /** df.empty: no rows or no columns. */
  predicate IsEmpty(b: Batch)
  {
    b.rows == [] || b.columns == []
  }

  /** Every column the page touches is present and readable, so the accounts are shown. */
  predicate HasReport(b: Batch)
  {
    && !IsEmpty(b)
    && CounterPartyColumn in b.columns
    && AmountColumn in b.columns
    && AmountsNumeric(b)
    && CategoryColumn in b.columns
    && (BalanceGbp in b.columns ==> !CellOf(b.rows[|b.rows| - 1], BalanceGbp).Text?)
  }

  /** Current cash at bank: the last row's "Balance (GBP)", or 0 when no file has that column. */
  function CashAtBank(b: Batch): (r: Result<Money, Failure>)
    requires b.rows != []
    ensures BalanceGbp !in b.columns ==> r == Success(Num(0))
    ensures r.Failure? <==> BalanceGbp in b.columns && CellOf(b.rows[|b.rows| - 1], BalanceGbp).Text?
    ensures r.Failure? ==> r.error == NotNumeric(BalanceGbp)
    ensures BalanceGbp in b.columns ==> match CellOf(b.rows[|b.rows| - 1], BalanceGbp)
      case Pence(v) => r == Success(Num(v))
      case Blank => r == Success(NaN)
      case Text(_) => r.Failure?
  {
    if BalanceGbp !in b.columns then Success(Num(0))
    else
      match CellOf(b.rows[|b.rows| - 1], BalanceGbp)
      case Pence(v) => Success(Num(v))
      case Blank => Success(NaN)
      case Text(_) => Failure(NotNumeric(BalanceGbp))
  }

  /** total_assets + cash; NaN absorbs. */
  function AddMoney(a: int, m: Money): (r: Money)
    ensures r == NaN <==> m == NaN
    ensures m.Num? ==> r == Num(a + m.pence)
  {
    match m
    case Num(v) => Num(a + v)
    case NaN => NaN
  }

  /**
   * The accounts for the batch's transactions and the cash figure: the headline
   * figures, the P&L summary and the balance sheet, which keep the accounting identities.
   */
  function ReportOf(ts: seq<Txn>, cash: Money): (rep: Report)
    ensures rep.Accounts?
    ensures rep.totalIncome == TotalIncome(ts) && rep.totalIncome >= 0
    ensures rep.operatingExpense == OperatingExpense(ts) && rep.operatingExpense <= 0
    ensures rep.totalAssets == TotalAssets(ts) && rep.totalAssets >= (CapitalisationThreshold + 1) * |Assets(ts)|
    ensures rep.plSummary == PandLSummary(ts)
    ensures rep.cashAtBank == cash
    ensures rep.balanceSheetTotal == AddMoney(rep.totalAssets, cash)
    ensures rep.netProfit == rep.totalIncome + rep.operatingExpense == SumAmounts(PandL(ts))
    ensures rep.netProfit + SumAmounts(Assets(ts)) == SumAmounts(ts)
    ensures rep.equity == rep.netProfit
    ensures EntriesTotal(rep.plSummary) + SumUncategorised(PandL(ts)) == rep.netProfit
  {
    BatchSumSplits(ts);
    TotalAssetsBound(ts);
    PandLSummaryMatchesNetProfit(ts);
    var assets := TotalAssets(ts);
    var profit := NetProfit(ts);
    Accounts(TotalIncome(ts), OperatingExpense(ts), profit, assets, PandLSummary(ts), cash, AddMoney(assets, cash), profit)
  }

  /**
   * The dashboard run on a loaded batch: the prompt when it is empty, a failure
   * at the first missing or non-numeric column the script touches, and otherwise
   * the report, whose figures keep the accounting identities.
   */
  function Evaluate(b: Batch): (r: Result<Report, Failure>)
    ensures r == Success(NoData) <==> IsEmpty(b)
    ensures r.Failure? && r.error.MissingColumn? ==> r.error.name !in b.columns
    ensures r.Failure? && r.error == NotNumeric(AmountColumn) ==>
      exists i :: 0 <= i < |b.rows| && CellOf(b.rows[i], AmountColumn).Text?
    ensures r.Failure? && r.error == NotNumeric(BalanceGbp) ==>
      b.rows != [] && CellOf(b.rows[|b.rows| - 1], BalanceGbp).Text?
    ensures HasReport(b) <==> r.Success? && r.value.Accounts?
    ensures !IsEmpty(b) && CounterPartyColumn !in b.columns ==> r == Failure(MissingColumn(CounterPartyColumn))
    ensures !IsEmpty(b) && CounterPartyColumn in b.columns && AmountColumn !in b.columns ==>
      r == Failure(MissingColumn(AmountColumn))
    ensures !IsEmpty(b) && CounterPartyColumn in b.columns && AmountColumn in b.columns && !AmountsNumeric(b) ==>
      r == Failure(NotNumeric(AmountColumn))
    ensures (!IsEmpty(b) && CounterPartyColumn in b.columns && AmountColumn in b.columns && AmountsNumeric(b) &&
             CategoryColumn !in b.columns) ==> r == Failure(MissingColumn(CategoryColumn))
    ensures (!IsEmpty(b) && CounterPartyColumn in b.columns && AmountColumn in b.columns && AmountsNumeric(b) &&
             CategoryColumn in b.columns && BalanceGbp in b.columns && CellOf(b.rows[|b.rows| - 1], BalanceGbp).Text?) ==>
      r == Failure(NotNumeric(BalanceGbp))
    ensures r.Success? && r.value.Accounts? ==>
      var ts, rep := Txns(b), r.value;
      && b.rows != []
      && rep.totalIncome == TotalIncome(ts)
      && rep.operatingExpense == OperatingExpense(ts)
      && rep.totalAssets == TotalAssets(ts)
      && rep.plSummary == PandLSummary(ts)
      && CashAtBank(b) == Success(rep.cashAtBank)
      && rep.balanceSheetTotal == AddMoney(rep.totalAssets, rep.cashAtBank)
      && rep.totalIncome >= 0
      && rep.operatingExpense <= 0
      && rep.totalAssets >= (CapitalisationThreshold + 1) * |Assets(ts)|
      && rep.netProfit == rep.totalIncome + rep.operatingExpense == SumAmounts(PandL(ts))
      && rep.netProfit + SumAmounts(Assets(ts)) == SumAmounts(ts)
      && rep.equity == rep.netProfit
      && EntriesTotal(rep.plSummary) + SumUncategorised(PandL(ts)) == rep.netProfit
      && (BalanceGbp !in b.columns ==> rep.cashAtBank == Num(0) && rep.balanceSheetTotal == Num(rep.totalAssets))
      && (rep.cashAtBank.Num? ==> rep.balanceSheetTotal == Num(rep.totalAssets + rep.cashAtBank.pence))
  {
    if IsEmpty(b) then Success(NoData)
    else if CounterPartyColumn !in b.columns then Failure(MissingColumn(CounterPartyColumn))
    else if AmountColumn !in b.columns then Failure(MissingColumn(AmountColumn))
    else if !AmountsNumeric(b) then Failure(NotNumeric(AmountColumn))
    else if CategoryColumn !in b.columns then Failure(MissingColumn(CategoryColumn))
    else
      match CashAtBank(b)
      case Failure(e) => Failure(e)
      case Success(cash) => Success(ReportOf(Txns(b), cash))
  }

  /** With no uploads the page shows the prompt. */
  lemma NoUploadsNoData()
    ensures Evaluate(EmptyBatch) == Success(NoData)
  {
  }

  /** Cash at bank is the balance on the last row of the last uploaded file, when that file has the column. */
  lemma CashFromLastFile(files: seq<Frame>, v: int, b: Batch)
    requires files != [] && files[|files| - 1].rows != []
    requires CellOf(Row(files[|files| - 1].columns, files[|files| - 1].rows[|files[|files| - 1].rows| - 1]), BalanceGbp) == Pence(v)
    requires b == Concat(StandardizeAll(files))
    ensures b.rows != []
    ensures CashAtBank(b) == Success(Num(v))
  {
    var fs := StandardizeAll(files);
    assert fs[|fs| - 1] == Standardize(files[|files| - 1]);
    BalanceFromLastFrame(fs, files[|files| - 1], v);
    assert b == Concat(fs);
    assert b.rows != [] && BalanceGbp in b.columns;
    assert CellOf(b.rows[|b.rows| - 1], BalanceGbp) == Pence(v);
    CashOfLastCell(b, v);
  }

  /** The batch's last row reads the last file's balance, whether or not that file was renamed. */
  lemma BalanceFromLastFrame(fs: seq<Frame>, last: Frame, v: int)
    requires fs != [] && fs[|fs| - 1] == Standardize(last) && last.rows != []
    requires CellOf(Row(last.columns, last.rows[|last.rows| - 1]), BalanceGbp) == Pence(v)
    ensures Concat(fs).rows != [] && BalanceGbp in Concat(fs).columns
    ensures CellOf(Concat(fs).rows[|Concat(fs).rows| - 1], BalanceGbp) == Pence(v)
  {
    var n := |fs| - 1;
    var cells := last.rows[|last.rows| - 1];
    OtherCellsAgree(last, cells, BalanceGbp);
    assert fs[n].rows == last.rows;
    assert BalanceGbp in fs[n].columns;
    LastRowOfBatch(fs);
    LastFileColumns(fs, BalanceGbp);
  }

  /** A numeric balance on the last row of a batch that has the column is the cash figure. */
  lemma CashOfLastCell(b: Batch, v: int)
    requires b.rows != [] && BalanceGbp in b.columns
    requires CellOf(b.rows[|b.rows| - 1], BalanceGbp) == Pence(v)
    ensures CashAtBank(b) == Success(Num(v))
  {
  }

  /**
   * On the page, the balance-sheet total is total_assets plus the balance on the
   * last row of the last uploaded file.
   */
  lemma BalanceSheetFromLastFile(files: seq<Frame>, v: int, b: Batch)
    requires files != [] && files[|files| - 1].rows != []
    requires CellOf(Row(files[|files| - 1].columns, files[|files| - 1].rows[|files[|files| - 1].rows| - 1]), BalanceGbp) == Pence(v)
    requires b == Concat(StandardizeAll(files)) && HasReport(b)
    ensures Evaluate(b).Success? && Evaluate(b).value.Accounts?
    ensures Evaluate(b).value.cashAtBank == Num(v)
    ensures Evaluate(b).value.balanceSheetTotal == Num(Evaluate(b).value.totalAssets + v)
  {
    CashFromLastFile(files, v, b);
    ReportWithCash(b, v);
  }

  /** A shown report whose cash is a number v has total_assets + v as its balance-sheet total. */
  lemma ReportWithCash(b: Batch, v: int)
    requires HasReport(b) && CashAtBank(b) == Success(Num(v))
    ensures Evaluate(b).Success? && Evaluate(b).value.Accounts?
    ensures Evaluate(b).value.cashAtBank == Num(v)
    ensures Evaluate(b).value.balanceSheetTotal == Num(Evaluate(b).value.totalAssets + v)
  {
  }

  /**
   * When some file has "Balance (GBP)" but the last file does not, the cash
   * figure is NaN (the concatenation fills the missing cells with NaN).
   */
  lemma CashNaNWhenLastFileLacksBalance(files: seq<Frame>, j: nat)
    requires j < |files| && BalanceGbp in files[j].columns
    requires files[|files| - 1].rows != [] && BalanceGbp !in files[|files| - 1].columns
    ensures Concat(StandardizeAll(files)).rows != []
    ensures CashAtBank(Concat(StandardizeAll(files))) == Success(NaN)
  {
    var fs := StandardizeAll(files);
    var last := files[|files| - 1];
    LastRowOfBatch(fs);
    OtherCellsAgree(last, last.rows[|last.rows| - 1], BalanceGbp);
    OtherCellsAgree(files[j], [], BalanceGbp);
    ConcatColumns(fs);
    assert BalanceGbp in fs[j].columns by {
      if AmountGbp in files[j].columns {
        var k :| 0 <= k < |files[j].columns| && files[j].columns[k] == BalanceGbp;
        assert fs[j].columns[k] == BalanceGbp;
      }
    }
  }
}
