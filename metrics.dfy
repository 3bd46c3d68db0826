/**
 * The dashboard's figures (app.py:45-49) and the profit-and-loss summary
 * (app.py:62). pandas skips NaN in a sum and compares NaN as false, so a row
 * with a blank amount adds nothing to any figure.
 */
module Metrics {
  import opened Wrappers
  import opened Ingest
  import opened Partition

  /** What a row adds to a pandas sum: its amount, or nothing when the amount is NaN. */
  function AmountValue(t: Txn): int
  {
    if t.amount.Some? then t.amount.value else 0
  }

  /** Sum of the strictly positive amounts (money in). */
  function SumIncome(ts: seq<Txn>): (r: int)
    ensures r >= 0
  {
    if ts == [] then 0
    else (if AmountValue(ts[0]) > 0 then AmountValue(ts[0]) else 0) + SumIncome(ts[1..])
  }

  /** Sum of the strictly negative amounts (money out). */
  function SumExpense(ts: seq<Txn>): (r: int)
    ensures r <= 0
  {
    if ts == [] then 0
    else (if AmountValue(ts[0]) < 0 then AmountValue(ts[0]) else 0) + SumExpense(ts[1..])
  }

  /** Sum of all amounts. */
  function SumAmounts(ts: seq<Txn>): int
  {
    if ts == [] then 0 else AmountValue(ts[0]) + SumAmounts(ts[1..])
  }

  /** Sum of absolute amounts. */
  function SumAbs(ts: seq<Txn>): (r: int)
    ensures r >= 0
  {
    if ts == [] then 0 else Abs(AmountValue(ts[0])) + SumAbs(ts[1..])
  }

  /** total_income: the positive P&L amounts. */
  function TotalIncome(ts: seq<Txn>): (r: int)
    ensures r >= 0
  {
    SumIncome(PandL(ts))
  }

  /** operating_exp: the negative P&L amounts. */
  function OperatingExpense(ts: seq<Txn>): (r: int)
    ensures r <= 0
  {
    SumExpense(PandL(ts))
  }

  /** net_profit := total_income + operating_exp, which is the plain sum of the P&L amounts. */
  function NetProfit(ts: seq<Txn>): (r: int)
    ensures r == SumAmounts(PandL(ts))
  {
    IncomePlusExpense(PandL(ts));
    TotalIncome(ts) + OperatingExpense(ts)
  }

  /** total_assets: the absolute capitalised amounts. */
  function TotalAssets(ts: seq<Txn>): (r: int)
    ensures r >= 0
  {
    SumAbs(Assets(ts))
  }

  /** Income plus expense is the plain sum: a zero or blank amount lands in neither. */
  lemma {:induction false} IncomePlusExpense(ts: seq<Txn>)
    ensures SumIncome(ts) + SumExpense(ts) == SumAmounts(ts)
  {
    if ts != [] {
      IncomePlusExpense(ts[1..]);
    }
  }

  /** Every sum over two runs of rows is the sum over the first plus the sum over the second. */
  lemma {:induction false} SumsAppend(xs: seq<Txn>, ys: seq<Txn>)
    ensures SumIncome(xs + ys) == SumIncome(xs) + SumIncome(ys)
    ensures SumExpense(xs + ys) == SumExpense(xs) + SumExpense(ys)
    ensures SumAmounts(xs + ys) == SumAmounts(xs) + SumAmounts(ys)
    ensures SumAbs(xs + ys) == SumAbs(xs) + SumAbs(ys)
  {
    if xs == [] {
      assert xs + ys == ys;
    } else {
      assert (xs + ys)[0] == xs[0] && (xs + ys)[1..] == xs[1..] + ys;
      SumsAppend(xs[1..], ys);
    }
  }

  /** A row whose amount is zero or blank changes neither income nor expense, wherever it sits. */
  lemma NeutralRowAddsNothing(xs: seq<Txn>, t: Txn, ys: seq<Txn>)
    requires t.amount == None || t.amount == Some(0)
    ensures SumIncome(xs + [t] + ys) == SumIncome(xs + ys)
    ensures SumExpense(xs + [t] + ys) == SumExpense(xs + ys)
  {
    SumsAppend(xs + [t], ys);
    SumsAppend(xs, [t]);
    SumsAppend(xs, ys);
  }

  /** The batch total splits into the capitalised total and the net profit. */
  lemma BatchSumSplits(ts: seq<Txn>)
    ensures SumAmounts(ts) == SumAmounts(Assets(ts)) + NetProfit(ts)
  {
    PartitionSums(ts);
  }

  lemma {:induction false} PartitionSums(ts: seq<Txn>)
    ensures SumAmounts(ts) == SumAmounts(Assets(ts)) + SumAmounts(PandL(ts))
  {
    if ts != [] {
      PartitionSums(ts[1..]);
    }
  }

  /** Every capitalised row adds more than 5000 GBP to total_assets. */
  lemma TotalAssetsBound(ts: seq<Txn>)
    ensures TotalAssets(ts) >= (CapitalisationThreshold + 1) * |Assets(ts)|
  {
    CapitalisedAbsBound(Assets(ts));
  }

  lemma {:induction false} CapitalisedAbsBound(a: seq<Txn>)
    requires forall t :: t in a ==> IsCapitalised(t)
    ensures SumAbs(a) >= (CapitalisationThreshold + 1) * |a|
  {
    if a != [] {
      assert a[0] in a;
      CapitalisedAbsBound(a[1..]);
    }
  }

  /** A capitalised payment and its refund both raise total_assets by their magnitude. */
  lemma RefundRaisesAssets(name: string, v: int)
    requires Text.IsSolicitorName(name) && v > CapitalisationThreshold
    ensures TotalAssets([Txn(Text(name), Some(-v), Blank), Txn(Text(name), Some(v), Blank)]) == 2 * v
    ensures NetProfit([Txn(Text(name), Some(-v), Blank), Txn(Text(name), Some(v), Blank)]) == 0
  {
    var ts := [Txn(Text(name), Some(-v), Blank), Txn(Text(name), Some(v), Blank)];
    assert ts[1..] == [ts[1]] && ts[1..][1..] == [];
    assert Assets(ts) == ts;
    assert SumAbs(ts) == Abs(-v) + SumAbs([ts[1]]) == v + v;
    assert PandL(ts) == [];
  }

  // ---------------------------------------------------------------------------
  // P&L summary: the sum of the amounts per category (app.py:62)
  // ---------------------------------------------------------------------------

  /** One line of the summary: a category and the sum of its amounts. */
  datatype Entry = Entry(category: Cell, total: int)

  /** The distinct non-blank categories of the rows, in order of first appearance. */
  function Categories(ts: seq<Txn>): (ks: seq<Cell>)
    ensures forall i, j :: 0 <= i < j < |ks| ==> ks[i] != ks[j]
    ensures forall i :: 0 <= i < |ks| ==> ks[i] != Blank
    ensures forall c :: c in ks <==> c != Blank && exists i :: 0 <= i < |ts| && ts[i].category == c
  {
    if ts == [] then []
    else
      var init := Categories(ts[..|ts| - 1]);
      var c := ts[|ts| - 1].category;
      assert forall i :: 0 <= i < |ts| - 1 ==> ts[..|ts| - 1][i] == ts[i];
      if c == Blank || c in init then init else init + [c]
  }

  /** Sum of the amounts of the rows filed under `c`. */
  function CategoryTotal(ts: seq<Txn>, c: Cell): int
  {
    if ts == [] then 0
    else (if ts[0].category == c then AmountValue(ts[0]) else 0) + CategoryTotal(ts[1..], c)
  }

  /** Sum of the amounts of the rows filed under one of `ks`. */
  function SumWithin(ks: seq<Cell>, ts: seq<Txn>): int
  {
    if ts == [] then 0
    else (if ts[0].category in ks then AmountValue(ts[0]) else 0) + SumWithin(ks, ts[1..])
  }

  /** Sum of the amounts of the rows with a blank category (the group-by drops them). */
  function SumUncategorised(ts: seq<Txn>): int
  {
    if ts == [] then 0
    else (if ts[0].category == Blank then AmountValue(ts[0]) else 0) + SumUncategorised(ts[1..])
  }

  function Tabulate(ks: seq<Cell>, ts: seq<Txn>): seq<Entry>
  {
    if ks == [] then [] else [Entry(ks[0], CategoryTotal(ts, ks[0]))] + Tabulate(ks[1..], ts)
  }

  /** The group-by sum: one entry per distinct non-blank category, holding that category's total. */
  function Summary(ts: seq<Txn>): (s: seq<Entry>)
    ensures |s| == |Categories(ts)|
    ensures forall i :: 0 <= i < |s| ==>
      s[i].category == Categories(ts)[i] && s[i].total == CategoryTotal(ts, s[i].category)
  {
    SummaryShape(Categories(ts), ts);
    Tabulate(Categories(ts), ts)
  }

  lemma {:induction false} SummaryShape(ks: seq<Cell>, ts: seq<Txn>)
    ensures |Tabulate(ks, ts)| == |ks|
    ensures forall i :: 0 <= i < |ks| ==> Tabulate(ks, ts)[i] == Entry(ks[i], CategoryTotal(ts, ks[i]))
  {
    if ks != [] {
      SummaryShape(ks[1..], ts);
    }
  }

  function EntriesTotal(es: seq<Entry>): int
  {
    if es == [] then 0 else es[0].total + EntriesTotal(es[1..])
  }

  /** The summary has one entry for each category that occurs, and no entry for anything else. */
  lemma SummaryCoversCategories(ts: seq<Txn>, c: Cell)
    ensures (exists i :: 0 <= i < |Summary(ts)| && Summary(ts)[i].category == c) <==>
      c != Blank && exists j :: 0 <= j < |ts| && ts[j].category == c
  {
    var s, ks := Summary(ts), Categories(ts);
    if c in ks {
      var i :| 0 <= i < |ks| && ks[i] == c;
      assert s[i].category == c;
    }
  }

  lemma {:induction false} SplitWithin(k: Cell, ks: seq<Cell>, ts: seq<Txn>)
    requires k !in ks
    ensures SumWithin([k] + ks, ts) == CategoryTotal(ts, k) + SumWithin(ks, ts)
  {
    if ts != [] {
      SplitWithin(k, ks, ts[1..]);
    }
  }

  lemma {:induction false} TabulateTotal(ks: seq<Cell>, ts: seq<Txn>)
    requires forall i, j :: 0 <= i < j < |ks| ==> ks[i] != ks[j]
    ensures EntriesTotal(Tabulate(ks, ts)) == SumWithin(ks, ts)
    decreases |ks|
  {
    if ks == [] {
      EmptyWithin(ts);
    } else {
      assert ks == [ks[0]] + ks[1..];
      assert ks[0] !in ks[1..];
      TabulateTotal(ks[1..], ts);
      SplitWithin(ks[0], ks[1..], ts);
    }
  }

  lemma {:induction false} EmptyWithin(ts: seq<Txn>)
    ensures SumWithin([], ts) == 0
  {
    if ts != [] {
      EmptyWithin(ts[1..]);
    }
  }

  /** Summing within a key list that holds exactly the non-blank categories of the rows sums every categorised row. */
  lemma {:induction false} WithinAll(ks: seq<Cell>, ts: seq<Txn>)
    requires forall j :: 0 <= j < |ts| ==> (ts[j].category in ks <==> ts[j].category != Blank)
    ensures SumWithin(ks, ts) + SumUncategorised(ts) == SumAmounts(ts)
  {
    if ts != [] {
      assert forall j :: 0 <= j < |ts| - 1 ==> ts[1..][j] == ts[j + 1];
      WithinAll(ks, ts[1..]);
    }
  }

  /** The summary's entries add up to every amount except those of uncategorised rows. */
  lemma SummaryTotal(ts: seq<Txn>)
    ensures EntriesTotal(Summary(ts)) + SumUncategorised(ts) == SumAmounts(ts)
  {
    var ks := Categories(ts);
    TabulateTotal(ks, ts);
    forall j | 0 <= j < |ts| ensures ts[j].category in ks <==> ts[j].category != Blank {
    }
    WithinAll(ks, ts);
  }

  /** pl_summary: the group-by over the P&L rows. */
  function PandLSummary(ts: seq<Txn>): (s: seq<Entry>)
    ensures forall i :: 0 <= i < |s| ==> s[i].category != Blank
  {
    Summary(PandL(ts))
  }

  /**
   * The P&L summary accounts for the net profit, less what uncategorised P&L
   * rows contribute; when every P&L row has a category, its entries sum to net profit.
   */
  lemma PandLSummaryMatchesNetProfit(ts: seq<Txn>)
    ensures EntriesTotal(PandLSummary(ts)) + SumUncategorised(PandL(ts)) == NetProfit(ts)
    ensures (forall t :: t in PandL(ts) ==> t.category != Blank) ==>
      EntriesTotal(PandLSummary(ts)) == NetProfit(ts)
  {
    SummaryTotal(PandL(ts));
    if forall t :: t in PandL(ts) ==> t.category != Blank {
      NoBlankNoUncategorised(PandL(ts));
    }
  }

  lemma {:induction false} NoBlankNoUncategorised(ts: seq<Txn>)
    requires forall t :: t in ts ==> t.category != Blank
    ensures SumUncategorised(ts) == 0
  {
    if ts != [] {
      assert ts[0] in ts;
      NoBlankNoUncategorised(ts[1..]);
    }
  }
}
