/**
 * The capitalisation rule (app.py:36-43): a large payment to a solicitor is
 * moved off the profit-and-loss account onto the balance sheet as an asset.
 * Every other row stays in P&L.
 */
module Partition {
  import opened Wrappers
  import opened Ingest
  import opened Text

  /**
   * What the accounting reads from one batch row: the "Counter Party" cell,
   * the "Amount" in pence (None when the cell is blank, pandas' NaN) and the
   * "Category" cell.
   */
  datatype Txn = Txn(counterParty: Cell, amount: Option<int>, category: Cell)

  /** The capitalisation threshold, 5000 GBP, in pence. */
  const CapitalisationThreshold: int := 500000

  function Abs(x: int): nat
  {
    if x < 0 then -x else x
  }

  /** The counterparty search: only a text cell can match (a blank cell is `na=False`). */
  predicate IsSolicitor(t: Txn)
    ensures IsSolicitor(t) ==> t.counterParty.Text?
  {
    t.counterParty.Text? && IsSolicitorName(t.counterParty.text)
  }

  /** The capitalisation condition: a solicitor counterparty and |amount| strictly above 5000 GBP. */
  predicate IsCapitalised(t: Txn)
    ensures IsCapitalised(t) ==> IsSolicitor(t) && t.amount.Some?
    ensures IsCapitalised(t) ==> t.amount.value > CapitalisationThreshold || t.amount.value < -CapitalisationThreshold
  {
    IsSolicitor(t) && t.amount.Some? && Abs(t.amount.value) > CapitalisationThreshold
  }

  /** assets_df: the capitalised rows, in batch order. */
  function Assets(ts: seq<Txn>): (a: seq<Txn>)
    ensures forall t :: t in a <==> t in ts && IsCapitalised(t)
    ensures |a| <= |ts|
  {
    if ts == [] then []
    else if IsCapitalised(ts[0]) then [ts[0]] + Assets(ts[1..])
    else Assets(ts[1..])
  }

  /** p_and_l_df: every other row, in batch order. */
  function PandL(ts: seq<Txn>): (p: seq<Txn>)
    ensures forall t :: t in p <==> t in ts && !IsCapitalised(t)
    ensures |p| <= |ts|
  {
    if ts == [] then []
    else if IsCapitalised(ts[0]) then PandL(ts[1..])
    else [ts[0]] + PandL(ts[1..])
  }

  /**
   * `xs` is an order-preserving interleaving of `a` and `b`: each element of
   * `xs` is taken, in turn, from the front of exactly one of them.
   */
  predicate Interleaves(xs: seq<Txn>, a: seq<Txn>, b: seq<Txn>)
    decreases |xs|
  {
    if xs == [] then a == [] && b == []
    else
      (a != [] && a[0] == xs[0] && Interleaves(xs[1..], a[1..], b)) ||
      (b != [] && b[0] == xs[0] && Interleaves(xs[1..], a, b[1..]))
  }

  /**
   * assets_df and p_and_l_df split the batch: each row goes to exactly one of
   * them, both keep batch order, and no row is lost or duplicated.
   */
  lemma {:induction false} PartitionSplitsBatch(ts: seq<Txn>)
    ensures Interleaves(ts, Assets(ts), PandL(ts))
    ensures |Assets(ts)| + |PandL(ts)| == |ts|
    ensures multiset(Assets(ts)) + multiset(PandL(ts)) == multiset(ts)
  {
    if ts != [] {
      PartitionSplitsBatch(ts[1..]);
      assert ts == [ts[0]] + ts[1..];
    }
  }

  /** Splitting commutes with concatenation: rows of earlier files come first on both sides. */
  lemma {:induction false} PartitionAppend(xs: seq<Txn>, ys: seq<Txn>)
    ensures Assets(xs + ys) == Assets(xs) + Assets(ys)
    ensures PandL(xs + ys) == PandL(xs) + PandL(ys)
  {
    if xs == [] {
      assert xs + ys == ys;
    } else {
      var zs := xs + ys;
      assert zs[0] == xs[0] && zs[1..] == xs[1..] + ys;
      PartitionAppend(xs[1..], ys);
      if IsCapitalised(xs[0]) {
        calc {
          Assets(zs);
          [xs[0]] + Assets(xs[1..] + ys);
          [xs[0]] + (Assets(xs[1..]) + Assets(ys));
          ([xs[0]] + Assets(xs[1..])) + Assets(ys);
        }
        assert PandL(zs) == PandL(xs[1..] + ys);
      } else {
        calc {
          PandL(zs);
          [xs[0]] + PandL(xs[1..] + ys);
          [xs[0]] + (PandL(xs[1..]) + PandL(ys));
          ([xs[0]] + PandL(xs[1..])) + PandL(ys);
        }
        assert Assets(zs) == Assets(xs[1..] + ys);
      }
    }
  }

  /** For a solicitor row with an amount, capitalisation is exactly |amount| > 5000 GBP; ±5000 stays in P&L. */
  lemma ThresholdIsStrict(t: Txn, v: int)
    requires IsSolicitor(t) && t.amount == Some(v)
    ensures IsCapitalised(t) <==> v > 500000 || v < -500000
    ensures v == 500000 || v == -500000 ==> !IsCapitalised(t)
  {
  }

  /** A blank counterparty, or an empty one, is never capitalised, whatever the amount. */
  lemma MissingCounterPartyNeverCapitalised(t: Txn)
    requires t.counterParty == Blank || t.counterParty == Text("") || t.counterParty.Pence?
    ensures !IsCapitalised(t)
  {
    EmptyNameNeverMatches();
  }

  /** The capitalisation condition without the scan: a keyword occurs in the upper-cased counterparty. */
  lemma CapitalisedIff(t: Txn)
    ensures IsCapitalised(t) <==>
      (exists name :: t.counterParty == Text(name) &&
         exists k, i :: 0 <= k < |SolicitorKeywords| && OccursAt(Upper(name), SolicitorKeywords[k], i)) &&
      (exists v :: t.amount == Some(v) && (v > CapitalisationThreshold || v < -CapitalisationThreshold))
  {
    if t.counterParty.Text? {
      SolicitorNameIff(t.counterParty.text);
    }
  }

  /** A lower-case solicitor payment of exactly 5000 GBP stays in P&L; a pound more is capitalised. */
  lemma BoundaryExample()
    ensures !IsCapitalised(Txn(Text("jmw solicitors"), Some(-500000), Blank))
    ensures IsCapitalised(Txn(Text("jmw solicitors"), Some(-500100), Blank))
  {
    assert Upper("jmw") == "JMW";
    assert "jmw solicitors" == "" + "jmw" + " solicitors";
    KeywordInsideName("", "jmw", " solicitors", 0);
    assert IsSolicitor(Txn(Text("jmw solicitors"), Some(-500100), Blank));
  }
}
