/** What the two dashboard folds show on every log, accepted by the ledger or not. */
module FoldLaws {
  import opened Prelude
  import opened Ledger
  import opened FillFolds

  // ----- cash -----

  /** What the fills bring in: SELLs their gross less the fee, BUYs minus their gross and the fee. */
  function CashFlow(fills: seq<Fill>): real {
    if |fills| == 0 then 0.0
    else
      var f := fills[|fills| - 1];
      CashFlow(fills[..|fills| - 1]) + (if f.side == SELL then f.qty * f.price - f.fee else -(f.qty * f.price) - f.fee)
  }

  /** The status endpoint's balance moves by every fill's cash, even where the ledger refuses the fill. */
  lemma {:induction false} RuntimeCash(cash: real, fills: seq<Fill>)
    ensures RuntimeFold(cash, fills).balance == cash + CashFlow(fills)
  {
    if |fills| != 0 { RuntimeCash(cash, fills[..|fills| - 1]); }
  }

  lemma {:induction false} AnalyticsCash(cash: real, fills: seq<Fill>)
    requires !AnalyticsFold(cash, fills).raised
    ensures AnalyticsFold(cash, fills).cash == cash + CashFlow(fills)
  {
    if |fills| != 0 { AnalyticsCash(cash, fills[..|fills| - 1]); }
  }

  // ----- quantities -----

  /** Open exactly if the scan says so, with its quantity. */
  predicate Shows(open: bool, qty: real, x: Scan) {
    (open <==> x.phase != Flat) && (open ==> qty == x.held)
  }

  ghost predicate RuntimeShows(l: Local, s: string, x: Scan) {
    Shows(s in l.positions, if s in l.positions then l.positions[s].qty else 0.0, x)
  }

  ghost predicate AnalyticsShows(t: Tally, s: string, x: Scan) {
    Shows(s in t.lots, if s in t.lots then t.lots[s].qty else 0.0, x)
  }

  /** A flat symbol has nothing held. */
  lemma {:induction false} FlatIsEmpty(fills: seq<Fill>, s: string)
    ensures ScanOf(fills, s).phase == Flat ==> ScanOf(fills, s).held == 0.0
  {
    if |fills| != 0 { FlatIsEmpty(fills[..|fills| - 1], s); }
  }

  /** A SELL of as much as is held or more closes the symbol in both, and a SELL of a closed one does nothing. */
  lemma {:induction false} RuntimeQuantities(cash: real, fills: seq<Fill>, s: string)
    ensures RuntimeShows(RuntimeFold(cash, fills), s, ScanOf(fills, s))
  {
    if |fills| != 0 {
      FlatIsEmpty(fills[..|fills| - 1], s);
      RuntimeQuantities(cash, fills[..|fills| - 1], s);
    }
  }

  lemma {:induction false} AnalyticsQuantities(cash: real, fills: seq<Fill>, s: string)
    requires !AnalyticsFold(cash, fills).raised
    ensures AnalyticsShows(AnalyticsFold(cash, fills), s, ScanOf(fills, s))
  {
    if |fills| != 0 {
      FlatIsEmpty(fills[..|fills| - 1], s);
      AnalyticsQuantities(cash, fills[..|fills| - 1], s);
    }
  }

  /** Two readers, one answer: wherever analytics does not raise, both endpoints show the same cash, open symbols and
      quantities, on every log. */
  lemma FoldsAgree(cash: real, fills: seq<Fill>)
    requires !AnalyticsFold(cash, fills).raised
    ensures var l, t := RuntimeFold(cash, fills), AnalyticsFold(cash, fills);
            && l.balance == t.cash && l.positions.Keys == t.lots.Keys
            && forall s :: s in l.positions ==> l.positions[s].qty == t.lots[s].qty
  {
    RuntimeCash(cash, fills);
    AnalyticsCash(cash, fills);
    var l, t := RuntimeFold(cash, fills), AnalyticsFold(cash, fills);
    forall s ensures (s in l.positions <==> s in t.lots)
                     && (s in l.positions ==> l.positions[s].qty == t.lots[s].qty)
    {
      RuntimeQuantities(cash, fills, s);
      AnalyticsQuantities(cash, fills, s);
    }
    assert l.positions.Keys == t.lots.Keys;
  }

  // ----- when analytics raises -----

  /** Fill k is a BUY of exactly what is held short of its symbol: their sum is zero. */
  ghost predicate Cancels(fills: seq<Fill>, k: nat)
    requires k < |fills|
  {
    var x := ScanOf(fills[..k], fills[k].symbol);
    fills[k].side == BUY && x.phase != Flat && x.held + fills[k].qty == 0.0
  }

  lemma RaisesNext(cash: real, front: seq<Fill>, f: Fill)
    requires !AnalyticsFold(cash, front).raised
    ensures AnalyticsStep(AnalyticsFold(cash, front), f).raised
       <==> var x := ScanOf(front, f.symbol); f.side == BUY && x.phase != Flat && x.held + f.qty == 0.0
  {
    AnalyticsQuantities(cash, front, f.symbol);
  }

  /** Analytics raises exactly if some BUY of the log cancels what is held, which takes a negative quantity. */
  lemma {:induction false} AnalyticsRaisesIff(cash: real, fills: seq<Fill>)
    ensures AnalyticsFold(cash, fills).raised <==> exists k :: 0 <= k < |fills| && Cancels(fills, k)
  {
    if |fills| != 0 {
      var m := |fills| - 1;
      var front := fills[..m];
      AnalyticsRaisesIff(cash, front);
      forall k | 0 <= k < m ensures Cancels(front, k) <==> Cancels(fills, k) { assert front[..k] == fills[..k]; }
      if !AnalyticsFold(cash, front).raised {
        RaisesNext(cash, front, fills[m]);
        assert Cancels(fills, m) <==> AnalyticsFold(cash, fills).raised;
      }
    }
  }

  // ----- averages -----

  /** A BUY mixes the costs: the status endpoint's average of an open symbol times its quantity grows by the gross of
      the fill. With nothing left it shows the fill's price, and other symbols keep theirs. */
  lemma RuntimeAverage(l: Local, f: Fill)
    requires f.side == BUY
    ensures f.symbol in RuntimeStep(l, f).positions
    ensures var after := RuntimeStep(l, f).positions[f.symbol];
            var p := if f.symbol in l.positions then l.positions[f.symbol] else Holding(0.0, 0.0);
            if after.qty == 0.0 then after.avg == f.price
            else after.avg * after.qty == p.avg * p.qty + f.price * f.qty
  {
    if f.symbol in l.positions {
      var p := l.positions[f.symbol];
      if p.qty + f.qty != 0.0 { QuotientTimes(p.qty * p.avg + Gross(f), p.qty + f.qty); }
    }
  }

  lemma QuotientTimes(a: real, d: real)
    requires d != 0.0
    ensures a / d * d == a
  {}

  /** A SELL leaves the average of what stays open as it was, in both; analytics also keeps the cost as it was. */
  lemma SaleKeepsAverages(l: Local, t: Tally, f: Fill)
    requires f.side == SELL && !t.raised
    ensures forall s :: s in RuntimeStep(l, f).positions
              ==> s in l.positions && RuntimeStep(l, f).positions[s].avg == l.positions[s].avg
    ensures forall s :: s in AnalyticsStep(t, f).lots
              ==> s in t.lots && AnalyticsStep(t, f).lots[s].avg == t.lots[s].avg
                  && AnalyticsStep(t, f).lots[s].basis == t.lots[s].basis
  {}

  /** Analytics mixes the gross of a BUY into the stored cost, whatever has been sold since that was computed. */
  lemma AnalyticsAverage(t: Tally, f: Fill)
    requires f.side == BUY && !AnalyticsStep(t, f).raised
    ensures f.symbol in AnalyticsStep(t, f).lots
    ensures var after := AnalyticsStep(t, f).lots[f.symbol];
            var basis := if f.symbol in t.lots then t.lots[f.symbol].basis else 0.0;
            && after.basis == basis + f.price * f.qty
            && (after.qty != 0.0 ==> after.avg * after.qty == after.basis)
            && (f.symbol !in t.lots ==> after.avg == f.price)
  {
    if f.symbol in t.lots {
      QuotientTimes(t.lots[f.symbol].basis + Gross(f), t.lots[f.symbol].qty + f.qty);
    }
  }
}
