/** The two other folds over the fill log, in trading/dashboard_api: the runtime status fold and the
    analytics fold, and exactly when each agrees with the ledger. */
module FillFolds {
  import opened Prelude
  import opened Ledger

  // ----- runtime status -----

  datatype Holding = Holding(qty: real, avg: real)

  datatype Local = Local(balance: real, positions: map<string, Holding>)

  function MeanPrice(p: Holding, f: Fill): real {
    if p.qty + f.qty != 0.0 then (p.qty * p.avg + Gross(f)) / (p.qty + f.qty) else f.price
  }

  function RuntimeStep(l: Local, f: Fill): Local {
    if f.side == BUY then
      if f.symbol !in l.positions then
        Local(l.balance - (Gross(f) + f.fee), l.positions[f.symbol := Holding(f.qty, f.price)])
      else
        var p := l.positions[f.symbol];
        Local(l.balance - (Gross(f) + f.fee), l.positions[f.symbol := Holding(p.qty + f.qty, MeanPrice(p, f))])
    else
      Local(l.balance + (Gross(f) - f.fee),
            if f.symbol !in l.positions then l.positions
            else if l.positions[f.symbol].qty - f.qty <= 0.0 then l.positions - {f.symbol}
            else l.positions[f.symbol := l.positions[f.symbol].(qty := l.positions[f.symbol].qty - f.qty)])
  }

  function RuntimeFold(cash: real, fills: seq<Fill>): Local {
    if |fills| == 0 then Local(cash, map[])
    else RuntimeStep(RuntimeFold(cash, fills[..|fills| - 1]), fills[|fills| - 1])
  }

  /** The status endpoint's loop. It never raises, whatever the log. */
  method ReadLocal(cash: real, fills: seq<Fill>) returns (l: Local)
    ensures l == RuntimeFold(cash, fills)
  {
    var balance, positions := cash, map[];
    var i := 0;
    while i < |fills|
      invariant 0 <= i <= |fills|
      invariant Local(balance, positions) == RuntimeFold(cash, fills[..i])
    {
      var fill := fills[i];
      ghost var before := Local(balance, positions);
      assert fills[..i + 1][..i] == fills[..i];
      if fill.side == BUY {
        balance := balance - (Gross(fill) + fill.fee);
        if fill.symbol !in positions {
          positions := positions[fill.symbol := Holding(fill.qty, fill.price)];
        } else {
          var pos := positions[fill.symbol];
          var totalQty, totalCost := pos.qty + fill.qty, pos.qty * pos.avg + Gross(fill);
          var avgPrice := if totalQty != 0.0 then totalCost / totalQty else fill.price;
          assert avgPrice == MeanPrice(pos, fill);
          positions := positions[fill.symbol := Holding(totalQty, avgPrice)];
        }
      } else {
        balance := balance + (Gross(fill) - fill.fee);
        if fill.symbol in positions {
          var newQty := positions[fill.symbol].qty - fill.qty;
          if newQty <= 0.0 {
            positions := positions - {fill.symbol};
          } else {
            positions := positions[fill.symbol := positions[fill.symbol].(qty := newQty)];
          }
        }
      }
      assert Local(balance, positions) == RuntimeStep(before, fill);
      i := i + 1;
    }
    assert fills[..i] == fills;
    l := Local(balance, positions);
  }

  /** Quantity and average price of every open position, as the ledger has them. */
  function HoldingsOf(b: Book): map<string, Holding> {
    map s | s in b.positions :: Holding(b.positions[s].qty, b.positions[s].avg)
  }

  lemma RuntimeStepAgrees(b: Book, f: Fill)
    requires Apply(b, f).Ok?
    ensures RuntimeStep(Local(b.cash, HoldingsOf(b)), f)
         == Local(Apply(b, f).value.cash, HoldingsOf(Apply(b, f).value))
  {
    var l, after := RuntimeStep(Local(b.cash, HoldingsOf(b)), f), Apply(b, f).value;
    assert l.positions.Keys == HoldingsOf(after).Keys;
    forall s | s in l.positions ensures l.positions[s] == HoldingsOf(after)[s] {}
    assert l.positions == HoldingsOf(after);
  }

  /** On every log the ledger accepts, the runtime fold has the ledger's cash, quantities and averages. */
  lemma {:induction false} RuntimeAgrees(cash: real, fills: seq<Fill>)
    requires Replay(cash, fills).Ok?
    ensures var b := Replay(cash, fills).value; RuntimeFold(cash, fills) == Local(b.cash, HoldingsOf(b))
  {
    if |fills| != 0 {
      RuntimeAgrees(cash, fills[..|fills| - 1]);
      RuntimeStepAgrees(Replay(cash, fills[..|fills| - 1]).value, fills[|fills| - 1]);
    }
  }

  // ----- analytics -----

  datatype Lot = Lot(qty: real, avg: real, basis: real)

  datatype Tally = Tally(cash: real, lots: map<string, Lot>, raised: bool)

  function Added(l: Lot, f: Fill): Lot
    requires l.qty + f.qty != 0.0
  {
    var avg := (l.basis + Gross(f)) / (l.qty + f.qty);
    Lot(l.qty + f.qty, avg, avg * (l.qty + f.qty))
  }

  /** A SELL leaves the stored cost basis as it was. A BUY that brings an open lot to quantity zero divides by
      it and raises: the rest of the log is not read. */
  function AnalyticsStep(t: Tally, f: Fill): Tally {
    if t.raised then t
    else if f.side == BUY then
      if f.symbol !in t.lots then
        Tally(t.cash - (Gross(f) + f.fee), t.lots[f.symbol := Lot(f.qty, f.price, Gross(f))], false)
      else if t.lots[f.symbol].qty + f.qty == 0.0 then t.(cash := t.cash - (Gross(f) + f.fee), raised := true)
      else Tally(t.cash - (Gross(f) + f.fee), t.lots[f.symbol := Added(t.lots[f.symbol], f)], false)
    else
      Tally(t.cash + (Gross(f) - f.fee),
            if f.symbol !in t.lots then t.lots
            else if t.lots[f.symbol].qty - f.qty <= 0.0 then t.lots - {f.symbol}
            else t.lots[f.symbol := t.lots[f.symbol].(qty := t.lots[f.symbol].qty - f.qty)],
            false)
  }

  function AnalyticsFold(cash: real, fills: seq<Fill>): Tally {
    if |fills| == 0 then Tally(cash, map[], false)
    else AnalyticsStep(AnalyticsFold(cash, fills[..|fills| - 1]), fills[|fills| - 1])
  }

  predicate LotsPositive(t: Tally) { !t.raised && forall s :: s in t.lots ==> t.lots[s].qty > 0.0 }

  predicate QtysPositive(fills: seq<Fill>) { forall n :: 0 <= n < |fills| ==> fills[n].qty > 0.0 }

  /** Positive quantities never bring a lot to zero. */
  lemma {:induction false} PositiveNeverRaises(cash: real, fills: seq<Fill>)
    requires QtysPositive(fills)
    ensures LotsPositive(AnalyticsFold(cash, fills))
  {
    if |fills| != 0 {
      assert QtysPositive(fills[..|fills| - 1]);
      PositiveNeverRaises(cash, fills[..|fills| - 1]);
    }
  }

  ghost predicate SameHoldings(t: Tally, b: Book) {
    && !t.raised && t.cash == b.cash && t.lots.Keys == b.positions.Keys
    && forall s :: s in t.lots ==> t.lots[s].qty == b.positions[s].qty
  }

  /** On every accepted log, whatever its amounts, analytics does not raise and has the account's cash, open
      symbols and quantities. */
  lemma {:induction false} AcceptedNeverRaises(cash: real, fills: seq<Fill>)
    requires Replay(cash, fills).Ok?
    ensures SameHoldings(AnalyticsFold(cash, fills), Replay(cash, fills).value)
  {
    if |fills| != 0 { AcceptedNeverRaises(cash, fills[..|fills| - 1]); }
  }

  // ----- exactly when analytics agrees -----

  datatype Phase =
    | Flat
    | Whole     // open, nothing sold since it opened
    | Reduced   // partly sold, nothing bought since
    | Diverged  // bought again after a partial sale

  datatype Scan = Scan(held: real, phase: Phase)

  /** A scan of the quantities alone. */
  function ScanStep(x: Scan, f: Fill): Scan {
    if f.side == BUY then
      Scan(x.held + f.qty, if x.phase == Flat then Whole else if x.phase == Reduced then Diverged else x.phase)
    else if x.phase == Flat then x
    else if x.held - f.qty <= 0.0 then Scan(0.0, Flat)
    else Scan(x.held - f.qty, if x.phase == Whole then Reduced else x.phase)
  }

  function ScanOf(fills: seq<Fill>, s: string): Scan {
    if |fills| == 0 then Scan(0.0, Flat)
    else if fills[|fills| - 1].symbol != s then ScanOf(fills[..|fills| - 1], s)
    else ScanStep(ScanOf(fills[..|fills| - 1], s), fills[|fills| - 1])
  }

  ghost predicate GoodFills(fills: seq<Fill>) {
    forall n :: 0 <= n < |fills| ==> fills[n].qty > 0.0 && fills[n].price > 0.0
  }

  /** How a lot and a position of one symbol relate in each phase. */
  ghost predicate Relates(l: Lot, p: Position, x: Scan) {
    && l.qty == p.qty == x.held > 0.0 && p.avg > 0.0 && l.avg > 0.0
    && (x.phase == Whole ==> l.avg == p.avg && l.basis == l.qty * l.avg)
    && (x.phase == Reduced ==> l.avg == p.avg && l.basis > l.qty * l.avg)
    && (x.phase == Diverged ==> l.avg > p.avg && l.basis >= l.qty * l.avg)
    && x.phase != Flat
  }

  ghost predicate Related(t: Tally, b: Book, x: Scan, s: string) {
    if s in b.positions then s in t.lots && Relates(t.lots[s], b.positions[s], x)
    else s !in t.lots && x == Scan(0.0, Flat)
  }

  lemma LargerMean(a: real, b: real, d: real)
    requires d > 0.0
    ensures a < b ==> a / d < b / d
    ensures a == b ==> a / d == b / d
  {
    DivMono(b, a, d);
  }

  lemma MeanPositive(p: Position, f: Fill)
    requires p.qty > 0.0 && p.avg > 0.0 && f.qty > 0.0 && f.price > 0.0
    ensures Increased(p, f).avg > 0.0
  {
    MulPos(p.qty, p.avg);
    MulPos(f.qty, f.price);
    DivPos(p.qty * p.avg + Gross(f), p.qty + f.qty);
  }

  /** Analytics keeps the ledger's cost while a position is whole, and more afterwards. */
  lemma BasisOrder(l: Lot, p: Position, x: Scan)
    requires Relates(l, p, x)
    ensures x.phase == Whole ==> l.basis == p.qty * p.avg
    ensures x.phase != Whole ==> l.basis > p.qty * p.avg
  {
    if x.phase == Diverged {
      MulPos(p.qty, l.avg - p.avg);
      assert p.qty * (l.avg - p.avg) == p.qty * l.avg - p.qty * p.avg;
    }
  }

  lemma BuyRelates(l: Lot, p: Position, x: Scan, f: Fill)
    requires Relates(l, p, x) && f.side == BUY && f.qty > 0.0 && f.price > 0.0
    ensures Relates(Added(l, f), Increased(p, f), ScanStep(x, f))
  {
    MeanPositive(p, f);
    BasisOrder(l, p, x);
    LargerMean(p.qty * p.avg + Gross(f), l.basis + Gross(f), p.qty + f.qty);
  }

  lemma SellRelates(l: Lot, p: Position, x: Scan, f: Fill)
    requires Relates(l, p, x) && f.side == SELL && 0.0 < f.qty < p.qty
    ensures Relates(l.(qty := l.qty - f.qty), Ledger.Reduced(p, f), ScanStep(x, f))
  {
    MulPos(f.qty, l.avg);
    assert (l.qty - f.qty) * l.avg == l.qty * l.avg - f.qty * l.avg;
  }

  lemma StepRelated(t: Tally, b: Book, x: Scan, f: Fill)
    requires Related(t, b, x, f.symbol) && !t.raised && Apply(b, f).Ok? && f.qty > 0.0 && f.price > 0.0
    ensures Related(AnalyticsStep(t, f), Apply(b, f).value, ScanStep(x, f), f.symbol)
  {
    if f.side == BUY {
      if f.symbol in b.positions {
        BuyRelates(t.lots[f.symbol], b.positions[f.symbol], x, f);
      }
    } else if f.qty < b.positions[f.symbol].qty {
      SellRelates(t.lots[f.symbol], b.positions[f.symbol], x, f);
    }
  }

  /** On every accepted log of positive fills, the analytics state relates to the ledger's phase by phase. */
  lemma {:induction false} AnalyticsRelated(cash: real, fills: seq<Fill>, s: string)
    requires Replay(cash, fills).Ok? && GoodFills(fills)
    ensures SameHoldings(AnalyticsFold(cash, fills), Replay(cash, fills).value)
    ensures Related(AnalyticsFold(cash, fills), Replay(cash, fills).value, ScanOf(fills, s), s)
  {
    AcceptedNeverRaises(cash, fills);
    if |fills| != 0 {
      var front, f := fills[..|fills| - 1], fills[|fills| - 1];
      assert GoodFills(front);
      AnalyticsRelated(cash, front, s);
      if f.symbol == s {
        StepRelated(AnalyticsFold(cash, front), Replay(cash, front).value, ScanOf(front, s), f);
      }
    }
  }

  /** Analytics reports the ledger's average price for an open symbol if and only if the symbol was not
      bought again after a partial sale since it opened; otherwise it reports a higher one. */
  lemma AnalyticsExact(cash: real, fills: seq<Fill>, s: string)
    requires Replay(cash, fills).Ok? && GoodFills(fills) && s in Replay(cash, fills).value.positions
    ensures s in AnalyticsFold(cash, fills).lots && !AnalyticsFold(cash, fills).raised
    ensures var l, p := AnalyticsFold(cash, fills).lots[s], Replay(cash, fills).value.positions[s];
            l.qty == p.qty && l.avg >= p.avg
            && (l.avg == p.avg <==> ScanOf(fills, s).phase != Diverged)
  {
    AnalyticsRelated(cash, fills, s);
  }

  // ----- a log on which the average differs -----

  function Plain(side: Side, price: real, qty: real, at: int): Fill { Fill("S", side, price, qty, 0.0, 0.0, at) }

  const BUY_TWO := Plain(BUY, 100.0, 2.0, 0)
  const SELL_ONE := Plain(SELL, 100.0, 1.0, 1)
  const BUY_ONE := Plain(BUY, 100.0, 1.0, 2)
  const PARTIAL_LOG := [BUY_TWO, SELL_ONE, BUY_ONE]

  lemma LedgerBuys(b: Book)
    requires b.positions == map[]
    ensures Apply(b, BUY_TWO).Ok? && "S" in Apply(b, BUY_TWO).value.positions
    ensures var p := Apply(b, BUY_TWO).value.positions["S"]; p.qty == 2.0 && p.avg == 100.0 && p.fees == 0.0
  {}

  lemma LedgerSells(b: Book)
    requires "S" in b.positions && b.positions["S"].qty == 2.0 && b.positions["S"].avg == 100.0
    ensures Apply(b, SELL_ONE).Ok? && "S" in Apply(b, SELL_ONE).value.positions
    ensures var p := Apply(b, SELL_ONE).value.positions["S"]; p.qty == 1.0 && p.avg == 100.0
  {}

  lemma LedgerBuysAgain(b: Book)
    requires "S" in b.positions && b.positions["S"].qty == 1.0 && b.positions["S"].avg == 100.0
    ensures Apply(b, BUY_ONE).Ok? && "S" in Apply(b, BUY_ONE).value.positions
    ensures Apply(b, BUY_ONE).value.positions["S"].avg == 100.0
  {
    assert Gross(BUY_ONE) == 100.0;
  }

  ghost predicate HoldsLedger(cash: real, fills: seq<Fill>, qty: real) {
    var r := Replay(cash, fills);
    r.Ok? && "S" in r.value.positions && r.value.positions["S"].qty == qty && r.value.positions["S"].avg == 100.0
  }

  lemma LedgerTwo(cash: real)
    ensures HoldsLedger(cash, [BUY_TWO], 2.0)
  {
    assert [BUY_TWO][..0] == [];
    LedgerBuys(Book(cash, map[], 0.0));
  }

  lemma LedgerOne(cash: real)
    ensures HoldsLedger(cash, [BUY_TWO, SELL_ONE], 1.0)
  {
    LedgerTwo(cash);
    ReplaySnoc(cash, [BUY_TWO], SELL_ONE);
    LedgerSells(Replay(cash, [BUY_TWO]).value);
    assert [BUY_TWO] + [SELL_ONE] == [BUY_TWO, SELL_ONE];
  }

  lemma PartialLogLedger(cash: real)
    ensures Replay(cash, PARTIAL_LOG).Ok? && "S" in Replay(cash, PARTIAL_LOG).value.positions
    ensures Replay(cash, PARTIAL_LOG).value.positions["S"].avg == 100.0
  {
    var two := [BUY_TWO, SELL_ONE];
    LedgerOne(cash);
    ReplaySnoc(cash, two, BUY_ONE);
    LedgerBuysAgain(Replay(cash, two).value);
    assert two + [BUY_ONE] == PARTIAL_LOG;
  }

  lemma AnalyticsSnoc(cash: real, fills: seq<Fill>, f: Fill)
    ensures AnalyticsFold(cash, fills + [f]) == AnalyticsStep(AnalyticsFold(cash, fills), f)
  {
    assert (fills + [f])[..|fills|] == fills;
  }

  predicate Holds(t: Tally, lot: Lot) { !t.raised && "S" in t.lots && t.lots["S"] == lot }

  lemma AnalyticsBuys(t: Tally)
    requires t.lots == map[] && !t.raised
    ensures Holds(AnalyticsStep(t, BUY_TWO), Lot(2.0, 100.0, 200.0))
  {
    assert Gross(BUY_TWO) == 200.0;
  }

  lemma AnalyticsSells(t: Tally)
    requires Holds(t, Lot(2.0, 100.0, 200.0))
    ensures Holds(AnalyticsStep(t, SELL_ONE), Lot(1.0, 100.0, 200.0))
  {}

  lemma AnalyticsBuysAgain(t: Tally)
    requires Holds(t, Lot(1.0, 100.0, 200.0))
    ensures Holds(AnalyticsStep(t, BUY_ONE), Lot(2.0, 150.0, 300.0))
  {
    assert Gross(BUY_ONE) == 100.0;
  }

  lemma AnalyticsTwo(cash: real)
    ensures Holds(AnalyticsFold(cash, [BUY_TWO]), Lot(2.0, 100.0, 200.0))
  {
    AnalyticsSnoc(cash, [], BUY_TWO);
    assert [] + [BUY_TWO] == [BUY_TWO];
    AnalyticsBuys(AnalyticsFold(cash, []));
  }

  lemma AnalyticsOne(cash: real)
    ensures Holds(AnalyticsFold(cash, [BUY_TWO, SELL_ONE]), Lot(1.0, 100.0, 200.0))
  {
    AnalyticsTwo(cash);
    AnalyticsSnoc(cash, [BUY_TWO], SELL_ONE);
    assert [BUY_TWO] + [SELL_ONE] == [BUY_TWO, SELL_ONE];
    AnalyticsSells(AnalyticsFold(cash, [BUY_TWO]));
  }

  lemma PartialLogAnalytics(cash: real)
    ensures Holds(AnalyticsFold(cash, PARTIAL_LOG), Lot(2.0, 150.0, 300.0))
  {
    var two := [BUY_TWO, SELL_ONE];
    AnalyticsOne(cash);
    AnalyticsSnoc(cash, two, BUY_ONE);
    assert two + [BUY_ONE] == PARTIAL_LOG;
    AnalyticsBuysAgain(AnalyticsFold(cash, two));
  }

  /** Buy 2 at 100, sell 1, buy 1 at 100: the ledger says 100, analytics says 150. */
  lemma PartialSaleDiverges(cash: real)
    ensures Replay(cash, PARTIAL_LOG).Ok? && "S" in Replay(cash, PARTIAL_LOG).value.positions
    ensures Replay(cash, PARTIAL_LOG).value.positions["S"].avg == 100.0
    ensures Holds(AnalyticsFold(cash, PARTIAL_LOG), Lot(2.0, 150.0, 300.0))
  {
    PartialLogLedger(cash);
    PartialLogAnalytics(cash);
  }
}
