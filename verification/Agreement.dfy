/** On the logs the closed loop writes, the three folds over the fills agree. */
module Agreement {
  import opened Prelude
  import opened Sums
  import opened Ledger
  import opened TradingLog
  import opened Runner
  import opened ClosedLoop
  import opened FillFolds
  import opened Analytics

  // ----- equity on every accepted log -----

  /** What each open symbol adds to analytics equity beyond the ledger's cost. */
  ghost function Gaps(t: Tally, b: Book): map<string, real>
    requires t.lots.Keys == b.positions.Keys
  {
    map s | s in t.lots :: t.lots[s].qty * (t.lots[s].avg - b.positions[s].avg)
  }

  lemma GapSign(qty: real, gap: real)
    requires qty > 0.0 && gap >= 0.0
    ensures qty * gap >= 0.0 && (qty * gap == 0.0 <==> gap == 0.0)
  {
    if gap > 0.0 { MulPos(qty, gap); }
  }

  ghost predicate NeverBelow(t: Tally, b: Book) {
    && t.lots.Keys == b.positions.Keys && t.cash == b.cash
    && forall s :: s in t.lots ==> t.lots[s].qty == b.positions[s].qty > 0.0 && t.lots[s].avg >= b.positions[s].avg
  }

  lemma EquityGap(t: Tally, b: Book)
    requires NeverBelow(t, b)
    ensures TallyEquity(t) >= b.cash + Basis(b)
    ensures TallyEquity(t) == b.cash + Basis(b)
            <==> forall s :: s in b.positions ==> t.lots[s].avg == b.positions[s].avg
  {
    SumPlus(BasisOf(b.positions), Gaps(t, b), LotValues(t.lots));
    forall s | s in t.lots
      ensures Gaps(t, b)[s] >= 0.0 && (Gaps(t, b)[s] == 0.0 <==> t.lots[s].avg == b.positions[s].avg)
    {
      GapSign(t.lots[s].qty, t.lots[s].avg - b.positions[s].avg);
    }
    SumNonneg(Gaps(t, b));
  }

  ghost predicate SamePhases(cash: real, fills: seq<Fill>, t: Tally, b: Book) {
    forall s :: s in b.positions ==>
      s in t.lots && (t.lots[s].avg == b.positions[s].avg <==> ScanOf(fills, s).phase != Diverged)
  }

  lemma FoldsCompared(cash: real, fills: seq<Fill>)
    requires Replay(cash, fills).Ok? && GoodFills(fills)
    ensures NeverBelow(AnalyticsFold(cash, fills), Replay(cash, fills).value)
    ensures SamePhases(cash, fills, AnalyticsFold(cash, fills), Replay(cash, fills).value)
  {
    var t, b := AnalyticsFold(cash, fills), Replay(cash, fills).value;
    AcceptedNeverRaises(cash, fills);
    forall s | s in b.positions
      ensures s in t.lots && t.lots[s].qty == b.positions[s].qty > 0.0 && t.lots[s].avg >= b.positions[s].avg
      ensures t.lots[s].avg == b.positions[s].avg <==> ScanOf(fills, s).phase != Diverged
    {
      AnalyticsRelated(cash, fills, s);
      AnalyticsExact(cash, fills, s);
    }
  }

  /** On every accepted log of positive fills, analytics equity is at least initial cash + realized - open
      fees + lost fees, and equal to it exactly when no open symbol was bought again after a partial sale. */
  lemma AnalyticsEquityExact(cash: real, fills: seq<Fill>)
    requires Replay(cash, fills).Ok? && GoodFills(fills)
    ensures var b := Replay(cash, fills).value;
            var books := cash + b.realized - OpenFees(b) + Dropped(cash, fills);
            Current(cash, fills) >= books
            && (Current(cash, fills) == books
                <==> forall s :: s in b.positions ==> ScanOf(fills, s).phase != Diverged)
  {
    FoldsCompared(cash, fills);
    EquityGap(AnalyticsFold(cash, fills), Replay(cash, fills).value);
    Conservation(cash, fills);
  }

  // ----- the logs the loop writes -----

  lemma GoodLog(cash: real, fills: seq<Fill>, clock: int)
    requires Healthy(cash, fills, clock)
    ensures GoodFills(fills) && FillFeesNonneg(fills)
  {
    forall n | 0 <= n < |fills| ensures fills[n].qty > 0.0 && fills[n].price > 0.0 && fills[n].fee >= 0.0 {
      assert GoodFill(fills[n]);
    }
  }

  lemma HealthyFront(cash: real, fills: seq<Fill>, clock: int)
    requires Healthy(cash, fills, clock) && |fills| != 0
    ensures Healthy(cash, fills[..|fills| - 1], clock)
  {
    var front := fills[..|fills| - 1];
    forall n | 0 <= n < |front| ensures GoodFill(front[n]) && front[n].filledAt <= clock
                                     && (front[n].side == SELL ==> ClosesAt(cash, front, n))
    {
      assert front[n] == fills[n] && front[..n] == fills[..n];
      assert GoodFill(fills[n]);
      if fills[n].side == SELL { assert ClosesAt(cash, fills, n); }
    }
    StableSort.OrderedFront(fills, FilledAt);
  }

  /** The loop never leaves a position partly sold. */
  lemma {:induction false} NeverReduced(cash: real, fills: seq<Fill>, clock: int, s: string)
    requires Healthy(cash, fills, clock)
    ensures ScanOf(fills, s).phase in {Flat, Whole}
  {
    if |fills| != 0 {
      var front, f := fills[..|fills| - 1], fills[|fills| - 1];
      HealthyFront(cash, fills, clock);
      NeverReduced(cash, front, clock, s);
      if f.symbol == s && f.side == SELL {
        assert ClosesAt(cash, fills, |fills| - 1);
        GoodLog(cash, front, clock);
        AnalyticsRelated(cash, front, s);
      }
    }
  }

  function LotHoldings(lots: map<string, Lot>): map<string, Holding> {
    map s | s in lots :: Holding(lots[s].qty, lots[s].avg)
  }

  /** All three folds show one cash balance, the same open symbols, quantities and average prices, and
      equity is initial cash + realized - open fees. */
  ghost predicate ThreeWay(cash: real, fills: seq<Fill>) {
    && Replay(cash, fills).Ok?
    && var b, t := Replay(cash, fills).value, AnalyticsFold(cash, fills);
       && RuntimeFold(cash, fills) == Local(b.cash, HoldingsOf(b))
       && !t.raised && t.cash == b.cash && LotHoldings(t.lots) == HoldingsOf(b)
       && Current(cash, fills) == cash + b.realized - OpenFees(b)
  }

  lemma HealthyThreeWay(cash: real, fills: seq<Fill>, clock: int)
    requires Healthy(cash, fills, clock)
    ensures ThreeWay(cash, fills)
  {
    GoodLog(cash, fills, clock);
    RuntimeAgrees(cash, fills);
    AcceptedNeverRaises(cash, fills);
    FoldsCompared(cash, fills);
    var b, t := Replay(cash, fills).value, AnalyticsFold(cash, fills);
    forall s | s in b.positions ensures ScanOf(fills, s).phase != Diverged { NeverReduced(cash, fills, clock, s); }
    AnalyticsEquityExact(cash, fills);
    NothingDropped(cash, fills);
    assert LotHoldings(t.lots) == HoldingsOf(b);
  }

  /** After any runs from an empty log that sell nothing twice, raising anywhere, the runtime status fold and the
      analytics fold show what the replayed account shows. */
  lemma ReachableThreeWay(g: RunConfig, steps: seq<Step>, clock: int)
    requires g.cycle.Valid() && Clocked(steps) && NotAfter(steps, clock) && NoDoubleSale(g, steps, |steps|)
    ensures ThreeWay(g.initialCash, Chronological(FillsOf(After(g, [], steps))))
  {
    var fills := FillsOf(After(g, [], steps));
    ReplaySafeIff(g, steps, clock);
    HealthyBook(g.initialCash, fills, clock);
    HealthyThreeWay(g.initialCash, fills, clock);
  }
}
